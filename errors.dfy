/**
 * What a controller operation answers. The exceptions the Java controllers throw become the
 * error constructors; a normal return carries its HTTP status (200, or 201 for the create operations).
 */
module Errors {
  import opened Domain
  import opened Decimal

  datatype Response<T> =
    | Ok(body: T, status: int)
    | NotFound(id: Long)
    | UnsupportedFieldPatch(keys: set<string>)

  const AccountNotFoundPrefix: string := "Account Number not found : "

  /** The message of `AccountNotFoundException(id)`: the fixed prefix and the decimal id. */
  function AccountNotFoundMessage(id: Long): (msg: string)
    ensures |msg| > |AccountNotFoundPrefix|
    ensures msg[..|AccountNotFoundPrefix|] == AccountNotFoundPrefix
    ensures IsNumeral(msg[|AccountNotFoundPrefix|..])
    ensures NumeralValue(msg[|AccountNotFoundPrefix|..]) == id as int
    ensures msg[|AccountNotFoundPrefix|..] == ToDecimal(id)
  {
    var d := ToDecimal(id);
    assert (AccountNotFoundPrefix + d)[|AccountNotFoundPrefix|..] == d;
    AccountNotFoundPrefix + d
  }

  /** The message names the id unambiguously: two ids share a message only if they are equal. */
  lemma AccountNotFoundMessageInjective(a: Long, b: Long)
    ensures AccountNotFoundMessage(a) == AccountNotFoundMessage(b) <==> a == b
  {
  }

  /** The message a request for account 7878 gets when no such account is stored. */
  lemma AccountNotFoundMessage7878()
    ensures AccountNotFoundMessage(7878) == "Account Number not found : 7878"
  {
  }
}
