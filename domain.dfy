/** The records the two controllers read and write: com.crud.Account and com.crud.User. */
module Domain {

  /** Java's `Long`: a signed 64-bit integer, used for every identifier. */
  newtype Long = x: int | -0x8000_0000_0000_0000 <= x < 0x8000_0000_0000_0000

  /** Java's `Double` account balance. The controllers only copy it, so it stays uninterpreted. */
  type Balance(==, !new)

  datatype Option<+T> = None | Some(value: T)

  /** `Map.get`: the value stored under `k`, or `None` where Java returns null. */
  function Get<K, V>(m: map<K, V>, k: K): Option<V>
  {
    if k in m then Some(m[k]) else None
  }

  /** An account is keyed by its caller-supplied number. */
  datatype Account = Account(accountNumber: Long, accountBalance: Balance)

  /** A user is keyed by `userId`; the other fields are the ones the controller copies on update. */
  datatype User = User(
    userId: Long,
    firstName: string,
    lastName: string,
    email: string,
    phoneNumber: Long,
    addressLine1: string,
    addressLine2: string,
    account: Option<Account>)
}
