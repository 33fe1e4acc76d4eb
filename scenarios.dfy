/**
 * Clients of the two controllers that replay the repository's test scenarios; each one is
 * proved from the controllers' contracts alone.
 */
module Scenarios {
  import opened Domain
  import opened Persistence
  import opened Errors
  import opened AccountApi
  import opened UserApi

  /** GET /accounts/123 finds the seeded account; GET /accounts/7878 is not found, with its message. */
  method FindAccountByNumber(balance: Balance) {
    var c := new AccountController();
    var _ := c.NewAccount(Account(123, balance));
    var found := c.FindOne(123);
    assert found == Ok(Account(123, balance), 200);
    var missing := c.FindOne(7878);
    assert missing == NotFound(7878);
    AccountNotFoundMessage7878();
    assert AccountNotFoundMessage(missing.id) == "Account Number not found : 7878";
  }

  /** PUT /accounts/123 with body number 999 saves under 999 and leaves the entry under 123 alone. */
  method UpdateChangesAccountNumber(before: Balance, after: Balance) {
    var c := new AccountController();
    var _ := c.NewAccount(Account(123, before));
    var callsBefore := c.repository.calls;
    var r := c.SaveOrUpdate(Account(999, after), 123);
    assert r == Ok(Account(999, after), 200);
    assert c.repository.calls == callsBefore + [FindByIdCall(123), SaveCall(Account(999, after))];
    var moved := c.FindOne(999);
    assert moved == Ok(Account(999, after), 200);
    var kept := c.FindOne(123);
    assert kept == Ok(Account(123, before), 200);
  }

  /** In any state, after a delete, finding the same id is not found, whether or not it was stored. */
  method DeleteThenFind(c: AccountController, id: Long)
    requires c.Valid()
    modifies c.repository
  {
    var _ := c.DeleteAccount(id);
    var _ := c.DeleteAccount(id);
    var r := c.FindOne(id);
    assert r == NotFound(id);
  }

  /** PATCH /users/1: a salary entry is refused unsaved; an email entry lands in `firstName`. */
  method PatchSeededUser(user: User)
    requires user.userId == 1
  {
    var c := new UserController();
    var _ := c.NewUser(user);
    var refused := c.Patch(map["salary" := "100000"], 1);
    assert refused == UnsupportedFieldPatch({"salary"});
    assert c.repository.store == map[1 := user];
    var patched := c.Patch(map["email" := "ronak.mehta@gmail.com"], 1);
    assert patched == Ok(user.(firstName := "ronak.mehta@gmail.com"), 200);
    assert patched.body.email == user.email;
    var missing := c.Patch(map["email" := "ronak.mehta@gmail.com"], 5);
    assert missing == NotFound(5);
  }
}
