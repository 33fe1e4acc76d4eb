/** com.crud.AccountController: the `/accounts` resource over an account repository. */
module AccountApi {
  import opened Domain
  import opened Persistence
  import opened Errors

  class AccountController {
    const repository: Repository<Account>

    /** The repository is consistent and keys accounts by `accountNumber`. */
    ghost predicate Valid()
      reads this, repository
    {
      repository.Valid() && forall a: Account :: repository.key(a) == a.accountNumber
    }

    constructor ()
      ensures Valid() && fresh(repository)
      ensures repository.store == map[] && repository.calls == []
    {
      repository := new Repository((a: Account) => a.accountNumber);
    }

    /** GET /accounts: every stored account, status 200; the store is unchanged. */
    method FindAll() returns (r: Response<set<Account>>)
      requires Valid()
      modifies repository
      ensures Valid() && repository.store == old(repository.store)
      ensures r == Ok(repository.store.Values, 200)
      ensures |r.body| == |repository.store|
      ensures repository.calls == old(repository.calls) + [FindAllCall]
    {
      var all := repository.FindAll();
      r := Ok(all, 200);
    }

    /** POST /accounts: saves the body as it is, overwriting any account with that number; status 201. */
    method NewAccount(newAccount: Account) returns (r: Response<Account>)
      requires Valid()
      modifies repository
      ensures Valid()
      ensures repository.store == old(repository.store)[newAccount.accountNumber := newAccount]
      ensures r == Ok(newAccount, 201)
      ensures repository.calls == old(repository.calls) + [SaveCall(newAccount)]
    {
      var saved := repository.Save(newAccount);
      r := Ok(saved, 201);
    }

    /** GET /accounts/{accountNumber}: the stored account, or `NotFound`; the store is unchanged either way. */
    method FindOne(accountNumber: Long) returns (r: Response<Account>)
      requires Valid()
      modifies repository
      ensures Valid() && repository.store == old(repository.store)
      ensures accountNumber in repository.store ==> r == Ok(repository.store[accountNumber], 200)
      ensures accountNumber !in repository.store ==> r == NotFound(accountNumber)
      ensures repository.calls == old(repository.calls) + [FindByIdCall(accountNumber)]
    {
      var found := repository.FindById(accountNumber);
      match found
      case Some(x) => r := Ok(x, 200);
      case None => r := NotFound(accountNumber);
    }

    /**
     * PUT /accounts/{accountNumber}. An existing account takes both its number and its balance from
     * the body, so it is saved under the body's number, which need not be the path's (the entry under
     * the path's number is left in place). An absent one is created from the body with its number
     * forced to the path's. Exactly one lookup and one save, status 200 on both paths.
     */
    method SaveOrUpdate(newAccount: Account, accountNumber: Long) returns (r: Response<Account>)
      requires Valid()
      modifies repository
      ensures Valid()
      ensures accountNumber in old(repository.store) ==>
        && r == Ok(newAccount, 200)
        && repository.store == old(repository.store)[newAccount.accountNumber := newAccount]
      ensures accountNumber !in old(repository.store) ==>
        && r == Ok(newAccount.(accountNumber := accountNumber), 200)
        && repository.store == old(repository.store)[accountNumber := newAccount.(accountNumber := accountNumber)]
        && r.body.accountNumber == accountNumber
      ensures r.Ok? && r.body.accountBalance == newAccount.accountBalance
      ensures repository.calls == old(repository.calls) + [FindByIdCall(accountNumber), SaveCall(r.body)]
    {
      var found := repository.FindById(accountNumber);
      var saved: Account;
      match found {
        case Some(x) =>
          x := x.(accountNumber := newAccount.accountNumber);
          x := x.(accountBalance := newAccount.accountBalance);
          saved := repository.Save(x);
        case None =>
          var created := newAccount.(accountNumber := accountNumber);
          saved := repository.Save(created);
      }
      r := Ok(saved, 200);
    }

    /** DELETE /accounts/{accountNumber}: removes the account if there is one; never an error. */
    method DeleteAccount(accountNumber: Long) returns (r: Response<()>)
      requires Valid()
      modifies repository
      ensures Valid()
      ensures repository.store == old(repository.store) - {accountNumber}
      ensures accountNumber !in repository.store
      ensures forall k :: k in old(repository.store) && k != accountNumber ==>
        k in repository.store && repository.store[k] == old(repository.store)[k]
      ensures r == Ok((), 200)
      ensures repository.calls == old(repository.calls) + [DeleteByIdCall(accountNumber)]
    {
      repository.DeleteById(accountNumber);
      r := Ok((), 200);
    }
  }
}
