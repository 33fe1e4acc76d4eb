/** com.crud.UserController: the `/users` resource over a user repository. */
module UserApi {
  import opened Domain
  import opened Persistence
  import opened Errors

  /** Spring's `StringUtils.isEmpty` on a value `Map.get` returned: null or the empty string. */
  predicate IsEmpty(s: Option<string>) {
    s == None || s == Some("")
  }

  /**
   * The check `patch` applies to a request body: it goes ahead exactly when an `email` entry is
   * present and non-empty. Only that entry is looked at, so any other keys beside it are accepted.
   */
  function PatchGate(update: map<string, string>): (ok: bool)
    ensures ok <==> "email" in update && |update["email"]| > 0
  {
    !IsEmpty(Get(update, "email"))
  }

  /** Keys other than `email` never decide the patch gate. */
  lemma PatchGateIgnoresOtherKeys(update: map<string, string>, k: string, v: string)
    requires k != "email"
    ensures PatchGate(update[k := v]) == PatchGate(update)
    ensures PatchGate(update - {k}) == PatchGate(update)
  {
  }

  class UserController {
    const repository: Repository<User>

    /** The repository is consistent and keys users by `userId`. */
    ghost predicate Valid()
      reads this, repository
    {
      repository.Valid() && forall u: User :: repository.key(u) == u.userId
    }

    constructor ()
      ensures Valid() && fresh(repository)
      ensures repository.store == map[] && repository.calls == []
    {
      repository := new Repository((u: User) => u.userId);
    }

    /** GET /users: every stored user, status 200; the store is unchanged. */
    method FindAll() returns (r: Response<set<User>>)
      requires Valid()
      modifies repository
      ensures Valid() && repository.store == old(repository.store)
      ensures r == Ok(repository.store.Values, 200)
      ensures |r.body| == |repository.store|
      ensures repository.calls == old(repository.calls) + [FindAllCall]
    {
      var all := repository.FindAll();
      r := Ok(all, 200);
    }

    /** POST /users: saves the body as it is, overwriting any user with that id; status 201. */
    method NewUser(newUser: User) returns (r: Response<User>)
      requires Valid()
      modifies repository
      ensures Valid()
      ensures repository.store == old(repository.store)[newUser.userId := newUser]
      ensures r == Ok(newUser, 201)
      ensures repository.calls == old(repository.calls) + [SaveCall(newUser)]
    {
      var saved := repository.Save(newUser);
      r := Ok(saved, 201);
    }

    /** GET /users/{userId}: the stored user, or `NotFound`; the store is unchanged either way. */
    method FindOne(userId: Long) returns (r: Response<User>)
      requires Valid()
      modifies repository
      ensures Valid() && repository.store == old(repository.store)
      ensures userId in repository.store ==> r == Ok(repository.store[userId], 200)
      ensures userId !in repository.store ==> r == NotFound(userId)
      ensures repository.calls == old(repository.calls) + [FindByIdCall(userId)]
    {
      var found := repository.FindById(userId);
      match found {
        case Some(x) => r := Ok(x, 200);
        case None => r := NotFound(userId);
      }
    }

    /**
     * PUT /users/{userId}. An existing user keeps its own `userId` and takes the other seven fields
     * from the body; an absent one is created from the body with `userId` forced to the path's.
     * Since a stored user's id is its key, both paths save the body under the path's id.
     * Exactly one lookup and one save, status 200 on both paths.
     */
    method SaveOrUpdate(newUser: User, userId: Long) returns (r: Response<User>)
      requires Valid()
      modifies repository
      ensures Valid()
      ensures userId in old(repository.store) ==>
        var x := old(repository.store)[userId];
        r == Ok(newUser.(userId := x.userId), 200) && x.userId == userId
      ensures r == Ok(newUser.(userId := userId), 200)
      ensures repository.store == old(repository.store)[userId := newUser.(userId := userId)]
      ensures repository.calls == old(repository.calls) + [FindByIdCall(userId), SaveCall(r.body)]
    {
      var found := repository.FindById(userId);
      var saved: User;
      match found {
        case Some(x) =>
          x := x.(firstName := newUser.firstName);
          x := x.(lastName := newUser.lastName);
          x := x.(email := newUser.email);
          x := x.(phoneNumber := newUser.phoneNumber);
          x := x.(addressLine1 := newUser.addressLine1);
          x := x.(addressLine2 := newUser.addressLine2);
          x := x.(account := newUser.account);
          saved := repository.Save(x);
        case None =>
          var created := newUser.(userId := userId);
          saved := repository.Save(created);
      }
      r := Ok(saved, 200);
    }

    /**
     * PATCH /users/{userId}. An absent user is `NotFound` whatever the body holds. For a present
     * one, a non-empty `email` entry is written into `firstName` (not `email`) and the user saved;
     * otherwise the request is refused with the body's key set and nothing is saved.
     */
    method Patch(update: map<string, string>, userId: Long) returns (r: Response<User>)
      requires Valid()
      modifies repository
      ensures Valid()
      ensures userId !in old(repository.store) ==>
        && r == NotFound(userId)
        && repository.store == old(repository.store)
        && repository.calls == old(repository.calls) + [FindByIdCall(userId)]
      ensures userId in old(repository.store) && !PatchGate(update) ==>
        && r == UnsupportedFieldPatch(update.Keys)
        && repository.store == old(repository.store)
        && repository.calls == old(repository.calls) + [FindByIdCall(userId)]
      ensures userId in old(repository.store) && PatchGate(update) ==>
        var patched := old(repository.store)[userId].(firstName := update["email"]);
        && r == Ok(patched, 200)
        && repository.store == old(repository.store)[userId := patched]
        && repository.calls == old(repository.calls) + [FindByIdCall(userId), SaveCall(patched)]
    {
      var found := repository.FindById(userId);
      match found {
        case Some(x) =>
          var email := Get(update, "email");
          if !IsEmpty(email) {
            x := x.(firstName := email.value);
            var saved := repository.Save(x);
            r := Ok(saved, 200);
          } else {
            r := UnsupportedFieldPatch(update.Keys);
          }
        case None =>
          r := NotFound(userId);
      }
    }

    /** DELETE /users/{userId}: removes the user if there is one; never an error. */
    method DeleteUser(userId: Long) returns (r: Response<()>)
      requires Valid()
      modifies repository
      ensures Valid()
      ensures repository.store == old(repository.store) - {userId}
      ensures userId !in repository.store
      ensures forall k :: k in old(repository.store) && k != userId ==>
        k in repository.store && repository.store[k] == old(repository.store)[k]
      ensures r == Ok((), 200)
      ensures repository.calls == old(repository.calls) + [DeleteByIdCall(userId)]
    {
      repository.DeleteById(userId);
      r := Ok((), 200);
    }
  }
}
