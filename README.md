# CRUD controllers for accounts and users, modelled in Dafny

This project models the two Spring REST controllers of a small CRUD service.
`AccountController` serves `/accounts` and `UserController` serves `/users`.
Each turns one HTTP verb into one call, or two, on a key-indexed repository:
- list all records;
- create a record (status 201);
- find one record, or answer not-found;
- "save or update" (an upsert: update if the id exists, else create);
- delete, which in this model is never an error (see "Left out").

`UserController` adds a partial update, `patch`, driven by a map from field name to string value.

## How it is modelled

- `Domain`: contains:
  - `Long`, a 64-bit signed identifier;
  - `Balance`, an uninterpreted balance that is only copied;
  - the `Account` and `User` records, which are values;
  - `Option`, and `Get`, which models Java's `Map.get`.
- `Persistence`: the repository is a class `Repository<V>` holding `store: map<Long, V>`.
  - It also holds a ghost log `calls` of the repository calls made, so a contract can say how many lookups and saves an operation performs. The tests state these counts with Mockito's `verify`.
  - `Save(v)` writes `v` under its own identifier and returns it.
  - `FindById` is a map lookup.
  - `DeleteById` removes the key, and does nothing for an absent key.
  - The invariant `Valid()` says that every record is stored under its own identifier.
- `Errors`: each controller operation returns a `Response`:
  - `Ok(body, status)` for a normal return;
  - `NotFound(id)` in place of the not-found exceptions;
  - `UnsupportedFieldPatch(keys)` in place of the exception `patch` throws.

  `AccountNotFoundMessage` is the text of `AccountNotFoundException`. It is built from `Decimal.ToDecimal`, a model of `Long.toString` that is proved to round-trip.
- `AccountApi` and `UserApi`: one class per controller, each holding its repository.
  - Each HTTP operation is a method with `modifies repository`.
  - Its postcondition gives the new store and the call log in terms of the old ones, for every branch.
  - The record setters the Java code calls on a fetched or incoming entity become successive updates of a record value.
- `Scenarios`: client methods that replay test scenarios, proved from the controllers' contracts alone:
  - the seeded account 123, and the not-found message for 7878;
  - a PUT that changes an account number;
  - delete-then-find, for a controller in any valid state;
  - the refused `salary` patch and the accepted `email` patch.

## Quirks the model keeps

The model follows the code as written:
- `patch` is commented "update email only", but it writes the `email` value into `firstName`.
- `patch` checks only that `email` is non-empty, so other keys sent beside a non-empty `email` are accepted and ignored.
- The account upsert, when the account exists, takes `accountNumber` from the body. The record is then saved under the body's number. With the repository modelled as a map, the entry under the path's number stays where it was.
- The user upsert keeps the stored user's `userId`. Because that id is the key the user was found under, both branches of `saveOrUpdate` save the body under the path's id.

## Model

| member | source | states |
|---|---|---|
| `Decimal.Digits` | src/main/java/com/crud/error/AccountNotFoundException.java:6 | the decimal digits of a natural number: non-empty, all digits, and a leading zero only in the single-digit numeral for zero |
| `Decimal.ValueOfDigits` | src/main/java/com/crud/error/AccountNotFoundException.java:6 | reading the digits back gives the number they render |
| `Decimal.ToDecimal` | src/main/java/com/crud/error/AccountNotFoundException.java:6 | `Long.toString`: a numeral that starts with a minus sign exactly for negative ids, has no leading zeros and denotes the id |
| `Decimal.ToDecimalInjective` | src/main/java/com/crud/error/AccountNotFoundException.java:6 | two ids render identically if and only if they are equal |
| `Errors.AccountNotFoundMessage` | src/main/java/com/crud/error/AccountNotFoundException.java:5-7 | the message is the prefix `"Account Number not found : "` followed by exactly the id's `Long.toString` text, a numeral denoting the id |
| `Errors.AccountNotFoundMessageInjective` | src/main/java/com/crud/error/AccountNotFoundException.java:6 | two ids get the same message if and only if they are equal |
| `Errors.AccountNotFoundMessage7878` | src/test/java/com/crud/AccountControllerRestTemplateTest.java:80 | the message for 7878 is `"Account Number not found : 7878"` |
| `Persistence.KeyedValuesCount` | src/main/java/com/crud/AccountController.java:29-32 | in a store where every record sits under its own id, there are as many distinct records as ids |
| `Persistence.Repository.constructor` | src/main/java/com/crud/AccountController.java:25-26 | a new repository is empty, has no calls logged and uses the given identifier function |
| `Persistence.Repository.FindAll` | src/main/java/com/crud/AccountController.java:31 | `findAll` yields exactly the stored records, one per id, and logs one findAll call |
| `Persistence.Repository.FindById` | src/main/java/com/crud/AccountController.java:45 | `findById(id)` yields the record under `id` if there is one, and its id is `id` |
| `Persistence.Repository.Save` | src/main/java/com/crud/AccountController.java:39 | `save(v)` stores `v` under its own id, replaces any earlier record there, returns `v` and keeps the invariant |
| `Persistence.Repository.DeleteById` | src/main/java/com/crud/AccountController.java:67 | `deleteById(id)` removes `id`, leaves every other entry as it was, and accepts an absent id |
| `AccountApi.AccountController.constructor` | src/main/java/com/crud/AccountController.java:24-26 | the controller's repository starts empty and keys accounts by `accountNumber` |
| `AccountApi.AccountController.FindAll` | src/main/java/com/crud/AccountController.java:29-32 | every stored account, one per number, with status 200; the store is unchanged |
| `AccountApi.AccountController.NewAccount` | src/main/java/com/crud/AccountController.java:35-40 | the body is saved unchanged under its number, overwriting any account there; the result is that body with status 201 |
| `AccountApi.AccountController.FindOne` | src/main/java/com/crud/AccountController.java:43-47 | the stored account with status 200 when the number is present, else `NotFound(id)`; the store is unchanged |
| `AccountApi.AccountController.SaveOrUpdate` | src/main/java/com/crud/AccountController.java:50-63 | existing id: the body's number and balance are saved under the body's number. Absent id: the body is saved with its number forced to the path id. Either way status 200, exactly one lookup then one save |
| `AccountApi.AccountController.DeleteAccount` | src/main/java/com/crud/AccountController.java:65-68 | the number is absent afterwards, other entries are unchanged, an absent number is not an error, status 200 |
| `UserApi.PatchGate` | src/main/java/com/crud/UserController.java:78-79 | the patch goes ahead if and only if an `email` entry is present and non-empty |
| `UserApi.PatchGateIgnoresOtherKeys` | src/main/java/com/crud/UserController.java:78-79 | adding or removing any key other than `email` never changes the gate's answer |
| `UserApi.UserController.constructor` | src/main/java/com/crud/UserController.java:25-27 | the controller's repository starts empty and keys users by `userId` |
| `UserApi.UserController.FindAll` | src/main/java/com/crud/UserController.java:30-33 | every stored user, one per id, with status 200; the store is unchanged |
| `UserApi.UserController.NewUser` | src/main/java/com/crud/UserController.java:36-41 | the body is saved unchanged under its id; the result is that body with status 201 |
| `UserApi.UserController.FindOne` | src/main/java/com/crud/UserController.java:44-48 | the stored user with status 200 when the id is present, else `NotFound(id)`; the store is unchanged |
| `UserApi.UserController.SaveOrUpdate` | src/main/java/com/crud/UserController.java:51-69 | existing id: the stored `userId` is kept and the seven other fields come from the body. Absent id: the body is saved with `userId` forced to the path id. Both save the body under the path id, status 200, one lookup then one save |
| `UserApi.UserController.Patch` | src/main/java/com/crud/UserController.java:72-93 | absent id: `NotFound`, nothing saved. Present id, gate fails: `UnsupportedFieldPatch(keys of the body)`, nothing saved. Gate passes: only `firstName` is replaced by the `email` value and that record is saved, status 200 |
| `UserApi.UserController.DeleteUser` | src/main/java/com/crud/UserController.java:95-98 | the id is absent afterwards, other entries are unchanged, an absent id is not an error, status 200 |

## Left out

- Spring wiring, HTTP routing, and JSON reading and writing. These are the mapping annotations, `@Autowired` and `@ResponseStatus`. Only the success status number (200 or 201) is kept in `Ok`.
- The exception-to-response mapping. It turns a not-found into 404 and a refused patch into 405. It is not part of this model, and neither are the message texts of the user exceptions, which appear only in tests.
- `UserNotFoundException`, `UserUnSupportedFieldPatchException`, `User`, `UserRepository` and `AccountRepository` are not part of this model.
  - `User` is rebuilt as a record of the fields the controller copies.
  - The repositories are rebuilt as a map.
- The persistence library's behaviour beyond a map. This covers JPA's reaction to an entity whose `@Id` was changed, and the `@ManyToOne(cascade = ALL)` back-reference `user` on `Account` (src/main/java/com/crud/Account.java:17-19). Accounts carry only a number and a balance, and no cascade saves are modelled. The model's `deleteById` does nothing for an absent id; Spring Data JPA 2.x implementations instead throw `EmptyResultDataAccessException` there, and that exception path is not modelled.
- Java `null`. The model covers neither a missing field in a request body nor a `null` value under `email` in a patch body. The source treats a null `email` like an empty one.
- The semantics of `Double` for `accountBalance`: it is only copied, so `Balance` is uninterpreted.
- Concurrency. The last-write-wins race between the lookup and the save in `saveOrUpdate` and `patch` is not modelled: each operation is one sequential step.
- The in-place mutation of the entity object that `findById` returned. Its setters become updates of a record value, and the store changes only through `Save`.
- `AccountApi.AccountController.FindAll`: returns the records as a set, not as the list `findAll` gives, so it says nothing about their order. The count of records is still stated.
- `UserApi.UserController.FindAll`: returns the records as a set, not as a list, so it says nothing about their order. The count of records is still stated.
