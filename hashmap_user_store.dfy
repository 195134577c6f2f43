/**
 * The in-memory user store: users keyed by their email string, passwords kept
 * and compared as plain text.
 */
module HashMapUserStore {
  import opened Wrappers
  import opened DataStores

  /** A registered account. */
  datatype User = User(email: string, password: string, requires2fa: bool)

  class HashMapUserStore {
    var users: map<string, User>

    /** Every key is the email of the user stored under it. */
    ghost predicate Valid()
      reads this
    {
      forall e :: e in users ==> users[e].email == e
    }

    /** `HashMapUserStore::default()`: no users. */
    constructor ()
      ensures Valid() && users == map[]
    {
      users := map[];
    }

    /**
     * `add_user`: refuses an email that is already registered, leaving the map
     * as it was; otherwise stores the user under its email and nothing else changes.
     */
    method AddUser(user: User) returns (r: Result<(), UserStoreError>)
      requires Valid()
      modifies this
      ensures Valid()
      ensures user.email in old(users) ==> r == Err(UserStoreError.UserAlreadyExists) && users == old(users)
      ensures user.email !in old(users) ==> r == Ok(()) && users == old(users)[user.email := user]
      ensures user.email !in old(users) ==> |users| == |old(users)| + 1
    {
      if user.email in users {
        return Err(UserStoreError.UserAlreadyExists);
      }
      users := users[user.email := user];
      return Ok(());
    }

    /** `get_user`: the user stored under `email`, or `UserNotFound`. */
    function GetUser(email: string): (r: Result<User, UserStoreError>)
      reads this
      ensures r.Ok? <==> email in users
      ensures r.Ok? ==> r.value == users[email]
      ensures r.Err? ==> r.error == UserNotFound
    {
      if email in users then Ok(users[email]) else Err(UserNotFound)
    }

    /**
     * `validate_user`: an unknown email is `UserNotFound` (never
     * `InvalidCredentials`); a known one succeeds exactly when the stored
     * password equals `password`.
     */
    function ValidateUser(email: string, password: string): (r: Result<(), UserStoreError>)
      reads this
      ensures r == Err(UserNotFound) <==> email !in users
      ensures r == Ok(()) <==> email in users && users[email].password == password
      ensures r.Err? ==> r.error == UserNotFound || r.error == InvalidCredentials
    {
      if email in users then
        if users[email].password != password then Err(InvalidCredentials) else Ok(())
      else
        Err(UserNotFound)
    }
  }

  /** Adding an absent user succeeds and `get_user` then returns exactly that user. */
  method AddThenGet(store: HashMapUserStore, user: User) returns (added: Result<(), UserStoreError>, got: Result<User, UserStoreError>)
    requires store.Valid() && user.email !in store.users
    modifies store
    ensures store.Valid()
    ensures added == Ok(()) && got == Ok(user)
  {
    added := store.AddUser(user);
    got := store.GetUser(user.email);
  }

  /** A second add under the same email fails, whatever the new password, and keeps the first user. */
  method AddTwice(store: HashMapUserStore, first: User, second: User) returns (r1: Result<(), UserStoreError>, r2: Result<(), UserStoreError>)
    requires store.Valid() && first.email !in store.users && second.email == first.email
    modifies store
    ensures store.Valid()
    ensures r1 == Ok(()) && r2 == Err(UserStoreError.UserAlreadyExists)
    ensures store.users == old(store.users)[first.email := first]
    ensures store.GetUser(first.email) == Ok(first)
  {
    r1 := store.AddUser(first);
    r2 := store.AddUser(second);
  }

  /** After registration the stored password validates and every other password fails. */
  method AddThenValidate(store: HashMapUserStore, user: User, candidate: string) returns (r: Result<(), UserStoreError>)
    requires store.Valid() && user.email !in store.users
    modifies store
    ensures store.Valid()
    ensures r == Ok(()) <==> candidate == user.password
    ensures r.Err? ==> r.error == InvalidCredentials
  {
    var _ := store.AddUser(user);
    r := store.ValidateUser(user.email, candidate);
  }
}
