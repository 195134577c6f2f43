/**
 * The in-memory 2FA code store: at most one pending (login attempt id, code)
 * pair per email, the newest one.
 */
module HashMapTwoFACodeStore {
  import opened Wrappers
  import opened DataStores
  import opened Email

  class HashMapTwoFACodeStore {
    var codes: map<Email, (LoginAttemptId, TwoFACode)>

    /** `HashMapTwoFACodeStore::default()`: no pending challenge. */
    constructor ()
      ensures codes == map[]
    {
      codes := map[];
    }

    /** `add_code`: never fails; replaces whatever was pending for `email` and touches no other email. */
    method AddCode(email: Email, loginAttemptId: LoginAttemptId, code: TwoFACode) returns (r: Result<(), TwoFACodeStoreError>)
      modifies this
      ensures r == Ok(())
      ensures codes == old(codes)[email := (loginAttemptId, code)]
    {
      codes := codes[email := (loginAttemptId, code)];
      return Ok(());
    }

    /** `remove_code`: never fails, also when nothing is pending; other emails keep their entries. */
    method RemoveCode(email: Email) returns (r: Result<(), TwoFACodeStoreError>)
      modifies this
      ensures r == Ok(())
      ensures codes == old(codes) - {email}
    {
      codes := codes - {email};
      return Ok(());
    }

    /** `get_code`: the pending pair for `email`, or `LoginAttemptIdNotFound`. */
    function GetCode(email: Email): (r: Result<(LoginAttemptId, TwoFACode), TwoFACodeStoreError>)
      reads this
      ensures r.Ok? <==> email in codes
      ensures r.Ok? ==> r.value == codes[email]
      ensures r.Err? ==> r.error == LoginAttemptIdNotFound
    {
      if email in codes then Ok(codes[email]) else Err(LoginAttemptIdNotFound)
    }
  }

  /** What was added is what `get_code` returns. */
  method AddThenGet(store: HashMapTwoFACodeStore, email: Email, id: LoginAttemptId, code: TwoFACode)
    returns (added: Result<(), TwoFACodeStoreError>, got: Result<(LoginAttemptId, TwoFACode), TwoFACodeStoreError>)
    modifies store
    ensures added == Ok(()) && got == Ok((id, code))
  {
    added := store.AddCode(email, id, code);
    got := store.GetCode(email);
  }

  /** A second challenge for the same email replaces the first: only the newest pair is returned. */
  method AddTwiceKeepsNewest(store: HashMapTwoFACodeStore, email: Email, id1: LoginAttemptId, code1: TwoFACode, id2: LoginAttemptId, code2: TwoFACode)
    returns (got: Result<(LoginAttemptId, TwoFACode), TwoFACodeStoreError>)
    modifies store
    ensures got == Ok((id2, code2))
    ensures store.codes == old(store.codes)[email := (id2, code2)]
  {
    var _ := store.AddCode(email, id1, code1);
    var _ := store.AddCode(email, id2, code2);
    got := store.GetCode(email);
  }

  /** After `remove_code` nothing is pending for the email. */
  method RemoveThenGet(store: HashMapTwoFACodeStore, email: Email)
    returns (removed: Result<(), TwoFACodeStoreError>, got: Result<(LoginAttemptId, TwoFACode), TwoFACodeStoreError>)
    modifies store
    ensures removed == Ok(()) && got == Err(LoginAttemptIdNotFound)
  {
    removed := store.RemoveCode(email);
    got := store.GetCode(email);
  }
}
