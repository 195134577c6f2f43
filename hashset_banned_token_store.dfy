/** The in-memory banned-token store: a set of revoked session tokens that only grows. */
module HashsetBannedTokenStore {
  import opened Wrappers
  import opened DataStores

  class HashsetBannedTokenStore {
    var bannedTokens: set<string>

    /** `HashsetBannedTokenStore::default()`: nothing banned. */
    constructor ()
      ensures bannedTokens == {}
    {
      bannedTokens := {};
    }

    /** `store_token`: never fails; adds `token` and removes nothing. */
    method StoreToken(token: string) returns (r: Result<(), BannedTokenStoreError>)
      modifies this
      ensures r == Ok(())
      ensures bannedTokens == old(bannedTokens) + {token}
      ensures old(bannedTokens) <= bannedTokens
    {
      bannedTokens := bannedTokens + {token};
      return Ok(());
    }

    /** `check_token`: never fails; reports whether `token` has been banned. */
    function CheckToken(token: string): (r: Result<bool, BannedTokenStoreError>)
      reads this
      ensures r.Ok?
      ensures r.value <==> token in bannedTokens
    {
      Ok(token in bannedTokens)
    }
  }

  /** A freshly made store reports every token as not banned. */
  method CheckOnDefault(token: string) returns (r: Result<bool, BannedTokenStoreError>)
    ensures r == Ok(false)
  {
    var store := new HashsetBannedTokenStore();
    r := store.CheckToken(token);
  }

  /** Once stored, a token is reported as banned, however many more tokens are stored after it. */
  method StoreThenCheck(store: HashsetBannedTokenStore, token: string, later: string) returns (r: Result<bool, BannedTokenStoreError>)
    modifies store
    ensures r == Ok(true)
    ensures store.bannedTokens == old(store.bannedTokens) + {token, later}
  {
    var _ := store.StoreToken(token);
    var _ := store.StoreToken(later);
    r := store.CheckToken(token);
  }

  /** Storing the same token twice leaves the same set as storing it once. */
  method StoreTwice(store: HashsetBannedTokenStore, token: string)
    modifies store
    ensures store.bannedTokens == old(store.bannedTokens) + {token}
  {
    var _ := store.StoreToken(token);
    ghost var once := store.bannedTokens;
    var _ := store.StoreToken(token);
    assert store.bannedTokens == once;
  }
}
