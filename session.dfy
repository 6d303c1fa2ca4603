/** The start-up sign-in check (app/_layout.tsx) read on the store, and how the other operations
    change what it would read at the next start-up. */
module Session {
  import opened Wrappers
  import opened Transport
  import opened SecureStore
  import opened Token
  import opened ClearStorage
  import opened KeyButton

  /** `!!accessToken` at start-up: a missing or empty access token counts as signed out. */
  predicate SignedIn(items: Items)
  {
    Truthy(Get(items, AccessTokenKey))
  }

  /** A refresh leaves the stored credentials as they were, whatever it answers. */
  lemma RefreshKeepsCredentials(items: Items, refreshReply: AuthReply, loginReply: AuthReply)
    ensures CredentialsIn(RefreshRun(items, refreshReply, loginReply).items) == CredentialsIn(items)
  {
  }

  /** After a refresh the start-up check would find the user signed in exactly when a new,
      non-empty access token was stored; after a failed refresh it reads as before. */
  lemma RefreshSignedIn(items: Items, refreshReply: AuthReply, loginReply: AuthReply)
    ensures var run := RefreshRun(items, refreshReply, loginReply);
      && (run.result.Ok? ==> (SignedIn(run.items) <==> run.result.value.accessToken != ""))
      && (run.result.Err? ==> (SignedIn(run.items) <==> SignedIn(items)))
  {
  }

  /** After a successful clear the start-up check would find the user signed out, and every
      later refresh takes the "no refresh token" path: it fails at once, sends nothing and writes nothing. */
  lemma ClearThenRefresh(items: Items, failing: set<string>, refreshReply: AuthReply, loginReply: AuthReply)
    requires ClearSecureStoreRun(items, failing).ok
    ensures var cleared := ClearSecureStoreRun(items, failing).items;
      && !SignedIn(cleared)
      && RefreshRun(cleared, refreshReply, loginReply) == Run(Err(RefreshFailure), cleared, [])
  {
  }

  /** After a successful clear, pressing the key button only sets the loading flag. */
  lemma ClearThenGetKey(items: Items, failing: set<string>, refreshReply: AuthReply, loginReply: AuthReply, keyReply: KeyReply)
    requires ClearSecureStoreRun(items, failing).ok
    ensures var cleared := ClearSecureStoreRun(items, failing).items;
      GetKeyRun(cleared, refreshReply, loginReply, keyReply) == KeyRun(cleared, [LoadingSet(true)])
  {
    var cleared := ClearSecureStoreRun(items, failing).items;
    ClearThenRefresh(items, failing, refreshReply, loginReply);
    assert GetAuthTokensRun(cleared, refreshReply, loginReply).events == [];
  }
}
