/** The door-key button (components/KeyButton.tsx): shows loading, gets fresh tokens,
    asks the server for a door key and hands a non-empty key to its owner. */
module KeyButton {
  import opened Wrappers
  import opened Transport
  import opened SecureStore
  import opened Token

  /** How handleGetKey ended: it returns nothing and lets no error escape. */
  datatype KeyRun = KeyRun(items: Items, events: seq<Event>)

  /** The key setKey is called with, if any: the reply's `token` when the body and its token are truthy. */
  function KeyToSet(keyReply: KeyReply): Option<string>
  {
    if keyReply.KeyBody? && Truthy(keyReply.token) then keyReply.token else None
  }

  /** What follows fresh tokens: the key request, then setKey when the reply carries a key. */
  function KeyRequestEvents(accessToken: string, keyReply: KeyReply): seq<Event>
  {
    [Sent(GetDoorKey(accessToken))] + (if KeyToSet(keyReply).Some? then [KeySet(KeyToSet(keyReply))] else [])
  }

  /** handleGetKey, given what refresh, the fallback login and the key request answer. */
  function GetKeyRun(items: Items, refreshReply: AuthReply, loginReply: AuthReply, keyReply: KeyReply): KeyRun
  {
    var auth := GetAuthTokensRun(items, refreshReply, loginReply);
    var tail :=
      match auth.result
      case Err(_) => []
      case Ok(pair) => KeyRequestEvents(pair.accessToken, keyReply);
    KeyRun(auth.items, [LoadingSet(true)] + auth.events + tail)
  }

  /** What handleGetKey does. */
  lemma GetKeyRunEffects(items: Items, refreshReply: AuthReply, loginReply: AuthReply, keyReply: KeyReply)
    ensures var run := GetKeyRun(items, refreshReply, loginReply, keyReply);
      var auth := GetAuthTokensRun(items, refreshReply, loginReply);
      // the loading flag is set first, and never again
      && |run.events| >= 1 && run.events[0] == LoadingSet(true)
      && (forall i :: 1 <= i < |run.events| ==> !run.events[i].LoadingSet?)
      // the store changes only through getAuthTokens
      && run.items == auth.items
      // no tokens: no key request and no setKey, and nothing else happens
      && (auth.result.Err? ==> run.events == [LoadingSet(true)] + auth.events)
      // tokens: the key is requested with exactly the access token getAuthTokens returned
      && (auth.result.Ok? ==>
            run.events == [LoadingSet(true)] + auth.events + [Sent(GetDoorKey(auth.result.value.accessToken))]
                          + (if KeyToSet(keyReply).Some? then [KeySet(KeyToSet(keyReply))] else []))
      // setKey is called, with the reply's token, exactly when tokens came and that token is truthy
      && ((exists i :: 0 <= i < |run.events| && run.events[i].KeySet?) <==>
            auth.result.Ok? && keyReply.KeyBody? && Truthy(keyReply.token))
      // and never with null or an empty key
      && (forall i :: 0 <= i < |run.events| && run.events[i].KeySet? ==>
            Truthy(run.events[i].doorKey) && run.events[i].doorKey == keyReply.token)
  {
    var run := GetKeyRun(items, refreshReply, loginReply, keyReply);
    var auth := GetAuthTokensRun(items, refreshReply, loginReply);
    RefreshRunEffects(items, refreshReply, loginReply);
    if auth.result.Ok? && KeyToSet(keyReply).Some? {
      assert run.events[|run.events| - 1].KeySet?;
    }
  }

  /** The part of handleGetKey after getAuthTokens succeeded: getDoorKey, then setKey. */
  method RequestKey(d: Device, accessToken: string, keyReply: KeyReply)
    modifies d
    ensures d.items == old(d.items) && d.trace == old(d.trace) + KeyRequestEvents(accessToken, keyReply)
  {
    d.Send(GetDoorKey(accessToken));
    var key := KeyToSet(keyReply);
    if key.Some? {  // `response && response.token`
      d.SetKey(key);
    }
  }

  /** handleGetKey */
  method HandleGetKey(d: Device, refreshReply: AuthReply, loginReply: AuthReply, keyReply: KeyReply)
    modifies d
    ensures var run := GetKeyRun(old(d.items), refreshReply, loginReply, keyReply);
      d.items == run.items && d.trace == old(d.trace) + run.events
  {
    ghost var auth := GetAuthTokensRun(d.items, refreshReply, loginReply);
    d.SetLoadingStatus(true);
    var tokens := GetAuthTokens(d, refreshReply, loginReply);
    assert tokens == auth.result && d.items == auth.items;
    ghost var loaded := d.trace;
    assert loaded == old(d.trace) + ([LoadingSet(true)] + auth.events);
    if tokens.Err? {
      assert GetKeyRun(old(d.items), refreshReply, loginReply, keyReply) == KeyRun(auth.items, [LoadingSet(true)] + auth.events + []);
      return;  // the error is logged and swallowed
    }
    RequestKey(d, tokens.value.accessToken, keyReply);
    assert GetKeyRun(old(d.items), refreshReply, loginReply, keyReply)
      == KeyRun(auth.items, [LoadingSet(true)] + auth.events + KeyRequestEvents(tokens.value.accessToken, keyReply));
  }
}
