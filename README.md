# parking-mobile: credential store, token refresh and screen handlers in Dafny

This project models the logic of the parking-mobile client: a React Native app that
signs a user up or in, keeps the session in the device's secure store, refreshes its
tokens (falling back to a password login), requests a door key, and picks a top-up amount.

The model has these parts:

- **The secure store and the outside world** (`secure_store.dfy`, `transport.dfy`). One
  `Device` object holds the store's key/value map `items`. It also holds an ordered `trace`
  of everything the code does to the outside:
  - store writes and deletes;
  - the requests it sends;
  - calls to the `setLoadingStatus`/`setKey` callbacks of its owner.

  What the server answers is an input: `AuthReply` is tokens or a failure with an optional
  HTTP status; `KeyReply` is a body with an optional `token`, or a failure.
  JavaScript's `!x` on a `string | null` becomes `Truthy`: `null` and `""` are both false.
- **Token refresh** (`token.dfy`, utils/token.ts). The methods `GetUserCredentials`,
  `UpdateTokens`, `RefreshTokens` and `GetAuthTokens` follow the source step by step.
  - `GetUserCredentials` returns the stored values of the two credential keys.
  - `UpdateTokens` is proved to leave the store described by `WithTokens` and to log the
    writes of `TokenWrites`.
  - `RefreshTokens` and `GetAuthTokens` are proved equal to a pure description of the whole
    run (`RefreshRun`, `GetAuthTokensRun`): its result, the store afterwards, and the events
    in order. The properties in the table below are proved about those descriptions.
- **Store clearing** (`clear_storage.dfy`, utils/clearStorage.ts). A `for` loop deletes the
  four keys. The set `failing` names the keys whose delete throws.
- **The sign-up / sign-in screen** (`login_sign_up.dfy`, app/index.tsx).
  - The two regular expressions are small matchers (a bounded repetition of a character
    class, and the `(?=.*[…])` lookahead). Each is proved equivalent to a plain predicate.
  - The screen is a class with a field for each piece of React state. Its handlers are proved
    against `SignUpRun` / `SignInRun`.
- **The top-up amount** (`add_balance.dfy`, components/AddBalanceConfig.tsx).
  - `amount` is a class field.
  - `parseInt(val, 10)` and `Number.prototype.toString` are modelled on strings.
  - The text the input field shows, fed back to `handleChange`, gives the same amount.
- **The door-key button** (`key_button.dfy`, components/KeyButton.tsx). It composes with the
  token model.
- `session.dfy` holds the layout's start-up check `!!accessToken` (app/_layout.tsx:35) as a
  predicate on the store. Its lemmas say what that check would read after a clear or a
  refresh, that is at the next start-up, and what the key button does after a clear.

## Model

| member | source | states |
|---|---|---|
| SecureStore.Get | parking/utils/token.ts:6-7 | defined by its body: `getItemAsync(key)`, the stored value or `null` (`None`) when the key is absent; also read at parking/utils/token.ts:24 |
| SecureStore.Device.SetItem | parking/utils/token.ts:16-17 | `setItemAsync`: the key maps to the value, nothing else in the store changes, one `Stored` event is logged |
| SecureStore.Device.DeleteItem | parking/utils/clearStorage.ts:11 | `deleteItemAsync`: on success the key is gone and a `Deleted` event is logged; a failing delete changes nothing |
| SecureStore.Device.SetLoadingStatus | parking/components/KeyButton.tsx:14 | the owner's loading setter is called once with the given flag; the store is untouched |
| SecureStore.Device.SetKey | parking/components/KeyButton.tsx:19 | the owner's key setter is called once with the given key; the store is untouched |
| Token.WithTokens | parking/utils/token.ts:12-18 | after updateTokens the store holds the new access and refresh token; every other key, the credentials included, keeps its value |
| Token.UpdateTokens | parking/utils/token.ts:12-18 | two writes, access token first, leaving the store as WithTokens describes |
| Token.GetUserCredentials | parking/utils/token.ts:5-9 | returns the stored `userName` and `rawPassword`, each possibly missing |
| Token.CallsMade | parking/utils/token.ts:24-50 | defined by its body: the requests refreshTokens sends, in order; its properties are stated by Token.RefreshRun and Token.RefreshRunEffects |
| Token.RefreshRun | parking/utils/token.ts:21-64 | without a truthy refresh token the refresh fails at once: no request, no write. It succeeds iff the refresh answers with tokens, or it is rejected with 401, both credentials are truthy and the login answers with tokens. Success returns the pair that reply carries and stores it. Every failure is the one error "Could not refresh tokens." and leaves the store unchanged. The events are the requests, then the two writes only on success |
| Token.RefreshRunEffects | parking/utils/token.ts:24-58 | the refresh request comes first; on the 401 fallback exactly one login with the stored credentials follows as the second event, and otherwise no login is sent; the only writes are to `accessToken` and `refreshToken`, with no delete and no other effect |
| Token.RefreshTokens | parking/utils/token.ts:21-64 | the imperative refresh returns RefreshRun's result, leaves its store and appends its events to the trace |
| Token.GetAuthTokensRun | parking/utils/token.ts:67-76 | getAuthTokens always runs a refresh: same store and events; success returns the refreshed pair, which came from a reply and never from the store; any failure becomes "Could not retrieve updated tokens." |
| Token.GetAuthTokens | parking/utils/token.ts:67-76 | the imperative getAuthTokens matches GetAuthTokensRun in result, store and trace |
| ClearStorage.DeleteAll | parking/utils/clearStorage.ts:10-17 | defined by its body: the delete loop over a list of keys, stopping at the first failing delete; its properties are stated by ClearStorage.DeleteAllDeletesPrefix |
| ClearStorage.DeleteAllDeletesPrefix | parking/utils/clearStorage.ts:9-18 | for any key list: success iff no key fails; the deletions are a prefix of the list, in order; success covers the whole list, failure stops at the first failing key; the store loses exactly the keys of that prefix |
| ClearStorage.ClearSecureStoreRun | parking/utils/clearStorage.ts:6-19 | success iff none of the four deletes fails, and then none of the four keys remains; other keys keep their values; keys are deleted in the listed order, each deleted key's delete succeeded, and a failure stops the loop at the failing key; keys from the failing one on are left as they were |
| ClearStorage.DeleteAllIdempotent | parking/utils/clearStorage.ts:10-12 | deleting the same keys a second time leaves the same store as deleting them once |
| ClearStorage.ClearSecureStore | parking/utils/clearStorage.ts:6-19 | the loop returns ClearSecureStoreRun's flag, leaves its store and logs its deletions |
| LoginSignUp.MatchesRepeat | parking/app/index.tsx:17-18 | `^[cls]{lo,hi}$` holds iff the length is within the bounds and every character is in the class |
| LoginSignUp.LookaheadFinds | parking/app/index.tsx:18 | `(?=.*[cls])` holds iff a character of the class comes before the first line terminator |
| LoginSignUp.TestUserName | parking/app/index.tsx:17 | a username passes iff it is non-empty and made only of ASCII letters, digits and `_` |
| LoginSignUp.TestPassword | parking/app/index.tsx:18 | a password passes iff it has 6 to 35 characters, all ASCII letters or digits, with at least one letter and at least one digit |
| LoginSignUp.WithSession | parking/app/index.tsx:51-54 | after a successful register or login the store holds the typed user name and password and the reply's two tokens; every other key keeps its value |
| LoginSignUp.SignUpRun | parking/app/index.tsx:30-62 | at most one message is shown. An invalid username gives only its message, with no request and no write, and the password is not checked. A valid username with an invalid password gives only the password message, with no request and no write. Otherwise one register request is sent, and the session is stored iff it answers with tokens. A failure shows the "taken" message for 409 and the generic one otherwise, and writes nothing |
| LoginSignUp.SignInRun | parking/app/index.tsx:64-84 | there is no format check and one login request is sent with the typed text. The session is stored iff it answers with tokens. A 400 sets only the username message, a 401 only the password message, anything else only the generic message. At most one message is shown |
| LoginSignUp.LoginSignUpScreen.constructor | parking/app/index.tsx:21-28 | the screen starts with no choice, empty inputs and no messages |
| LoginSignUp.LoginSignUpScreen.ChooseSignUp | parking/app/index.tsx:89 | the "Sign Up" button selects the sign-up form and changes nothing else |
| LoginSignUp.LoginSignUpScreen.ChooseSignIn | parking/app/index.tsx:90 | the "Sign In" button selects the sign-in form and changes nothing else |
| LoginSignUp.LoginSignUpScreen.EditUserName | parking/app/index.tsx:105 | typing sets the user name and nothing else |
| LoginSignUp.LoginSignUpScreen.EditPassword | parking/app/index.tsx:119 | typing sets the password and nothing else |
| LoginSignUp.LoginSignUpScreen.HandleSignUp | parking/app/index.tsx:30-62 | the handler shows SignUpRun's messages, leaves its store and appends its events |
| LoginSignUp.LoginSignUpScreen.HandleSignIn | parking/app/index.tsx:64-84 | the handler shows SignInRun's messages, leaves its store and appends its events |
| LoginSignUp.LoginSignUpScreen.Confirm | parking/app/index.tsx:128-131 | "Confirm" runs the sign-up handler on the sign-up form and the sign-in handler on the sign-in form |
| AddBalance.TrimStartRemovesWhiteSpace | parking/components/AddBalanceConfig.tsx:27 | everything `parseInt` skips before the sign is white space |
| AddBalance.TrimStart | parking/components/AddBalanceConfig.tsx:27 | `parseInt`'s white-space skip: the result is a suffix of the text, it starts with no white space, and a text that starts with none is returned whole |
| AddBalance.DigitPrefix | parking/components/AddBalanceConfig.tsx:27 | `parseInt`'s digit scan: the longest prefix made only of digits, the whole text when it is all digits |
| AddBalance.ParseInt | parking/components/AddBalanceConfig.tsx:27 | defined by its body: leading white space (AddBalance.TrimStart), an optional sign, the longest run of digits (AddBalance.DigitPrefix), NaN without digits; its properties are stated by AddBalance.ParseIntOfDigits, AddBalance.ParseIntWithoutDigits and AddBalance.ParseIntToString |
| AddBalance.ParseIntOfDigits | parking/components/AddBalanceConfig.tsx:27 | `parseInt` of a non-empty string of digits is its decimal value |
| AddBalance.ParseIntWithoutDigits | parking/components/AddBalanceConfig.tsx:27-28 | `parseInt` of a string without digits, the empty one included, is NaN |
| AddBalance.Decimal | parking/components/AddBalanceConfig.tsx:50 | the decimal text of a natural number is a non-empty run of digits, without leading zeros, whose value is that number |
| AddBalance.IntToString | parking/components/AddBalanceConfig.tsx:50 | defined by its body: `amount.toString()`, a minus sign then Decimal for a negative amount; parsed back by AddBalance.ParseIntToString |
| AddBalance.DisplayedText | parking/components/AddBalanceConfig.tsx:50 | defined by its body: `""` for 0, else the decimal text; fed back by AddBalance.DisplayRoundTrip |
| AddBalance.ParseIntToString | parking/components/AddBalanceConfig.tsx:25-50 | `parseInt(n.toString(), 10) == n` for every integer, negative ones included |
| AddBalance.Incremented | parking/components/AddBalanceConfig.tsx:17-19 | "+" adds exactly 10000 and keeps a valid amount valid |
| AddBalance.Decremented | parking/components/AddBalanceConfig.tsx:21-23 | "-" gives `max(10000, prev - 10000)`, so never less than 10000 |
| AddBalance.ChangedAmount | parking/components/AddBalanceConfig.tsx:25-34 | typed text that parses to at least 10000 sets that value; the empty text sets 0; anything else leaves the amount; the result is 0 or at least 10000 whenever the previous one was |
| AddBalance.DisplayRoundTrip | parking/components/AddBalanceConfig.tsx:25-34 | feeding the field's displayed text (`""` for 0, else the decimal string) back into handleChange leaves the amount unchanged, for every integer amount |
| AddBalance.AddBalanceConfig.constructor | parking/components/AddBalanceConfig.tsx:15 | the amount starts at 10000 |
| AddBalance.AddBalanceConfig.HandleIncrement | parking/components/AddBalanceConfig.tsx:17-19 | the amount becomes Incremented of the old one; `amount == 0 \|\| amount >= 10000` is kept |
| AddBalance.AddBalanceConfig.HandleDecrement | parking/components/AddBalanceConfig.tsx:21-23 | the amount becomes Decremented of the old one, which is always valid |
| AddBalance.AddBalanceConfig.HandleChange | parking/components/AddBalanceConfig.tsx:25-34 | the amount becomes ChangedAmount of the old one and the text; validity is kept |
| AddBalance.AddBalanceConfig.Text | parking/components/AddBalanceConfig.tsx:50 | defined by its body: the input field shows DisplayedText of the current amount |
| AddBalance.AddBalanceConfig.HandleConfirm | parking/components/AddBalanceConfig.tsx:36-42 | `onConfirm` is called iff the amount is at least 10000, and then with exactly that amount |
| KeyButton.KeyToSet | parking/components/KeyButton.tsx:18-19 | defined by its body: the key passed to setKey, present only for a body whose `token` is truthy; its use is stated by KeyButton.GetKeyRunEffects |
| KeyButton.GetKeyRun | parking/components/KeyButton.tsx:13-24 | defined by its body: handleGetKey's store and events; its properties are stated by KeyButton.GetKeyRunEffects |
| KeyButton.GetKeyRunEffects | parking/components/KeyButton.tsx:13-24 | the loading flag is set first and never again. The store changes only through getAuthTokens. If that fails, nothing else happens. Otherwise the door key is requested with exactly the returned access token. The key setter is called iff tokens came back and the reply's `token` is truthy, and then only with that token, never with null or "" |
| KeyButton.RequestKey | parking/components/KeyButton.tsx:17-20 | one door-key request, then the key setter only for a truthy reply token; the store is untouched |
| KeyButton.HandleGetKey | parking/components/KeyButton.tsx:13-24 | the handler leaves GetKeyRun's store and appends its events; no error escapes |
| Session.SignedIn | parking/app/_layout.tsx:34-35 | defined by its body: `!!accessToken`, so a missing or empty access token is signed out; used by Session.RefreshSignedIn and Session.ClearThenRefresh |
| Session.RefreshKeepsCredentials | parking/utils/token.ts:12-18 | a refresh never changes the stored user name or password, whatever the server answers |
| Session.RefreshSignedIn | parking/app/_layout.tsx:35 | after a successful refresh the store reads as signed in (`!!accessToken`, as at the next start-up) iff the new access token is non-empty; after a failed refresh it reads as it did before |
| Session.ClearThenRefresh | parking/utils/clearStorage.ts:7-14 | after a successful clear the store reads as signed out (`!!accessToken` is false, as at the next start-up), and a refresh takes the missing-refresh-token path: it fails with no request and no write |
| Session.ClearThenGetKey | parking/components/KeyButton.tsx:14-16 | after a successful clear, pressing the key button only sets the loading flag |

## Left out

- utils/api.ts is not part of this model: the axios calls, URLs, headers and the global
  `Authorization` default. Each request is one `Sent` event, and its answer is an input.
- Async interleaving. Each awaited call is one atomic step. Two refreshes started
  concurrently are not modelled; the code does nothing to serialise them, and it has no
  logout call.
- Store failures other than `deleteItemAsync`'s. `getItemAsync` and `setItemAsync` always
  succeed here. So the model has no half-done `updateTokens` (one write done, the other
  thrown), and no sign-up or sign-in that throws in its writes after the server accepted.
- Replies whose `token`/`refresh_token` are not strings (a missing field, `undefined`). The
  reply is either two strings or a failure.
- `console.*` logging, the door key's countdown, and rendering: styles, the presentational
  components, and app/_layout.tsx apart from its `!!accessToken` check.
- The signed-in state of the running app. app/_layout.tsx:32-40 computes `isSignedIn` once, when
  the root layout mounts, and none of the modelled code changes it. The model states only what
  that check would read from the store (`SignedIn`), not the flag after a clear or a refresh.
- app/(tabs)/index.tsx is not part of this model. It is a second sign-up / sign-in screen with
  handlers that differ from app/index.tsx: its sign-up stores only the two credentials, its
  sign-in stores the reply's `access_token` field, both set an `isSignedIn` flag, and a
  hardware back press resets the choice to "none".
- The BackHandler and focus-effect imports of app/index.tsx, which its handlers do not use.
- AddBalance.ParseInt: models `parseInt(val, 10)` on mathematical integers. JavaScript
  Number precision (digit strings beyond 2^53) and `toString`'s exponent form for very large
  amounts are not captured.
- AddBalance.AddBalanceConfig.HandleConfirm: `Number.isInteger(amount)` is always true in
  the model, since `amount` is an `int`.
