/** The sign-up / sign-in screen (app/index.tsx): two input validators, and two handlers
    that call the server and then either store the session or show one error message. */
module LoginSignUp {
  import opened Wrappers
  import opened Chars
  import opened Transport
  import opened SecureStore

  // ---------------------------------------------------------------------------
  // USERNAME_REGEX = /^[A-Za-z0-9_]+$/ and PASSWORD_REGEX = /^(?=.*[A-Za-z])(?=.*\d)[A-Za-z\d]{6,35}$/

  datatype CharClass = WordClass | AlnumClass | LetterClass | DigitClass

  predicate InClass(c: char, cls: CharClass)
  {
    match cls
    case WordClass => IsWordChar(c)
    case AlnumClass => IsAlnum(c)
    case LetterClass => IsLetter(c)
    case DigitClass => IsDigit(c)
  }

  /** `^[cls]{lo,hi}$`, with `hi == None` for no upper bound (`+` is `{1,}`), matched one
      character at a time. */
  function MatchesRepeat(s: string, cls: CharClass, lo: nat, hi: Option<nat>): (m: bool)
    ensures m <==>
      && lo <= |s|
      && (hi.None? || |s| <= hi.value)
      && forall i :: 0 <= i < |s| ==> InClass(s[i], cls)
  {
    if s == [] then lo == 0
    else
      && InClass(s[0], cls)
      && hi != Some(0)
      && MatchesRepeat(s[1..], cls, if lo == 0 then 0 else lo - 1, if hi.Some? then Some(hi.value - 1) else None)
  }

  /** The lookahead `(?=.*[cls])` at the start of `s`: `.` matches anything but a line
      terminator, so some character of the class comes before the first line terminator. */
  function LookaheadFinds(s: string, cls: CharClass): (m: bool)
    ensures m <==> exists i :: 0 <= i < |s| && InClass(s[i], cls) && forall j :: 0 <= j < i ==> !IsLineTerminator(s[j])
  {
    if s == [] then false
    else if InClass(s[0], cls) then true
    else if IsLineTerminator(s[0]) then false
    else
      var m := LookaheadFinds(s[1..], cls);
      assert m ==> exists i :: 0 <= i < |s| && InClass(s[i], cls) && forall j :: 0 <= j < i ==> !IsLineTerminator(s[j]) by {
        if m {
          var i :| 0 <= i < |s[1..]| && InClass(s[1..][i], cls) && forall j :: 0 <= j < i ==> !IsLineTerminator(s[1..][j]);
          assert forall j :: 0 <= j < i + 1 ==> !IsLineTerminator(s[j]) by {
            forall j | 0 <= j < i + 1 ensures !IsLineTerminator(s[j]) {
              if j > 0 { assert s[j] == s[1..][j - 1]; }
            }
          }
        }
      }
      m
  }

  /** What a username must be: at least one character, each a letter, a digit or `_`. */
  predicate ValidUserName(s: string)
  {
    |s| >= 1 && forall i :: 0 <= i < |s| ==> IsWordChar(s[i])
  }

  /** What a password must be: 6 to 35 ASCII letters and digits, at least one of each. */
  predicate ValidPassword(s: string)
  {
    && 6 <= |s| <= 35
    && (forall i :: 0 <= i < |s| ==> IsAlnum(s[i]))
    && (exists i :: 0 <= i < |s| && IsLetter(s[i]))
    && (exists i :: 0 <= i < |s| && IsDigit(s[i]))
  }

  /** `USERNAME_REGEX.test(s)` */
  function TestUserName(s: string): (ok: bool)
    ensures ok <==> ValidUserName(s)
  {
    MatchesRepeat(s, WordClass, 1, None)
  }

  /** `PASSWORD_REGEX.test(s)` */
  function TestPassword(s: string): (ok: bool)
    ensures ok <==> ValidPassword(s)
  {
    var ok := LookaheadFinds(s, LetterClass) && LookaheadFinds(s, DigitClass) && MatchesRepeat(s, AlnumClass, 6, Some(35));
    assert ValidPassword(s) ==> ok by {
      if ValidPassword(s) {
        var i :| 0 <= i < |s| && IsLetter(s[i]);
        var k :| 0 <= k < |s| && IsDigit(s[k]);
        assert InClass(s[i], LetterClass) && forall j :: 0 <= j < i ==> !IsLineTerminator(s[j]);
        assert InClass(s[k], DigitClass) && forall j :: 0 <= j < k ==> !IsLineTerminator(s[j]);
      }
    }
    ok
  }

  // ---------------------------------------------------------------------------
  // The handlers

  const UserNameFormatError: string := "Username can only contain letters, numbers, or underscores."
  const PasswordFormatError: string := "Password must be 6-35 characters long and include both letters and numbers."
  const UserNameTakenError: string := "This username has been taken. Please choose another."
  const SignUpFailedError: string := "An error occurred while signing up. Please try again."
  const NoSuchUserError: string := "No user found with this username."
  const WrongPasswordError: string := "Incorrect password. Please try again."
  const SignInFailedError: string := "An error occurred while signing in. Please try again."

  /** The three error-message states of the screen; "" is no message. */
  datatype Errors = Errors(usernameError: string, passwordError: string, apiError: string)

  const NoErrors: Errors := Errors("", "", "")

  /** At most one of the three messages is shown. */
  predicate AtMostOneError(e: Errors)
  {
    (if e.usernameError != "" then 1 else 0)
    + (if e.passwordError != "" then 1 else 0)
    + (if e.apiError != "" then 1 else 0) <= 1
  }

  /** How a handler ended: the messages shown, the store afterwards, and its effects. */
  datatype FormRun = FormRun(errors: Errors, items: Items, events: seq<Event>)

  /** The store after a successful register or login: the typed credentials and the reply's
      tokens are stored, every other key keeps its value. */
  function WithSession(items: Items, userName: string, rawPassword: string, reply: AuthReply): (r: Items)
    requires reply.Tokens?
    ensures r.Keys == items.Keys + {UserNameKey, RawPasswordKey, AccessTokenKey, RefreshTokenKey}
    ensures Get(r, UserNameKey) == Some(userName) && Get(r, RawPasswordKey) == Some(rawPassword)
    ensures Get(r, AccessTokenKey) == Some(reply.token) && Get(r, RefreshTokenKey) == Some(reply.refreshToken)
    ensures forall k :: k !in {UserNameKey, RawPasswordKey, AccessTokenKey, RefreshTokenKey} ==> Get(r, k) == Get(items, k)
  {
    items[UserNameKey := userName][RawPasswordKey := rawPassword][AccessTokenKey := reply.token][RefreshTokenKey := reply.refreshToken]
  }

  /** The four writes, in order. */
  function SessionWrites(userName: string, rawPassword: string, reply: AuthReply): seq<Event>
    requires reply.Tokens?
  {
    [ Stored(UserNameKey, userName), Stored(RawPasswordKey, rawPassword),
      Stored(AccessTokenKey, reply.token), Stored(RefreshTokenKey, reply.refreshToken) ]
  }

  /** handleSignUp on the typed `userName` and `rawPassword`, given what register answers. */
  function SignUpRun(userName: string, rawPassword: string, items: Items, reply: AuthReply): (run: FormRun)
    ensures AtMostOneError(run.errors)
    // an invalid username: only its message; the password is not looked at; no request, no write
    ensures !ValidUserName(userName) ==> run == FormRun(Errors(UserNameFormatError, "", ""), items, [])
    // a valid username and an invalid password: only the password message; no request, no write
    ensures ValidUserName(userName) && !ValidPassword(rawPassword) ==>
      run == FormRun(Errors("", PasswordFormatError, ""), items, [])
    // both valid: one register request, and the session is stored exactly when it succeeds
    ensures ValidUserName(userName) && ValidPassword(rawPassword) ==>
      run.events == [Sent(Register(userName, rawPassword))]
                    + (if reply.Tokens? then SessionWrites(userName, rawPassword, reply) else [])
    ensures run.errors == NoErrors <==> ValidUserName(userName) && ValidPassword(rawPassword) && reply.Tokens?
    ensures run.errors == NoErrors ==> run.items == WithSession(items, userName, rawPassword, reply)
    ensures run.errors != NoErrors ==> run.items == items
    // a failed register: 409 is the "taken" message, anything else the generic one
    ensures ValidUserName(userName) && ValidPassword(rawPassword) && reply.Failed? ==>
      run.errors == Errors("", "", if reply.status == Some(409) then UserNameTakenError else SignUpFailedError)
  {
    if !TestUserName(userName) then FormRun(Errors(UserNameFormatError, "", ""), items, [])
    else if !TestPassword(rawPassword) then FormRun(Errors("", PasswordFormatError, ""), items, [])
    else
      var request := [Sent(Register(userName, rawPassword))];
      match reply
      case Tokens(_, _) =>
        FormRun(NoErrors, WithSession(items, userName, rawPassword, reply), request + SessionWrites(userName, rawPassword, reply))
      case Failed(status) =>
        var message := if status == Some(409) then UserNameTakenError else SignUpFailedError;
        FormRun(Errors("", "", message), items, request)
  }

  /** handleSignIn: no format check; one login request with the typed text, whatever it is. */
  function SignInRun(userName: string, rawPassword: string, items: Items, reply: AuthReply): (run: FormRun)
    ensures AtMostOneError(run.errors)
    ensures run.events == [Sent(LoginWithPassword(userName, rawPassword))]
                          + (if reply.Tokens? then SessionWrites(userName, rawPassword, reply) else [])
    ensures run.errors == NoErrors <==> reply.Tokens?
    ensures reply.Tokens? ==> run.items == WithSession(items, userName, rawPassword, reply)
    ensures reply.Failed? ==> run.items == items
    // 400: no such user; 401: wrong password; anything else, or no response: the generic message
    ensures reply == Failed(Some(400)) ==> run.errors == Errors(NoSuchUserError, "", "")
    ensures reply == Failed(Some(401)) ==> run.errors == Errors("", WrongPasswordError, "")
    ensures reply.Failed? && reply.status != Some(400) && reply.status != Some(401) ==>
      run.errors == Errors("", "", SignInFailedError)
  {
    var request := [Sent(LoginWithPassword(userName, rawPassword))];
    match reply
    case Tokens(_, _) =>
      FormRun(NoErrors, WithSession(items, userName, rawPassword, reply), request + SessionWrites(userName, rawPassword, reply))
    case Failed(status) =>
      var errors :=
        if status == Some(400) then Errors(NoSuchUserError, "", "")
        else if status == Some(401) then Errors("", WrongPasswordError, "")
        else Errors("", "", SignInFailedError);
      FormRun(errors, items, request)
  }

  /** Which form the screen shows. */
  datatype Choice = NoChoice | SignUpChoice | SignInChoice

  /** The screen's state. */
  class LoginSignUpScreen {
    var userChoice: Choice
    var userName: string
    var rawPassword: string
    var usernameError: string
    var passwordError: string
    var apiError: string

    function ShownErrors(): Errors
      reads this
    {
      Errors(usernameError, passwordError, apiError)
    }

    constructor ()
      ensures userChoice == NoChoice && userName == "" && rawPassword == ""
      ensures ShownErrors() == NoErrors
    {
      userChoice := NoChoice;
      userName, rawPassword := "", "";
      usernameError, passwordError, apiError := "", "", "";
    }

    /** The "Sign Up" button, shown only before a choice is made. */
    method ChooseSignUp()
      requires userChoice == NoChoice
      modifies this`userChoice
      ensures userChoice == SignUpChoice
    {
      userChoice := SignUpChoice;
    }

    /** The "Sign In" button, shown only before a choice is made. */
    method ChooseSignIn()
      requires userChoice == NoChoice
      modifies this`userChoice
      ensures userChoice == SignInChoice
    {
      userChoice := SignInChoice;
    }

    /** The username field's onChangeText. */
    method EditUserName(text: string)
      modifies this`userName
      ensures userName == text
    {
      userName := text;
    }

    /** The password field's onChangeText. */
    method EditPassword(text: string)
      modifies this`rawPassword
      ensures rawPassword == text
    {
      rawPassword := text;
    }

    method HandleSignUp(d: Device, reply: AuthReply)
      modifies this`usernameError, this`passwordError, this`apiError, d
      ensures var run := SignUpRun(userName, rawPassword, old(d.items), reply);
        ShownErrors() == run.errors && d.items == run.items && d.trace == old(d.trace) + run.events
    {
      usernameError, passwordError, apiError := "", "", "";
      if !TestUserName(userName) {
        usernameError := UserNameFormatError;
        return;
      }
      if !TestPassword(rawPassword) {
        passwordError := PasswordFormatError;
        return;
      }
      d.Send(Register(userName, rawPassword));
      ghost var request := [Sent(Register(userName, rawPassword))];
      assert d.trace == old(d.trace) + request;
      match reply {
        case Tokens(token, refresh_token) =>
          d.SetItem(UserNameKey, userName);
          d.SetItem(RawPasswordKey, rawPassword);
          d.SetItem(AccessTokenKey, token);
          d.SetItem(RefreshTokenKey, refresh_token);
          assert d.trace == old(d.trace) + (request + SessionWrites(userName, rawPassword, reply));
        case Failed(status) =>
          if status == Some(409) {
            apiError := UserNameTakenError;
          } else {
            apiError := SignUpFailedError;
          }
      }
    }

    method HandleSignIn(d: Device, reply: AuthReply)
      modifies this`usernameError, this`passwordError, this`apiError, d
      ensures var run := SignInRun(userName, rawPassword, old(d.items), reply);
        ShownErrors() == run.errors && d.items == run.items && d.trace == old(d.trace) + run.events
    {
      usernameError, passwordError, apiError := "", "", "";
      d.Send(LoginWithPassword(userName, rawPassword));
      ghost var request := [Sent(LoginWithPassword(userName, rawPassword))];
      assert d.trace == old(d.trace) + request;
      match reply {
        case Tokens(token, refresh_token) =>
          d.SetItem(UserNameKey, userName);
          d.SetItem(RawPasswordKey, rawPassword);
          d.SetItem(AccessTokenKey, token);
          d.SetItem(RefreshTokenKey, refresh_token);
          assert d.trace == old(d.trace) + (request + SessionWrites(userName, rawPassword, reply));
        case Failed(status) =>
          if status == Some(400) {
            usernameError := NoSuchUserError;
          } else if status == Some(401) {
            passwordError := WrongPasswordError;
          } else {
            apiError := SignInFailedError;
          }
      }
    }

    /** The "Confirm" button, shown once a choice is made: it runs the chosen handler. */
    method Confirm(d: Device, reply: AuthReply)
      requires userChoice != NoChoice
      modifies this`usernameError, this`passwordError, this`apiError, d
      ensures var run := if userChoice == SignUpChoice
                         then SignUpRun(userName, rawPassword, old(d.items), reply)
                         else SignInRun(userName, rawPassword, old(d.items), reply);
        ShownErrors() == run.errors && d.items == run.items && d.trace == old(d.trace) + run.events
    {
      if userChoice == SignUpChoice {
        HandleSignUp(d, reply);
      } else {
        HandleSignIn(d, reply);
      }
    }
  }
}
