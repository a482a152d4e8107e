/** src/components/SignInWithFarcaster.tsx: the Sign in with Farcaster
    button. The fid is read out of the signed message, and the button's
    busy flags and error message move through handleSignIn and
    handleSignOut. */
module SignInWithFarcaster {
  import opened Common

  // ---- the fid in the signed message ----

  const FidPrefix: string := "farcaster://fid/"

  /** The regular expression `farcaster:\/\/fid\/(\d+)` matches at the very
      start of `s`: the prefix, then at least one digit. */
  predicate MatchHere(s: string) {
    |s| > |FidPrefix| && s[..|FidPrefix|] == FidPrefix && IsDigit(s[|FidPrefix|])
  }

  ghost predicate MatchesAt(s: string, i: int) {
    0 <= i <= |s| && MatchHere(s[i..])
  }

  /** Where the regular expression first matches: the leftmost position. */
  function FirstMatch(s: string): (r: Option<nat>)
    ensures r.Some? ==> MatchesAt(s, r.value) && forall j :: 0 <= j < r.value ==> !MatchesAt(s, j)
    ensures r.None? ==> forall j :: 0 <= j <= |s| ==> !MatchesAt(s, j)
    decreases |s|
  {
    if |s| == 0 then
      None
    else if MatchHere(s) then
      assert s[0..] == s;
      Some(0)
    else
      var rest := FirstMatch(s[1..]);
      assert s[0..] == s;
      assert !MatchesAt(s, 0);
      assert forall j :: 1 <= j <= |s| ==> (MatchesAt(s, j) <==> MatchesAt(s[1..], j - 1)) by {
        forall j | 1 <= j <= |s| ensures MatchesAt(s, j) <==> MatchesAt(s[1..], j - 1) {
          assert s[1..][j - 1..] == s[j..];
        }
      }
      match rest
      case None => None
      case Some(k) => Some(k + 1)
  }

  /** `\d+`, greedy: the longest run of digits at the front of `s`. */
  function DigitRun(s: string): (run: string)
    ensures |run| <= |s| && run == s[..|run|]
    ensures AllDigits(run)
    ensures |run| < |s| ==> !IsDigit(s[|run|])
    decreases |s|
  {
    if |s| == 0 || !IsDigit(s[0]) then "" else [s[0]] + DigitRun(s[1..])
  }

  /** `message.match(...)` and its first group. */
  function MatchFid(message: string): (fid: Option<string>)
    ensures fid.Some? ==> |fid.value| > 0 && AllDigits(fid.value)
  {
    match FirstMatch(message)
    case None => None
    case Some(i) => Some(DigitRun(message[i + |FidPrefix|..]))
  }

  /** Step 3 of handleSignIn: the match is tried only on a non-empty message
      that includes the prefix. */
  function ExtractFid(message: Option<string>): Option<string> {
    if IsTruthy(message) && Contains(message.value, FidPrefix) then MatchFid(message.value) else None
  }

  /** The `includes` guard changes nothing: wherever the expression
      matches, the message is non-empty and includes the prefix. */
  lemma GuardRedundant(message: string)
    ensures ExtractFid(Some(message)) == MatchFid(message)
  {
    var r := FirstMatch(message);
    if r.Some? {
      var i := r.value;
      assert message[i..][..|FidPrefix|] == message[i..i + |FidPrefix|];
      assert OccursAt(message, FidPrefix, i);
    }
  }

  /** The extracted fid is the whole digit run after the first occurrence
      of the prefix that is followed by a digit; there is none exactly when
      no occurrence is followed by a digit. */
  lemma ExtractFidSpec(message: Option<string>)
    ensures ExtractFid(message).None? <==>
      (message.None? || forall j :: 0 <= j <= |message.value| ==> !MatchesAt(message.value, j))
    ensures ExtractFid(message).Some? ==>
      exists i :: 0 <= i && i + |FidPrefix| < |message.value|
        && MatchesAt(message.value, i)
        && (forall j :: 0 <= j < i ==> !MatchesAt(message.value, j))
        && var after := message.value[i + |FidPrefix|..];
           var fid := ExtractFid(message).value;
           && |fid| > 0 && after[..|fid|] == fid && AllDigits(fid)
           && (|fid| < |after| ==> !IsDigit(after[|fid|]))
  {
    if message.Some? {
      GuardRedundant(message.value);
      var r := FirstMatch(message.value);
      if r.Some? {
        var i := r.value;
        assert i + |FidPrefix| < |message.value| by {
          assert MatchHere(message.value[i..]);
        }
      }
    }
  }

  /** The `fid` handed to NextAuth: the extracted one, else the SDK's fid
      (a number) as a string, else undefined. */
  function CredentialsFid(fromResources: Option<string>, sdkFid: Option<nat>): Option<string> {
    if IsTruthy(fromResources) then fromResources
    else match sdkFid
      case None => None
      case Some(n) => Some(NatToString(n))
  }

  /** The fid sent is always a non-empty run of digits, it is absent only
      when neither source has one, and a fid taken from the SDK reads back
      as the SDK's number. */
  lemma CredentialsFidSpec(message: Option<string>, sdkFid: Option<nat>)
    ensures var fid := CredentialsFid(ExtractFid(message), sdkFid);
      && (fid.Some? ==> |fid.value| > 0 && AllDigits(fid.value))
      && (fid.None? <==> ExtractFid(message).None? && sdkFid.None?)
      && (ExtractFid(message).Some? ==> fid == ExtractFid(message))
      && (ExtractFid(message).None? && sdkFid.Some? ==> DecimalValue(fid.value) == sdkFid.value)
  {
    if ExtractFid(message).None? && sdkFid.Some? {
      DecimalRoundTrip(sdkFid.value);
    }
  }

  // ---- the sign-in and sign-out handlers ----

  /** How `sdk.actions.signIn` settled: with the signed result (and the
      extra fields the code reads), rejected by the user, or by throwing
      anything else. */
  datatype SdkResult =
    | Signed(message: Option<string>, signature: Option<string>, name: Option<string>,
             pfp: Option<string>, username: Option<string>, fid: Option<nat>)
    | RejectedByUser
    | SdkFailed

  /** How NextAuth's `signIn("credentials", ...)` settled; `error` is None
      when the response, or its error, is absent. */
  datatype AuthResult = AuthResponse(error: Option<string>) | AuthThrew

  /** The credentials handed to NextAuth. */
  datatype Credentials = Credentials(
    message: Option<string>, signature: Option<string>, name: Option<string>, pfp: Option<string>,
    username: Option<string>, fid: Option<string>, redirect: bool, callbackUrl: string)

  function CredentialsFor(signed: SdkResult): Credentials
    requires signed.Signed?
  {
    Credentials(signed.message, signed.signature, signed.name, signed.pfp, signed.username,
                CredentialsFid(ExtractFid(signed.message), signed.fid), false, "/")
  }

  const CsrfError: string := "CSRF token error. Please try again."
  const RejectedError: string := "Sign in was rejected"
  const GenericError: string := "Failed to sign in. Please try again."

  /** The error message handleSignIn leaves, given the CSRF token it got
      (None when getCsrfToken threw), the SDK's outcome and NextAuth's. */
  function SignInError(csrf: Option<string>, sdk: SdkResult, auth: AuthResult): (e: Option<string>)
    ensures !IsTruthy(csrf) ==> e == Some(CsrfError)
    ensures IsTruthy(csrf) && sdk.RejectedByUser? ==> e == Some(RejectedError)
    ensures IsTruthy(csrf) && (sdk.SdkFailed? || (sdk.Signed? && auth.AuthThrew?)) ==> e == Some(GenericError)
    ensures IsTruthy(csrf) && sdk.Signed? && auth.AuthResponse? ==>
      (e.None? <==> !IsTruthy(auth.error)) && (e.Some? ==> e.value == "Authentication error: " + auth.error.value)
  {
    if !IsTruthy(csrf) then Some(CsrfError)
    else match sdk
      case RejectedByUser => Some(RejectedError)
      case SdkFailed => Some(GenericError)
      case Signed(_, _, _, _, _, _) =>
        match auth
        case AuthThrew => Some(GenericError)
        case AuthResponse(error) => if IsTruthy(error) then Some("Authentication error: " + error.value) else None
  }

  /** The sign-in succeeded, with no message left, exactly when every step
      went through and NextAuth reported no error. */
  lemma SignInSucceedsIff(csrf: Option<string>, sdk: SdkResult, auth: AuthResult)
    ensures SignInError(csrf, sdk, auth).None? <==>
      IsTruthy(csrf) && sdk.Signed? && auth.AuthResponse? && !IsTruthy(auth.error)
  {
  }

  /** Each message names the step that failed: a message is the CSRF
      one, the rejection one or the generic one exactly when that step
      failed, never on a NextAuth error. */
  lemma ErrorIdentifiesStep(csrf: Option<string>, sdk: SdkResult, auth: AuthResult)
    ensures var e := SignInError(csrf, sdk, auth);
      && (e == Some(CsrfError) <==> !IsTruthy(csrf))
      && (e == Some(RejectedError) <==> IsTruthy(csrf) && sdk.RejectedByUser?)
      && (e == Some(GenericError) <==> IsTruthy(csrf) && (sdk.SdkFailed? || (sdk.Signed? && auth.AuthThrew?)))
  {
    assert CsrfError[0] == 'C' && RejectedError[0] == 'S' && GenericError[0] == 'F';
    if IsTruthy(csrf) && sdk.Signed? && auth.AuthResponse? && IsTruthy(auth.error) {
      var e := SignInError(csrf, sdk, auth).value;
      assert e[0] == 'A';
    }
  }

  class SignInButton {
    var signingIn: bool
    var signingOut: bool
    var signInError: Option<string>

    constructor ()
      ensures !signingIn && !signingOut && signInError == None
    {
      signingIn, signingOut, signInError := false, false, None;
    }

    /** handleSignIn up to its first await. */
    method BeginSignIn()
      modifies this
      ensures signingIn && signInError == None && signingOut == old(signingOut)
    {
      signingIn := true;
      signInError := None;
    }

    /** The rest of handleSignIn. Without a CSRF token the SDK is never
        called; the SDK gets exactly the token as its nonce, NextAuth gets
        the credentials only after the SDK signed; `signingIn` is down on
        every path, the early return included. */
    method FinishSignIn(csrf: Option<string>, sdk: SdkResult, auth: AuthResult)
      returns (nonceSent: Option<string>, credentials: Option<Credentials>)
      modifies this
      ensures nonceSent == (if IsTruthy(csrf) then csrf else None)
      ensures credentials.Some? <==> IsTruthy(csrf) && sdk.Signed?
      ensures credentials.Some? ==> credentials.value == CredentialsFor(sdk)
      ensures signInError == (if SignInError(csrf, sdk, auth).Some? then SignInError(csrf, sdk, auth) else old(signInError))
      ensures !signingIn && signingOut == old(signingOut)
    {
      nonceSent, credentials := None, None;
      if !IsTruthy(csrf) {
        signInError := Some(CsrfError);
        signingIn := false;
        return;
      }
      nonceSent := csrf;
      match sdk {
        case RejectedByUser =>
          signInError := Some(RejectedError);
        case SdkFailed =>
          signInError := Some(GenericError);
        case Signed(message, signature, name, pfp, username, fid) =>
          var fidFromResources := None;
          if IsTruthy(message) && Contains(message.value, FidPrefix) {
            fidFromResources := MatchFid(message.value);
          }
          credentials := Some(Credentials(message, signature, name, pfp, username,
                                          CredentialsFid(fidFromResources, fid), false, "/"));
          match auth {
            case AuthThrew =>
              signInError := Some(GenericError);
            case AuthResponse(error) =>
              if IsTruthy(error) {
                signInError := Some("Authentication error: " + error.value);
              }
          }
      }
      signingIn := false;
    }

    /** The whole of handleSignIn, run without anything in between. */
    method HandleSignIn(csrf: Option<string>, sdk: SdkResult, auth: AuthResult)
      returns (nonceSent: Option<string>, credentials: Option<Credentials>)
      modifies this
      ensures nonceSent == (if IsTruthy(csrf) then csrf else None)
      ensures credentials.Some? <==> IsTruthy(csrf) && sdk.Signed?
      ensures credentials.Some? ==> credentials.value == CredentialsFor(sdk)
      ensures signInError == SignInError(csrf, sdk, auth)
      ensures !signingIn && signingOut == old(signingOut)
    {
      BeginSignIn();
      nonceSent, credentials := FinishSignIn(csrf, sdk, auth);
    }

    /** handleSignOut up to its await. */
    method BeginSignOut()
      modifies this
      ensures signingOut && signingIn == old(signingIn) && signInError == old(signInError)
    {
      signingOut := true;
    }

    /** The rest of handleSignOut: whether signOut threw or not, the flag
        comes down and nothing else changes. */
    method FinishSignOut(threw: bool)
      modifies this
      ensures !signingOut && signingIn == old(signingIn) && signInError == old(signInError)
    {
      signingOut := false;
    }
  }
}
