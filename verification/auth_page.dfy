/**
  The sign-in / sign-up page: the feature carousel, the OAuth provider table
  and its guard, the sign-up payload built from the full name, and the error
  message shown when the identity provider's calls throw.
 */
module AuthPage {
  import opened JsRuntime

  /** The titles of the carousel's features, in display order. */
  const FeatureTitles: seq<string> := [
    "Instant Credit Access",
    "Bank-Level Security",
    "Digital Income = Credit",
    "Privacy First"
  ]

  /**
    The interval callback's update `(prev + 1) % features.length`. The index
    starts at 0 and is set only by this update and by a click on one of the
    carousel's dots, which selects that dot's index; so it is always a
    natural number below the number of features, for which JavaScript's `%`
    agrees with Dafny's.
   */
  function NextFeature(prev: nat): (next: nat)
    ensures next < |FeatureTitles|
    ensures prev < |FeatureTitles| - 1 ==> next == prev + 1
    ensures prev == |FeatureTitles| - 1 ==> next == 0
  {
    (prev + 1) % |FeatureTitles|
  }

  /** The carousel index `k` ticks after it showed feature `start`, with no dot clicked meanwhile. */
  function FeatureFrom(start: nat, k: nat): nat
  {
    if k == 0 then start else NextFeature(FeatureFrom(start, k - 1))
  }

  /** The carousel index after `k` ticks of an uninterrupted run from the initial 0. */
  function FeatureAfter(k: nat): nat
  {
    FeatureFrom(0, k)
  }

  /** `k` ticks after showing feature `start` (the initial 0, or a clicked dot) the carousel shows `(start + k) mod 4`. */
  lemma {:induction false} FeatureFromTicks(start: nat, k: nat)
    requires start < |FeatureTitles|
    ensures FeatureFrom(start, k) == (start + k) % |FeatureTitles|
  {
    if k > 0 {
      FeatureFromTicks(start, k - 1);
      var n, m := |FeatureTitles|, start + k;
      var q := (m - 1) / n;
      assert m - 1 == q * n + (m - 1) % n;
      if (m - 1) % n < n - 1 {
        assert m == q * n + ((m - 1) % n + 1);
      } else {
        assert m == (q + 1) * n;
      }
    }
  }

  /** After `k` ticks of an uninterrupted run from 0 the carousel shows feature `k mod 4`. */
  lemma FeatureAfterTicks(k: nat)
    ensures FeatureAfter(k) == k % |FeatureTitles|
  {
    FeatureFromTicks(0, k);
  }

  /** The carousel cycles: every feature is shown within the first four ticks, and every four ticks again. */
  lemma CarouselCycles(k: nat)
    ensures forall i :: 0 <= i < |FeatureTitles| ==> FeatureAfter(i) == i
    ensures FeatureAfter(k + |FeatureTitles|) == FeatureAfter(k)
  {
    forall i | 0 <= i < |FeatureTitles| ensures FeatureAfter(i) == i {
      FeatureAfterTicks(i);
    }
    FeatureAfterTicks(k);
    FeatureAfterTicks(k + |FeatureTitles|);
  }

  /** `OAUTH_PROVIDERS`: button name to the identity provider's strategy. */
  const OAuthProviders: map<string, string> := map[
    "Google" := "oauth_google",
    "GitHub" := "oauth_github",
    "Apple" := "oauth_apple"
  ]

  /** The names of the OAuth buttons, in display order. */
  const OAuthButtons: seq<string> := ["Google", "GitHub", "Apple"]

  /** `OAUTH_PROVIDERS[provider]`. */
  function StrategyFor(button: string): (r: JsVal)
    ensures button in OAuthProviders ==> r == Str(OAuthProviders[button])
    ensures button !in OAuthProviders ==> r == Undefined
  {
    if button in OAuthProviders then Str(OAuthProviders[button]) else Undefined
  }

  /** The arguments of `authenticateWithRedirect`. */
  datatype OAuthRedirect = OAuthRedirect(strategy: JsVal, redirectUrl: string, redirectUrlComplete: string)

  /** `oauthLogin`: the redirect it asks for, or `None` when its guard returns early. */
  function OAuthLogin(signInPresent: bool, strategy: JsVal): (r: Option<OAuthRedirect>)
    ensures r.Some? <==> signInPresent && Truthy(strategy)
    ensures r.Some? ==> r.value == OAuthRedirect(strategy, "/sso-callback", "/dashboard")
  {
    if !signInPresent || !Truthy(strategy) then None
    else Some(OAuthRedirect(strategy, "/sso-callback", "/dashboard"))
  }

  /**
    Every OAuth button has its own strategy, so once the sign-in resource is
    loaded each button redirects, each with a different strategy.
   */
  lemma EveryButtonRedirects()
    ensures forall b :: b in OAuthButtons ==> b in OAuthProviders && OAuthLogin(true, StrategyFor(b)).Some?
    ensures forall i, j :: 0 <= i < j < |OAuthButtons| ==>
      StrategyFor(OAuthButtons[i]) != StrategyFor(OAuthButtons[j])
    ensures forall b :: OAuthLogin(false, StrategyFor(b)).None?
  {
  }

  /** The name fields of the sign-up payload. */
  function FirstName(fullName: string): (r: string)
    ensures ' ' !in r
  {
    SplitOn(fullName, ' ')[0]
  }

  /** `fullName.split(' ').slice(1).join(' ') || ''` (the `|| ''` never changes a string result). */
  function LastName(fullName: string): (r: string)
    ensures ' ' !in fullName ==> r == ""
  {
    var parts := SplitOn(fullName, ' ');
    assert ' ' !in fullName ==> parts == [fullName] by {
      if ' ' !in fullName {
        SplitWithoutSeparator(fullName, ' ');
      }
    }
    JoinWith(parts[1..], ' ')
  }

  /**
    The first name is the text before the first space and the last name the
    text after it, inner spaces included; without a space the whole name is
    the first name and the last name is empty.
   */
  lemma {:induction false} NameSplitAtFirstSpace(fullName: string, i: nat)
    requires i < |fullName| && fullName[i] == ' ' && ' ' !in fullName[..i]
    ensures FirstName(fullName) == fullName[..i]
    ensures LastName(fullName) == fullName[i + 1..]
  {
    SplitAtFirst(fullName, ' ', i);
    var parts := SplitOn(fullName, ' ');
    assert parts[1..] == SplitOn(fullName[i + 1..], ' ');
    JoinSplit(fullName[i + 1..], ' ');
  }

  lemma NameWithoutSpace(fullName: string)
    requires ' ' !in fullName
    ensures FirstName(fullName) == fullName && LastName(fullName) == ""
  {
    SplitWithoutSeparator(fullName, ' ');
  }

  /** Round trip: a name with a space is its first and last name joined by a space. */
  lemma NameRoundTrip(fullName: string)
    requires ' ' in fullName
    ensures FirstName(fullName) + " " + LastName(fullName) == fullName
  {
    var i :| 0 <= i < |fullName| && fullName[i] == ' ';
    i := FirstSpace(fullName, i);
    NameSplitAtFirstSpace(fullName, i);
    assert fullName == fullName[..i] + [fullName[i]] + fullName[i + 1..];
  }

  /** The first space of a string that has a space at `j`. */
  lemma {:induction false} FirstSpace(s: string, j: nat) returns (i: nat)
    requires j < |s| && s[j] == ' '
    ensures i <= j && s[i] == ' ' && ' ' !in s[..i]
    decreases j
  {
    if ' ' in s[..j] {
      var k :| 0 <= k < j && s[..j][k] == ' ';
      i := FirstSpace(s, k);
    } else {
      i := j;
    }
  }

  datatype SignUpRequest = SignUpRequest(emailAddress: string, password: string, firstName: string, lastName: string)

  /** The argument of `signUp.create`. */
  function SignUpPayload(email: string, password: string, fullName: string): (p: SignUpRequest)
    ensures p.emailAddress == email && p.password == password
    ensures ' ' !in p.firstName
    ensures ' ' in fullName ==> p.firstName + " " + p.lastName == fullName
    ensures ' ' !in fullName ==> p.firstName == fullName && p.lastName == ""
  {
    if ' ' in fullName then
      NameRoundTrip(fullName);
      SignUpRequest(email, password, FirstName(fullName), LastName(fullName))
    else
      NameWithoutSpace(fullName);
      SignUpRequest(email, password, FirstName(fullName), LastName(fullName))
  }

  /** `err.errors?.[0]?.message` for a non-nullish `err`. */
  function FirstErrorMessage(err: JsVal): JsVal
  {
    Prop(Index0(Prop(err, "errors")), "message")
  }

  /**
    The value a catch block stores with `setError(err.errors?.[0]?.message || fallback)`,
    or `None` when evaluating it throws (a nullish `err`), in which case the
    error stays as it was cleared.
   */
  function CaughtError(err: JsVal, fallback: string): (r: Option<JsVal>)
    requires fallback != ""
    ensures r.None? <==> Nullish(err)
    ensures r.Some? ==> Truthy(r.value)
    ensures r.Some? && Truthy(FirstErrorMessage(err)) ==> r.value == FirstErrorMessage(err)
    ensures r.Some? && !Truthy(FirstErrorMessage(err)) ==> r.value == Str(fallback)
  {
    if Nullish(err) then None else Some(Or(FirstErrorMessage(err), Str(fallback)))
  }

  /** The identity provider's message for a Clerk-style error whose first entry has one. */
  lemma ProviderMessageShown(message: string, rest: seq<JsVal>)
    requires message != ""
    ensures CaughtError(Obj(map["errors" := Arr([Obj(map["message" := Str(message)])] + rest)]), "Login failed")
      == Some(Str(message))
    ensures CaughtError(Obj(map["errors" := Arr([])]), "Signup failed") == Some(Str("Signup failed"))
  {
  }

  /** How an awaited identity-provider call settled. */
  datatype Settlement = Fulfilled(value: JsVal) | Thrown(err: JsVal)

  /** The outcome of `handleLogin` once loaded: whether it navigates, and the error it leaves. */
  datatype LoginResult = LoginResult(navigate: bool, error: JsVal)

  const LoginFailedText := "Login failed"
  const SignupFailedText := "Signup failed"

  /**
    `handleLogin` after the guard. A nullish result makes `result.status`
    throw a TypeError, which has no `errors` and so shows the fallback.
   */
  function Login(outcome: Settlement): (r: LoginResult)
    ensures r.navigate <==> outcome.Fulfilled? && Prop(outcome.value, "status") == Str("complete")
    ensures r.navigate ==> r.error == Str("")
    ensures outcome.Thrown? && !Nullish(outcome.err) ==>
      r.error == CaughtError(outcome.err, LoginFailedText).value
    ensures outcome.Fulfilled? && !Nullish(outcome.value) ==> r.error == Str("")
    ensures outcome.Fulfilled? && Nullish(outcome.value) ==> r.error == Str(LoginFailedText)
    ensures outcome.Thrown? && Nullish(outcome.err) ==> r.error == Str("")
  {
    match outcome
    case Fulfilled(result) =>
      if Nullish(result) then LoginResult(false, Str(LoginFailedText))
      else LoginResult(Prop(result, "status") == Str("complete"), Str(""))
    case Thrown(err) =>
      match CaughtError(err, LoginFailedText)
      case Some(text) => LoginResult(false, text)
      case None => LoginResult(false, Str(""))
  }

  /** The page's state that these handlers and the carousel update. */
  class LoginSignupPage {
    var error: JsVal
    var activeFeature: nat

    /** The carousel index always names a feature. */
    ghost predicate Valid()
      reads this
    {
      activeFeature < |FeatureTitles|
    }

    constructor ()
      ensures Valid()
      ensures error == Str("") && activeFeature == 0
    {
      error := Str("");
      activeFeature := 0;
    }

    /** The carousel's interval callback. */
    method AdvanceFeature()
      requires Valid()
      modifies this
      ensures Valid()
      ensures activeFeature == NextFeature(old(activeFeature))
      ensures error == old(error)
    {
      activeFeature := (activeFeature + 1) % |FeatureTitles|;
    }

    /** A click on the carousel dot at `index`; the dots are one per feature. */
    method SelectFeature(index: nat)
      requires Valid() && index < |FeatureTitles|
      modifies this
      ensures Valid()
      ensures activeFeature == index
      ensures error == old(error)
    {
      activeFeature := index;
    }

    /** `handleLogin`; `navigate` says whether it pushes `/dashboard`. */
    method HandleLogin(signInLoaded: bool, outcome: Settlement) returns (navigate: bool)
      requires Valid()
      modifies this
      ensures Valid()
      ensures !signInLoaded ==> !navigate && error == old(error)
      ensures signInLoaded ==> LoginResult(navigate, error) == Login(outcome)
      ensures activeFeature == old(activeFeature)
    {
      navigate := false;
      if !signInLoaded {
        return;
      }
      error := Str("");
      match outcome {
        case Fulfilled(result) =>
          if Nullish(result) {
            error := Str(LoginFailedText);
          } else if Prop(result, "status") == Str("complete") {
            navigate := true;
          }
        case Thrown(err) =>
          var caught := CaughtError(err, LoginFailedText);
          if caught.Some? {
            error := caught.value;
          }
      }
    }

    /**
      `handleSignup`; `sent` is the payload handed to `signUp.create`.
      `failure` is the error thrown by `create` or by the email-code request
      that follows it, if either throws.
     */
    method HandleSignup(signUpLoaded: bool, email: string, password: string, fullName: string,
                        failure: Option<JsVal>) returns (sent: Option<SignUpRequest>)
      requires Valid()
      modifies this
      ensures Valid()
      ensures !signUpLoaded ==> sent == None && error == old(error)
      ensures signUpLoaded ==> sent == Some(SignUpPayload(email, password, fullName))
      ensures signUpLoaded && failure == None ==> error == Str("")
      ensures signUpLoaded && failure.Some? ==>
        error == (if Nullish(failure.value) then Str("") else CaughtError(failure.value, SignupFailedText).value)
      ensures activeFeature == old(activeFeature)
    {
      if !signUpLoaded {
        return None;
      }
      error := Str("");
      sent := Some(SignUpPayload(email, password, fullName));
      if failure.Some? {
        var caught := CaughtError(failure.value, SignupFailedText);
        if caught.Some? {
          error := caught.value;
        }
      }
    }
  }
}
