/**
  The income-verification button: its state `loading`, `status` and
  `requestUrl`, the click handler and the proof SDK's callbacks that update
  it, and the three things the markup derives from it (the button's
  `disabled` attribute, the spinner and the QR code).

  The handler is cut at its `await` points and every SDK or `fetch` outcome
  is an event. The steps are functions on `ButtonState` (the specification)
  and methods of the class `VerifyButton`.
 */
module ReclaimButton {
  import opened JsRuntime

  datatype ButtonStatus = Idle | Generating | WaitingForUser | VerifyingServer | Verified | Error

  datatype ButtonState = ButtonState(loading: bool, status: ButtonStatus, requestUrl: string)

  /** An entry of the provider table of the proof-protocol configuration. */
  datatype ProviderEntry = ProviderEntry(providerId: string)

  const Providers: map<string, ProviderEntry> := map[
    "UPWORK" := ProviderEntry("61bddce0-fb71-45fc-8309-e2f447c12d5a"),
    "UBER" := ProviderEntry("uber-driver")
  ]

  function InitialButton(): ButtonState
  {
    ButtonState(false, Idle, "")
  }

  /** `disabled={loading || status === 'verified'}` */
  predicate Disabled(s: ButtonState): (r: bool)
    ensures s.loading ==> r
    ensures s.status == Verified ==> r
    ensures !s.loading && s.status != Verified ==> !r
  {
    s.loading || s.status == Verified
  }

  /** `loading && !requestUrl`: the spinner replaces the shield icon. */
  predicate SpinnerShown(s: ButtonState): (r: bool)
    ensures r ==> s.loading
    ensures s.requestUrl != "" ==> !r
    ensures s.loading && s.requestUrl == "" ==> r
  {
    s.loading && s.requestUrl == ""
  }

  /** `requestUrl && status === 'waiting_for_user'`: the QR code area is rendered. */
  predicate QrVisible(s: ButtonState): (r: bool)
    ensures r ==> s.status == WaitingForUser && |s.requestUrl| > 0
    ensures s.status != WaitingForUser ==> !r
    ensures s.status == WaitingForUser && s.requestUrl != "" ==> r
  {
    s.requestUrl != "" && s.status == WaitingForUser
  }

  /** The app id is set and the provider key names a configured provider. */
  predicate ConfigReady(appId: JsVal, providerKey: string)
  {
    Truthy(appId) && providerKey in Providers
  }

  /**
    The provider id a verification session is initialised with, or `None`
    when the configuration check stops the handler first.
   */
  function SessionProvider(appId: JsVal, providerKey: string): (r: Option<string>)
    ensures r.Some? <==> ConfigReady(appId, providerKey)
    ensures r.Some? ==> r.value == Providers[providerKey].providerId
  {
    if !Truthy(appId) || providerKey !in Providers then None
    else Some(Providers[providerKey].providerId)
  }

  /** `handleVerification` up to its first `await`. */
  function Started(s: ButtonState, appId: JsVal, providerKey: string): ButtonState
  {
    if ConfigReady(appId, providerKey) then s.(loading := true, status := Generating)
    else s.(loading := false, status := Generating)
  }

  /** The catch block of `handleVerification`: the SDK's `init`, `getRequestUrl` or `startSession` threw. */
  function SetupFailed(s: ButtonState): ButtonState
  {
    s.(loading := false, status := Error)
  }

  /** `getRequestUrl` resolved with `url`. */
  function UrlReady(s: ButtonState, url: string): ButtonState
  {
    s.(requestUrl := url, status := WaitingForUser)
  }

  /** The SDK's `onSuccess` callback, up to its `await fetch`. */
  function ProofArrived(s: ButtonState): ButtonState
  {
    s.(status := VerifyingServer)
  }

  /** How the call to the relay endpoint ended: the parsed JSON, or a throw from `fetch` or `json()`. */
  datatype Reply = Answered(result: JsVal) | FetchThrew

  predicate ReplySucceeded(reply: Reply)
  {
    reply.Answered? && Truthy(Prop(reply.result, "success"))
  }

  /**
    The rest of `onSuccess`. `onSuccessThrew` says whether the page's own
    `onSuccess(result.data)` was called and threw, which lands in the same
    catch block; it is false when the page passed no `onSuccess`.
   */
  function BackendSettled(s: ButtonState, reply: Reply, onSuccessThrew: bool): ButtonState
  {
    if ReplySucceeded(reply) then
      s.(status := if onSuccessThrew then Error else Verified, requestUrl := "", loading := false)
    else s.(status := Error, loading := false)
  }

  /** The value the page's `onSuccess` is called with; it is called only when the page passed one. */
  function Delivered(reply: Reply, hasOnSuccess: bool): (r: Option<JsVal>)
    ensures r.Some? <==> hasOnSuccess && ReplySucceeded(reply)
    ensures r.Some? ==> r.value == Prop(reply.result, "data")
  {
    if hasOnSuccess && ReplySucceeded(reply) then Some(Prop(reply.result, "data")) else None
  }

  /** The error the catch blocks hand to the page's `onError`. */
  datatype ReportedError =
    | ReplyUnreadable                 // `fetch` or `json()` threw, or `result.success` was read from a nullish result
    | RelayRefused(error: JsVal)      // `new Error(result.error)` for a reply without `success`
    | MessageUnconvertible            // `new Error(result.error)` itself threw converting `error` to a string
    | CallbackFailed                  // the page's own `onSuccess` threw
    | GenerationError(error: JsVal)   // the SDK's `onFailure(error)` argument, passed on unchanged

  /** The error raised in `onSuccess`'s try block, or `None` when it completes. */
  function BackendFailure(reply: Reply, onSuccessThrew: bool): (r: Option<ReportedError>)
    ensures r.None? <==> ReplySucceeded(reply) && !onSuccessThrew
    ensures r == Some(CallbackFailed) <==> ReplySucceeded(reply) && onSuccessThrew
    ensures reply.FetchThrew? ==> r == Some(ReplyUnreadable)
    ensures reply.Answered? && Nullish(reply.result) ==> r == Some(ReplyUnreadable)
    ensures reply.Answered? && !Nullish(reply.result) && !ReplySucceeded(reply) ==>
      r == Some(if ToStringThrows(Prop(reply.result, "error")) then MessageUnconvertible
                else RelayRefused(Prop(reply.result, "error")))
  {
    match reply
    case FetchThrew => Some(ReplyUnreadable)
    case Answered(result) =>
      if Nullish(result) then Some(ReplyUnreadable)
      else if Truthy(Prop(result, "success")) then (if onSuccessThrew then Some(CallbackFailed) else None)
      else if ToStringThrows(Prop(result, "error")) then Some(MessageUnconvertible)
      else Some(RelayRefused(Prop(result, "error")))
  }

  /** The button ends in `error` exactly when an error is raised, which is then what `onError` receives. */
  lemma ErrorStatusIsReported(s: ButtonState, reply: Reply, onSuccessThrew: bool)
    ensures BackendSettled(s, reply, onSuccessThrew).status == Error <==>
      BackendFailure(reply, onSuccessThrew).Some?
    ensures BackendSettled(s, reply, onSuccessThrew).status == Verified <==>
      BackendFailure(reply, onSuccessThrew).None?
  {
  }

  /** The SDK's `onFailure` callback. */
  function GenerationFailed(s: ButtonState): ButtonState
  {
    s.(status := Error, loading := false)
  }

  datatype ButtonEvent =
    | Click(appId: JsVal, providerKey: string)
    | SetupThrew
    | RequestUrl(url: string)
    | ProofReceived
    | BackendReplied(reply: Reply, onSuccessThrew: bool)
    | ProofGenerationFailed

  /** One event; a click on a disabled button never reaches the handler. */
  function Apply(s: ButtonState, e: ButtonEvent): (t: ButtonState)
    ensures Invariant(s) ==> Invariant(t)
  {
    match e
    case Click(appId, providerKey) => if Disabled(s) then s else Started(s, appId, providerKey)
    case SetupThrew => SetupFailed(s)
    case RequestUrl(url) => UrlReady(s, url)
    case ProofReceived => ProofArrived(s)
    case BackendReplied(reply, onSuccessThrew) => BackendSettled(s, reply, onSuccessThrew)
    case ProofGenerationFailed => GenerationFailed(s)
  }

  function Run(s: ButtonState, events: seq<ButtonEvent>): ButtonState
    decreases |events|
  {
    if events == [] then s else Run(Apply(s, events[0]), events[1..])
  }

  lemma RunStep(s: ButtonState, e: ButtonEvent, rest: seq<ButtonEvent>)
    ensures Run(s, [e] + rest) == Run(Apply(s, e), rest)
  {
    assert ([e] + rest)[1..] == rest;
  }

  /**
    What every state of the button satisfies: `idle` and `verified` are not
    loading and have no link, and `error` is not loading (so it can be retried).
   */
  predicate Invariant(s: ButtonState)
  {
    && (s.status == Idle ==> !s.loading && s.requestUrl == "")
    && (s.status == Verified ==> !s.loading && s.requestUrl == "")
    && (s.status == Error ==> !s.loading)
  }

  lemma {:induction false} RunKeepsInvariant(s: ButtonState, events: seq<ButtonEvent>)
    requires Invariant(s)
    ensures Invariant(Run(s, events))
    decreases |events|
  {
    if events != [] {
      RunKeepsInvariant(Apply(s, events[0]), events[1..]);
    }
  }

  lemma ReachableStatesKeepInvariant(events: seq<ButtonEvent>)
    ensures Invariant(Run(InitialButton(), events))
  {
    RunKeepsInvariant(InitialButton(), events);
  }

  /** The spinner and the QR code are never shown together. */
  lemma SpinnerAndQrExclusive(s: ButtonState)
    ensures !(SpinnerShown(s) && QrVisible(s))
  {
  }

  /** A verified button is disabled, shows neither spinner nor QR code, and ignores clicks. */
  lemma VerifiedIsFinal(s: ButtonState, appId: JsVal, providerKey: string)
    requires Invariant(s) && s.status == Verified
    ensures Disabled(s) && !SpinnerShown(s) && !QrVisible(s)
    ensures Apply(s, Click(appId, providerKey)) == s
  {
  }

  /** Every failure re-enables the button, with neither spinner nor QR code. */
  lemma FailuresReenable(s: ButtonState, reply: Reply, onSuccessThrew: bool)
    ensures var t := SetupFailed(s); t.status == Error && !Disabled(t) && !SpinnerShown(t) && !QrVisible(t)
    ensures var t := GenerationFailed(s); t.status == Error && !Disabled(t) && !SpinnerShown(t) && !QrVisible(t)
    ensures !ReplySucceeded(reply) || onSuccessThrew ==>
      var t := BackendSettled(s, reply, onSuccessThrew);
      t.status == Error && !Disabled(t) && !SpinnerShown(t) && !QrVisible(t)
  {
  }

  /** A misconfigured click stops loading at once and starts no session; the status stays `generating`. */
  lemma MissingConfigStopsAtOnce(s: ButtonState, appId: JsVal, providerKey: string)
    requires !Disabled(s) && !ConfigReady(appId, providerKey)
    ensures var t := Apply(s, Click(appId, providerKey));
      !t.loading && t.status == Generating && t.requestUrl == s.requestUrl
    ensures SessionProvider(appId, providerKey) == None
  {
  }

  /**
    A retry after a failure keeps the stale link: `requestUrl` is not cleared
    on failure, so while the new link is generated the spinner stays hidden.
   */
  lemma RetryAfterFailureShowsNoSpinner(url: string, appId: JsVal, providerKey: string)
    requires url != "" && ConfigReady(appId, providerKey)
    ensures var t := Run(InitialButton(),
        [Click(appId, providerKey), RequestUrl(url), ProofGenerationFailed, Click(appId, providerKey)]);
      t.loading && t.status == Generating && t.requestUrl == url && !SpinnerShown(t)
  {
    var c := Click(appId, providerKey);
    var s1 := Apply(InitialButton(), c);
    var s2 := Apply(s1, RequestUrl(url));
    var s3 := Apply(s2, ProofGenerationFailed);
    RunStep(InitialButton(), c, [RequestUrl(url), ProofGenerationFailed, c]);
    RunStep(s1, RequestUrl(url), [ProofGenerationFailed, c]);
    RunStep(s2, ProofGenerationFailed, [c]);
    RunStep(s3, c, []);
  }

  /**
    The successful session from a fresh button: spinner while the link is
    generated, QR code while the user scans, neither while the server checks,
    and a disabled, verified button at the end.
   */
  lemma HappyPath(appId: JsVal, providerKey: string, url: string, result: JsVal)
    requires ConfigReady(appId, providerKey) && url != ""
    requires Truthy(Prop(result, "success"))
    ensures var s1 := Apply(InitialButton(), Click(appId, providerKey));
      s1.status == Generating && SpinnerShown(s1) && Disabled(s1) && !QrVisible(s1)
    ensures var s2 := Run(InitialButton(), [Click(appId, providerKey), RequestUrl(url)]);
      s2.status == WaitingForUser && QrVisible(s2) && Disabled(s2) && !SpinnerShown(s2)
    ensures var s3 := Run(InitialButton(), [Click(appId, providerKey), RequestUrl(url), ProofReceived]);
      s3.status == VerifyingServer && !QrVisible(s3) && Disabled(s3) && !SpinnerShown(s3)
    ensures var s4 := Run(InitialButton(),
        [Click(appId, providerKey), RequestUrl(url), ProofReceived, BackendReplied(Answered(result), false)]);
      s4 == ButtonState(false, Verified, "") && Disabled(s4)
  {
    var c, r, p, b := Click(appId, providerKey), RequestUrl(url), ProofReceived, BackendReplied(Answered(result), false);
    var s1 := Apply(InitialButton(), c);
    var s2 := Apply(s1, r);
    var s3 := Apply(s2, p);
    RunStep(InitialButton(), c, [r]);
    RunStep(s1, r, []);
    RunStep(InitialButton(), c, [r, p]);
    RunStep(s1, r, [p]);
    RunStep(s2, p, []);
    RunStep(InitialButton(), c, [r, p, b]);
    RunStep(s1, r, [p, b]);
    RunStep(s2, p, [b]);
    RunStep(s3, b, []);
  }

  /**
    The component's state, updated field by field as React's setters do. The
    props are constants: the provider key and whether the page passed the
    optional callbacks `onSuccess` and `onError`.
   */
  class VerifyButton {
    const providerKey: string
    const hasOnSuccess: bool
    const hasOnError: bool
    var loading: bool
    var status: ButtonStatus
    var requestUrl: string

    function State(): ButtonState
      reads this
    {
      ButtonState(loading, status, requestUrl)
    }

    ghost predicate Valid()
      reads this
    {
      Invariant(State())
    }

    constructor (providerKey: string, hasOnSuccess: bool, hasOnError: bool)
      ensures Valid() && State() == InitialButton()
      ensures this.providerKey == providerKey
      ensures this.hasOnSuccess == hasOnSuccess && this.hasOnError == hasOnError
    {
      this.providerKey := providerKey;
      this.hasOnSuccess := hasOnSuccess;
      this.hasOnError := hasOnError;
      loading := false;
      status := Idle;
      requestUrl := "";
    }

    /**
      `handleVerification` up to its first `await`; `session` is the provider
      id handed to the SDK's `init`, or `None` when no session is started.
     */
    method HandleVerification(appId: JsVal) returns (session: Option<string>)
      requires Valid()
      modifies this
      ensures Valid()
      ensures State() == Started(old(State()), appId, providerKey)
      ensures session == SessionProvider(appId, providerKey)
      ensures status == Generating && requestUrl == old(requestUrl)
      ensures loading <==> session.Some?
    {
      loading := true;
      status := Generating;
      if !Truthy(appId) || providerKey !in Providers {
        loading := false;
        return None;
      }
      session := Some(Providers[providerKey].providerId);
    }

    /** The catch block of `handleVerification`; it does not call `onError`. */
    method OnSetupError()
      requires Valid()
      modifies this
      ensures Valid()
      ensures State() == SetupFailed(old(State()))
    {
      loading := false;
      status := Error;
    }

    method OnRequestUrl(url: string)
      requires Valid()
      modifies this
      ensures Valid()
      ensures State() == UrlReady(old(State()), url)
      ensures QrVisible(State()) <==> url != ""
    {
      requestUrl := url;
      status := WaitingForUser;
    }

    method OnProofReceived()
      requires Valid()
      modifies this
      ensures Valid()
      ensures State() == ProofArrived(old(State()))
      ensures !QrVisible(State())
    {
      status := VerifyingServer;
    }

    /**
      The rest of `onSuccess`. `delivered` is what the page's `onSuccess` is
      called with and `reported` what its `onError` is called with;
      `callbackThrows` says whether the page's `onSuccess` throws when called.
     */
    method OnBackendReply(reply: Reply, callbackThrows: bool)
      returns (delivered: Option<JsVal>, reported: Option<ReportedError>)
      requires Valid()
      modifies this
      ensures Valid()
      ensures State() == BackendSettled(old(State()), reply, hasOnSuccess && callbackThrows)
      ensures delivered == Delivered(reply, hasOnSuccess)
      ensures reported == (if hasOnError then BackendFailure(reply, hasOnSuccess && callbackThrows) else None)
      ensures !loading
      ensures status == Verified <==> ReplySucceeded(reply) && !(hasOnSuccess && callbackThrows)
    {
      delivered, reported := None, None;
      var failure: Option<ReportedError> := None;
      match reply {
        case FetchThrew =>
          failure := Some(ReplyUnreadable);
        case Answered(result) =>
          if Nullish(result) {
            failure := Some(ReplyUnreadable);
          } else if Truthy(Prop(result, "success")) {
            status := Verified;
            requestUrl := "";
            if hasOnSuccess {
              delivered := Some(Prop(result, "data"));
              if callbackThrows {
                failure := Some(CallbackFailed);
              }
            }
          } else if ToStringThrows(Prop(result, "error")) {
            failure := Some(MessageUnconvertible);
          } else {
            failure := Some(RelayRefused(Prop(result, "error")));
          }
      }
      if failure.Some? {
        status := Error;
        if hasOnError {
          reported := failure;
        }
      }
      loading := false;
    }

    /** The SDK's `onFailure(error)`; `reported` is what the page's `onError` is called with. */
    method OnProofFailure(error: JsVal) returns (reported: Option<ReportedError>)
      requires Valid()
      modifies this
      ensures Valid()
      ensures State() == GenerationFailed(old(State()))
      ensures reported == (if hasOnError then Some(GenerationError(error)) else None)
    {
      status := Error;
      loading := false;
      reported := if hasOnError then Some(GenerationError(error)) else None;
    }
  }
}
