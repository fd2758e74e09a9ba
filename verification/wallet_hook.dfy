/**
  The wallet-connection hook: the fields `address`, `status`, `isInstalled`
  and `error`, and the operations that update them (accounts reported by the
  wallet, connect, disconnect, and the outcome of start-up detection).

  Each asynchronous function is cut at its `await` points; every piece that
  runs without suspending is one step. The steps are given first as functions
  on a `WalletState` value (the specification) and then as the methods of the
  class `Wallet`, whose fields they update in place.
 */
module WalletHook {
  import opened JsRuntime

  datatype Status = Initializing | Idle | Connecting | Connected

  const RejectedText := "Connection rejected by user."
  const FailedText := "Failed to connect wallet."

  datatype WalletState = WalletState(
    address: JsVal,
    status: Status,
    isInstalled: bool,
    error: Option<string>)

  /** The hook's initial `useState` values. */
  function InitialState(): WalletState
  {
    WalletState(Null, Initializing, true, None)
  }

  /** The account value of a wallet reply, reduced to an address or `null`. */
  function ParseAddress(account: JsVal): (r: JsVal)
    ensures r == Null || Truthy(r)
    ensures !Truthy(account) ==> r == Null
    ensures account.Str? && Truthy(account) ==> r == account
    ensures Truthy(account) && !account.Str? && !account.Obj? ==> r == Null
    ensures account.Obj? && r != Null ==>
      r in {Prop(account, "address"), Prop(account, "account"), Prop(account, "id")}
  {
    if !Truthy(account) then Null
    else if account.Str? then account
    else Or(Or(Or(Prop(account, "address"), Prop(account, "account")), Prop(account, "id")), Null)
  }

  /** For an object, the first truthy of `address`, `account`, `id`, else `null`. */
  lemma ParseAddressOfObject(props: map<string, JsVal>)
    ensures var account, r := Obj(props), ParseAddress(Obj(props));
      && (Truthy(Prop(account, "address")) ==> r == Prop(account, "address"))
      && (!Truthy(Prop(account, "address")) && Truthy(Prop(account, "account")) ==>
            r == Prop(account, "account"))
      && (!Truthy(Prop(account, "address")) && !Truthy(Prop(account, "account")) ==>
            r == Or(Prop(account, "id"), Null))
      && (r == Null <==>
            !Truthy(Prop(account, "address")) && !Truthy(Prop(account, "account")) &&
            !Truthy(Prop(account, "id")))
  {
  }

  /** `Array.isArray(accounts) && accounts.length > 0 ? parseAddress(accounts[0]) : null` */
  function FirstAddress(accounts: JsVal): (r: JsVal)
    ensures !accounts.Arr? || accounts.items == [] ==> r == Null
    ensures accounts.Arr? && accounts.items != [] ==> r == ParseAddress(accounts.items[0])
  {
    if accounts.Arr? && |accounts.items| > 0 then ParseAddress(accounts.items[0]) else Null
  }

  /** `handleAccountsChanged`: a usable first account connects, anything else goes idle. */
  function AccountsChanged(s: WalletState, accounts: JsVal): WalletState
  {
    var newAddress := FirstAddress(accounts);
    if Truthy(newAddress) then s.(address := newAddress, status := Connected, error := None)
    else s.(address := Null, status := Idle)
  }

  /** What the wallet's `request` call came back with. */
  datatype RequestOutcome = Resolved(accounts: JsVal) | Rejected(err: JsVal)

  /**
    The message chosen in `connect`'s catch block, or `ConditionThrew` when
    evaluating the condition itself throws (a nullish `err`, or a `message`
    that is neither nullish, a string nor an array and so has no `includes`).
   */
  datatype ErrorChoice = Message(text: string) | ConditionThrew

  /**
    Code 4001 or a message that includes "rejected" gives the rejection text,
    any other error the failure text. For an array `message`, `includes`
    looks for an element equal to "rejected".
   */
  function ClassifyConnectError(err: JsVal): (r: ErrorChoice)
    ensures r.Message? ==> r.text == RejectedText || r.text == FailedText
    ensures r.ConditionThrew? <==>
      || Nullish(err)
      || (Prop(err, "code") != Num(4001) &&
          !(Nullish(Prop(err, "message")) || Prop(err, "message").Str? || Prop(err, "message").Arr?))
    ensures !Nullish(err) && Prop(err, "code") == Num(4001) ==> r == Message(RejectedText)
    ensures !Nullish(err) && Prop(err, "message").Str? ==>
      && (r == Message(RejectedText) <==>
            Prop(err, "code") == Num(4001) || Contains(Prop(err, "message").s, "rejected"))
      && (r == Message(FailedText) <==>
            Prop(err, "code") != Num(4001) && !Contains(Prop(err, "message").s, "rejected"))
    ensures !Nullish(err) && Nullish(Prop(err, "message")) ==>
      && (r == Message(RejectedText) <==> Prop(err, "code") == Num(4001))
      && (r == Message(FailedText) <==> Prop(err, "code") != Num(4001))
    ensures !Nullish(err) && Prop(err, "message").Arr? ==>
      && (r == Message(RejectedText) <==>
            Prop(err, "code") == Num(4001) || Str("rejected") in Prop(err, "message").items)
      && (r == Message(FailedText) <==>
            Prop(err, "code") != Num(4001) && Str("rejected") !in Prop(err, "message").items)
  {
    if Nullish(err) then ConditionThrew
    else if Prop(err, "code") == Num(4001) then Message(RejectedText)
    else
      match Prop(err, "message")
      case Undefined => Message(FailedText)
      case Null => Message(FailedText)
      case Str(m) => if Contains(m, "rejected") then Message(RejectedText) else Message(FailedText)
      case Arr(items) => if Str("rejected") in items then Message(RejectedText) else Message(FailedText)
      case _ => ConditionThrew
  }

  /** Code 4001 is a rejection whatever the message says. */
  lemma RejectionCodeWins(props: map<string, JsVal>)
    requires "code" in props && props["code"] == Num(4001)
    ensures ClassifyConnectError(Obj(props)) == Message(RejectedText)
  {
  }

  /**
    A message mentioning "rejected" is a rejection whatever the code; an
    error with neither code 4001 nor a message is a failure.
   */
  lemma RejectionByMessage(props: map<string, JsVal>, pre: string, post: string)
    requires "message" in props && props["message"] == Str(pre + "rejected" + post)
    ensures ClassifyConnectError(Obj(props)) == Message(RejectedText)
    ensures ClassifyConnectError(Obj(map[])) == Message(FailedText)
  {
    ContainsInfix(pre, "rejected", post);
  }

  lemma {:induction false} ContainsInfix(pre: string, part: string, post: string)
    ensures Contains(pre + part + post, part)
    decreases |pre|
  {
    var s := pre + part + post;
    if |pre| == 0 {
      assert s[..|part|] == part;
    } else {
      assert s[1..] == pre[1..] + part + post;
      ContainsInfix(pre[1..], part, post);
    }
  }

  /** `connect`, up to its `await`: nothing when no wallet is installed. */
  function ConnectStarted(s: WalletState): WalletState
  {
    if !s.isInstalled then s else s.(status := Connecting, error := None)
  }

  /** `connect`, after the wallet's `weil_requestAccounts` settles. */
  function ConnectSettled(s: WalletState, outcome: RequestOutcome): WalletState
  {
    match outcome
    case Resolved(accounts) => AccountsChanged(s, accounts)
    case Rejected(err) =>
      match ClassifyConnectError(err)
      case Message(text) => s.(status := Idle, error := Some(text))
      case ConditionThrew => s.(status := Idle)
  }

  function Disconnected(s: WalletState): WalletState
  {
    s.(address := Null, status := Idle)
  }

  /** How start-up detection ended. */
  datatype InitOutcome =
    | NoWindow                          // rendered on the server: `init` returns at once
    | ProviderAbsent                    // no `window.WeilWallet`, even after the retry
    | SilentCheck(outcome: RequestOutcome) // the `weil_accounts` request settled

  function Initialized(s: WalletState, outcome: InitOutcome): WalletState
  {
    match outcome
    case NoWindow => s
    case ProviderAbsent => s.(isInstalled := false, status := Idle)
    case SilentCheck(Resolved(accounts)) => AccountsChanged(s, accounts)
    case SilentCheck(Rejected(_)) => s.(status := Idle)
  }

  /**
    What every state of the hook satisfies: a connected wallet has an address
    and shows no error, `connecting` and `initializing` show no error,
    `initializing` has no address, nothing is connecting without a wallet, and
    an error is one of the two fixed messages.
   */
  predicate Invariant(s: WalletState)
  {
    && (s.status == Connected ==> Truthy(s.address) && s.error == None)
    && (s.status == Connecting ==> s.isInstalled && s.error == None)
    && (s.status == Initializing ==> s.address == Null && s.error == None)
    && (s.error.Some? ==> s.error.value == RejectedText || s.error.value == FailedText)
  }

  datatype WalletEvent =
    | InitDone(init: InitOutcome)
    | AccountsReported(accounts: JsVal)
    | ConnectClicked
    | ConnectReturned(outcome: RequestOutcome)
    | DisconnectClicked

  function Apply(s: WalletState, e: WalletEvent): (t: WalletState)
    ensures Invariant(s) ==> Invariant(t)
    ensures !s.isInstalled ==> !t.isInstalled
  {
    match e
    case InitDone(outcome) => Initialized(s, outcome)
    case AccountsReported(accounts) => AccountsChanged(s, accounts)
    case ConnectClicked => ConnectStarted(s)
    case ConnectReturned(outcome) => ConnectSettled(s, outcome)
    case DisconnectClicked => Disconnected(s)
  }

  function Run(s: WalletState, events: seq<WalletEvent>): WalletState
    decreases |events|
  {
    if events == [] then s else Run(Apply(s, events[0]), events[1..])
  }

  /** The invariant holds after any sequence of events. */
  lemma {:induction false} RunKeepsInvariant(s: WalletState, events: seq<WalletEvent>)
    requires Invariant(s)
    ensures Invariant(Run(s, events))
    decreases |events|
  {
    if events != [] {
      RunKeepsInvariant(Apply(s, events[0]), events[1..]);
    }
  }

  /** In particular every state reachable from the initial one has it. */
  lemma ReachableStatesKeepInvariant(events: seq<WalletEvent>)
    ensures Invariant(Run(InitialState(), events))
  {
    RunKeepsInvariant(InitialState(), events);
  }

  /** Once no wallet is found the hook never considers one installed again. */
  lemma {:induction false} NotInstalledIsPermanent(s: WalletState, events: seq<WalletEvent>)
    requires !s.isInstalled
    ensures !Run(s, events).isInstalled
    decreases |events|
  {
    if events != [] {
      NotInstalledIsPermanent(Apply(s, events[0]), events[1..]);
    }
  }

  /** The hook's state, updated field by field as React's setters do. */
  class Wallet {
    var address: JsVal
    var status: Status
    var isInstalled: bool
    var error: Option<string>

    function State(): WalletState
      reads this
    {
      WalletState(address, status, isInstalled, error)
    }

    ghost predicate Valid()
      reads this
    {
      Invariant(State())
    }

    constructor ()
      ensures Valid() && State() == InitialState()
    {
      address := Null;
      status := Initializing;
      isInstalled := true;
      error := None;
    }

    method HandleAccountsChanged(accounts: JsVal)
      requires Valid()
      modifies this
      ensures Valid()
      ensures State() == AccountsChanged(old(State()), accounts)
      ensures Truthy(FirstAddress(accounts)) ==>
        address == FirstAddress(accounts) && status == Connected && error == None
      ensures !Truthy(FirstAddress(accounts)) ==>
        address == Null && status == Idle && error == old(error)
      ensures isInstalled == old(isInstalled)
    {
      var newAddress := if accounts.Arr? && |accounts.items| > 0
        then ParseAddress(accounts.items[0]) else Null;
      if Truthy(newAddress) {
        address := newAddress;
        status := Connected;
        error := None;
      } else {
        address := Null;
        status := Idle;
      }
    }

    method Init(outcome: InitOutcome)
      requires Valid()
      modifies this
      ensures Valid()
      ensures State() == Initialized(old(State()), outcome)
      ensures outcome == ProviderAbsent ==> !isInstalled && status == Idle
    {
      match outcome
      case NoWindow =>
      case ProviderAbsent =>
        isInstalled := false;
        status := Idle;
      case SilentCheck(Resolved(accounts)) =>
        HandleAccountsChanged(accounts);
      case SilentCheck(Rejected(_)) =>
        status := Idle;
    }

    /** The synchronous start of `connect`; `started` says whether it went past the guard. */
    method BeginConnect() returns (started: bool)
      requires Valid()
      modifies this
      ensures Valid()
      ensures State() == ConnectStarted(old(State()))
      ensures started == old(isInstalled)
      ensures started ==> status == Connecting && error == None && address == old(address)
      ensures !started ==> State() == old(State())
    {
      if !isInstalled {
        return false;
      }
      status := Connecting;
      error := None;
      started := true;
    }

    /** The rest of `connect`, once the request for accounts has settled. */
    method FinishConnect(outcome: RequestOutcome)
      requires Valid()
      modifies this
      ensures Valid()
      ensures State() == ConnectSettled(old(State()), outcome)
      ensures outcome.Rejected? ==> status == Idle && address == old(address)
    {
      match outcome {
        case Resolved(accounts) =>
          HandleAccountsChanged(accounts);
        case Rejected(err) =>
          status := Idle;
          var choice := ClassifyConnectError(err);
          if choice.Message? {
            error := Some(choice.text);
          }
      }
    }

    method Disconnect()
      requires Valid()
      modifies this
      ensures Valid()
      ensures State() == Disconnected(old(State()))
      ensures address == Null && status == Idle
      ensures error == old(error) && isInstalled == old(isInstalled)
    {
      address := Null;
      status := Idle;
    }
  }
}
