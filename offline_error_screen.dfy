/** The screen shown when the plugin has no internet connection. */
module OfflineScreen {
  import opened Wrappers
  import opened UiConstants
  import opened UiEvents

  /** The callbacks a caller may supply; each is optional. */
  datatype OfflineErrorOptions = OfflineErrorOptions(
    onRetry: Option<Callback>,
    onDownload: Option<Callback>,
    onClose: Option<Callback>)

  /** The options the constructor uses when given none. */
  const NoOptions := OfflineErrorOptions(None, None, None)

  /** The `action` of the result the screen resolves with. */
  datatype OfflineAction = Retry | Download | Close

  const Title := "No Internet Connection"

  /** The message type the window posts for each action. */
  function MessageFor(a: OfflineAction): string {
    match a
    case Retry => "offline-retry"
    case Download => "offline-download"
    case Close => "offline-close"
  }

  /** The handler's switch: the action a message type resolves with, or `None` when no case matches. */
  function ActionFor(msgType: string): (r: Option<OfflineAction>)
    ensures r.Some? ==> MessageFor(r.value) == msgType
    ensures r.None? ==> forall a :: MessageFor(a) != msgType
  {
    if msgType == "offline-retry" then Some(Retry)
    else if msgType == "offline-download" then Some(Download)
    else if msgType == "offline-close" then Some(Close)
    else None
  }

  /** The callback a case invokes before resolving. */
  function CallbackFor(options: OfflineErrorOptions, a: OfflineAction): Option<Callback> {
    match a
    case Retry => options.onRetry
    case Download => options.onDownload
    case Close => options.onClose
  }

  /** `CallbackFor` as a function value, for the generic handler model. */
  function Callbacks(options: OfflineErrorOptions): OfflineAction -> Option<Callback> {
    a => CallbackFor(options, a)
  }

  /** The handler's session after the messages `msgs`, from the latest `show`. */
  function SessionAfter(options: OfflineErrorOptions, msgs: seq<string>): Session<OfflineAction> {
    Replay(ActionFor, Callbacks(options), msgs)
  }

  /** Each button message resolves with its own action, and only its own message does. */
  lemma MessagesAreActions(msgType: string, a: OfflineAction)
    ensures ActionFor(msgType) == Some(a) <==> msgType == MessageFor(a)
  {
  }

  /**
   * A single recognised message invokes exactly the callback supplied for its
   * action (none when it was not supplied) and resolves with that action.
   */
  lemma {:induction false} SingleMessage(options: OfflineErrorOptions, a: OfflineAction)
    ensures SessionAfter(options, [MessageFor(a)]) == Session(Some(a), CallbackList(CallbackFor(options, a)))
  {
    var msgs := [MessageFor(a)];
    assert msgs[..0] == [];
    MessagesAreActions(MessageFor(a), a);
    assert SessionAfter(options, msgs) ==
      Deliver(Replay(ActionFor, Callbacks(options), []), Some(a), Callbacks(options)(a));
  }

  /**
   * Over any message sequence the screen resolves with the first retry, download
   * or close message and invokes the callbacks of all of them in order; other
   * message types are ignored.
   */
  lemma {:induction false} SessionMeaning(options: OfflineErrorOptions, msgs: seq<string>)
    ensures SessionAfter(options, msgs).result == FirstRecognised(ActionFor, msgs)
    ensures SessionAfter(options, msgs).invoked == AllFired(ActionFor, Callbacks(options), msgs)
    ensures SessionAfter(options, msgs).result.None? <==>
      forall i :: 0 <= i < |msgs| ==> msgs[i] !in {"offline-retry", "offline-download", "offline-close"}
  {
    ReplayMeaning(ActionFor, Callbacks(options), msgs);
    FirstRecognisedPosition(ActionFor, msgs);
  }

  /** The screen invokes only callbacks its options supply. */
  lemma {:induction false} InvokesOnlySupplied(options: OfflineErrorOptions, msgs: seq<string>)
    ensures forall c :: c in SessionAfter(options, msgs).invoked ==> Some(c) in [options.onRetry, options.onDownload, options.onClose]
  {
    var supplied := Supplied([options.onRetry, options.onDownload, options.onClose]);
    forall a | CallbackFor(options, a).Some? ensures Callbacks(options)(a).value in supplied { }
    InvokedAmong(ActionFor, Callbacks(options), msgs, supplied);
  }

  /** An unrecognised message changes nothing. */
  lemma {:induction false} OtherMessagesIgnored(options: OfflineErrorOptions, msgs: seq<string>, m: string)
    requires m !in {"offline-retry", "offline-download", "offline-close"}
    ensures SessionAfter(options, msgs + [m]) == SessionAfter(options, msgs)
  {
    assert (msgs + [m])[..|msgs|] == msgs;
  }

  /** With the default options no message invokes anything. */
  lemma {:induction false} DefaultOptionsInvokeNothing(msgs: seq<string>)
    ensures SessionAfter(NoOptions, msgs).invoked == []
  {
    NoCallbacksNoInvocations(ActionFor, Callbacks(NoOptions), msgs);
  }

  /** The offline error screen: its options, the window it opened and its message handler's session. */
  class OfflineErrorScreen {
    const options: OfflineErrorOptions
    /** The options of the window opened by `Show`, if it was called. */
    var shownWith: Option<WindowOptions>
    /** The message types delivered since the latest `Show`. */
    var received: seq<string>
    var session: Session<OfflineAction>

    ghost predicate Valid()
      reads this
    {
      session == SessionAfter(options, received)
    }

    constructor(options: OfflineErrorOptions)
      ensures this.options == options && shownWith == None
      ensures received == [] && session == Session(None, []) && Valid()
    {
      this.options := options;
      shownWith := None;
      received := [];
      session := Session(None, []);
    }

    /** The constructor called without arguments: no callbacks. */
    constructor Default()
      ensures options == NoOptions && shownWith == None
      ensures received == [] && session == Session(None, []) && Valid()
    {
      options := NoOptions;
      shownWith := None;
      received := [];
      session := Session(None, []);
    }

    /** Opens the window titled "No Internet Connection" and installs a fresh handler with a pending promise. */
    method Show()
      modifies this
      ensures shownWith == Some(GetWindowOptions(Some(Title)))
      ensures received == [] && session == Session(None, []) && Valid()
    {
      shownWith := Some(GetWindowOptions(Some(Title)));
      received := [];
      session := Session(None, []);
    }

    /** Delivers one message from the window to the installed handler. */
    method HandleMessage(msgType: string)
      requires shownWith.Some? && Valid()
      modifies this
      ensures shownWith == old(shownWith) && received == old(received) + [msgType]
      ensures session == Deliver(old(session), ActionFor(msgType),
        if ActionFor(msgType).Some? then CallbackFor(options, ActionFor(msgType).value) else None)
      ensures Valid()
    {
      assert (received + [msgType])[..|received|] == received;
      received := received + [msgType];
      if msgType == "offline-retry" {
        if options.onRetry.Some? {
          session := session.(invoked := session.invoked + [options.onRetry.value]);
        }
        if session.result.None? {
          session := session.(result := Some(Retry));
        }
      } else if msgType == "offline-download" {
        if options.onDownload.Some? {
          session := session.(invoked := session.invoked + [options.onDownload.value]);
        }
        if session.result.None? {
          session := session.(result := Some(Download));
        }
      } else if msgType == "offline-close" {
        if options.onClose.Some? {
          session := session.(invoked := session.invoked + [options.onClose.value]);
        }
        if session.result.None? {
          session := session.(result := Some(Close));
        }
      }
    }
  }
}
