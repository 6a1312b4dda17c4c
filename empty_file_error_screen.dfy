/** The screen shown when a document holds no design tokens. */
module EmptyFileScreen {
  import opened Wrappers
  import opened UiConstants
  import opened UiEvents

  /** The callbacks a caller may supply and the document's name; each is optional. */
  datatype EmptyFileErrorOptions = EmptyFileErrorOptions(
    onLearnMore: Option<Callback>,
    onClose: Option<Callback>,
    documentName: Option<string>)

  /** The options the constructor uses when given none. */
  const NoOptions := EmptyFileErrorOptions(None, None, None)

  /** The `action` of the result the screen resolves with. */
  datatype EmptyFileAction = LearnMore | Close

  const Title := "No Design Tokens Found"

  /** The name the screen's heading shows when the document name is missing or empty. */
  const DefaultDocumentName := "this document"

  /** The name shown in the heading "No tokens found in …": `documentName || 'this document'`. */
  function DisplayedDocumentName(options: EmptyFileErrorOptions): (r: string)
    ensures r != ""
    ensures options.documentName.Some? && options.documentName.value != "" ==> r == options.documentName.value
    ensures options.documentName.None? || options.documentName.value == "" ==> r == DefaultDocumentName
  {
    if options.documentName.Some? && options.documentName.value != "" then options.documentName.value
    else DefaultDocumentName
  }

  /** The message type the window posts for each action. */
  function MessageFor(a: EmptyFileAction): string {
    match a
    case LearnMore => "empty-learn-more"
    case Close => "empty-close"
  }

  /** The handler's switch: the action a message type resolves with, or `None` when no case matches. */
  function ActionFor(msgType: string): (r: Option<EmptyFileAction>)
    ensures r.Some? ==> MessageFor(r.value) == msgType
    ensures r.None? ==> forall a :: MessageFor(a) != msgType
  {
    if msgType == "empty-learn-more" then Some(LearnMore)
    else if msgType == "empty-close" then Some(Close)
    else None
  }

  /** The callback a case invokes before resolving. */
  function CallbackFor(options: EmptyFileErrorOptions, a: EmptyFileAction): Option<Callback> {
    match a
    case LearnMore => options.onLearnMore
    case Close => options.onClose
  }

  /** `CallbackFor` as a function value, for the generic handler model. */
  function Callbacks(options: EmptyFileErrorOptions): EmptyFileAction -> Option<Callback> {
    a => CallbackFor(options, a)
  }

  /** The handler's session after the messages `msgs`, from the latest `show`. */
  function SessionAfter(options: EmptyFileErrorOptions, msgs: seq<string>): Session<EmptyFileAction> {
    Replay(ActionFor, Callbacks(options), msgs)
  }

  /** Each button message resolves with its own action, and only its own message does. */
  lemma MessagesAreActions(msgType: string, a: EmptyFileAction)
    ensures ActionFor(msgType) == Some(a) <==> msgType == MessageFor(a)
  {
  }

  /**
   * A single recognised message invokes exactly the callback supplied for its
   * action (none when it was not supplied) and resolves with that action.
   */
  lemma {:induction false} SingleMessage(options: EmptyFileErrorOptions, a: EmptyFileAction)
    ensures SessionAfter(options, [MessageFor(a)]) == Session(Some(a), CallbackList(CallbackFor(options, a)))
  {
    var msgs := [MessageFor(a)];
    assert msgs[..0] == [];
    MessagesAreActions(MessageFor(a), a);
    assert SessionAfter(options, msgs) ==
      Deliver(Replay(ActionFor, Callbacks(options), []), Some(a), Callbacks(options)(a));
  }

  /**
   * Over any message sequence the screen resolves with the first learn-more or
   * close message and invokes the callbacks of all of them in order; other
   * message types are ignored.
   */
  lemma {:induction false} SessionMeaning(options: EmptyFileErrorOptions, msgs: seq<string>)
    ensures SessionAfter(options, msgs).result == FirstRecognised(ActionFor, msgs)
    ensures SessionAfter(options, msgs).invoked == AllFired(ActionFor, Callbacks(options), msgs)
    ensures SessionAfter(options, msgs).result.None? <==>
      forall i :: 0 <= i < |msgs| ==> msgs[i] !in {"empty-learn-more", "empty-close"}
  {
    ReplayMeaning(ActionFor, Callbacks(options), msgs);
    FirstRecognisedPosition(ActionFor, msgs);
  }

  /** The screen invokes only callbacks its options supply. */
  lemma {:induction false} InvokesOnlySupplied(options: EmptyFileErrorOptions, msgs: seq<string>)
    ensures forall c :: c in SessionAfter(options, msgs).invoked ==> Some(c) in [options.onLearnMore, options.onClose]
  {
    var supplied := Supplied([options.onLearnMore, options.onClose]);
    forall a | CallbackFor(options, a).Some? ensures Callbacks(options)(a).value in supplied { }
    InvokedAmong(ActionFor, Callbacks(options), msgs, supplied);
  }

  /** An unrecognised message changes nothing. */
  lemma {:induction false} OtherMessagesIgnored(options: EmptyFileErrorOptions, msgs: seq<string>, m: string)
    requires m !in {"empty-learn-more", "empty-close"}
    ensures SessionAfter(options, msgs + [m]) == SessionAfter(options, msgs)
  {
    assert (msgs + [m])[..|msgs|] == msgs;
  }

  /** With the default options no message invokes anything, and the heading names "this document". */
  lemma {:induction false} DefaultOptionsInvokeNothing(msgs: seq<string>)
    ensures SessionAfter(NoOptions, msgs).invoked == []
    ensures DisplayedDocumentName(NoOptions) == DefaultDocumentName
  {
    NoCallbacksNoInvocations(ActionFor, Callbacks(NoOptions), msgs);
  }

  /** The empty-file error screen: its options, the window it opened and its message handler's session. */
  class EmptyFileErrorScreen {
    const options: EmptyFileErrorOptions
    /** The options of the window opened by `Show`, if it was called. */
    var shownWith: Option<WindowOptions>
    /** The message types delivered since the latest `Show`. */
    var received: seq<string>
    var session: Session<EmptyFileAction>

    ghost predicate Valid()
      reads this
    {
      session == SessionAfter(options, received)
    }

    constructor(options: EmptyFileErrorOptions)
      ensures this.options == options && shownWith == None
      ensures received == [] && session == Session(None, []) && Valid()
    {
      this.options := options;
      shownWith := None;
      received := [];
      session := Session(None, []);
    }

    /** The constructor called without arguments: no callbacks and no document name. */
    constructor Default()
      ensures options == NoOptions && shownWith == None
      ensures received == [] && session == Session(None, []) && Valid()
    {
      options := NoOptions;
      shownWith := None;
      received := [];
      session := Session(None, []);
    }

    /** Opens the window titled "No Design Tokens Found" and installs a fresh handler with a pending promise. */
    method Show()
      modifies this
      ensures shownWith == Some(GetWindowOptions(Some(Title)))
      ensures received == [] && session == Session(None, []) && Valid()
    {
      shownWith := Some(GetWindowOptions(Some(Title)));
      received := [];
      session := Session(None, []);
    }

    /** Delivers one message from the window to the installed handler. */
    method HandleMessage(msgType: string)
      requires shownWith.Some? && Valid()
      modifies this
      ensures shownWith == old(shownWith) && received == old(received) + [msgType]
      ensures session == Deliver(old(session), ActionFor(msgType),
        if ActionFor(msgType).Some? then CallbackFor(options, ActionFor(msgType).value) else None)
      ensures Valid()
    {
      assert (received + [msgType])[..|received|] == received;
      received := received + [msgType];
      if msgType == "empty-learn-more" {
        if options.onLearnMore.Some? {
          session := session.(invoked := session.invoked + [options.onLearnMore.value]);
        }
        if session.result.None? {
          session := session.(result := Some(LearnMore));
        }
      } else if msgType == "empty-close" {
        if options.onClose.Some? {
          session := session.(invoked := session.invoked + [options.onClose.value]);
        }
        if session.result.None? {
          session := session.(result := Some(Close));
        }
      }
    }
  }
}
