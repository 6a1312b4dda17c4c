/**
 * The generic error dialog: the layout built from the classified error, the
 * severity presentation and the message handler installed by `show`.
 */
module ErrorDialogScreen {
  import opened Wrappers
  import opened JsStrings
  import opened ErrorTypes
  import opened UiConstants
  import opened UiEvents

  /** What the dialog is opened with; the flags and callbacks are optional. */
  datatype ErrorDialogOptions = ErrorDialogOptions(
    error: ErrorMetadata,
    showTechnicalDetails: Option<bool>,
    onRetry: Option<Callback>,
    onFallback: Option<Callback>,
    onClose: Option<Callback>)

  /** The `action` of the result the dialog resolves with. */
  datatype DialogAction = Retry | Fallback | LearnMore | Close

  /** The buttons of the action bar, in the order they are laid out. */
  datatype Button = RetryButton | UseAlternativeButton | LearnMoreButton | CloseButton

  /** What the built dialog shows, apart from markup and styling. */
  datatype Layout = Layout(
    severityColor: string,
    severityIcon: string,
    severityBadge: string,
    solutionsShown: bool,
    technicalDetailsShown: bool,
    buttons: seq<Button>)

  // ---------------------------------------------------------------------------
  // Severity and category presentation
  // ---------------------------------------------------------------------------

  /** The accent colour of each severity. */
  function SeverityColor(s: ErrorSeverity): string {
    match s
    case Critical => "#dc3545"
    case High => "#fd7e14"
    case Medium => "#ffc107"
    case Low => "#6c757d"
  }

  /** The icon of each severity. */
  function SeverityIconName(s: ErrorSeverity): string {
    match s
    case Low => "info"
    case Medium => "warning"
    case High => "warning-diamond"
    case Critical => "x-circle"
  }

  /** Different severities are told apart by both their colour and their icon. */
  lemma SeverityStylesDistinct(s: ErrorSeverity, t: ErrorSeverity)
    ensures SeverityColor(s) == SeverityColor(t) <==> s == t
    ensures SeverityIconName(s) == SeverityIconName(t) <==> s == t
  {
  }

  /** The severity badge: the severity's value in capitals. */
  function FormatSeverity(s: ErrorSeverity): (r: string)
    ensures |r| == |SeverityName(s)|
    ensures forall i :: 0 <= i < |r| ==> !IsAsciiLower(r[i])
  {
    var name := SeverityName(s);
    assert forall i :: 0 <= i < |name| ==> IsAsciiLower(name[i]);
    AsciiToUpperCase(name)
  }

  /** The badge is the severity's value read back in lower case. */
  lemma BadgeNamesSeverity(s: ErrorSeverity)
    ensures ToLowerCase(FormatSeverity(s)) == SeverityName(s)
  {
    var name := SeverityName(s);
    assert forall i :: 0 <= i < |name| ==> IsAsciiLower(name[i]);
    LowerOfUpper(name);
  }

  /** A category for display: every underscore becomes a space. */
  function FormatCategory(category: string): (r: string)
    ensures |r| == |category| && '_' !in r
    ensures forall i :: 0 <= i < |r| && category[i] != '_' ==> r[i] == category[i]
  {
    ReplaceAllChar(category, '_', ' ')
  }

  /** The two categories whose value has an underscore read as two words; all others are unchanged. */
  lemma {:induction false} FormattedCategories(c: ErrorCategory)
    ensures FormatCategory(CategoryName(c)) ==
      match c
      case GitOperation => "git operation"
      case RateLimit => "rate limit"
      case _ => CategoryName(c)
  {
    var name := CategoryName(c);
    var r := FormatCategory(name);
    match c
    case GitOperation => assert r == "git operation";
    case RateLimit => assert r == "rate limit";
    case _ => assert '_' !in name;
  }

  // ---------------------------------------------------------------------------
  // Layout and message handling
  // ---------------------------------------------------------------------------

  /** The action a button triggers. */
  function ButtonAction(b: Button): DialogAction {
    match b
    case RetryButton => Retry
    case UseAlternativeButton => Fallback
    case LearnMoreButton => LearnMore
    case CloseButton => Close
  }

  /** The message type the window posts for each action. */
  function MessageFor(a: DialogAction): string {
    match a
    case Retry => "error-retry"
    case Fallback => "error-fallback"
    case LearnMore => "error-learn-more"
    case Close => "error-close"
  }

  /**
   * The dialog's content: the severity presentation, the solutions block when
   * there are solutions, technical details when asked for, Retry only for a
   * retryable error, "Use Alternative" only when a fallback exists, and always
   * Learn More and Close.
   */
  function BuildLayout(options: ErrorDialogOptions): (r: Layout)
    ensures r.solutionsShown <==> |options.error.solutions| > 0
    ensures r.technicalDetailsShown <==> options.showTechnicalDetails == Some(true)
    ensures RetryButton in r.buttons <==> options.error.retryable
    ensures UseAlternativeButton in r.buttons <==> options.error.fallbackAvailable
    ensures r.severityColor == SeverityColor(options.error.severity)
    ensures r.severityIcon == SeverityIconName(options.error.severity)
    ensures ToLowerCase(r.severityBadge) == SeverityName(options.error.severity)
  {
    var error := options.error;
    BadgeNamesSeverity(error.severity);
    var shown := |error.solutions| > 0;
    var technical := options.showTechnicalDetails == Some(true);
    Layout(
      SeverityColor(error.severity),
      SeverityIconName(error.severity),
      FormatSeverity(error.severity),
      shown,
      technical,
      ActionBar(error.retryable, error.fallbackAvailable))
  }

  /** The action bar: Retry when retryable, "Use Alternative" when a fallback exists, then Learn More and Close. */
  function ActionBar(retryable: bool, fallbackAvailable: bool): (r: seq<Button>)
    ensures RetryButton in r <==> retryable
    ensures UseAlternativeButton in r <==> fallbackAvailable
    ensures |r| >= 2 && r[|r| - 2] == LearnMoreButton && r[|r| - 1] == CloseButton
    ensures forall i, j :: 0 <= i < j < |r| ==> r[i] != r[j]
  {
    match (retryable, fallbackAvailable)
    case (true, true) => [RetryButton, UseAlternativeButton, LearnMoreButton, CloseButton]
    case (true, false) => [RetryButton, LearnMoreButton, CloseButton]
    case (false, true) => [UseAlternativeButton, LearnMoreButton, CloseButton]
    case (false, false) => [LearnMoreButton, CloseButton]
  }

  /** The handler's switch: the action a message type resolves with, or `None` when no case matches. */
  function ActionFor(msgType: string): (r: Option<DialogAction>)
    ensures r.Some? ==> MessageFor(r.value) == msgType
    ensures r.None? ==> forall a :: MessageFor(a) != msgType
  {
    if msgType == "error-retry" then Some(Retry)
    else if msgType == "error-fallback" then Some(Fallback)
    else if msgType == "error-learn-more" then Some(LearnMore)
    else if msgType == "error-close" then Some(Close)
    else None
  }

  /** The handler resolves each action's message type with that action: the switch inverts `MessageFor`. */
  lemma ActionForMessage(a: DialogAction)
    ensures ActionFor(MessageFor(a)) == Some(a)
  {
  }

  /** Every button the layout offers posts a message the handler resolves with that button's action. */
  lemma OfferedButtonsAreHandled(options: ErrorDialogOptions, b: Button)
    requires b in BuildLayout(options).buttons
    ensures ActionFor(MessageFor(ButtonAction(b))) == Some(ButtonAction(b))
  {
    ActionForMessage(ButtonAction(b));
  }

  /** The callback a case invokes before resolving; learn-more has none. */
  function CallbackFor(options: ErrorDialogOptions, a: DialogAction): (r: Option<Callback>)
    ensures a == LearnMore ==> r.None?
  {
    match a
    case Retry => options.onRetry
    case Fallback => options.onFallback
    case LearnMore => None
    case Close => options.onClose
  }

  /** `CallbackFor` as a function value, for the generic handler model. */
  function Callbacks(options: ErrorDialogOptions): DialogAction -> Option<Callback> {
    a => CallbackFor(options, a)
  }

  /** The handler's session after the messages `msgs`, from the latest `show`. */
  function SessionAfter(options: ErrorDialogOptions, msgs: seq<string>): Session<DialogAction> {
    Replay(ActionFor, Callbacks(options), msgs)
  }

  /** The window title: the error's title after "Error: ", never omitted. */
  function DialogWindow(options: ErrorDialogOptions): (r: WindowOptions)
    ensures r.title == Some("Error: " + options.error.title)
    ensures r.(title := None) == StandardWindowOptions
  {
    GetWindowOptions(Some("Error: " + options.error.title))
  }

  /**
   * A single recognised message resolves with its action after invoking the
   * callback supplied for it; learn-more resolves without invoking anything.
   */
  lemma {:induction false} SingleMessage(options: ErrorDialogOptions, a: DialogAction)
    ensures SessionAfter(options, [MessageFor(a)]) == Session(Some(a), CallbackList(CallbackFor(options, a)))
    ensures SessionAfter(options, [MessageFor(LearnMore)]) == Session(Some(LearnMore), [])
  {
    var msgs := [MessageFor(a)];
    assert msgs[..0] == [];
    assert SessionAfter(options, msgs) ==
      Deliver(Replay(ActionFor, Callbacks(options), []), Some(a), Callbacks(options)(a));
    var lm := [MessageFor(LearnMore)];
    assert lm[..0] == [];
    assert SessionAfter(options, lm) ==
      Deliver(Replay(ActionFor, Callbacks(options), []), Some(LearnMore), Callbacks(options)(LearnMore));
  }

  /**
   * Over any message sequence the dialog resolves with the first of its four
   * messages and invokes the callbacks of all of them in order; other message
   * types neither resolve nor invoke anything.
   */
  lemma {:induction false} SessionMeaning(options: ErrorDialogOptions, msgs: seq<string>)
    ensures SessionAfter(options, msgs).result == FirstRecognised(ActionFor, msgs)
    ensures SessionAfter(options, msgs).invoked == AllFired(ActionFor, Callbacks(options), msgs)
    ensures SessionAfter(options, msgs).result.None? <==>
      forall i :: 0 <= i < |msgs| ==> msgs[i] !in {"error-retry", "error-fallback", "error-learn-more", "error-close"}
  {
    ReplayMeaning(ActionFor, Callbacks(options), msgs);
    FirstRecognisedPosition(ActionFor, msgs);
  }

  /** An unrecognised message changes nothing. */
  lemma {:induction false} OtherMessagesIgnored(options: ErrorDialogOptions, msgs: seq<string>, m: string)
    requires m !in {"error-retry", "error-fallback", "error-learn-more", "error-close"}
    ensures SessionAfter(options, msgs + [m]) == SessionAfter(options, msgs)
  {
    assert (msgs + [m])[..|msgs|] == msgs;
  }

  /** The error dialog: its options, the window it opened and its message handler's session. */
  class ErrorDialog {
    const options: ErrorDialogOptions
    /** The options of the window opened by `Show`, if it was called, and what it displays. */
    var shownWith: Option<WindowOptions>
    var layout: Option<Layout>
    /** The message types delivered since the latest `Show`. */
    var received: seq<string>
    var session: Session<DialogAction>

    ghost predicate Valid()
      reads this
    {
      session == SessionAfter(options, received)
    }

    constructor(options: ErrorDialogOptions)
      ensures this.options == options && shownWith == None && layout == None
      ensures received == [] && session == Session(None, []) && Valid()
    {
      this.options := options;
      shownWith := None;
      layout := None;
      received := [];
      session := Session(None, []);
    }

    /** Builds the dialog, opens its window and installs a fresh handler with a pending promise. */
    method Show()
      modifies this
      ensures shownWith == Some(DialogWindow(options)) && layout == Some(BuildLayout(options))
      ensures received == [] && session == Session(None, []) && Valid()
    {
      layout := Some(BuildLayout(options));
      shownWith := Some(GetWindowOptions(Some("Error: " + options.error.title)));
      received := [];
      session := Session(None, []);
    }

    /** Delivers one message from the window to the installed handler. */
    method HandleMessage(msgType: string)
      requires shownWith.Some? && Valid()
      modifies this
      ensures shownWith == old(shownWith) && layout == old(layout) && received == old(received) + [msgType]
      ensures session == Deliver(old(session), ActionFor(msgType),
        if ActionFor(msgType).Some? then CallbackFor(options, ActionFor(msgType).value) else None)
      ensures Valid()
    {
      assert (received + [msgType])[..|received|] == received;
      received := received + [msgType];
      if msgType == "error-retry" {
        if options.onRetry.Some? {
          session := session.(invoked := session.invoked + [options.onRetry.value]);
        }
        if session.result.None? {
          session := session.(result := Some(Retry));
        }
      } else if msgType == "error-fallback" {
        if options.onFallback.Some? {
          session := session.(invoked := session.invoked + [options.onFallback.value]);
        }
        if session.result.None? {
          session := session.(result := Some(Fallback));
        }
      } else if msgType == "error-learn-more" {
        if session.result.None? {
          session := session.(result := Some(LearnMore));
        }
      } else if msgType == "error-close" {
        if options.onClose.Some? {
          session := session.(invoked := session.invoked + [options.onClose.value]);
        }
        if session.result.None? {
          session := session.(result := Some(Close));
        }
      }
    }
  }
}
