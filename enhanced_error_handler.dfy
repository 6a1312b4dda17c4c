/**
 * The top-level error handler: classify, then show either a specialised screen
 * or the generic dialog; plus the empty-result check and the help-link choice.
 */
module EnhancedErrorHandler {
  import opened Wrappers
  import opened ErrorTypes
  import opened UiEvents
  import opened ErrorScreenManager
  import Dialog = ErrorDialogScreen
  import EmptyFileScreen

  /** The handler's options; every field is optional. */
  datatype EnhancedErrorOptions = EnhancedErrorOptions(
    documentName: Option<string>,
    showTechnicalDetails: Option<bool>,
    context: Option<string>)

  /** The options used when none are given. */
  const NoOptions := EnhancedErrorOptions(None, None, None)

  /** What `handleError` presented, and the session of the window it opened. */
  datatype Presentation =
    | SpecializedScreen(run: ScreenRun)
    | GenericDialog(dialog: Dialog.ErrorDialogOptions, session: Session<Dialog.DialogAction>)

  // ---------------------------------------------------------------------------
  // Help links
  // ---------------------------------------------------------------------------

  const ConnectionHelpUrl := "https://help.figma.com/hc/en-us/articles/360040328613-Troubleshoot-connection-issues"
  const StylesHelpUrl := "https://help.figma.com/hc/en-us/articles/360041003174-Create-and-apply-styles"
  const GenericHelpUrl := "https://help.figma.com/"

  /** The help page `openLearnMoreLink` points to for a code. */
  function LearnMoreUrl(code: ErrorCode): string {
    match code
    case NetOffline => ConnectionHelpUrl
    case ExtractionNoTokens => StylesHelpUrl
    case _ => GenericHelpUrl
  }

  /** Only codes with a specialised screen get a dedicated help page, and those two pages differ. */
  lemma DedicatedHelpOnlyForSpecializedScreens(code: ErrorCode)
    ensures LearnMoreUrl(code) != GenericHelpUrl <==> HasSpecializedScreen(code)
    ensures LearnMoreUrl(NetOffline) != LearnMoreUrl(ExtractionNoTokens)
  {
  }

  /** The notification `openLearnMoreLink` shows instead of opening the page. */
  function LearnMoreNotice(code: ErrorCode): string {
    "Learn more: " + LearnMoreUrl(code)
  }

  // ---------------------------------------------------------------------------
  // Routing
  // ---------------------------------------------------------------------------

  /** The context handed to the screen manager: empty callbacks, except that learn-more shows the help notice. */
  function SpecializedContext(code: ErrorCode, options: EnhancedErrorOptions): ScreenContext {
    ScreenContext(options.documentName, Some(NoOp), Some(NoOp), Some(Notify(LearnMoreNotice(code))), Some(NoOp))
  }

  function ShowSpecializedScreen(code: ErrorCode, options: EnhancedErrorOptions, msgs: seq<string>): ScreenRun {
    ShowErrorScreen(code, SpecializedContext(code, options), msgs)
  }

  /** The generic dialog's options: `showTechnicalDetails || false`, empty retry and close callbacks, no fallback callback. */
  function GenericDialogOptions(metadata: ErrorMetadata, options: EnhancedErrorOptions): Dialog.ErrorDialogOptions {
    Dialog.ErrorDialogOptions(metadata, Some(options.showTechnicalDetails == Some(true)), Some(NoOp), None, Some(NoOp))
  }

  /**
   * `handleError` with the classifier reading `registry`, while the user sends
   * `msgs` to the window it opens. The error is classified with the options'
   * context; a specialised screen is shown exactly when its code has one, and
   * otherwise the generic dialog shows the classified record.
   */
  function HandleErrorWith(registry: RegistryTable, error: ErrorInput, options: EnhancedErrorOptions, msgs: seq<string>): (p: Presentation)
    ensures var metadata := ClassifyWith(registry, error, options.context);
      (p.SpecializedScreen? <==> HasSpecializedScreen(metadata.code)) &&
      (p.GenericDialog? ==> p.dialog.error == metadata && p.session == Dialog.SessionAfter(p.dialog, msgs))
  {
    var metadata := ClassifyWith(registry, error, options.context);
    if HasSpecializedScreen(metadata.code) then
      SpecializedScreen(ShowSpecializedScreen(metadata.code, options, msgs))
    else
      var dialog := GenericDialogOptions(metadata, options);
      GenericDialog(dialog, Dialog.SessionAfter(dialog, msgs))
  }

  /**
   * `handleError` while the user sends `msgs` to the window it opens: the
   * offline screen for the errors `classifyError` files under `NET_OFFLINE`,
   * and the generic dialog with the classified record for every other error.
   */
  function HandleError(error: ErrorInput, options: EnhancedErrorOptions, msgs: seq<string>): (p: Presentation)
    ensures p.SpecializedScreen? <==> ClassifyError(error, options.context).code == NetOffline
    ensures p.SpecializedScreen? ==> p.run.shown.OfflineShown?
    ensures p.GenericDialog? ==> p.dialog.error == ClassifyError(error, options.context)
  {
    OnlyOfflineScreenReachable(Registry, error, options, msgs);
    HandleErrorWith(Registry, error, options, msgs)
  }

  /**
   * Classification never yields `EXTRACTION_NO_TOKENS`, so the only specialised
   * screen the handler can open is the offline one, for exactly the errors
   * classified as `NET_OFFLINE`.
   */
  lemma OnlyOfflineScreenReachable(registry: RegistryTable, error: ErrorInput, options: EnhancedErrorOptions, msgs: seq<string>)
    ensures var p := HandleErrorWith(registry, error, options, msgs);
      (p.SpecializedScreen? <==> ClassifyWith(registry, error, options.context).code == NetOffline) &&
      (p.SpecializedScreen? ==> p.run.shown.OfflineShown?)
  {
    var code := ClassifyWith(registry, error, options.context).code;
    assert !NeverClassified(code);
  }

  /** The generic dialog's technical details are shown exactly when the option is `true`; the default is off. */
  lemma TechnicalDetailsDefaultOff(metadata: ErrorMetadata, options: EnhancedErrorOptions)
    ensures Dialog.BuildLayout(GenericDialogOptions(metadata, options)).technicalDetailsShown <==>
      options.showTechnicalDetails == Some(true)
    ensures !Dialog.BuildLayout(GenericDialogOptions(metadata, NoOptions)).technicalDetailsShown
  {
  }

  /**
   * Learn-more on the empty-file screen notifies the styles help page; the
   * offline screen's buttons invoke only the handler's empty callbacks.
   */
  lemma {:induction false} SpecializedCallbacks(options: EnhancedErrorOptions, msgs: seq<string>)
    ensures ShowSpecializedScreen(ExtractionNoTokens, options, [EmptyFileScreen.MessageFor(EmptyFileScreen.LearnMore)]).invoked ==
      [Notify("Learn more: " + StylesHelpUrl)]
    ensures forall c :: c in ShowSpecializedScreen(NetOffline, options, msgs).invoked ==> c == NoOp
  {
    EmptyFileScreen.SingleMessage(EmptyFileOptionsFor(SpecializedContext(ExtractionNoTokens, options)), EmptyFileScreen.LearnMore);
    OfflineRouting(SpecializedContext(NetOffline, options), msgs);
  }

  // ---------------------------------------------------------------------------
  // The empty-result check
  // ---------------------------------------------------------------------------

  /**
   * A field read from the extraction result: missing (the `[]` default applies),
   * `null` (the default does not apply and reading `length` throws), a value whose
   * `length` is the integer n (arrays, strings), or any other value, whose
   * `length` is not a number and so makes the sum `NaN` or a string.
   */
  datatype JsField = Missing | Null | WithLength(length: int) | WithoutNumericLength

  /** The argument: any falsy value, or an object with the three fields read. */
  datatype ExtractionArgument =
    | Falsy
    | ExtractionObject(variables: JsField, collections: JsField, designTokens: JsField)

  /** The `TypeError` thrown by reading `length` of `null`. */
  datatype Thrown = TypeError

  predicate Numeric(f: JsField) { f.Missing? || f.WithLength? }

  function LengthOf(f: JsField): int
    requires Numeric(f)
  {
    if f.WithLength? then f.length else 0
  }

  /** `shouldShowEmptyFileScreen`. */
  function ShouldShowEmptyFileScreen(arg: ExtractionArgument): (r: Result<bool, Thrown>)
    ensures arg.Falsy? ==> r == Ok(false)
  {
    match arg
    case Falsy => Ok(false)
    case ExtractionObject(v, c, t) =>
      if v.Null? || c.Null? || t.Null? then Err(TypeError)
      else if Numeric(v) && Numeric(c) && Numeric(t) then Ok(LengthOf(v) + LengthOf(c) + LengthOf(t) == 0)
      else Ok(false)
  }

  /** An array-valued field, or one that is missing. */
  predicate ArrayOrMissing(f: JsField) { f.Missing? || (f.WithLength? && f.length >= 0) }

  /**
   * For a result whose three fields are arrays or missing, the screen is due
   * exactly when all three are empty, `tokens` not being one of them.
   */
  lemma EmptyFileScreenForArrays(arg: ExtractionArgument)
    requires arg.ExtractionObject?
    requires ArrayOrMissing(arg.variables) && ArrayOrMissing(arg.collections) && ArrayOrMissing(arg.designTokens)
    ensures ShouldShowEmptyFileScreen(arg) ==
      Ok(LengthOf(arg.variables) == 0 && LengthOf(arg.collections) == 0 && LengthOf(arg.designTokens) == 0)
  {
  }

  /**
   * The check fails only by throwing on a `null` field; it answers true only
   * when every field has a numeric length (missing counting as 0) and the
   * lengths sum to 0.
   */
  lemma EmptyFileScreenCases(arg: ExtractionArgument)
    ensures ShouldShowEmptyFileScreen(arg).Err? <==>
      arg.ExtractionObject? && (arg.variables.Null? || arg.collections.Null? || arg.designTokens.Null?)
    ensures ShouldShowEmptyFileScreen(arg) == Ok(true) <==>
      arg.ExtractionObject? && Numeric(arg.variables) && Numeric(arg.collections) && Numeric(arg.designTokens) &&
      LengthOf(arg.variables) + LengthOf(arg.collections) + LengthOf(arg.designTokens) == 0
  {
  }
}
