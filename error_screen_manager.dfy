/** The choice between the two specialised error screens and the generic fallback. */
module ErrorScreenManager {
  import opened Wrappers
  import opened ErrorTypes
  import opened UiEvents
  import Offline = OfflineScreen
  import EmptyFile = EmptyFileScreen

  /** What a caller hands to `showErrorScreen`; every field is optional. */
  datatype ScreenContext = ScreenContext(
    documentName: Option<string>,
    onRetry: Option<Callback>,
    onDownload: Option<Callback>,
    onLearnMore: Option<Callback>,
    onClose: Option<Callback>)

  /** An omitted context: every optional read of it is `undefined`. */
  const NoContext := ScreenContext(None, None, None, None, None)

  /** The union of the two screens' results and the fallback. */
  datatype ScreenResult =
    | OfflineResult(offline: Offline.OfflineAction)
    | EmptyFileResult(emptyFile: EmptyFile.EmptyFileAction)
    | FallbackResult

  /** Which screen was opened, with the options it was constructed with. */
  datatype ScreenShown =
    | NoScreen
    | OfflineShown(offlineOptions: Offline.OfflineErrorOptions)
    | EmptyFileShown(emptyFileOptions: EmptyFile.EmptyFileErrorOptions)

  /**
   * One call of `showErrorScreen` while the user sends `msgs`: the screen it
   * opened, the value its promise settles with (`None` while still pending) and
   * the callbacks invoked.
   */
  datatype ScreenRun = ScreenRun(shown: ScreenShown, result: Option<ScreenResult>, invoked: seq<Callback>)

  /** The codes with a dedicated screen: membership in a two-element list. */
  function HasSpecializedScreen(code: ErrorCode): (r: bool)
    ensures r <==> code == NetOffline || code == ExtractionNoTokens
  {
    code in [NetOffline, ExtractionNoTokens]
  }

  /** The offline screen gets only the retry, download and close callbacks. */
  function OfflineOptionsFor(context: ScreenContext): Offline.OfflineErrorOptions {
    Offline.OfflineErrorOptions(context.onRetry, context.onDownload, context.onClose)
  }

  /** The empty-file screen gets only the document name and the learn-more and close callbacks. */
  function EmptyFileOptionsFor(context: ScreenContext): EmptyFile.EmptyFileErrorOptions {
    EmptyFile.EmptyFileErrorOptions(context.onLearnMore, context.onClose, context.documentName)
  }

  function OfflineResultOf(a: Option<Offline.OfflineAction>): Option<ScreenResult> {
    if a.Some? then Some(OfflineResult(a.value)) else None
  }

  function EmptyFileResultOf(a: Option<EmptyFile.EmptyFileAction>): Option<ScreenResult> {
    if a.Some? then Some(EmptyFileResult(a.value)) else None
  }

  /**
   * `showErrorScreen`: a new screen for the two specialised codes, otherwise an
   * immediate fallback. The fallback result is returned, with no screen and no
   * callback, exactly for the codes without a specialised screen.
   */
  function ShowErrorScreen(code: ErrorCode, context: ScreenContext, msgs: seq<string>): (r: ScreenRun)
    ensures r.shown == NoScreen <==> !HasSpecializedScreen(code)
    ensures r.result == Some(FallbackResult) <==> !HasSpecializedScreen(code)
    ensures !HasSpecializedScreen(code) ==> r.invoked == []
  {
    match code
    case NetOffline =>
      var options := OfflineOptionsFor(context);
      var s := Offline.SessionAfter(options, msgs);
      ScreenRun(OfflineShown(options), OfflineResultOf(s.result), s.invoked)
    case ExtractionNoTokens =>
      var options := EmptyFileOptionsFor(context);
      var s := EmptyFile.SessionAfter(options, msgs);
      ScreenRun(EmptyFileShown(options), EmptyFileResultOf(s.result), s.invoked)
    case _ =>
      ScreenRun(NoScreen, Some(FallbackResult), [])
  }

  /**
   * `NET_OFFLINE` opens the offline screen with the retry, download and close
   * callbacks, returns that screen's action unchanged and invokes no other callback.
   */
  lemma {:induction false} OfflineRouting(context: ScreenContext, msgs: seq<string>)
    ensures ShowErrorScreen(NetOffline, context, msgs).shown ==
      OfflineShown(Offline.OfflineErrorOptions(context.onRetry, context.onDownload, context.onClose))
    ensures ShowErrorScreen(NetOffline, context, msgs).result ==
      OfflineResultOf(Offline.SessionAfter(OfflineOptionsFor(context), msgs).result)
    ensures forall c :: c in ShowErrorScreen(NetOffline, context, msgs).invoked ==>
      Some(c) in [context.onRetry, context.onDownload, context.onClose]
  {
    Offline.InvokesOnlySupplied(OfflineOptionsFor(context), msgs);
  }

  /**
   * `EXTRACTION_NO_TOKENS` opens the empty-file screen with the document name and
   * the learn-more and close callbacks, returns that screen's action unchanged and
   * invokes no other callback.
   */
  lemma {:induction false} EmptyFileRouting(context: ScreenContext, msgs: seq<string>)
    ensures ShowErrorScreen(ExtractionNoTokens, context, msgs).shown ==
      EmptyFileShown(EmptyFile.EmptyFileErrorOptions(context.onLearnMore, context.onClose, context.documentName))
    ensures ShowErrorScreen(ExtractionNoTokens, context, msgs).result ==
      EmptyFileResultOf(EmptyFile.SessionAfter(EmptyFileOptionsFor(context), msgs).result)
    ensures forall c :: c in ShowErrorScreen(ExtractionNoTokens, context, msgs).invoked ==>
      Some(c) in [context.onLearnMore, context.onClose]
  {
    EmptyFile.InvokesOnlySupplied(EmptyFileOptionsFor(context), msgs);
  }

  /** A result always comes from the screen that was shown, or is the fallback when none was. */
  lemma ResultMatchesScreen(code: ErrorCode, context: ScreenContext, msgs: seq<string>)
    ensures var r := ShowErrorScreen(code, context, msgs);
      r.result.Some? ==>
        (r.result.value.OfflineResult? <==> r.shown.OfflineShown?) &&
        (r.result.value.EmptyFileResult? <==> r.shown.EmptyFileShown?) &&
        (r.result.value.FallbackResult? <==> r.shown.NoScreen?)
  {
  }

  /** A specialised screen settles exactly when the user sends one of its recognised messages. */
  lemma {:induction false} ScreenSettlesOnRecognisedMessage(code: ErrorCode, context: ScreenContext, msgs: seq<string>)
    requires HasSpecializedScreen(code)
    ensures ShowErrorScreen(code, context, msgs).result.None? <==>
      if code == NetOffline then forall i :: 0 <= i < |msgs| ==> Offline.ActionFor(msgs[i]).None?
      else forall i :: 0 <= i < |msgs| ==> EmptyFile.ActionFor(msgs[i]).None?
  {
    if code == NetOffline {
      Offline.SessionMeaning(OfflineOptionsFor(context), msgs);
      FirstRecognisedPosition(Offline.ActionFor, msgs);
    } else {
      EmptyFile.SessionMeaning(EmptyFileOptionsFor(context), msgs);
      FirstRecognisedPosition(EmptyFile.ActionFor, msgs);
    }
  }
}
