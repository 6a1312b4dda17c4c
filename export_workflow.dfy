/**
 * The export workflow: initialise the services, extract the tokens, check the
 * Git status, ask the user, then push, download or cancel, with a download
 * fallback after a failed push and a top-level catch that never rethrows.
 *
 * Every collaborator (token extractor, GitHub authentication, push service,
 * choice window, fallback prompt, download page, clock) is an input: one run is
 * determined by a `Collaborators` record saying what each call returns or throws.
 */
module ExportWorkflowModel {
  import opened Wrappers
  import opened JsStrings

  // ---------------------------------------------------------------------------
  // Data
  // ---------------------------------------------------------------------------

  /** What a collaborator throws: an `Error` with its message, or some other value. */
  datatype Thrown = ErrorObject(message: string) | OtherValue

  /** `error instanceof Error ? error.message : otherwise`. */
  function MessageOr(t: Thrown, otherwise: string): string {
    if t.ErrorObject? then t.message else otherwise
  }

  /** The extractor's result; each token, variable and collection is kept as its serialised text. */
  datatype ExtractionResult = ExtractionResult(
    tokens: seq<string>,
    variables: seq<string>,
    collections: seq<string>,
    errors: seq<string>,
    warnings: seq<string>,
    extractedAt: int)

  datatype DocumentInfo = DocumentInfo(name: string, id: string, totalNodes: int)
  datatype RepositoryRef = RepositoryRef(owner: string, name: string)
  datatype ConnectionTest = ConnectionTest(success: bool, error: Option<string>)
  datatype PushResult = PushResult(success: bool, error: Option<string>)

  /** The user's choice; its `type` may be a value the workflow does not know. */
  datatype ExportChoice = GitPushChosen | DownloadChosen | CancelChosen | UnknownChoice(choiceType: string)

  /** The `choice` field of a result. */
  datatype ChoiceKind = GitPushKind | DownloadKind | CancelKind

  datatype DownloadInfo = DownloadInfo(initiated: bool)

  /** A choice handler's result: a workflow result without `extractionResult` and `duration`. */
  datatype ChoiceResult = ChoiceResult(
    success: bool,
    choice: ChoiceKind,
    gitResult: Option<PushResult>,
    downloadResult: Option<DownloadInfo>,
    error: Option<string>)

  datatype WorkflowResult = WorkflowResult(
    success: bool,
    choice: ChoiceKind,
    extractionResult: Option<ExtractionResult>,
    gitResult: Option<PushResult>,
    downloadResult: Option<DownloadInfo>,
    error: Option<string>,
    duration: int)

  datatype GitStatus = GitStatus(configured: bool, connected: bool, repository: Option<string>, error: Option<string>)

  datatype TokenCounts = TokenCounts(totalTokens: int, totalVariables: int, totalCollections: int, errors: int, warnings: int)

  /** The JSON document offered for download. */
  datatype Dataset = Dataset(
    exportTimestamp: string,
    extractionDuration: int,
    sourceDocument: DocumentInfo,
    tokenCounts: TokenCounts,
    variables: seq<string>,
    collections: seq<string>,
    designTokens: seq<string>)

  /** What every collaborator call returns or throws during one run, and the clock readings. */
  datatype Collaborators = Collaborators(
    authInit: Outcome<Thrown>,
    pushInit: Outcome<Thrown>,
    extraction: Result<ExtractionResult, Thrown>,
    authConfigured: Result<bool, Thrown>,
    connectionTest: Result<ConnectionTest, Thrown>,
    publicRepository: Option<RepositoryRef>,
    choice: Result<ExportChoice, Thrown>,
    push: Result<PushResult, Thrown>,
    acceptFallback: bool,
    downloadPage: Outcome<Thrown>,
    startTime: int,
    choiceTime: int,
    downloadTime: int,
    endTime: int,
    exportIso: string,
    filenameIso: string)

  /** The collaborator calls a run makes, in order. */
  datatype Call =
    | InitAuth
    | InitPushService
    | Extract
    | ReadAuthState
    | TestConnection
    | ShowChoice(hasGitConfigured: bool, repository: Option<string>, extractionDuration: int)
    | QuickPush
    | OfferFallback
    | ShowDownload(filename: string, dataset: Dataset)

  // ---------------------------------------------------------------------------
  // Pure helpers
  // ---------------------------------------------------------------------------

  /** `getRepositoryString`: "owner/name" when the public configuration names a repository. */
  function RepositoryString(repository: Option<RepositoryRef>): (r: Option<string>)
    ensures r.Some? <==> repository.Some?
    ensures r.Some? ==> Split(r.value, '/')[0] == Split(repository.value.owner, '/')[0]
  {
    if repository.Some? then
      var owner := repository.value.owner;
      var s := owner + "/" + repository.value.name;
      OwnerPrefix(owner, repository.value.name);
      Some(s)
    else None
  }

  /** An owner and a name without a slash in them are read back by splitting the string at the slash. */
  lemma RepositoryStringSplits(repository: RepositoryRef)
    requires '/' !in repository.owner && '/' !in repository.name
    ensures Split(RepositoryString(Some(repository)).value, '/') == [repository.owner, repository.name]
  {
    var owner, name := repository.owner, repository.name;
    var s := owner + "/" + name;
    forall i | 0 <= i < |owner| ensures owner[i] != '/' { assert owner[i] in owner; }
    forall i | 0 <= i < |name| ensures name[i] != '/' { assert name[i] in name; }
    assert IndexOf(s, '/') == |owner| by {
      forall i | 0 <= i < |owner| ensures s[i] != '/' { assert s[i] == owner[i]; }
      assert s[|owner|] == '/';
    }
    SplitAtFirst(s, '/');
    assert s[..|owner|] == owner;
    assert s[|owner| + 1..] == name;
    SplitWithout(name, '/');
  }

  lemma {:induction false} OwnerPrefix(owner: string, name: string)
    ensures Split(owner + "/" + name, '/')[0] == Split(owner, '/')[0]
  {
    var s := owner + "/" + name;
    var k := IndexOf(owner, '/');
    if k < |owner| {
      assert s[k] == '/';
      assert IndexOf(s, '/') == k by {
        forall i | 0 <= i < k ensures s[i] != '/' { assert s[i] == owner[i]; }
      }
      SplitAtFirst(s, '/');
      SplitAtFirst(owner, '/');
      assert s[..k] == owner[..k];
    } else {
      assert s[|owner|] == '/';
      assert IndexOf(s, '/') == |owner| by {
        forall i | 0 <= i < |owner| ensures s[i] != '/' { assert s[i] == owner[i]; }
      }
      SplitAtFirst(s, '/');
      SplitWithout(owner, '/');
      assert s[..|owner|] == owner;
    }
  }

  /** `createJSONDataset`: the counts describe the lists the dataset carries. */
  function CreateJsonDataset(x: ExtractionResult, extractionDuration: int, doc: DocumentInfo, iso: string): (d: Dataset)
    ensures d.tokenCounts == TokenCounts(|d.designTokens|, |d.variables|, |d.collections|, |x.errors|, |x.warnings|)
    ensures d.designTokens == x.tokens && d.variables == x.variables && d.collections == x.collections
    ensures d.sourceDocument == doc && d.exportTimestamp == iso && d.extractionDuration == extractionDuration
  {
    Dataset(iso, extractionDuration, doc,
      TokenCounts(|x.tokens|, |x.variables|, |x.collections|, |x.errors|, |x.warnings|),
      x.variables, x.collections, x.tokens)
  }

  /**
   * The download's file name: every ':' of the timestamp becomes '-', the text
   * from the first '.' on is dropped, and the first 'T' becomes '-'.
   */
  function DownloadFileName(iso: string): string {
    "figma-tokens-" + ReplaceFirst(DropFromFirstDot(ReplaceAllChar(iso, ':', '-')), 'T', "-") + ".json"
  }

  /** Whatever the timestamp, the name has the fixed prefix and extension and no ':'. */
  lemma FileNameShape(iso: string)
    ensures var r := DownloadFileName(iso);
      |r| >= 18 && r[..13] == "figma-tokens-" && r[|r| - 5..] == ".json" && ':' !in r
  {
    var noColons := ReplaceAllChar(iso, ':', '-');
    var noFraction := DropFromFirstDot(noColons);
    var stamp := ReplaceFirst(noFraction, 'T', "-");
    assert ':' !in noColons;
    assert ':' !in noFraction by {
      if IndexOf(noColons, '.') + 1 < |noColons| {
        assert noFraction == noColons[..IndexOf(noColons, '.')];
      }
    }
    assert ':' !in stamp by {
      if IndexOf(noFraction, 'T') < |noFraction| {
        var k := IndexOf(noFraction, 'T');
        assert stamp == noFraction[..k] + "-" + noFraction[k + 1..];
      }
    }
    var prefix, suffix := "figma-tokens-", ".json";
    assert ':' !in prefix && ':' !in suffix;
    var r := prefix + stamp + suffix;
    assert r[..13] == prefix;
    assert r[|r| - 5..] == suffix;
  }

  /** For a `toISOString` timestamp the name is "figma-tokens-YYYY-MM-DD-HH-mm-ss.json". */
  lemma {:induction false} FileNameOfIsoTimestamp(iso: string)
    requires IsIsoTimestamp(iso)
    ensures DownloadFileName(iso) ==
      "figma-tokens-" + iso[..10] + "-" + iso[11..13] + "-" + iso[14..16] + "-" + iso[17..19] + ".json"
  {
    var noColons := ReplaceAllChar(iso, ':', '-');
    assert IndexOf(noColons, '.') == 19 by {
      forall i | 0 <= i < 19 ensures noColons[i] != '.' {
        if !IsIsoSeparatorPosition(i) { assert IsDigit(iso[i]); }
      }
    }
    var noFraction := DropFromFirstDot(noColons);
    assert noFraction == noColons[..19];
    assert IndexOf(noFraction, 'T') == 10 by {
      forall i | 0 <= i < 10 ensures noFraction[i] != 'T' {
        if !IsIsoSeparatorPosition(i) { assert IsDigit(iso[i]); }
      }
    }
    var stamp := ReplaceFirst(noFraction, 'T', "-");
    assert stamp == noFraction[..10] + "-" + noFraction[11..];
    assert noFraction[..10] == iso[..10];
    assert noFraction[11..] == iso[11..13] + "-" + iso[14..16] + "-" + iso[17..19];
  }

  // ---------------------------------------------------------------------------
  // The steps, as functions of the collaborators
  // ---------------------------------------------------------------------------

  /** `initializeServices`: the push service is initialised only when authentication initialised without throwing. */
  function InitCalls(env: Collaborators): seq<Call> {
    [InitAuth] + if env.authInit.Pass? then [InitPushService] else []
  }

  /** `checkGitStatus`. */
  function GitStatusOf(env: Collaborators): GitStatus {
    match env.authConfigured
    case Err(t) => GitStatus(false, false, None, Some(MessageOr(t, "Git check failed")))
    case Ok(false) => GitStatus(false, false, None, None)
    case Ok(true) =>
      match env.connectionTest
      case Err(t) => GitStatus(false, false, None, Some(MessageOr(t, "Git check failed")))
      case Ok(test) => GitStatus(true, test.success, RepositoryString(env.publicRepository), test.error)
  }

  function GitStatusCalls(env: Collaborators): seq<Call> {
    [ReadAuthState] + if env.authConfigured == Ok(true) then [TestConnection] else []
  }

  /** The choice window's inputs: Git counts as configured only when it is configured and connected. */
  function ChoiceCall(env: Collaborators, x: ExtractionResult): Call {
    var status := GitStatusOf(env);
    ShowChoice(status.configured && status.connected, status.repository, env.choiceTime - x.extractedAt)
  }

  /** `handleDownload`. */
  function DownloadOf(env: Collaborators): ChoiceResult {
    match env.downloadPage
    case Pass => ChoiceResult(true, DownloadKind, None, Some(DownloadInfo(true)), None)
    case Fail(t) => ChoiceResult(false, DownloadKind, None, None, Some(MessageOr(t, "Download failed")))
  }

  function DownloadCalls(env: Collaborators, doc: DocumentInfo, x: ExtractionResult): seq<Call> {
    var dataset := CreateJsonDataset(x, env.downloadTime - x.extractedAt, doc, env.exportIso);
    [ShowDownload(DownloadFileName(env.filenameIso), dataset)]
  }

  /** Whether the push failed, by an unsuccessful result or by throwing. */
  predicate PushFailed(env: Collaborators) {
    env.push.Err? || !env.push.value.success
  }

  /** The message of a failed push: the result's error when non-empty, the thrown message, or 'Git push failed'. */
  function PushFailureMessage(env: Collaborators): string {
    match env.push
    case Err(t) => MessageOr(t, "Git push failed")
    case Ok(p) => if p.error.Some? && p.error.value != "" then p.error.value else "Git push failed"
  }

  /** `handleGitPush`. */
  function GitPushOf(env: Collaborators): ChoiceResult {
    if !PushFailed(env) then ChoiceResult(true, GitPushKind, Some(env.push.value), None, None)
    else if env.acceptFallback then DownloadOf(env)
    else ChoiceResult(false, GitPushKind, None, None, Some(PushFailureMessage(env)))
  }

  function GitPushCalls(env: Collaborators, doc: DocumentInfo, x: ExtractionResult): seq<Call> {
    if !PushFailed(env) then [QuickPush]
    else [QuickPush, OfferFallback] + if env.acceptFallback then DownloadCalls(env, doc, x) else []
  }

  /**
   * `showChoiceUI` then `handleUserChoice`: the choice window's rejection, or the
   * handler's outcome, where an unknown choice type throws.
   */
  function ChoiceOf(env: Collaborators): Result<ChoiceResult, Thrown> {
    match env.choice
    case Err(t) => Err(t)
    case Ok(GitPushChosen) => Ok(GitPushOf(env))
    case Ok(DownloadChosen) => Ok(DownloadOf(env))
    case Ok(CancelChosen) => Ok(ChoiceResult(false, CancelKind, None, None, None))
    case Ok(UnknownChoice(t)) => Err(ErrorObject("Unknown choice type: " + t))
  }

  function ChoiceCalls(env: Collaborators, doc: DocumentInfo, x: ExtractionResult): seq<Call> {
    match env.choice
    case Ok(GitPushChosen) => GitPushCalls(env, doc, x)
    case Ok(DownloadChosen) => DownloadCalls(env, doc, x)
    case _ => []
  }

  /** The catch-all result. */
  function Failed(env: Collaborators, t: Thrown): WorkflowResult {
    WorkflowResult(false, CancelKind, None, None, None, Some(MessageOr(t, "Unknown error")), env.endTime - env.startTime)
  }

  /** A completed run: the handler's fields plus the extraction and the duration. */
  function Completed(env: Collaborators, x: ExtractionResult, c: ChoiceResult): WorkflowResult {
    WorkflowResult(c.success, c.choice, Some(x), c.gitResult, c.downloadResult, c.error, env.endTime - env.startTime)
  }

  /** `runWorkflow`'s result. */
  function Workflow(env: Collaborators): WorkflowResult {
    match env.extraction
    case Err(t) => Failed(env, t)
    case Ok(x) =>
      match ChoiceOf(env)
      case Err(t) => Failed(env, t)
      case Ok(c) => Completed(env, x, c)
  }

  /** `runWorkflow`'s collaborator calls. */
  function WorkflowCalls(env: Collaborators, doc: DocumentInfo): seq<Call> {
    match env.extraction
    case Err(_) => InitCalls(env) + [Extract]
    case Ok(x) => InitCalls(env) + [Extract] + GitStatusCalls(env) + [ChoiceCall(env, x)] + ChoiceCalls(env, doc, x)
  }

  // ---------------------------------------------------------------------------
  // Properties of the workflow
  // ---------------------------------------------------------------------------

  /**
   * The run never throws: an error escaping the steps (from the extractor, from
   * the choice window, or an unknown choice type) gives a failed cancel result with the error's message or
   * 'Unknown error' and no extraction result, and exactly those runs lack one.
   */
  lemma EscapingErrorsBecomeCancel(env: Collaborators)
    ensures env.extraction.Err? ==>
      (Workflow(env) == WorkflowResult(false, CancelKind, None, None, None,
        Some(MessageOr(env.extraction.error, "Unknown error")), env.endTime - env.startTime))
    ensures env.extraction.Ok? && env.choice.Err? ==>
      (Workflow(env) == WorkflowResult(false, CancelKind, None, None, None,
        Some(MessageOr(env.choice.error, "Unknown error")), env.endTime - env.startTime))
    ensures env.extraction.Ok? && env.choice.Ok? && env.choice.value.UnknownChoice? ==>
      (Workflow(env) == WorkflowResult(false, CancelKind, None, None, None,
        Some("Unknown choice type: " + env.choice.value.choiceType), env.endTime - env.startTime))
    ensures Workflow(env).extractionResult.None? <==>
      env.extraction.Err? || env.choice.Err? || env.choice.value.UnknownChoice?
  {
  }

  /** A run that completes carries the handler's fields, the extraction result and end minus start. */
  lemma CompletedRunShape(env: Collaborators)
    requires env.extraction.Ok? && env.choice.Ok? && !env.choice.value.UnknownChoice?
    ensures ChoiceOf(env).Ok?
    ensures var r, c := Workflow(env), ChoiceOf(env).value;
      r.extractionResult == Some(env.extraction.value) && r.duration == env.endTime - env.startTime &&
      r.success == c.success && r.choice == c.choice && r.gitResult == c.gitResult &&
      r.downloadResult == c.downloadResult && r.error == c.error
  {
  }

  /**
   * Initialisation failures are swallowed: they change neither the result nor
   * whether extraction runs. This holds by construction, since `Workflow` never
   * reads `authInit` or `pushInit`; only the calls record that the push service
   * is set up after a passing authentication start.
   */
  lemma InitializationFailuresSwallowed(env: Collaborators, doc: DocumentInfo, authInit: Outcome<Thrown>, pushInit: Outcome<Thrown>)
    ensures Workflow(env.(authInit := authInit, pushInit := pushInit)) == Workflow(env)
    ensures Extract in WorkflowCalls(env, doc)
  {
    assert WorkflowCalls(env, doc)[|InitCalls(env)|] == Extract;
  }

  /**
   * `checkGitStatus`: not configured gives a disconnected status without a
   * connection test; configured gives the test's verdict and the repository
   * string; a throw gives an unconfigured status with the error's message.
   */
  lemma GitStatusCases(env: Collaborators)
    ensures env.authConfigured == Ok(false) ==>
      GitStatusOf(env) == GitStatus(false, false, None, None) && TestConnection !in GitStatusCalls(env)
    ensures env.authConfigured == Ok(true) && env.connectionTest.Ok? ==>
      GitStatusOf(env) == GitStatus(true, env.connectionTest.value.success,
        RepositoryString(env.publicRepository), env.connectionTest.value.error)
    ensures env.authConfigured.Err? || (env.authConfigured == Ok(true) && env.connectionTest.Err?) ==>
      !GitStatusOf(env).configured && !GitStatusOf(env).connected && GitStatusOf(env).error.Some?
    ensures GitStatusOf(env).connected ==> GitStatusOf(env).configured
  {
  }

  /** The choice window is told Git is available exactly when it is configured and the connection test succeeded. */
  lemma ChoiceSeesConfiguredAndConnected(env: Collaborators, x: ExtractionResult)
    ensures ChoiceCall(env, x).hasGitConfigured <==>
      env.authConfigured == Ok(true) && env.connectionTest.Ok? && env.connectionTest.value.success
  {
  }

  /** Cancelling fails without pushing or downloading. */
  lemma CancelTouchesNothing(env: Collaborators, doc: DocumentInfo)
    requires env.extraction.Ok? && env.choice == Ok(CancelChosen)
    ensures Workflow(env) == WorkflowResult(false, CancelKind, Some(env.extraction.value), None, None, None,
      env.endTime - env.startTime)
    ensures QuickPush !in WorkflowCalls(env, doc)
    ensures forall c :: c in WorkflowCalls(env, doc) ==> !c.ShowDownload?
  {
  }

  /**
   * The push path: success is reported with the push result; a failed or
   * throwing push offers the fallback, which on acceptance is exactly the
   * download handler's result and otherwise a failed push with its message.
   */
  lemma GitPushPaths(env: Collaborators, doc: DocumentInfo, x: ExtractionResult)
    ensures !PushFailed(env) ==>
      GitPushOf(env) == ChoiceResult(true, GitPushKind, Some(env.push.value), None, None) &&
      OfferFallback !in GitPushCalls(env, doc, x)
    ensures PushFailed(env) ==> OfferFallback in GitPushCalls(env, doc, x)
    ensures PushFailed(env) && env.acceptFallback ==>
      GitPushOf(env) == DownloadOf(env) && GitPushOf(env).choice == DownloadKind
    ensures PushFailed(env) && !env.acceptFallback ==>
      GitPushOf(env) == ChoiceResult(false, GitPushKind, None, None, Some(PushFailureMessage(env)))
  {
  }

  /** A failed push whose result has no usable error message reports 'Git push failed'. */
  lemma PushFailureDefaultMessage(env: Collaborators)
    requires env.push.Ok? && !env.push.value.success
    ensures PushFailureMessage(env) == (if env.push.value.error.Some? && env.push.value.error.value != ""
      then env.push.value.error.value else "Git push failed")
    ensures PushFailureMessage(env) != ""
  {
  }

  /** `handleDownload` succeeds with `initiated` set unless showing the page throws, and always reports 'download'. */
  lemma DownloadShape(env: Collaborators, doc: DocumentInfo, x: ExtractionResult)
    ensures DownloadOf(env).choice == DownloadKind
    ensures DownloadOf(env).success <==> env.downloadPage.Pass?
    ensures DownloadOf(env).success ==> DownloadOf(env).downloadResult == Some(DownloadInfo(true))
    ensures !DownloadOf(env).success ==>
      DownloadOf(env).error == Some(MessageOr(env.downloadPage.error, "Download failed"))
    ensures |DownloadCalls(env, doc, x)| == 1 && DownloadCalls(env, doc, x)[0].dataset.tokenCounts.totalTokens == |x.tokens|
  {
  }

  // ---------------------------------------------------------------------------
  // The workflow object
  // ---------------------------------------------------------------------------

  /** The workflow: its collaborators, the document it exports and the calls made so far. */
  class ExportWorkflow {
    const env: Collaborators
    const documentInfo: DocumentInfo
    var calls: seq<Call>

    constructor(env: Collaborators, documentInfo: DocumentInfo)
      ensures this.env == env && this.documentInfo == documentInfo && calls == []
    {
      this.env := env;
      this.documentInfo := documentInfo;
      calls := [];
    }

    /** `runWorkflow`. */
    method RunWorkflow() returns (r: WorkflowResult)
      modifies this
      ensures r == Workflow(env)
      ensures calls == old(calls) + WorkflowCalls(env, documentInfo)
    {
      var startTime := env.startTime;
      InitializeServices();
      calls := calls + [Extract];
      AppendInTurn(old(calls), InitCalls(env), [Extract]);
      if env.extraction.Err? {
        r := WorkflowResult(false, CancelKind, None, None, None,
          Some(MessageOr(env.extraction.error, "Unknown error")), env.endTime - startTime);
        return;
      }
      var extractionResult := env.extraction.value;
      ghost var done := InitCalls(env) + [Extract];
      var gitStatus := CheckGitStatus();
      AppendInTurn(old(calls), done, GitStatusCalls(env));
      done := done + GitStatusCalls(env);
      calls := calls + [ShowChoice(gitStatus.configured && gitStatus.connected, gitStatus.repository,
        env.choiceTime - extractionResult.extractedAt)];
      AppendInTurn(old(calls), done, [ChoiceCall(env, extractionResult)]);
      done := done + [ChoiceCall(env, extractionResult)];
      if env.choice.Err? {
        assert done + ChoiceCalls(env, documentInfo, extractionResult) == done;
        r := WorkflowResult(false, CancelKind, None, None, None,
          Some(MessageOr(env.choice.error, "Unknown error")), env.endTime - startTime);
        return;
      }
      var outcome := HandleUserChoice(env.choice.value, extractionResult);
      AppendInTurn(old(calls), done, ChoiceCalls(env, documentInfo, extractionResult));
      if outcome.Err? {
        r := WorkflowResult(false, CancelKind, None, None, None,
          Some(MessageOr(outcome.error, "Unknown error")), env.endTime - startTime);
        return;
      }
      var c := outcome.value;
      assert Workflow(env) == Completed(env, extractionResult, c);
      r := WorkflowResult(c.success, c.choice, Some(extractionResult), c.gitResult, c.downloadResult, c.error,
        env.endTime - startTime);
    }

    /** `initializeServices`: failures are logged and swallowed. */
    method InitializeServices()
      modifies this
      ensures calls == old(calls) + InitCalls(env)
    {
      calls := calls + [InitAuth];
      if env.authInit.Pass? {
        calls := calls + [InitPushService];
      }
    }

    /** `checkGitStatus`. */
    method CheckGitStatus() returns (status: GitStatus)
      modifies this
      ensures status == GitStatusOf(env)
      ensures calls == old(calls) + GitStatusCalls(env)
    {
      calls := calls + [ReadAuthState];
      if env.authConfigured.Err? {
        return GitStatus(false, false, None, Some(MessageOr(env.authConfigured.error, "Git check failed")));
      }
      if !env.authConfigured.value {
        return GitStatus(false, false, None, None);
      }
      calls := calls + [TestConnection];
      if env.connectionTest.Err? {
        return GitStatus(false, false, None, Some(MessageOr(env.connectionTest.error, "Git check failed")));
      }
      var test := env.connectionTest.value;
      status := GitStatus(true, test.success, RepositoryString(env.publicRepository), test.error);
    }

    /** `handleUserChoice`. */
    method HandleUserChoice(choice: ExportChoice, extractionResult: ExtractionResult) returns (r: Result<ChoiceResult, Thrown>)
      requires env.choice == Ok(choice)
      modifies this
      ensures r == ChoiceOf(env)
      ensures calls == old(calls) + ChoiceCalls(env, documentInfo, extractionResult)
    {
      match choice
      case GitPushChosen =>
        var c := HandleGitPush(extractionResult);
        r := Ok(c);
      case DownloadChosen =>
        var c := HandleDownload(extractionResult);
        r := Ok(c);
      case CancelChosen =>
        r := Ok(ChoiceResult(false, CancelKind, None, None, None));
      case UnknownChoice(t) =>
        r := Err(ErrorObject("Unknown choice type: " + t));
    }

    /** `handleGitPush`. */
    method HandleGitPush(extractionResult: ExtractionResult) returns (r: ChoiceResult)
      modifies this
      ensures r == GitPushOf(env)
      ensures calls == old(calls) + GitPushCalls(env, documentInfo, extractionResult)
    {
      calls := calls + [QuickPush];
      if env.push.Ok? && env.push.value.success {
        return ChoiceResult(true, GitPushKind, Some(env.push.value), None, None);
      }
      var errorMessage := PushFailureMessage(env);
      calls := calls + [OfferFallback];
      if env.acceptFallback {
        r := HandleDownload(extractionResult);
        return;
      }
      r := ChoiceResult(false, GitPushKind, None, None, Some(errorMessage));
    }

    /** `handleDownload`. */
    method HandleDownload(extractionResult: ExtractionResult) returns (r: ChoiceResult)
      modifies this
      ensures r == DownloadOf(env)
      ensures calls == old(calls) + DownloadCalls(env, documentInfo, extractionResult)
    {
      var extractionDuration := env.downloadTime - extractionResult.extractedAt;
      ghost var before := calls;
      var outcome := TriggerDownload(extractionResult, extractionDuration);
      assert calls == before + DownloadCalls(env, documentInfo, extractionResult);
      if outcome.Fail? {
        return ChoiceResult(false, DownloadKind, None, None, Some(MessageOr(outcome.error, "Download failed")));
      }
      r := ChoiceResult(true, DownloadKind, None, Some(DownloadInfo(true)), None);
    }

    /** `triggerDownload`: builds the dataset and file name and shows the download page. */
    method TriggerDownload(result: ExtractionResult, extractionDuration: int) returns (outcome: Outcome<Thrown>)
      modifies this
      ensures outcome == env.downloadPage
      ensures calls == old(calls) +
        [ShowDownload(DownloadFileName(env.filenameIso), CreateJsonDataset(result, extractionDuration, documentInfo, env.exportIso))]
    {
      var dataset := CreateJsonDataset(result, extractionDuration, documentInfo, env.exportIso);
      var filename := DownloadFileName(env.filenameIso);
      calls := calls + [ShowDownload(filename, dataset)];
      outcome := env.downloadPage;
    }
  }
}
