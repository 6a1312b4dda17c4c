/**
 * The GitHub integration facade (src/github/GitHubIntegration.ts): setup from
 * a repository URL, the connection status, extract-and-push, pushing existing
 * tokens, listing repositories, and the small pure helpers around them.
 *
 * The configuration manager, the URL parser, the token extractor and the clock
 * are inputs: a `Collaborators` record says what each call answers, and the
 * integration object records the calls it makes, in order.
 */
module GitHubIntegrationModel {
  import opened Wrappers
  import Export = ExportWorkflowModel

  type Thrown = Export.Thrown

  // ---------------------------------------------------------------------------
  // Data
  // ---------------------------------------------------------------------------

  datatype RepoInfo = RepoInfo(owner: string, name: string)

  /** The argument of `setupGitHubIntegration`. */
  datatype SetupConfig = SetupConfig(token: string, repositoryUrl: string, branch: Option<string>)

  datatype RepositoryConfig = RepositoryConfig(owner: string, name: string, branch: string)
  datatype Paths = Paths(rawTokens: string, processedTokens: string)
  datatype SetupRequest = SetupRequest(token: string, repository: RepositoryConfig, paths: Paths)

  datatype Permissions = Permissions(canWrite: bool)

  /** A connection test result: the permissions found and the user's login. */
  datatype TestResult = TestResult(permissions: Option<Permissions>, userLogin: Option<string>)

  datatype SetupOutcome = SetupOutcome(success: bool, error: Option<string>, testResult: Option<TestResult>)

  /** `getConfiguration()` of the configuration manager. */
  datatype Configuration = Configuration(
    isConfigured: bool,
    isConnected: bool,
    repository: Option<RepositoryConfig>,
    lastTestResult: Option<TestResult>)

  datatype StatusInfo = StatusInfo(status: string, message: string)

  datatype ConnectionStatus = ConnectionStatus(
    isConfigured: bool,
    isConnected: bool,
    status: string,
    message: string,
    canPush: bool)

  datatype ExtractionMetadata = ExtractionMetadata(
    documentName: string,
    documentId: string,
    processedNodes: int,
    totalNodes: int,
    errors: seq<string>,
    warnings: seq<string>)

  /** The extractor's result; tokens, variables and collections are kept as their serialised text. */
  datatype ExtractionResult = ExtractionResult(
    tokens: seq<string>,
    variables: seq<string>,
    collections: seq<string>,
    metadata: ExtractionMetadata)

  datatype SourceDocument = SourceDocument(name: string, id: string)
  datatype TokenCounts = TokenCounts(totalTokens: int, totalVariables: int, totalCollections: int)
  datatype ExtractionSummary = ExtractionSummary(processedNodes: int, totalNodes: int, errors: int, warnings: int)
  datatype DatasetMetadata = DatasetMetadata(
    exportTimestamp: string,
    sourceDocument: SourceDocument,
    tokenCounts: TokenCounts,
    extraction: ExtractionSummary)

  /** The document pushed to the repository. */
  datatype TokenDataset = TokenDataset(
    metadata: DatasetMetadata,
    variables: seq<string>,
    collections: seq<string>,
    designTokens: seq<string>)

  datatype PushOptions = PushOptions(commitMessage: string, branchName: Option<string>)

  datatype PushResult = PushResult(success: bool, error: Option<string>, filesCreated: seq<string>, filesUpdated: seq<string>)

  /** The options of `extractAndPushTokens`; an omitted options object is `NoExtractOptions`. */
  datatype ExtractOptions = ExtractOptions(
    commitMessage: Option<string>,
    branchName: Option<string>,
    skipExtraction: bool,
    existingTokens: Option<ExtractionResult>)

  const NoExtractOptions := ExtractOptions(None, None, false, None)

  datatype WorkflowOutcome = WorkflowOutcome(
    success: bool,
    extractionResult: Option<ExtractionResult>,
    pushResult: Option<PushResult>,
    error: Option<string>)

  datatype PushExistingOutcome = PushExistingOutcome(success: bool, result: Option<PushResult>, error: Option<string>)

  /** A repository as the GitHub API lists it. */
  datatype RawRepository = RawRepository(
    name: string,
    fullName: string,
    description: Option<string>,
    isPrivate: bool,
    defaultBranch: string,
    pushPermission: Option<bool>)

  datatype ListResult = ListResult(success: bool, repositories: Option<seq<RawRepository>>, error: Option<string>)

  datatype RepositorySummary = RepositorySummary(
    name: string,
    fullName: string,
    description: string,
    isPrivate: bool,
    defaultBranch: string,
    canPush: bool)

  datatype RepositoriesOutcome = RepositoriesOutcome(
    success: bool,
    repositories: Option<seq<RepositorySummary>>,
    error: Option<string>)

  datatype UrlValidation = UrlValidation(valid: bool, parsed: Option<RepoInfo>, error: Option<string>)

  datatype ConfigurationInfo = ConfigurationInfo(
    isConfigured: bool,
    repository: Option<string>,
    branch: Option<string>,
    isConnected: bool,
    lastTest: Option<string>)

  /** What every collaborator answers during one use of the integration. */
  datatype Collaborators = Collaborators(
    parseUrl: string -> Option<RepoInfo>,
    setup: Result<SetupOutcome, Thrown>,
    connectionTest: Result<TestResult, Thrown>,
    configuration: Configuration,
    statusInfo: StatusInfo,
    extraction: Result<ExtractionResult, Thrown>,
    push: Result<PushResult, Thrown>,
    generatedCommitMessage: string,
    repositoryList: Result<ListResult, Thrown>,
    exportIso: string)

  /** The calls on the configuration manager and the extractor, in order. */
  datatype Call =
    | SetupGitHub(request: SetupRequest)
    | TestConnection
    | ReadConfiguration
    | ReadStatusMessage
    | ExtractAllTokens
    | PushTokens(dataset: TokenDataset, options: PushOptions)
    | ListRepositories

  const InvalidUrlMessage := "Invalid repository URL format. Use: owner/repo or https://github.com/owner/repo"
  const DefaultBranch := "main"
  const RawTokensPath := "design-tokens/raw/figma-export.json"
  const ProcessedTokensPath := "design-tokens/tokens/"
  const NoTokensMessage := "No tokens to push - extraction skipped and no existing tokens provided"
  const PushFailedMessage := "Failed to push tokens to GitHub"

  /** `s || fallback` for an optional string. */
  function OrElse(s: Option<string>, fallback: string): (r: string)
    ensures s.Some? && s.value != "" ==> r == s.value
    ensures s.None? || s.value == "" ==> r == fallback
  {
    if s.Some? && s.value != "" then s.value else fallback
  }

  // ---------------------------------------------------------------------------
  // setupGitHubIntegration
  // ---------------------------------------------------------------------------

  function SetupRequestFor(config: SetupConfig, info: RepoInfo): SetupRequest {
    SetupRequest(config.token,
                 RepositoryConfig(info.owner, info.name, OrElse(config.branch, DefaultBranch)),
                 Paths(RawTokensPath, ProcessedTokensPath))
  }

  function SetupOf(env: Collaborators, config: SetupConfig): SetupOutcome {
    match env.parseUrl(config.repositoryUrl)
    case None => SetupOutcome(false, Some(InvalidUrlMessage), None)
    case Some(info) =>
      match env.setup
      case Err(t) => SetupOutcome(false, Some(Export.MessageOr(t, "Setup failed")), None)
      case Ok(setupResult) =>
        if !setupResult.success then setupResult
        else match env.connectionTest
          case Err(t) => SetupOutcome(false, Some(Export.MessageOr(t, "Setup failed")), None)
          case Ok(testResult) => SetupOutcome(true, None, Some(testResult))
  }

  function SetupCalls(env: Collaborators, config: SetupConfig): seq<Call> {
    match env.parseUrl(config.repositoryUrl)
    case None => []
    case Some(info) =>
      var setup := [SetupGitHub(SetupRequestFor(config, info))];
      if env.setup.Ok? && env.setup.value.success then setup + [TestConnection] else setup
  }

  /** An unparseable URL fails with the format message before any call is made. */
  lemma UnparseableUrlFails(env: Collaborators, config: SetupConfig)
    requires env.parseUrl(config.repositoryUrl).None?
    ensures SetupOf(env, config) == SetupOutcome(false, Some(InvalidUrlMessage), None)
    ensures SetupCalls(env, config) == []
  {
  }

  /** A parsed URL leads to one setup call with the branch (default 'main') and the two fixed paths. */
  lemma SetupRequestShape(env: Collaborators, config: SetupConfig)
    requires env.parseUrl(config.repositoryUrl).Some?
    ensures |SetupCalls(env, config)| >= 1
    ensures SetupCalls(env, config)[0].SetupGitHub?
    ensures SetupCalls(env, config)[0].request.token == config.token
    ensures SetupCalls(env, config)[0].request.repository.owner == env.parseUrl(config.repositoryUrl).value.owner
    ensures SetupCalls(env, config)[0].request.repository.name == env.parseUrl(config.repositoryUrl).value.name
    ensures config.branch.None? || config.branch == Some("") ==>
      SetupCalls(env, config)[0].request.repository.branch == DefaultBranch
    ensures config.branch.Some? && config.branch.value != "" ==>
      SetupCalls(env, config)[0].request.repository.branch == config.branch.value
    ensures SetupCalls(env, config)[0].request.paths == Paths("design-tokens/raw/figma-export.json", "design-tokens/tokens/")
  {
  }

  /** A failed setup result comes back unchanged and no connection test is run. */
  lemma FailedSetupReturnedAsIs(env: Collaborators, config: SetupConfig)
    requires env.parseUrl(config.repositoryUrl).Some? && env.setup.Ok? && !env.setup.value.success
    ensures SetupOf(env, config) == env.setup.value
    ensures TestConnection !in SetupCalls(env, config)
  {
  }

  /** Setup succeeds exactly when the URL parses, setup succeeds and the connection test returns; it carries that test. */
  lemma SetupSuccessIff(env: Collaborators, config: SetupConfig)
    ensures SetupOf(env, config).success <==>
      env.parseUrl(config.repositoryUrl).Some? && env.setup.Ok? && env.setup.value.success && env.connectionTest.Ok?
    ensures SetupOf(env, config).success ==>
      env.connectionTest.Ok? && SetupOf(env, config).testResult == Some(env.connectionTest.value)
  {
  }

  // ---------------------------------------------------------------------------
  // getConnectionStatus
  // ---------------------------------------------------------------------------

  function StatusOf(config: Configuration, info: StatusInfo): (r: ConnectionStatus)
    ensures r.canPush <==> (config.isConnected && config.lastTestResult.Some?
                            && config.lastTestResult.value.permissions.Some?
                            && config.lastTestResult.value.permissions.value.canWrite)
    ensures r.isConfigured == config.isConfigured && r.isConnected == config.isConnected
    ensures r.status == info.status && r.message == info.message
  {
    var canWrite := match config.lastTestResult
      case Some(TestResult(Some(permissions), _)) => permissions.canWrite
      case _ => false;
    ConnectionStatus(config.isConfigured, config.isConnected, info.status, info.message, config.isConnected && canWrite)
  }

  // ---------------------------------------------------------------------------
  // createTokenDataset
  // ---------------------------------------------------------------------------

  function CreateTokenDataset(e: ExtractionResult, exportIso: string): (d: TokenDataset)
    ensures d.metadata.tokenCounts == TokenCounts(|e.tokens|, |e.variables|, |e.collections|)
    ensures d.metadata.extraction.errors == |e.metadata.errors| && d.metadata.extraction.warnings == |e.metadata.warnings|
    ensures d.metadata.extraction.processedNodes == e.metadata.processedNodes
    ensures d.metadata.extraction.totalNodes == e.metadata.totalNodes
    ensures d.metadata.sourceDocument == SourceDocument(e.metadata.documentName, e.metadata.documentId)
    ensures d.metadata.exportTimestamp == exportIso
    ensures d.variables == e.variables && d.collections == e.collections && d.designTokens == e.tokens
  {
    TokenDataset(
      DatasetMetadata(
        exportIso,
        SourceDocument(e.metadata.documentName, e.metadata.documentId),
        TokenCounts(|e.tokens|, |e.variables|, |e.collections|),
        ExtractionSummary(e.metadata.processedNodes, e.metadata.totalNodes, |e.metadata.errors|, |e.metadata.warnings|)),
      e.variables, e.collections, e.tokens)
  }

  // ---------------------------------------------------------------------------
  // extractAndPushTokens
  // ---------------------------------------------------------------------------

  function Failed(message: string): WorkflowOutcome {
    WorkflowOutcome(false, None, None, Some(message))
  }

  /** The tokens to push: freshly extracted, the ones given, or the error that stops the run. */
  function TokensFor(env: Collaborators, options: ExtractOptions): Result<ExtractionResult, string> {
    if !options.skipExtraction then
      match env.extraction
      case Ok(e) => Ok(e)
      case Err(t) => Err(Export.MessageOr(t, "Workflow failed"))
    else if options.existingTokens.Some? then Ok(options.existingTokens.value)
    else Err(NoTokensMessage)
  }

  function PushOptionsFor(env: Collaborators, options: ExtractOptions): PushOptions {
    PushOptions(OrElse(options.commitMessage, env.generatedCommitMessage), options.branchName)
  }

  function ExtractAndPushOf(env: Collaborators, options: ExtractOptions): WorkflowOutcome {
    var status := StatusOf(env.configuration, env.statusInfo);
    if !status.canPush then Failed("Cannot push to GitHub: " + status.message)
    else match TokensFor(env, options)
      case Err(message) => Failed(message)
      case Ok(e) =>
        match env.push
        case Err(t) => Failed(Export.MessageOr(t, "Workflow failed"))
        case Ok(pushResult) =>
          if !pushResult.success then Failed(OrElse(pushResult.error, PushFailedMessage))
          else WorkflowOutcome(true, Some(e), Some(pushResult), None)
  }

  function ExtractAndPushCalls(env: Collaborators, options: ExtractOptions): seq<Call> {
    var statusCalls := [ReadConfiguration, ReadStatusMessage];
    if !StatusOf(env.configuration, env.statusInfo).canPush then statusCalls
    else
      var extractCalls := if !options.skipExtraction then [ExtractAllTokens] else [];
      match TokensFor(env, options)
      case Err(_) => statusCalls + extractCalls
      case Ok(e) =>
        statusCalls + extractCalls + [PushTokens(CreateTokenDataset(e, env.exportIso), PushOptionsFor(env, options))]
  }

  /** Without push permission the run fails with the status message and neither extracts nor pushes. */
  lemma CannotPushTouchesNothing(env: Collaborators, options: ExtractOptions)
    requires !StatusOf(env.configuration, env.statusInfo).canPush
    ensures ExtractAndPushOf(env, options) == Failed("Cannot push to GitHub: " + env.statusInfo.message)
    ensures ExtractAndPushCalls(env, options) == [ReadConfiguration, ReadStatusMessage]
  {
  }

  /** Skipping extraction pushes the given tokens without calling the extractor, or fails when none are given. */
  lemma SkippedExtraction(env: Collaborators, options: ExtractOptions)
    requires StatusOf(env.configuration, env.statusInfo).canPush && options.skipExtraction
    ensures ExtractAllTokens !in ExtractAndPushCalls(env, options)
    ensures options.existingTokens.None? ==>
      ExtractAndPushOf(env, options) == Failed(NoTokensMessage)
      && ExtractAndPushCalls(env, options) == [ReadConfiguration, ReadStatusMessage]
    ensures options.existingTokens.Some? ==>
      ExtractAndPushCalls(env, options)
      == [ReadConfiguration, ReadStatusMessage,
          PushTokens(CreateTokenDataset(options.existingTokens.value, env.exportIso), PushOptionsFor(env, options))]
  {
  }

  /** An unsuccessful push fails with its own error, or the default message when it gives none. */
  lemma PushFailureMessage(env: Collaborators, options: ExtractOptions)
    requires StatusOf(env.configuration, env.statusInfo).canPush && TokensFor(env, options).Ok?
    requires env.push.Ok? && !env.push.value.success
    ensures !ExtractAndPushOf(env, options).success
    ensures env.push.value.error.Some? && env.push.value.error.value != "" ==>
      ExtractAndPushOf(env, options).error == env.push.value.error
    ensures env.push.value.error.None? || env.push.value.error == Some("") ==>
      ExtractAndPushOf(env, options).error == Some("Failed to push tokens to GitHub")
  {
  }

  /** The run succeeds exactly when pushing is allowed, tokens are at hand and the push reports success. */
  lemma ExtractAndPushSuccessIff(env: Collaborators, options: ExtractOptions)
    ensures ExtractAndPushOf(env, options).success <==>
      && StatusOf(env.configuration, env.statusInfo).canPush
      && TokensFor(env, options).Ok?
      && env.push.Ok? && env.push.value.success
    ensures ExtractAndPushOf(env, options).success ==>
      && ExtractAndPushOf(env, options).extractionResult == Some(TokensFor(env, options).value)
      && env.push.Ok?
      && ExtractAndPushOf(env, options).pushResult == Some(env.push.value)
      && ExtractAndPushOf(env, options).error.None?
    ensures !ExtractAndPushOf(env, options).success ==> ExtractAndPushOf(env, options).error.Some?
  {
  }

  // ---------------------------------------------------------------------------
  // pushExistingTokens
  // ---------------------------------------------------------------------------

  function PushExistingOf(env: Collaborators, commitMessage: Option<string>): PushExistingOutcome {
    var status := StatusOf(env.configuration, env.statusInfo);
    if !status.canPush then PushExistingOutcome(false, None, Some("Cannot push to GitHub: " + status.message))
    else match env.push
      case Err(t) => PushExistingOutcome(false, None, Some(Export.MessageOr(t, "Push failed")))
      case Ok(result) => PushExistingOutcome(result.success, Some(result), result.error)
  }

  function PushExistingCalls(env: Collaborators, tokens: TokenDataset, commitMessage: Option<string>): seq<Call> {
    var statusCalls := [ReadConfiguration, ReadStatusMessage];
    if !StatusOf(env.configuration, env.statusInfo).canPush then statusCalls
    else statusCalls + [PushTokens(tokens, PushOptions(OrElse(commitMessage, env.generatedCommitMessage), None))]
  }

  /** Pushing existing tokens reports the push's own success and error once pushing is allowed. */
  lemma PushExistingMeaning(env: Collaborators, tokens: TokenDataset, commitMessage: Option<string>)
    ensures !StatusOf(env.configuration, env.statusInfo).canPush ==>
      !PushExistingOf(env, commitMessage).success && |PushExistingCalls(env, tokens, commitMessage)| == 2
    ensures StatusOf(env.configuration, env.statusInfo).canPush && env.push.Ok? ==>
      PushExistingOf(env, commitMessage).success == env.push.value.success
      && PushExistingOf(env, commitMessage).error == env.push.value.error
    ensures StatusOf(env.configuration, env.statusInfo).canPush ==>
      PushExistingCalls(env, tokens, commitMessage)[2].dataset == tokens
  {
  }

  // ---------------------------------------------------------------------------
  // listRepositories, validateRepositoryUrl, getConfigurationInfo
  // ---------------------------------------------------------------------------

  /** One repository as the plugin presents it: no description becomes '', no push permission becomes false. */
  function Summary(r: RawRepository): (s: RepositorySummary)
    ensures s.name == r.name && s.fullName == r.fullName && s.isPrivate == r.isPrivate
    ensures s.defaultBranch == r.defaultBranch
    ensures s.description == (if r.description.Some? then r.description.value else "")
    ensures s.canPush <==> r.pushPermission == Some(true)
  {
    RepositorySummary(r.name, r.fullName, OrElse(r.description, ""), r.isPrivate, r.defaultBranch,
                      r.pushPermission == Some(true))
  }

  function Summaries(rs: seq<RawRepository>): (r: seq<RepositorySummary>)
    ensures |r| == |rs| && forall i :: 0 <= i < |rs| ==> r[i] == Summary(rs[i])
  {
    seq(|rs|, i requires 0 <= i < |rs| => Summary(rs[i]))
  }

  function RepositoriesOf(env: Collaborators): (r: RepositoriesOutcome)
    ensures r.success <==> env.repositoryList.Ok? && env.repositoryList.value.success
    ensures r.success ==> r.repositories.Some?
    ensures r.success && env.repositoryList.value.repositories.None? ==> r.repositories == Some([])
    ensures r.success && env.repositoryList.value.repositories.Some? ==>
      r.repositories == Some(Summaries(env.repositoryList.value.repositories.value))
  {
    match env.repositoryList
    case Err(t) => RepositoriesOutcome(false, None, Some(Export.MessageOr(t, "Failed to list repositories")))
    case Ok(list) =>
      if !list.success then RepositoriesOutcome(false, None, list.error)
      else
        var repositories := if list.repositories.Some? then Summaries(list.repositories.value) else [];
        RepositoriesOutcome(true, Some(repositories), None)
  }

  function ValidateRepositoryUrl(parseUrl: string -> Option<RepoInfo>, url: string): (r: UrlValidation)
    ensures r.valid <==> parseUrl(url).Some?
    ensures r.valid ==> r.parsed == parseUrl(url) && r.error.None?
    ensures !r.valid ==> r.parsed.None? && r.error == Some(InvalidUrlMessage)
  {
    match parseUrl(url)
    case None => UrlValidation(false, None, Some(InvalidUrlMessage))
    case Some(parsed) => UrlValidation(true, Some(parsed), None)
  }

  /** Setup and `validateRepositoryUrl` agree on which URLs are acceptable, and give the same message otherwise. */
  lemma ValidationAgreesWithSetup(env: Collaborators, config: SetupConfig)
    ensures !ValidateRepositoryUrl(env.parseUrl, config.repositoryUrl).valid ==>
      SetupOf(env, config).error == ValidateRepositoryUrl(env.parseUrl, config.repositoryUrl).error
    ensures ValidateRepositoryUrl(env.parseUrl, config.repositoryUrl).valid <==> SetupCalls(env, config) != []
  {
  }

  function ConfigurationInfoOf(config: Configuration): (r: ConfigurationInfo)
    ensures r.isConfigured == config.isConfigured && r.isConnected == config.isConnected
    ensures r.repository.Some? <==> config.repository.Some?
    ensures r.branch.Some? <==> config.repository.Some?
    ensures config.repository.Some? ==>
      r.repository == Some(config.repository.value.owner + "/" + config.repository.value.name)
      && r.branch == Some(config.repository.value.branch)
    ensures r.lastTest == (if config.lastTestResult.Some? then config.lastTestResult.value.userLogin else None)
  {
    ConfigurationInfo(
      config.isConfigured,
      if config.repository.Some? then Some(config.repository.value.owner + "/" + config.repository.value.name) else None,
      if config.repository.Some? then Some(config.repository.value.branch) else None,
      config.isConnected,
      match config.lastTestResult
      case Some(test) => test.userLogin
      case None => None)
  }

  // ---------------------------------------------------------------------------
  // The integration object
  // ---------------------------------------------------------------------------

  class GitHubIntegration {
    const env: Collaborators
    var calls: seq<Call>

    constructor(env: Collaborators)
      ensures this.env == env && calls == []
    {
      this.env := env;
      calls := [];
    }

    method SetupGitHubIntegration(config: SetupConfig) returns (r: SetupOutcome)
      modifies this
      ensures r == SetupOf(env, config)
      ensures calls == old(calls) + SetupCalls(env, config)
    {
      var repoInfo := env.parseUrl(config.repositoryUrl);
      if repoInfo.None? {
        return SetupOutcome(false, Some(InvalidUrlMessage), None);
      }
      var request := SetupRequest(
        config.token,
        RepositoryConfig(repoInfo.value.owner, repoInfo.value.name, OrElse(config.branch, DefaultBranch)),
        Paths(RawTokensPath, ProcessedTokensPath));
      calls := calls + [SetupGitHub(request)];
      if env.setup.Err? {
        return SetupOutcome(false, Some(Export.MessageOr(env.setup.error, "Setup failed")), None);
      }
      var setupResult := env.setup.value;
      if !setupResult.success {
        return setupResult;
      }
      calls := calls + [TestConnection];
      if env.connectionTest.Err? {
        return SetupOutcome(false, Some(Export.MessageOr(env.connectionTest.error, "Setup failed")), None);
      }
      r := SetupOutcome(true, None, Some(env.connectionTest.value));
    }

    method GetConnectionStatus() returns (status: ConnectionStatus)
      modifies this
      ensures status == StatusOf(env.configuration, env.statusInfo)
      ensures calls == old(calls) + [ReadConfiguration, ReadStatusMessage]
    {
      var config := env.configuration;
      calls := calls + [ReadConfiguration];
      var statusInfo := env.statusInfo;
      calls := calls + [ReadStatusMessage];
      var canWrite := config.lastTestResult.Some? && config.lastTestResult.value.permissions.Some?
                      && config.lastTestResult.value.permissions.value.canWrite;
      status := ConnectionStatus(config.isConfigured, config.isConnected, statusInfo.status, statusInfo.message,
                                 config.isConnected && canWrite);
    }

    method ExtractAndPushTokens(options: ExtractOptions) returns (r: WorkflowOutcome)
      modifies this
      ensures r == ExtractAndPushOf(env, options)
      ensures calls == old(calls) + ExtractAndPushCalls(env, options)
    {
      var status := GetConnectionStatus();
      if !status.canPush {
        return Failed("Cannot push to GitHub: " + status.message);
      }
      var extractionResult: ExtractionResult;
      if !options.skipExtraction {
        calls := calls + [ExtractAllTokens];
        if env.extraction.Err? {
          return Failed(Export.MessageOr(env.extraction.error, "Workflow failed"));
        }
        extractionResult := env.extraction.value;
      } else if options.existingTokens.Some? {
        extractionResult := options.existingTokens.value;
      } else {
        return Failed(NoTokensMessage);
      }
      var tokenDataset := CreateTokenDataset(extractionResult, env.exportIso);
      var pushOptions := PushOptions(OrElse(options.commitMessage, env.generatedCommitMessage), options.branchName);
      calls := calls + [PushTokens(tokenDataset, pushOptions)];
      if env.push.Err? {
        return Failed(Export.MessageOr(env.push.error, "Workflow failed"));
      }
      var pushResult := env.push.value;
      if !pushResult.success {
        return Failed(OrElse(pushResult.error, PushFailedMessage));
      }
      r := WorkflowOutcome(true, Some(extractionResult), Some(pushResult), None);
    }

    method PushExistingTokens(tokens: TokenDataset, commitMessage: Option<string>) returns (r: PushExistingOutcome)
      modifies this
      ensures r == PushExistingOf(env, commitMessage)
      ensures calls == old(calls) + PushExistingCalls(env, tokens, commitMessage)
    {
      var status := GetConnectionStatus();
      if !status.canPush {
        return PushExistingOutcome(false, None, Some("Cannot push to GitHub: " + status.message));
      }
      calls := calls + [PushTokens(tokens, PushOptions(OrElse(commitMessage, env.generatedCommitMessage), None))];
      if env.push.Err? {
        return PushExistingOutcome(false, None, Some(Export.MessageOr(env.push.error, "Push failed")));
      }
      var result := env.push.value;
      r := PushExistingOutcome(result.success, Some(result), result.error);
    }

    method ListRepositoriesOf() returns (r: RepositoriesOutcome)
      modifies this
      ensures r == RepositoriesOf(env)
      ensures calls == old(calls) + [ListRepositories]
    {
      calls := calls + [ListRepositories];
      if env.repositoryList.Err? {
        return RepositoriesOutcome(false, None, Some(Export.MessageOr(env.repositoryList.error, "Failed to list repositories")));
      }
      var result := env.repositoryList.value;
      if !result.success {
        return RepositoriesOutcome(false, None, result.error);
      }
      var repositories := if result.repositories.Some? then Summaries(result.repositories.value) else [];
      r := RepositoriesOutcome(true, Some(repositories), None);
    }

    method GetConfigurationInfo() returns (info: ConfigurationInfo)
      modifies this
      ensures info == ConfigurationInfoOf(env.configuration)
      ensures calls == old(calls) + [ReadConfiguration]
    {
      calls := calls + [ReadConfiguration];
      info := ConfigurationInfoOf(env.configuration);
    }
  }
}
