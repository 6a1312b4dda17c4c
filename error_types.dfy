/**
 * The plugin's error taxonomy: the categories, severities and codes, the constant
 * registry that gives each code its user-facing metadata, and the classifier that maps
 * a thrown value to one code by a first-match cascade of status and keyword tests.
 */
module ErrorTypes {
  import opened Wrappers
  import opened JsStrings

  // ---------------------------------------------------------------------------
  // Enumerations
  // ---------------------------------------------------------------------------

  datatype ErrorCategory =
    | Authentication | Authorization | Network | Validation | Repository
    | GitOperation | Configuration | RateLimit | Unknown

  /** The string value of each category member. */
  function CategoryName(c: ErrorCategory): string {
    match c
    case Authentication => "authentication"
    case Authorization => "authorization"
    case Network => "network"
    case Validation => "validation"
    case Repository => "repository"
    case GitOperation => "git_operation"
    case Configuration => "configuration"
    case RateLimit => "rate_limit"
    case Unknown => "unknown"
  }

  datatype ErrorSeverity = Critical | High | Medium | Low

  /** The string value of each severity member. */
  function SeverityName(s: ErrorSeverity): string {
    match s
    case Critical => "critical"
    case High => "high"
    case Medium => "medium"
    case Low => "low"
  }

  datatype ErrorCode =
    | AuthTokenInvalid | AuthTokenExpired | AuthTokenMissing | AuthBadCredentials
    | AuthzInsufficientPermissions | AuthzRepoAccessDenied | AuthzBranchProtected
    | NetConnectionFailed | NetTimeout | NetOffline
    | RepoNotFound | RepoInvalidName | RepoBranchNotFound | RepoFileNotFound
    | GitCreateBranchFailed | GitPushFailed | GitCreatePrFailed | GitCommitFailed | GitRefNotFound
    | ConfigInvalid | ConfigMissing
    | RateLimitExceeded
    | ExtractionNoTokens
    | UnknownError

  /** The string value of each code member (the member's own name). */
  function CodeName(c: ErrorCode): string {
    match c
    case AuthTokenInvalid => "AUTH_TOKEN_INVALID"
    case AuthTokenExpired => "AUTH_TOKEN_EXPIRED"
    case AuthTokenMissing => "AUTH_TOKEN_MISSING"
    case AuthBadCredentials => "AUTH_BAD_CREDENTIALS"
    case AuthzInsufficientPermissions => "AUTHZ_INSUFFICIENT_PERMISSIONS"
    case AuthzRepoAccessDenied => "AUTHZ_REPO_ACCESS_DENIED"
    case AuthzBranchProtected => "AUTHZ_BRANCH_PROTECTED"
    case NetConnectionFailed => "NET_CONNECTION_FAILED"
    case NetTimeout => "NET_TIMEOUT"
    case NetOffline => "NET_OFFLINE"
    case RepoNotFound => "REPO_NOT_FOUND"
    case RepoInvalidName => "REPO_INVALID_NAME"
    case RepoBranchNotFound => "REPO_BRANCH_NOT_FOUND"
    case RepoFileNotFound => "REPO_FILE_NOT_FOUND"
    case GitCreateBranchFailed => "GIT_CREATE_BRANCH_FAILED"
    case GitPushFailed => "GIT_PUSH_FAILED"
    case GitCreatePrFailed => "GIT_CREATE_PR_FAILED"
    case GitCommitFailed => "GIT_COMMIT_FAILED"
    case GitRefNotFound => "GIT_REF_NOT_FOUND"
    case ConfigInvalid => "CONFIG_INVALID"
    case ConfigMissing => "CONFIG_MISSING"
    case RateLimitExceeded => "RATE_LIMIT_EXCEEDED"
    case ExtractionNoTokens => "EXTRACTION_NO_TOKENS"
    case UnknownError => "UNKNOWN_ERROR"
  }

  // ---------------------------------------------------------------------------
  // Registry
  // ---------------------------------------------------------------------------

  datatype ErrorSolution = ErrorSolution(step: int, action: string, details: Option<string>)

  /** A registry entry: the metadata of a code, without the code itself. */
  datatype RegistryEntry = RegistryEntry(
    category: ErrorCategory,
    severity: ErrorSeverity,
    title: string,
    userMessage: string,
    technicalMessage: string,
    solutions: seq<ErrorSolution>,
    learnMoreUrl: Option<string>,
    retryable: bool,
    fallbackAvailable: bool)

  /** The metadata of a classified error. */
  datatype ErrorMetadata = ErrorMetadata(
    category: ErrorCategory,
    severity: ErrorSeverity,
    code: ErrorCode,
    title: string,
    userMessage: string,
    technicalMessage: string,
    solutions: seq<ErrorSolution>,
    learnMoreUrl: Option<string>,
    retryable: bool,
    fallbackAvailable: bool)

  const AuthTokenInvalidEntry: RegistryEntry :=
    RegistryEntry(
      Authentication, Critical,
      "Invalid GitHub Token",
      "Your GitHub Personal " + "Access Token is invalid " + "or has been revoked.",
      "GitHub API returned 401 " + "Unauthorized with \"Bad " + "credentials\" message.",
      [
        ErrorSolution(1, "Generate a new Personal " + "Access Token", Some("Go to GitHub \U{2192} Settings " + "\U{2192} Developer settings \U{2192} " + "Personal access tokens " + "\U{2192} Tokens (classic)")),
        ErrorSolution(2, "Ensure the token has " + "required permissions", Some("Enable: repo (Full " + "control of private " + "repositories)")),
        ErrorSolution(3, "Copy the new token and " + "update your " + "configuration", Some("Re-run the GitHub setup " + "in the plugin and paste " + "your new token"))
      ],
      Some("https://docs.github.com/" + "en/authentication/" + "keeping-your-account-" + "and-data-secure/" + "managing-your-personal-" + "access-tokens"),
      true, true)

  const AuthTokenExpiredEntry: RegistryEntry :=
    RegistryEntry(
      Authentication, Critical,
      "GitHub Token Expired",
      "Your GitHub Personal " + "Access Token has " + "expired.",
      "Token expiration date " + "has passed.",
      [
        ErrorSolution(1, "Generate a new Personal " + "Access Token", Some("Go to GitHub \U{2192} Settings " + "\U{2192} Developer settings \U{2192} " + "Personal access tokens")),
        ErrorSolution(2, "Set an expiration date " + "or choose \"No " + "expiration\"", Some("For production use, " + "consider using " + "fine-grained tokens " + "with longer expiration")),
        ErrorSolution(3, "Update your token in " + "the plugin configuration", None)
      ],
      Some("https://docs.github.com/" + "en/authentication/" + "keeping-your-account-" + "and-data-secure/" + "managing-your-personal-" + "access-tokens"),
      true, true)

  const AuthTokenMissingEntry: RegistryEntry :=
    RegistryEntry(
      Authentication, Critical,
      "GitHub Token Missing",
      "No GitHub token " + "configured. Please set " + "up GitHub integration " + "first.",
      "GitHub client attempted " + "to make API call " + "without authentication " + "token.",
      [
        ErrorSolution(1, "Run GitHub setup from " + "the plugin", Some("Click \"Configure " + "GitHub\" in the export " + "options")),
        ErrorSolution(2, "Create a Personal " + "Access Token on GitHub", Some("Go to GitHub \U{2192} Settings " + "\U{2192} Developer settings \U{2192} " + "Personal access tokens")),
        ErrorSolution(3, "Paste the token into " + "the plugin configuration", None)
      ],
      None,
      true, true)

  const AuthBadCredentialsEntry: RegistryEntry :=
    RegistryEntry(
      Authentication, Critical,
      "Authentication Failed",
      "GitHub rejected your " + "credentials. The token " + "may be invalid or " + "revoked.",
      "HTTP 401: Bad credentials",
      [
        ErrorSolution(1, "Verify your token is " + "correct", Some("Check that you copied " + "the entire token " + "without extra spaces")),
        ErrorSolution(2, "Check if the token was " + "revoked", Some("Go to GitHub \U{2192} Settings " + "\U{2192} Developer settings \U{2192} " + "Personal access tokens " + "\U{2192} Check token status")),
        ErrorSolution(3, "Generate a new token if " + "needed", Some("Create a new token with " + "\"repo\" permissions and " + "update your " + "configuration"))
      ],
      Some("https://docs.github.com/" + "en/rest/overview/" + "troubleshooting"),
      true, true)

  const AuthzInsufficientPermissionsEntry: RegistryEntry :=
    RegistryEntry(
      Authorization, High,
      "Insufficient Permissions",
      "Your GitHub token " + "doesn't have the " + "required permissions " + "for this operation.",
      "HTTP 403: Forbidden - " + "Insufficient token " + "scopes",
      [
        ErrorSolution(1, "Check your token " + "permissions", Some("Go to GitHub \U{2192} Settings " + "\U{2192} Developer settings \U{2192} " + "Personal access tokens")),
        ErrorSolution(2, "Regenerate token with " + "correct scopes", Some("Required scopes: repo " + "(or public_repo for " + "public repositories " + "only)")),
        ErrorSolution(3, "Update the token in " + "plugin configuration", None)
      ],
      Some("https://docs.github.com/" + "en/apps/oauth-apps/" + "building-oauth-apps/" + "scopes-for-oauth-apps"),
      true, true)

  const AuthzRepoAccessDeniedEntry: RegistryEntry :=
    RegistryEntry(
      Authorization, High,
      "Repository Access Denied",
      "You don't have access " + "to this repository.",
      "HTTP 403: Forbidden - " + "Repository access denied",
      [
        ErrorSolution(1, "Verify you have write " + "access to the repository", Some("Check repository " + "settings \U{2192} " + "Collaborators & teams")),
        ErrorSolution(2, "Contact repository " + "owner for access", Some("Request \"Write\" or " + "\"Admin\" permissions")),
        ErrorSolution(3, "Verify repository name " + "is correct", Some("Format should be: " + "owner/repository-name"))
      ],
      None,
      false, true)

  const AuthzBranchProtectedEntry: RegistryEntry :=
    RegistryEntry(
      Authorization, High,
      "Branch is Protected",
      "Cannot push directly to " + "this protected branch.",
      "Branch protection rules " + "prevent direct pushes",
      [
        ErrorSolution(1, "Create a pull request " + "instead", Some("Use \"Create Pull " + "Request\" option instead " + "of direct push")),
        ErrorSolution(2, "Or modify branch " + "protection rules", Some("Repository Settings \U{2192} " + "Branches \U{2192} Branch " + "protection rules"))
      ],
      Some("https://docs.github.com/" + "en/repositories/" + "configuring-branches-" + "and-merges-in-your-" + "repository/managing-" + "protected-branches"),
      false, true)

  const NetConnectionFailedEntry: RegistryEntry :=
    RegistryEntry(
      Network, High,
      "Connection Failed",
      "Could not connect to " + "GitHub. Please check " + "your internet " + "connection.",
      "Network request failed " + "- unable to reach " + "GitHub API",
      [
        ErrorSolution(1, "Check your internet " + "connection", Some("Ensure you have active " + "internet connectivity")),
        ErrorSolution(2, "Check if GitHub is " + "accessible", Some("Visit https://" + "www.githubstatus.com/ " + "to check GitHub status")),
        ErrorSolution(3, "Try again in a few " + "moments", None)
      ],
      Some("https://" + "www.githubstatus.com/"),
      true, true)

  const NetTimeoutEntry: RegistryEntry :=
    RegistryEntry(
      Network, Medium,
      "Request Timeout",
      "The request to GitHub " + "took too long and timed " + "out.",
      "Network request " + "exceeded timeout " + "threshold",
      [
        ErrorSolution(1, "Check your internet " + "connection speed", Some("Slow connections may " + "cause timeouts")),
        ErrorSolution(2, "Try again", Some("The issue may be " + "temporary"))
      ],
      None,
      true, true)

  const NetOfflineEntry: RegistryEntry :=
    RegistryEntry(
      Network, Critical,
      "No Internet Connection",
      "You appear to be " + "offline. GitHub " + "operations require an " + "internet connection.",
      "Network unavailable",
      [
        ErrorSolution(1, "Check your internet " + "connection", Some("Ensure Wi-Fi or " + "Ethernet is connected")),
        ErrorSolution(2, "Download tokens locally " + "instead", Some("Use the \"Download JSON\" " + "option to save tokens " + "offline"))
      ],
      None,
      true, true)

  const RepoNotFoundEntry: RegistryEntry :=
    RegistryEntry(
      Repository, High,
      "Repository Not Found",
      "The specified GitHub " + "repository could not be " + "found.",
      "HTTP 404: Repository " + "does not exist or is " + "not accessible",
      [
        ErrorSolution(1, "Verify the repository " + "name is correct", Some("Format: " + "owner/repository-name " + "(e.g., \"myusername/my-" + "design-tokens\")")),
        ErrorSolution(2, "Check if the repository " + "exists on GitHub", Some("Visit the repository " + "URL to confirm it exists")),
        ErrorSolution(3, "Ensure you have access " + "to the repository", Some("Private repositories " + "require proper " + "permissions"))
      ],
      None,
      false, true)

  const RepoInvalidNameEntry: RegistryEntry :=
    RegistryEntry(
      Validation, Medium,
      "Invalid Repository Name",
      "The repository name " + "format is invalid.",
      "Repository name does " + "not match required " + "format: owner/repo",
      [
        ErrorSolution(1, "Use the correct format", Some("Repository name should " + "be: " + "owner/repository-name")),
        ErrorSolution(2, "Examples of valid names", Some("github-username/design-" + "system, " + "company/ui-tokens"))
      ],
      None,
      false, false)

  const RepoBranchNotFoundEntry: RegistryEntry :=
    RegistryEntry(
      Repository, Medium,
      "Branch Not Found",
      "The specified branch " + "does not exist in the " + "repository.",
      "Git ref not found for " + "specified branch",
      [
        ErrorSolution(1, "Verify the branch name " + "is correct", Some("Check for typos in the " + "branch name")),
        ErrorSolution(2, "Use an existing branch", Some("Common branch names: " + "main, master, develop")),
        ErrorSolution(3, "Create a new branch " + "from the base branch", None)
      ],
      None,
      false, true)

  const RepoFileNotFoundEntry: RegistryEntry :=
    RegistryEntry(
      Repository, Low,
      "File Not Found",
      "The file does not exist " + "at the specified path.",
      "HTTP 404: File path not " + "found in repository",
      [
        ErrorSolution(1, "File will be created " + "automatically", Some("The plugin will create " + "the file at the " + "specified path"))
      ],
      None,
      true, false)

  const GitCreateBranchFailedEntry: RegistryEntry :=
    RegistryEntry(
      GitOperation, High,
      "Failed to Create Branch",
      "Could not create the " + "new branch in the " + "repository.",
      "Git branch creation " + "failed",
      [
        ErrorSolution(1, "Check if a branch with " + "this name already exists", Some("Try using a different " + "branch name")),
        ErrorSolution(2, "Verify you have write " + "access to the repository", None),
        ErrorSolution(3, "Ensure the base branch " + "exists and is accessible", None)
      ],
      None,
      true, true)

  const GitPushFailedEntry: RegistryEntry :=
    RegistryEntry(
      GitOperation, High,
      "Push Failed",
      "Could not push changes " + "to the repository.",
      "Git push operation " + "failed",
      [
        ErrorSolution(1, "Check if the branch is " + "protected", Some("Protected branches may " + "require pull requests")),
        ErrorSolution(2, "Verify you have write " + "permissions", None),
        ErrorSolution(3, "Try creating a pull " + "request instead", None)
      ],
      None,
      true, true)

  const GitCreatePrFailedEntry: RegistryEntry :=
    RegistryEntry(
      GitOperation, High,
      "Failed to Create Pull " + "Request",
      "Could not create the " + "pull request.",
      "GitHub PR creation API " + "call failed",
      [
        ErrorSolution(1, "Check if a PR already " + "exists for this branch", Some("You cannot create " + "duplicate PRs for the " + "same branch")),
        ErrorSolution(2, "Verify the source and " + "target branches exist", None),
        ErrorSolution(3, "Ensure you have write " + "access to the repository", None)
      ],
      None,
      true, true)

  const GitCommitFailedEntry: RegistryEntry :=
    RegistryEntry(
      GitOperation, High,
      "Commit Failed",
      "Could not commit " + "changes to the " + "repository.",
      "Git commit operation " + "failed",
      [
        ErrorSolution(1, "Check if the file path " + "is valid", Some("File paths should not " + "start with / or contain " + "invalid characters")),
        ErrorSolution(2, "Verify repository write " + "access", None),
        ErrorSolution(3, "Ensure the branch exists", None)
      ],
      None,
      true, true)

  const GitRefNotFoundEntry: RegistryEntry :=
    RegistryEntry(
      GitOperation, High,
      "Git Reference Not Found",
      "Could not find the " + "specified branch or ref " + "in the repository.",
      "Failed to get ref " + "heads/[branch-name]",
      [
        ErrorSolution(1, "Verify the branch name " + "is correct", Some("Check for typos and " + "ensure the branch exists")),
        ErrorSolution(2, "Check your GitHub token " + "permissions", Some("Your token must have " + "access to read " + "repository refs")),
        ErrorSolution(3, "Try using \"main\" or " + "\"master\" as the base " + "branch", None)
      ],
      None,
      true, true)

  const ConfigInvalidEntry: RegistryEntry :=
    RegistryEntry(
      Configuration, High,
      "Invalid Configuration",
      "The GitHub " + "configuration is " + "invalid or incomplete.",
      "Configuration " + "validation failed",
      [
        ErrorSolution(1, "Re-run the GitHub setup", Some("Click \"Configure " + "GitHub\" and enter your " + "details again")),
        ErrorSolution(2, "Ensure all required " + "fields are filled", Some("Token, repository, and " + "branch are all required"))
      ],
      None,
      false, true)

  const ConfigMissingEntry: RegistryEntry :=
    RegistryEntry(
      Configuration, High,
      "Configuration Missing",
      "No GitHub configuration " + "found. Please set up " + "GitHub integration.",
      "GitHub configuration " + "not found in storage",
      [
        ErrorSolution(1, "Run GitHub setup", Some("Click \"Configure " + "GitHub\" to set up " + "integration"))
      ],
      None,
      false, true)

  const RateLimitExceededEntry: RegistryEntry :=
    RegistryEntry(
      RateLimit, Medium,
      "Rate Limit Exceeded",
      "You've exceeded " + "GitHub's API rate " + "limit. Please wait " + "before trying again.",
      "HTTP 429: API rate " + "limit exceeded",
      [
        ErrorSolution(1, "Wait for rate limit to " + "reset", Some("GitHub rate limits " + "reset every hour")),
        ErrorSolution(2, "Check your rate limit " + "status", Some("Visit https://" + "docs.github.com/en/rest/" + "overview/resources-in-" + "the-rest-api#rate-" + "limiting")),
        ErrorSolution(3, "Consider using a GitHub " + "App for higher limits", Some("GitHub Apps have higher " + "rate limits than " + "personal tokens"))
      ],
      Some("https://docs.github.com/" + "en/rest/overview/" + "resources-in-the-rest-" + "api#rate-limiting"),
      true, true)

  const UnknownErrorEntry: RegistryEntry :=
    RegistryEntry(
      Unknown, Medium,
      "Unknown Error",
      "An unexpected error " + "occurred.",
      "Unclassified error",
      [
        ErrorSolution(1, "Try the operation again", None),
        ErrorSolution(2, "Check the browser " + "console for details", Some("Open Developer Tools " + "(F12) and check the " + "Console tab")),
        ErrorSolution(3, "Download tokens locally " + "as a fallback", Some("Use \"Download JSON\" " + "option"))
      ],
      None,
      true, true)

  const ExtractionNoTokensEntry: RegistryEntry :=
    RegistryEntry(
      Validation, Medium,
      "No Design Tokens Found",
      "No design tokens " + "(colors, typography, " + "effects, variables) " + "were found in this " + "document.",
      "Token extraction " + "completed with zero " + "tokens found",
      [
        ErrorSolution(1, "Create color styles", Some("Select objects and " + "create color styles in " + "the Design panel")),
        ErrorSolution(2, "Add text styles", Some("Create text styles from " + "your typography elements")),
        ErrorSolution(3, "Set up variables", Some("Use the Variables panel " + "to create design tokens"))
      ],
      None,
      false, false)

  /** `ERROR_REGISTRY`: one entry for every code. */
  function Registry(code: ErrorCode): RegistryEntry {
    match code
    case AuthTokenInvalid => AuthTokenInvalidEntry
    case AuthTokenExpired => AuthTokenExpiredEntry
    case AuthTokenMissing => AuthTokenMissingEntry
    case AuthBadCredentials => AuthBadCredentialsEntry
    case AuthzInsufficientPermissions => AuthzInsufficientPermissionsEntry
    case AuthzRepoAccessDenied => AuthzRepoAccessDeniedEntry
    case AuthzBranchProtected => AuthzBranchProtectedEntry
    case NetConnectionFailed => NetConnectionFailedEntry
    case NetTimeout => NetTimeoutEntry
    case NetOffline => NetOfflineEntry
    case RepoNotFound => RepoNotFoundEntry
    case RepoInvalidName => RepoInvalidNameEntry
    case RepoBranchNotFound => RepoBranchNotFoundEntry
    case RepoFileNotFound => RepoFileNotFoundEntry
    case GitCreateBranchFailed => GitCreateBranchFailedEntry
    case GitPushFailed => GitPushFailedEntry
    case GitCreatePrFailed => GitCreatePrFailedEntry
    case GitCommitFailed => GitCommitFailedEntry
    case GitRefNotFound => GitRefNotFoundEntry
    case ConfigInvalid => ConfigInvalidEntry
    case ConfigMissing => ConfigMissingEntry
    case RateLimitExceeded => RateLimitExceededEntry
    case UnknownError => UnknownErrorEntry
    case ExtractionNoTokens => ExtractionNoTokensEntry
  }

  /** The solutions are numbered 1, 2, ..., N in list order. */
  predicate NumberedFromOne(sols: seq<ErrorSolution>) {
    forall i :: 0 <= i < |sols| ==> sols[i].step == i + 1
  }

  /** What the registry promises of every entry: a title, a message and a numbered checklist. */
  predicate WellFormedEntry(e: RegistryEntry) {
    |e.title| > 0 && |e.userMessage| > 0 && |e.solutions| >= 1 && NumberedFromOne(e.solutions)
  }

  /** Every code has an entry with a non-empty title and message and solutions numbered 1, 2, ..., N. */
  lemma RegistryWellFormed(code: ErrorCode)
    ensures WellFormedEntry(Registry(code))
  {
    AuthenticationEntriesWellFormed();
    AuthorizationEntriesWellFormed();
    NetworkEntriesWellFormed();
    RepositoryEntriesWellFormed();
    GitEntriesWellFormed();
    OtherEntriesWellFormed();
  }

  lemma AuthenticationEntriesWellFormed()
    ensures WellFormedEntry(AuthTokenInvalidEntry) && WellFormedEntry(AuthTokenExpiredEntry)
    ensures WellFormedEntry(AuthTokenMissingEntry) && WellFormedEntry(AuthBadCredentialsEntry)
  {
  }

  lemma AuthorizationEntriesWellFormed()
    ensures WellFormedEntry(AuthzInsufficientPermissionsEntry) && WellFormedEntry(AuthzRepoAccessDeniedEntry)
    ensures WellFormedEntry(AuthzBranchProtectedEntry)
  {
  }

  lemma NetworkEntriesWellFormed()
    ensures WellFormedEntry(NetConnectionFailedEntry) && WellFormedEntry(NetTimeoutEntry)
    ensures WellFormedEntry(NetOfflineEntry)
  {
  }

  lemma RepositoryEntriesWellFormed()
    ensures WellFormedEntry(RepoNotFoundEntry) && WellFormedEntry(RepoInvalidNameEntry)
    ensures WellFormedEntry(RepoBranchNotFoundEntry) && WellFormedEntry(RepoFileNotFoundEntry)
  {
  }

  lemma GitEntriesWellFormed()
    ensures WellFormedEntry(GitCreateBranchFailedEntry) && WellFormedEntry(GitPushFailedEntry)
    ensures WellFormedEntry(GitCreatePrFailedEntry) && WellFormedEntry(GitCommitFailedEntry)
    ensures WellFormedEntry(GitRefNotFoundEntry)
  {
  }

  lemma OtherEntriesWellFormed()
    ensures WellFormedEntry(ConfigInvalidEntry) && WellFormedEntry(ConfigMissingEntry)
    ensures WellFormedEntry(RateLimitExceededEntry) && WellFormedEntry(UnknownErrorEntry)
    ensures WellFormedEntry(ExtractionNoTokensEntry)
  {
  }

  // ---------------------------------------------------------------------------
  // Classifier
  // ---------------------------------------------------------------------------

  /**
   * A thrown value. An `Error` object carries its message and, when it has a numeric
   * `status` property, that status; any other value is known only by its `String()` text.
   */
  datatype ErrorInput =
    | ErrorObject(message: string, status: Option<int>)
    | NonError(text: string)

  /** The message of the `Error` the classifier works on (a new one for non-`Error` values). */
  function OriginalMessage(e: ErrorInput): string {
    match e
    case ErrorObject(m, _) => m
    case NonError(t) => t
  }

  /** The status the classifier reads: none for a value that was not an `Error`. */
  function StatusOf(e: ErrorInput): Option<int> {
    match e
    case ErrorObject(_, s) => s
    case NonError(_) => None
  }

  /** The codes the cascade has no rule for. */
  predicate NeverClassified(c: ErrorCode) {
    c == AuthTokenExpired || c == RepoInvalidName || c == ExtractionNoTokens
  }

  /**
   * The cascade of `classifyError` on the lower-cased message `m` and the status.
   * The three authentication rules come first; a 403 or 404 status then decides the
   * code on its own; the later rules apply only to other statuses.
   */
  function ClassifyCode(m: string, status: Option<int>): (r: ErrorCode)
    ensures !NeverClassified(r)
  {
    if status == Some(401) || Contains(m, "bad credentials") then AuthBadCredentials
    else if Contains(m, "token") && (Contains(m, "invalid") || Contains(m, "expired")) then AuthTokenInvalid
    else if Contains(m, "token") && Contains(m, "missing") then AuthTokenMissing
    else if status == Some(403) then
      if Contains(m, "permission") || Contains(m, "scope") then AuthzInsufficientPermissions
      else if Contains(m, "protected") then AuthzBranchProtected
      else AuthzRepoAccessDenied
    else if status == Some(404) then
      if Contains(m, "repository") || Contains(m, "repo") then RepoNotFound
      else if Contains(m, "branch") || Contains(m, "ref") then RepoBranchNotFound
      else if Contains(m, "file") then RepoFileNotFound
      else UnknownError
    else if status == Some(429) || Contains(m, "rate limit") then RateLimitExceeded
    else if Contains(m, "network") || Contains(m, "connection") || Contains(m, "fetch") then
      if Contains(m, "offline") then NetOffline
      else if Contains(m, "timeout") then NetTimeout
      else NetConnectionFailed
    else if Contains(m, "failed to get ref") then GitRefNotFound
    else if Contains(m, "create branch") || Contains(m, "branch creation") then GitCreateBranchFailed
    else if Contains(m, "push") && Contains(m, "failed") then GitPushFailed
    else if Contains(m, "pull request") || Contains(m, "pr") then GitCreatePrFailed
    else if Contains(m, "commit") then GitCommitFailed
    else if Contains(m, "configuration") || Contains(m, "config") then
      if Contains(m, "missing") then ConfigMissing else ConfigInvalid
    else UnknownError
  }

  /** The context note of the technical message: present only for a non-empty context. */
  function ContextNote(context: Option<string>): string {
    if context.Some? && context.value != "" then " (Context: " + context.value + ")" else ""
  }

  /** The table the classifier reads its entries from; `ERROR_REGISTRY` is `Registry`. */
  type RegistryTable = ErrorCode -> RegistryEntry

  /**
   * `classifyError(error, context)` reading the entries from `registry`: the code of
   * the cascade, with the entry of that code.
   */
  function ClassifyWith(registry: RegistryTable, error: ErrorInput, context: Option<string>): (r: ErrorMetadata)
    ensures r.code == ClassifyCode(ToLowerCase(OriginalMessage(error)), StatusOf(error))
    ensures !NeverClassified(r.code)
  {
    var code := ClassifyCode(ToLowerCase(OriginalMessage(error)), StatusOf(error));
    var e := registry(code);
    ErrorMetadata(
      e.category, e.severity, code, e.title, e.userMessage,
      e.technicalMessage + ContextNote(context) + "\nOriginal: " + OriginalMessage(error),
      e.solutions, e.learnMoreUrl, e.retryable, e.fallbackAvailable)
  }

  /** `classifyError(error, context)`. */
  function ClassifyError(error: ErrorInput, context: Option<string>): ErrorMetadata {
    ClassifyWith(Registry, error, context)
  }

  // ---------------------------------------------------------------------------
  // The cascade as an ordered rule table
  // ---------------------------------------------------------------------------

  /** A test on the lower-cased message and the status. */
  datatype Guard =
    | Has(word: string)
    | StatusIs(n: int)
    | AnyOf(a: Guard, b: Guard)
    | Both(a: Guard, b: Guard)
    | Always

  predicate Holds(g: Guard, m: string, status: Option<int>) {
    match g
    case Has(w) => Contains(m, w)
    case StatusIs(n) => status == Some(n)
    case AnyOf(a, b) => Holds(a, m, status) || Holds(b, m, status)
    case Both(a, b) => Holds(a, m, status) && Holds(b, m, status)
    case Always => true
  }

  datatype Rule = Rule(guard: Guard, code: ErrorCode)

  /** The code of the first rule whose guard holds, `otherwise` when none does. */
  function FirstMatchElse(rules: seq<Rule>, m: string, status: Option<int>, otherwise: ErrorCode): ErrorCode {
    if rules == [] then otherwise
    else if Holds(rules[0].guard, m, status) then rules[0].code
    else FirstMatchElse(rules[1..], m, status, otherwise)
  }

  /** A rule table read top to bottom, with `UNKNOWN_ERROR` as the default. */
  function FirstMatch(rules: seq<Rule>, m: string, status: Option<int>): ErrorCode {
    FirstMatchElse(rules, m, status, UnknownError)
  }

  /** First-match semantics: rule `i` decides exactly when it holds and no earlier rule does. */
  lemma {:induction false} FirstMatchPicks(rules: seq<Rule>, m: string, status: Option<int>, otherwise: ErrorCode, i: nat)
    requires i < |rules| && Holds(rules[i].guard, m, status)
    requires forall j :: 0 <= j < i ==> !Holds(rules[j].guard, m, status)
    ensures FirstMatchElse(rules, m, status, otherwise) == rules[i].code
  {
    if i > 0 {
      assert !Holds(rules[0].guard, m, status);
      FirstMatchPicks(rules[1..], m, status, otherwise, i - 1);
    }
  }

  /** When no rule holds, the default applies. */
  lemma {:induction false} FirstMatchDefault(rules: seq<Rule>, m: string, status: Option<int>, otherwise: ErrorCode)
    requires forall j :: 0 <= j < |rules| ==> !Holds(rules[j].guard, m, status)
    ensures FirstMatchElse(rules, m, status, otherwise) == otherwise
  {
    if rules != [] {
      assert !Holds(rules[0].guard, m, status);
      FirstMatchDefault(rules[1..], m, status, otherwise);
    }
  }

  /** Reading two tables one after the other: the second one is the first one's default. */
  lemma {:induction false} FirstMatchConcat(a: seq<Rule>, b: seq<Rule>, m: string, status: Option<int>, otherwise: ErrorCode)
    ensures FirstMatchElse(a + b, m, status, otherwise)
         == FirstMatchElse(a, m, status, FirstMatchElse(b, m, status, otherwise))
  {
    if a == [] {
      assert a + b == b;
    } else {
      assert (a + b)[1..] == a[1..] + b;
      FirstMatchConcat(a[1..], b, m, status, otherwise);
    }
  }

  /** Reading a table from row `k`: row `k` decides if it holds, else the rows after it do. */
  lemma FirstMatchStep(rules: seq<Rule>, k: nat, m: string, status: Option<int>, otherwise: ErrorCode)
    requires k < |rules|
    ensures FirstMatchElse(rules[k..], m, status, otherwise)
         == if Holds(rules[k].guard, m, status) then rules[k].code
            else FirstMatchElse(rules[k + 1..], m, status, otherwise)
  {
    assert rules[k..][1..] == rules[k + 1..];
  }

  function AnyWord(a: string, b: string): Guard { AnyOf(Has(a), Has(b)) }

  /** The network keywords. */
  const NetworkWords: Guard := AnyOf(AnyWord("network", "connection"), Has("fetch"))

  /** The authentication rules, which outrank every status test. */
  const AuthRules: seq<Rule> := [
    Rule(AnyOf(StatusIs(401), Has("bad credentials")), AuthBadCredentials),
    Rule(Both(Has("token"), AnyWord("invalid", "expired")), AuthTokenInvalid),
    Rule(Both(Has("token"), Has("missing")), AuthTokenMissing)
  ]

  /** The 403 rules; the last one catches every other 403. */
  const ForbiddenRules: seq<Rule> := [
    Rule(Both(StatusIs(403), AnyWord("permission", "scope")), AuthzInsufficientPermissions),
    Rule(Both(StatusIs(403), Has("protected")), AuthzBranchProtected),
    Rule(StatusIs(403), AuthzRepoAccessDenied)
  ]

  /** The 404 rules; the last one stops the cascade for every other 404. */
  const NotFoundRules: seq<Rule> := [
    Rule(Both(StatusIs(404), AnyWord("repository", "repo")), RepoNotFound),
    Rule(Both(StatusIs(404), AnyWord("branch", "ref")), RepoBranchNotFound),
    Rule(Both(StatusIs(404), Has("file")), RepoFileNotFound),
    Rule(StatusIs(404), UnknownError)
  ]

  /** The rate-limit and network rules. */
  const TransportRules: seq<Rule> := [
    Rule(AnyOf(StatusIs(429), Has("rate limit")), RateLimitExceeded),
    Rule(Both(NetworkWords, Has("offline")), NetOffline),
    Rule(Both(NetworkWords, Has("timeout")), NetTimeout),
    Rule(NetworkWords, NetConnectionFailed)
  ]

  /** The git-operation rules. */
  const GitRules: seq<Rule> := [
    Rule(Has("failed to get ref"), GitRefNotFound),
    Rule(AnyWord("create branch", "branch creation"), GitCreateBranchFailed),
    Rule(Both(Has("push"), Has("failed")), GitPushFailed),
    Rule(AnyWord("pull request", "pr"), GitCreatePrFailed),
    Rule(Has("commit"), GitCommitFailed)
  ]

  /** The configuration rules. */
  const ConfigRules: seq<Rule> := [
    Rule(Both(AnyWord("configuration", "config"), Has("missing")), ConfigMissing),
    Rule(AnyWord("configuration", "config"), ConfigInvalid)
  ]

  /** The whole cascade as one flat, ordered (guard, code) table. */
  const RuleTable: seq<Rule> :=
    AuthRules + ForbiddenRules + NotFoundRules + TransportRules + GitRules + ConfigRules

  /** The authentication rows, read in order. */
  lemma AuthRulesRead(m: string, status: Option<int>, otherwise: ErrorCode)
    ensures FirstMatchElse(AuthRules, m, status, otherwise)
         == if status == Some(401) || Contains(m, "bad credentials") then AuthBadCredentials
            else if Contains(m, "token") && (Contains(m, "invalid") || Contains(m, "expired")) then AuthTokenInvalid
            else if Contains(m, "token") && Contains(m, "missing") then AuthTokenMissing
            else otherwise
  {
    var t := AuthRules;
    assert Holds(AnyWord("invalid", "expired"), m, status) == (Contains(m, "invalid") || Contains(m, "expired"));
    FirstMatchStep(t, 0, m, status, otherwise);
    FirstMatchStep(t, 1, m, status, otherwise);
    FirstMatchStep(t, 2, m, status, otherwise);
    assert t[0..] == t && t[3..] == [];
  }

  /** The 403 rows, read in order. */
  lemma ForbiddenRulesRead(m: string, status: Option<int>, otherwise: ErrorCode)
    ensures FirstMatchElse(ForbiddenRules, m, status, otherwise)
         == if status == Some(403) then
              if Contains(m, "permission") || Contains(m, "scope") then AuthzInsufficientPermissions
              else if Contains(m, "protected") then AuthzBranchProtected
              else AuthzRepoAccessDenied
            else otherwise
  {
    var t := ForbiddenRules;
    assert Holds(AnyWord("permission", "scope"), m, status) == (Contains(m, "permission") || Contains(m, "scope"));
    FirstMatchStep(t, 0, m, status, otherwise);
    FirstMatchStep(t, 1, m, status, otherwise);
    FirstMatchStep(t, 2, m, status, otherwise);
    assert t[0..] == t && t[3..] == [];
  }

  /** The 404 rows, read in order. */
  lemma NotFoundRulesRead(m: string, status: Option<int>, otherwise: ErrorCode)
    ensures FirstMatchElse(NotFoundRules, m, status, otherwise)
         == if status == Some(404) then
              if Contains(m, "repository") || Contains(m, "repo") then RepoNotFound
              else if Contains(m, "branch") || Contains(m, "ref") then RepoBranchNotFound
              else if Contains(m, "file") then RepoFileNotFound
              else UnknownError
            else otherwise
  {
    var t := NotFoundRules;
    assert Holds(AnyWord("repository", "repo"), m, status) == (Contains(m, "repository") || Contains(m, "repo"));
    assert Holds(AnyWord("branch", "ref"), m, status) == (Contains(m, "branch") || Contains(m, "ref"));
    FirstMatchStep(t, 0, m, status, otherwise);
    FirstMatchStep(t, 1, m, status, otherwise);
    FirstMatchStep(t, 2, m, status, otherwise);
    FirstMatchStep(t, 3, m, status, otherwise);
    assert t[0..] == t && t[4..] == [];
  }

  /** The rate-limit and network rows, read in order. */
  lemma TransportRulesRead(m: string, status: Option<int>, otherwise: ErrorCode)
    ensures FirstMatchElse(TransportRules, m, status, otherwise)
         == if status == Some(429) || Contains(m, "rate limit") then RateLimitExceeded
            else if Contains(m, "network") || Contains(m, "connection") || Contains(m, "fetch") then
              if Contains(m, "offline") then NetOffline
              else if Contains(m, "timeout") then NetTimeout
              else NetConnectionFailed
            else otherwise
  {
    var t := TransportRules;
    assert Holds(AnyWord("network", "connection"), m, status) == (Contains(m, "network") || Contains(m, "connection"));
    assert Holds(NetworkWords, m, status) == (Contains(m, "network") || Contains(m, "connection") || Contains(m, "fetch"));
    FirstMatchStep(t, 0, m, status, otherwise);
    FirstMatchStep(t, 1, m, status, otherwise);
    FirstMatchStep(t, 2, m, status, otherwise);
    FirstMatchStep(t, 3, m, status, otherwise);
    assert t[0..] == t && t[4..] == [];
  }

  /** The git-operation rows, read in order. */
  lemma GitRulesRead(m: string, status: Option<int>, otherwise: ErrorCode)
    ensures FirstMatchElse(GitRules, m, status, otherwise)
         == if Contains(m, "failed to get ref") then GitRefNotFound
            else if Contains(m, "create branch") || Contains(m, "branch creation") then GitCreateBranchFailed
            else if Contains(m, "push") && Contains(m, "failed") then GitPushFailed
            else if Contains(m, "pull request") || Contains(m, "pr") then GitCreatePrFailed
            else if Contains(m, "commit") then GitCommitFailed
            else otherwise
  {
    var t := GitRules;
    FirstMatchStep(t, 0, m, status, otherwise);
    FirstMatchStep(t, 1, m, status, otherwise);
    FirstMatchStep(t, 2, m, status, otherwise);
    FirstMatchStep(t, 3, m, status, otherwise);
    FirstMatchStep(t, 4, m, status, otherwise);
    assert t[0..] == t && t[5..] == [];
  }

  /** The configuration rows, read in order. */
  lemma ConfigRulesRead(m: string, status: Option<int>, otherwise: ErrorCode)
    ensures FirstMatchElse(ConfigRules, m, status, otherwise)
         == if Contains(m, "configuration") || Contains(m, "config") then
              if Contains(m, "missing") then ConfigMissing else ConfigInvalid
            else otherwise
  {
    var t := ConfigRules;
    assert Holds(AnyWord("configuration", "config"), m, status) == (Contains(m, "configuration") || Contains(m, "config"));
    FirstMatchStep(t, 0, m, status, otherwise);
    FirstMatchStep(t, 1, m, status, otherwise);
    assert t[0..] == t && t[2..] == [];
  }

  /** The nested cascade and the flat table classify every message and status alike. */
  lemma ClassifyCodeIsFirstMatch(m: string, status: Option<int>)
    ensures ClassifyCode(m, status) == FirstMatch(RuleTable, m, status)
  {
    var config := FirstMatchElse(ConfigRules, m, status, UnknownError);
    var git := FirstMatchElse(GitRules, m, status, config);
    var transport := FirstMatchElse(TransportRules, m, status, git);
    var notFound := FirstMatchElse(NotFoundRules, m, status, transport);
    var forbidden := FirstMatchElse(ForbiddenRules, m, status, notFound);
    var d := UnknownError;
    assert RuleTable == AuthRules + (ForbiddenRules + (NotFoundRules + (TransportRules + (GitRules + ConfigRules))));
    FirstMatchConcat(AuthRules, ForbiddenRules + (NotFoundRules + (TransportRules + (GitRules + ConfigRules))), m, status, d);
    FirstMatchConcat(ForbiddenRules, NotFoundRules + (TransportRules + (GitRules + ConfigRules)), m, status, d);
    FirstMatchConcat(NotFoundRules, TransportRules + (GitRules + ConfigRules), m, status, d);
    FirstMatchConcat(TransportRules, GitRules + ConfigRules, m, status, d);
    FirstMatchConcat(GitRules, ConfigRules, m, status, d);
    ConfigRulesRead(m, status, d);
    GitRulesRead(m, status, config);
    TransportRulesRead(m, status, git);
    NotFoundRulesRead(m, status, transport);
    ForbiddenRulesRead(m, status, notFound);
    AuthRulesRead(m, status, forbidden);
  }

  // ---------------------------------------------------------------------------
  // Properties of the cascade
  // ---------------------------------------------------------------------------

  /** One of the three authentication rules applies. */
  predicate AuthRuleFires(m: string, status: Option<int>) {
    || status == Some(401) || Contains(m, "bad credentials")
    || (Contains(m, "token") && (Contains(m, "invalid") || Contains(m, "expired")))
    || (Contains(m, "token") && Contains(m, "missing"))
  }

  /** The authentication rules come first, in this order, whatever the status. */
  lemma AuthRulesOutrankStatus(m: string, status: Option<int>)
    ensures (status == Some(401) || Contains(m, "bad credentials"))
      ==> ClassifyCode(m, status) == AuthBadCredentials
    ensures (&& !(status == Some(401) || Contains(m, "bad credentials"))
             && Contains(m, "token") && (Contains(m, "invalid") || Contains(m, "expired")))
      ==> ClassifyCode(m, status) == AuthTokenInvalid
    ensures (&& !(status == Some(401) || Contains(m, "bad credentials"))
             && !(Contains(m, "token") && (Contains(m, "invalid") || Contains(m, "expired")))
             && Contains(m, "token") && Contains(m, "missing"))
      ==> ClassifyCode(m, status) == AuthTokenMissing
    ensures AuthRuleFires(m, status) <==> ClassifyCode(m, status) in {AuthBadCredentials, AuthTokenInvalid, AuthTokenMissing}
  {
  }

  /** A 403 that no authentication rule claimed always gives an authorization code. */
  lemma ForbiddenGivesAuthorizationCode(m: string)
    requires !AuthRuleFires(m, Some(403))
    ensures Registry(ClassifyCode(m, Some(403))).category == Authorization
    ensures ClassifyCode(m, Some(403))
         == if Contains(m, "permission") || Contains(m, "scope") then AuthzInsufficientPermissions
            else if Contains(m, "protected") then AuthzBranchProtected
            else AuthzRepoAccessDenied
  {
  }

  /**
   * A 404 that no authentication rule claimed is decided by the 404 rules alone: the
   * rate-limit, network, git and configuration rules are never consulted.
   */
  lemma NotFoundConsultsOnlyNotFoundRules(m: string)
    requires !AuthRuleFires(m, Some(404))
    ensures ClassifyCode(m, Some(404)) in {RepoNotFound, RepoBranchNotFound, RepoFileNotFound, UnknownError}
    ensures ClassifyCode(m, Some(404))
         == if Contains(m, "repository") || Contains(m, "repo") then RepoNotFound
            else if Contains(m, "branch") || Contains(m, "ref") then RepoBranchNotFound
            else if Contains(m, "file") then RepoFileNotFound
            else UnknownError
  {
  }

  /** Neither a 403 nor a 404 can be classified as a rate-limit, network, git or configuration error. */
  lemma StatusCodesStopTheCascade(m: string, status: Option<int>)
    requires status == Some(403) || status == Some(404)
    ensures Registry(ClassifyCode(m, status)).category !in {RateLimit, Network, GitOperation, Configuration}
  {
  }

  /** The rules that apply to every other status, in order. */
  lemma LaterRulesInOrder(m: string, status: Option<int>)
    requires !AuthRuleFires(m, status) && status != Some(403) && status != Some(404)
    ensures (status == Some(429) || Contains(m, "rate limit")) ==> ClassifyCode(m, status) == RateLimitExceeded
    ensures (&& !(status == Some(429) || Contains(m, "rate limit"))
             && (Contains(m, "network") || Contains(m, "connection") || Contains(m, "fetch")))
      ==> ClassifyCode(m, status)
          == if Contains(m, "offline") then NetOffline
             else if Contains(m, "timeout") then NetTimeout
             else NetConnectionFailed
  {
  }

  /** None of the rules up to the network ones applies. */
  predicate ReachesGitRules(m: string, status: Option<int>) {
    && !AuthRuleFires(m, status) && status != Some(403) && status != Some(404)
    && status != Some(429) && !Contains(m, "rate limit")
    && !Contains(m, "network") && !Contains(m, "connection") && !Contains(m, "fetch")
  }

  /** The git rules in order, then the configuration rules, then `UNKNOWN_ERROR`. */
  lemma GitThenConfigRules(m: string, status: Option<int>)
    requires ReachesGitRules(m, status)
    ensures ClassifyCode(m, status)
         == if Contains(m, "failed to get ref") then GitRefNotFound
            else if Contains(m, "create branch") || Contains(m, "branch creation") then GitCreateBranchFailed
            else if Contains(m, "push") && Contains(m, "failed") then GitPushFailed
            else if Contains(m, "pull request") || Contains(m, "pr") then GitCreatePrFailed
            else if Contains(m, "commit") then GitCommitFailed
            else if Contains(m, "config") then (if Contains(m, "missing") then ConfigMissing else ConfigInvalid)
            else UnknownError
  {
    KeywordsSubsumed(m);
  }

  /**
   * Two of the cascade's alternatives are redundant: "repository" contains "repo" and
   * "configuration" contains "config", so only the shorter keyword matters.
   */
  lemma KeywordsSubsumed(m: string)
    ensures Contains(m, "repository") ==> Contains(m, "repo")
    ensures Contains(m, "configuration") ==> Contains(m, "config")
  {
    ContainsWitness("repository", "repo", 0);
    ContainsWitness("configuration", "config", 0);
    if Contains(m, "repository") { ContainsTransitive(m, "repository", "repo"); }
    if Contains(m, "configuration") { ContainsTransitive(m, "configuration", "config"); }
  }

  /** Without a status and without any keyword, the classifier falls through to `UNKNOWN_ERROR`. */
  lemma NoKeywordIsUnknown(m: string)
    requires forall w :: w in Keywords ==> !Contains(m, w)
    ensures ClassifyCode(m, None) == UnknownError
  {
    assert "bad credentials" in Keywords;
  }

  /** Every keyword the cascade tests. */
  const Keywords: set<string> := {
    "bad credentials", "token", "invalid", "expired", "missing", "permission", "scope",
    "protected", "repository", "repo", "branch", "ref", "file", "rate limit", "network",
    "connection", "fetch", "offline", "timeout", "failed to get ref", "create branch",
    "branch creation", "push", "failed", "pull request", "pr", "commit", "configuration", "config"
  }

  // ---------------------------------------------------------------------------
  // Properties of the classified record
  // ---------------------------------------------------------------------------

  /**
   * The result is the chosen code's registry entry with `code` added. Only the technical
   * message differs: the registry text, the context note when the context is non-empty,
   * then a line with the original (not lower-cased) message.
   */
  lemma ClassifiedRecordShape(registry: RegistryTable, error: ErrorInput, context: Option<string>)
    ensures var r := ClassifyWith(registry, error, context);
      var e := registry(r.code);
      && r.category == e.category && r.severity == e.severity && r.title == e.title
      && r.userMessage == e.userMessage && r.solutions == e.solutions
      && r.learnMoreUrl == e.learnMoreUrl
      && r.retryable == e.retryable && r.fallbackAvailable == e.fallbackAvailable
      && r.technicalMessage
         == e.technicalMessage
            + (if context.Some? && context.value != "" then " (Context: " + context.value + ")" else "")
            + "\nOriginal: " + OriginalMessage(error)
  {
  }

  /** Only the lower-cased message and the status decide the code. */
  lemma ClassificationIgnoresCase(registry: RegistryTable, a: ErrorInput, b: ErrorInput, context: Option<string>)
    requires ToLowerCase(OriginalMessage(a)) == ToLowerCase(OriginalMessage(b))
    requires StatusOf(a) == StatusOf(b)
    ensures ClassifyWith(registry, a, context).code == ClassifyWith(registry, b, context).code
    ensures ClassifyWith(registry, a, context).userMessage == ClassifyWith(registry, b, context).userMessage
  {
  }

  /** A thrown non-`Error` value is classified as an `Error` with its text and no status. */
  lemma NonErrorIsStringified(registry: RegistryTable, text: string, context: Option<string>)
    ensures ClassifyWith(registry, NonError(text), context) == ClassifyWith(registry, ErrorObject(text, None), context)
  {
  }

  /** A 401 is a credentials failure whatever the message says. */
  lemma UnauthorizedExample(message: string)
    ensures ClassifyError(ErrorObject(message, Some(401)), None).code == AuthBadCredentials
    ensures ClassifyError(ErrorObject(message, Some(401)), None).title == "Authentication Failed"
  {
  }

  /** "repository not found" with status 404 is `REPO_NOT_FOUND`. */
  lemma RepositoryNotFoundExample(registry: RegistryTable, m: string)
    requires m == "repository not found"
    ensures ClassifyWith(registry, ErrorObject(m, Some(404)), None).code == RepoNotFound
  {
    LowerOfLower(m);
    NotFoundRepositoryCode(m);
    CodeOfLowerCaseMessage(registry, m, Some(404), RepoNotFound);
  }

  /** For an already lower-case message, the code is the cascade's verdict on the message itself. */
  lemma CodeOfLowerCaseMessage(registry: RegistryTable, m: string, status: Option<int>, code: ErrorCode)
    requires ToLowerCase(m) == m && ClassifyCode(m, status) == code
    ensures ClassifyWith(registry, ErrorObject(m, status), None).code == code
  {
  }

  lemma NotFoundRepositoryCode(m: string)
    requires m == "repository not found"
    ensures ClassifyCode(m, Some(404)) == RepoNotFound
  {
    assert !Contains(m, "bad credentials") by { AbsentCharExcludes(m, "bad credentials", 'b'); }
    assert !Contains(m, "token") by { AbsentCharExcludes(m, "token", 'k'); }
    assert Contains(m, "repository") by { ContainsWitness(m, "repository", 0); }
    KeywordsSubsumed(m);
    NotFoundConsultsOnlyNotFoundRules(m);
  }

  /** "network request failed, offline" is `NET_OFFLINE`. */
  lemma OfflineExample(registry: RegistryTable, m: string)
    requires m == "network request failed, offline"
    ensures ClassifyWith(registry, ErrorObject(m, None), None).code == NetOffline
  {
    LowerOfLower(m);
    OfflineCode(m);
    CodeOfLowerCaseMessage(registry, m, None, NetOffline);
  }

  lemma OfflineCode(m: string)
    requires m == "network request failed, offline"
    ensures ClassifyCode(m, None) == NetOffline
  {
    assert !Contains(m, "bad credentials") by { AbsentCharExcludes(m, "bad credentials", 'b'); }
    assert !Contains(m, "invalid") by { AbsentCharExcludes(m, "invalid", 'v'); }
    assert !Contains(m, "expired") by { AbsentCharExcludes(m, "expired", 'x'); }
    OfflineCodeRest(m);
    LaterRulesInOrder(m, None);
  }

  lemma OfflineCodeRest(m: string)
    requires m == "network request failed, offline"
    ensures !Contains(m, "missing") && !Contains(m, "rate limit")
    ensures Contains(m, "network") && Contains(m, "offline")
  {
    AbsentCharExcludes(m, "missing", 'm');
    AbsentCharExcludes(m, "rate limit", 'm');
    OfflineWords(m);
  }

  lemma OfflineWords(m: string)
    requires m == "network request failed, offline"
    ensures Contains(m, "network") && Contains(m, "offline")
  {
    assert m[..7] == "network" && m[24..] == "offline";
    ContainsWitness(m, "network", 0);
    ContainsWitness(m, "offline", 24);
  }

  /**
   * The bare "pr" test matches inside ordinary words: a message that only says
   * "unexpected problem" is reported as a failed pull-request creation.
   */
  lemma PullRequestOvermatchExample(m: string)
    requires m == "unexpected problem"
    ensures ClassifyCode(m, None) == GitCreatePrFailed
  {
    OvermatchFacts1(m);
    OvermatchFacts2(m);
    OvermatchFacts3(m);
    assert ReachesGitRules(m, None);
    GitThenConfigRules(m, None);
  }

  lemma OvermatchFacts1(m: string)
    requires m == "unexpected problem"
    ensures !Contains(m, "bad credentials") && !Contains(m, "token") && !Contains(m, "rate limit")
  {
    assert !Contains(m, "bad credentials") by { AbsentCharExcludes(m, "bad credentials", 'a'); }
    assert !Contains(m, "token") by { AbsentCharExcludes(m, "token", 'k'); }
    assert !Contains(m, "rate limit") by { AbsentCharExcludes(m, "rate limit", 'a'); }
  }

  lemma OvermatchFacts2(m: string)
    requires m == "unexpected problem"
    ensures !Contains(m, "network") && !Contains(m, "connection") && !Contains(m, "fetch")
  {
    assert !Contains(m, "network") by { AbsentCharExcludes(m, "network", 'w'); }
    assert !Contains(m, "connection") by { AbsentCharExcludes(m, "connection", 'i'); }
    assert !Contains(m, "fetch") by { AbsentCharExcludes(m, "fetch", 'f'); }
  }

  lemma OvermatchFacts3(m: string)
    requires m == "unexpected problem"
    ensures !Contains(m, "failed to get ref") && !Contains(m, "create branch") && !Contains(m, "branch creation")
    ensures !Contains(m, "push") && Contains(m, "pr")
  {
    assert !Contains(m, "failed to get ref") by { AbsentCharExcludes(m, "failed to get ref", 'a'); }
    assert !Contains(m, "create branch") by { AbsentCharExcludes(m, "create branch", 'a'); }
    assert !Contains(m, "branch creation") by { AbsentCharExcludes(m, "branch creation", 'a'); }
    assert !Contains(m, "push") by { AbsentCharExcludes(m, "push", 's'); }
    assert Contains(m, "pr") by { ContainsWitness(m, "pr", 11); }
  }

  /**
   * The codes the classifier can produce are exactly those it has a rule for: each of them
   * is the verdict on some message and status, and the other three never are.
   */
  lemma ClassifierImage(code: ErrorCode)
    ensures (exists m, status :: ClassifyCode(m, status) == code) <==> !NeverClassified(code)
  {
    if !NeverClassified(code) {
      var m, status := ExampleFor(code);
      assert ClassifyCode(m, status) == code;
    }
  }

  /** A message and status the classifier maps to `code`. */
  lemma ExampleFor(code: ErrorCode) returns (m: string, status: Option<int>)
    requires !NeverClassified(code)
    ensures ClassifyCode(m, status) == code
  {
    match code
    case AuthBadCredentials =>
      m, status := "", Some(401);
      ClassifyAuthBadCredentialsExample(m);
    case AuthTokenInvalid =>
      m, status := "token invalid", None;
      ClassifyAuthTokenInvalidExample(m);
    case AuthTokenMissing =>
      m, status := "token missing", None;
      ClassifyAuthTokenMissingExample(m);
    case AuthzInsufficientPermissions =>
      m, status := "scope", Some(403);
      ClassifyAuthzInsufficientPermissionsExample(m);
    case AuthzBranchProtected =>
      m, status := "protected", Some(403);
      ClassifyAuthzBranchProtectedExample(m);
    case AuthzRepoAccessDenied =>
      m, status := "", Some(403);
      ClassifyAuthzRepoAccessDeniedExample(m);
    case RepoNotFound =>
      m, status := "repo", Some(404);
      ClassifyRepoNotFoundExample(m);
    case RepoBranchNotFound =>
      m, status := "ref", Some(404);
      ClassifyRepoBranchNotFoundExample(m);
    case RepoFileNotFound =>
      m, status := "file", Some(404);
      ClassifyRepoFileNotFoundExample(m);
    case UnknownError =>
      m, status := "", None;
      ClassifyUnknownErrorExample(m);
    case RateLimitExceeded =>
      m, status := "", Some(429);
      ClassifyRateLimitExceededExample(m);
    case NetOffline =>
      m, status := "fetch offline", None;
      ClassifyNetOfflineExample(m);
    case NetTimeout =>
      m, status := "fetch timeout", None;
      ClassifyNetTimeoutExample(m);
    case NetConnectionFailed =>
      m, status := "fetch", None;
      ClassifyNetConnectionFailedExample(m);
    case GitRefNotFound =>
      m, status := "failed to get ref", None;
      ClassifyGitRefNotFoundExample(m);
    case GitCreateBranchFailed =>
      m, status := "create branch", None;
      ClassifyGitCreateBranchFailedExample(m);
    case GitPushFailed =>
      m, status := "push failed", None;
      ClassifyGitPushFailedExample(m);
    case GitCreatePrFailed =>
      m, status := "pr", None;
      ClassifyGitCreatePrFailedExample(m);
    case GitCommitFailed =>
      m, status := "commit", None;
      ClassifyGitCommitFailedExample(m);
    case ConfigMissing =>
      m, status := "config missing", None;
      ClassifyConfigMissingExample(m);
    case ConfigInvalid =>
      m, status := "config", None;
      ClassifyConfigInvalidExample(m);
  }

  lemma ClassifyAuthBadCredentialsExample(m: string)
    requires m == ""
    ensures ClassifyCode(m, Some(401)) == AuthBadCredentials
  {
  }

  lemma ClassifyAuthTokenInvalidExample(m: string)
    requires m == "token invalid"
    ensures ClassifyCode(m, None) == AuthTokenInvalid
  {
    assert Contains(m, "token") by { ContainsWitness(m, "token", 0); }
    assert Contains(m, "invalid") by { ContainsWitness(m, "invalid", 6); }
  }

  lemma ClassifyAuthTokenMissingExample(m: string)
    requires m == "token missing"
    ensures ClassifyCode(m, None) == AuthTokenMissing
  {
    assert Contains(m, "token") by { ContainsWitness(m, "token", 0); }
    assert Contains(m, "missing") by { ContainsWitness(m, "missing", 6); }
    assert !Contains(m, "invalid") by { AbsentCharExcludes(m, "invalid", 'v'); }
    assert !Contains(m, "expired") by { AbsentCharExcludes(m, "expired", 'x'); }
  }

  lemma ClassifyAuthzInsufficientPermissionsExample(m: string)
    requires m == "scope"
    ensures ClassifyCode(m, Some(403)) == AuthzInsufficientPermissions
  {
    assert Contains(m, "scope") by { ContainsWitness(m, "scope", 0); }
  }

  lemma ClassifyAuthzBranchProtectedExample(m: string)
    requires m == "protected"
    ensures ClassifyCode(m, Some(403)) == AuthzBranchProtected
  {
    assert Contains(m, "protected") by { ContainsWitness(m, "protected", 0); }
    assert !Contains(m, "token") by { AbsentCharExcludes(m, "token", 'k'); }
    assert !Contains(m, "scope") by { AbsentCharExcludes(m, "scope", 's'); }
  }

  lemma ClassifyAuthzRepoAccessDeniedExample(m: string)
    requires m == ""
    ensures ClassifyCode(m, Some(403)) == AuthzRepoAccessDenied
  {
  }

  lemma ClassifyRepoNotFoundExample(m: string)
    requires m == "repo"
    ensures ClassifyCode(m, Some(404)) == RepoNotFound
  {
    assert Contains(m, "repo") by { ContainsWitness(m, "repo", 0); }
  }

  lemma ClassifyRepoBranchNotFoundExample(m: string)
    requires m == "ref"
    ensures ClassifyCode(m, Some(404)) == RepoBranchNotFound
  {
    assert Contains(m, "ref") by { ContainsWitness(m, "ref", 0); }
  }

  lemma ClassifyRepoFileNotFoundExample(m: string)
    requires m == "file"
    ensures ClassifyCode(m, Some(404)) == RepoFileNotFound
  {
    assert Contains(m, "file") by { ContainsWitness(m, "file", 0); }
    assert !Contains(m, "repo") by { AbsentCharExcludes(m, "repo", 'r'); }
    assert !Contains(m, "ref") by { AbsentCharExcludes(m, "ref", 'r'); }
  }

  lemma ClassifyUnknownErrorExample(m: string)
    requires m == ""
    ensures ClassifyCode(m, None) == UnknownError
  {
  }

  lemma ClassifyRateLimitExceededExample(m: string)
    requires m == ""
    ensures ClassifyCode(m, Some(429)) == RateLimitExceeded
  {
  }

  lemma ClassifyNetOfflineExample(m: string)
    requires m == "fetch offline"
    ensures ClassifyCode(m, None) == NetOffline
  {
    assert Contains(m, "fetch") by { ContainsWitness(m, "fetch", 0); }
    assert Contains(m, "offline") by { ContainsWitness(m, "offline", 6); }
    assert !Contains(m, "token") by { AbsentCharExcludes(m, "token", 'k'); }
    assert !Contains(m, "rate limit") by { AbsentCharExcludes(m, "rate limit", 'a'); }
  }

  lemma ClassifyNetTimeoutExample(m: string)
    requires m == "fetch timeout"
    ensures ClassifyCode(m, None) == NetTimeout
  {
    assert m[..5] == "fetch" && m[6..] == "timeout";
    ContainsWitness(m, "fetch", 0);
    ContainsWitness(m, "timeout", 6);
    TooShortToContain(m, "bad credentials");
    AbsentCharExcludes(m, "token", 'k');
    AbsentCharExcludes(m, "rate limit", 'a');
    AbsentCharExcludes(m, "offline", 'l');
    LaterRulesInOrder(m, None);
  }

  lemma ClassifyNetConnectionFailedExample(m: string)
    requires m == "fetch"
    ensures ClassifyCode(m, None) == NetConnectionFailed
  {
    assert Contains(m, "fetch") by { ContainsWitness(m, "fetch", 0); }
    assert !Contains(m, "token") by { AbsentCharExcludes(m, "token", 'k'); }
  }

  lemma ClassifyGitRefNotFoundExample(m: string)
    requires m == "failed to get ref"
    ensures ClassifyCode(m, None) == GitRefNotFound
  {
    ClassifyGitRefNotFoundExampleFacts1(m);
    ClassifyGitRefNotFoundExampleFacts2(m);
    ClassifyGitRefNotFoundExampleFacts3(m);
    assert ReachesGitRules(m, None);
    GitThenConfigRules(m, None);
  }

  lemma ClassifyGitRefNotFoundExampleFacts1(m: string)
    requires m == "failed to get ref"
    ensures Contains(m, "failed to get ref") && !Contains(m, "bad credentials") && !Contains(m, "token")
  {
    assert Contains(m, "failed to get ref") by { ContainsWitness(m, "failed to get ref", 0); }
    assert !Contains(m, "bad credentials") by { AbsentCharExcludes(m, "bad credentials", 'b'); }
    assert !Contains(m, "token") by { AbsentCharExcludes(m, "token", 'k'); }
  }

  lemma ClassifyGitRefNotFoundExampleFacts2(m: string)
    requires m == "failed to get ref"
    ensures !Contains(m, "rate limit") && !Contains(m, "network") && !Contains(m, "connection")
  {
    assert !Contains(m, "rate limit") by { AbsentCharExcludes(m, "rate limit", 'm'); }
    assert !Contains(m, "network") by { AbsentCharExcludes(m, "network", 'w'); }
    assert !Contains(m, "connection") by { AbsentCharExcludes(m, "connection", 'c'); }
  }

  lemma ClassifyGitRefNotFoundExampleFacts3(m: string)
    requires m == "failed to get ref"
    ensures !Contains(m, "fetch")
  {
    assert !Contains(m, "fetch") by { AbsentCharExcludes(m, "fetch", 'c'); }
  }

  lemma ClassifyGitCreateBranchFailedExample(m: string)
    requires m == "create branch"
    ensures ClassifyCode(m, None) == GitCreateBranchFailed
  {
    ClassifyGitCreateBranchFailedExampleFacts1(m);
    ClassifyGitCreateBranchFailedExampleFacts2(m);
    ClassifyGitCreateBranchFailedExampleFacts3(m);
    assert !Contains(m, "bad credentials") by { TooShortToContain(m, "bad credentials"); }
    assert ReachesGitRules(m, None);
    GitThenConfigRules(m, None);
  }

  lemma ClassifyGitCreateBranchFailedExampleFacts1(m: string)
    requires m == "create branch"
    ensures Contains(m, "create branch") && !Contains(m, "token") && !Contains(m, "rate limit")
  {
    assert Contains(m, "create branch") by { ContainsWitness(m, "create branch", 0); }
    assert !Contains(m, "token") by { AbsentCharExcludes(m, "token", 'k'); }
    assert !Contains(m, "rate limit") by { AbsentCharExcludes(m, "rate limit", 'l'); }
  }

  lemma ClassifyGitCreateBranchFailedExampleFacts2(m: string)
    requires m == "create branch"
    ensures !Contains(m, "network") && !Contains(m, "connection") && !Contains(m, "fetch")
  {
    assert !Contains(m, "network") by { AbsentCharExcludes(m, "network", 'w'); }
    assert !Contains(m, "connection") by { AbsentCharExcludes(m, "connection", 'o'); }
    assert !Contains(m, "fetch") by { AbsentCharExcludes(m, "fetch", 'f'); }
  }

  lemma ClassifyGitCreateBranchFailedExampleFacts3(m: string)
    requires m == "create branch"
    ensures !Contains(m, "failed to get ref")
  {
    assert !Contains(m, "failed to get ref") by { AbsentCharExcludes(m, "failed to get ref", 'f'); }
  }

  lemma ClassifyGitPushFailedExample(m: string)
    requires m == "push failed"
    ensures ClassifyCode(m, None) == GitPushFailed
  {
    ClassifyGitPushFailedExampleFacts1(m);
    ClassifyGitPushFailedExampleFacts2(m);
    ClassifyGitPushFailedExampleFacts3(m);
  }

  lemma ClassifyGitPushFailedExampleFacts1(m: string)
    requires m == "push failed"
    ensures Contains(m, "push") && Contains(m, "failed") && !Contains(m, "token")
  {
    assert Contains(m, "push") by { ContainsWitness(m, "push", 0); }
    assert Contains(m, "failed") by { ContainsWitness(m, "failed", 5); }
    assert !Contains(m, "token") by { AbsentCharExcludes(m, "token", 'k'); }
  }

  lemma ClassifyGitPushFailedExampleFacts2(m: string)
    requires m == "push failed"
    ensures !Contains(m, "rate limit") && !Contains(m, "network") && !Contains(m, "connection")
  {
    assert !Contains(m, "rate limit") by { AbsentCharExcludes(m, "rate limit", 'r'); }
    assert !Contains(m, "network") by { AbsentCharExcludes(m, "network", 'w'); }
    assert !Contains(m, "connection") by { AbsentCharExcludes(m, "connection", 'c'); }
  }

  lemma ClassifyGitPushFailedExampleFacts3(m: string)
    requires m == "push failed"
    ensures !Contains(m, "fetch") && !Contains(m, "failed to get ref") && !Contains(m, "create branch")
  {
    assert !Contains(m, "fetch") by { AbsentCharExcludes(m, "fetch", 'c'); }
    assert !Contains(m, "failed to get ref") by { AbsentCharExcludes(m, "failed to get ref", 't'); }
    assert !Contains(m, "create branch") by { AbsentCharExcludes(m, "create branch", 'c'); }
  }

  lemma ClassifyGitCreatePrFailedExample(m: string)
    requires m == "pr"
    ensures ClassifyCode(m, None) == GitCreatePrFailed
  {
    assert Contains(m, "pr") by { ContainsWitness(m, "pr", 0); }
  }

  lemma ClassifyGitCommitFailedExample(m: string)
    requires m == "commit"
    ensures ClassifyCode(m, None) == GitCommitFailed
  {
    assert Contains(m, "commit") by { ContainsWitness(m, "commit", 0); }
    assert !Contains(m, "token") by { AbsentCharExcludes(m, "token", 'k'); }
    assert !Contains(m, "fetch") by { AbsentCharExcludes(m, "fetch", 'f'); }
    assert !Contains(m, "push") by { AbsentCharExcludes(m, "push", 'p'); }
    assert !Contains(m, "pr") by { AbsentCharExcludes(m, "pr", 'p'); }
    CommitCascade(m);
  }

  /** A six-letter message holding "commit", and none of the shorter keywords before it, is a failed commit. */
  lemma CommitCascade(m: string)
    requires |m| == 6 && Contains(m, "commit")
    requires !Contains(m, "token") && !Contains(m, "fetch") && !Contains(m, "push") && !Contains(m, "pr")
    ensures ClassifyCode(m, None) == GitCommitFailed
  {
  }

  lemma ClassifyConfigMissingExample(m: string)
    requires m == "config missing"
    ensures ClassifyCode(m, None) == ConfigMissing
  {
    ClassifyConfigMissingExampleFacts1(m);
    ClassifyConfigMissingExampleFacts2(m);
    ClassifyConfigMissingExampleFacts3(m);
    ClassifyConfigMissingExampleFacts4(m);
  }

  lemma ClassifyConfigMissingExampleFacts1(m: string)
    requires m == "config missing"
    ensures Contains(m, "config") && Contains(m, "missing") && !Contains(m, "token")
  {
    assert Contains(m, "config") by { ContainsWitness(m, "config", 0); }
    assert Contains(m, "missing") by { ContainsWitness(m, "missing", 7); }
    assert !Contains(m, "token") by { AbsentCharExcludes(m, "token", 'k'); }
  }

  lemma ClassifyConfigMissingExampleFacts2(m: string)
    requires m == "config missing"
    ensures !Contains(m, "rate limit") && !Contains(m, "network") && !Contains(m, "connection")
  {
    assert !Contains(m, "rate limit") by { AbsentCharExcludes(m, "rate limit", 'a'); }
    assert !Contains(m, "network") by { AbsentCharExcludes(m, "network", 'w'); }
    assert !Contains(m, "connection") by { AbsentCharExcludes(m, "connection", 't'); }
  }

  lemma ClassifyConfigMissingExampleFacts3(m: string)
    requires m == "config missing"
    ensures !Contains(m, "fetch") && !Contains(m, "failed to get ref") && !Contains(m, "create branch")
  {
    assert !Contains(m, "fetch") by { AbsentCharExcludes(m, "fetch", 'e'); }
    assert !Contains(m, "failed to get ref") by { AbsentCharExcludes(m, "failed to get ref", 'a'); }
    assert !Contains(m, "create branch") by { AbsentCharExcludes(m, "create branch", 'a'); }
  }

  lemma ClassifyConfigMissingExampleFacts4(m: string)
    requires m == "config missing"
    ensures !Contains(m, "push") && !Contains(m, "pr") && !Contains(m, "pull request") && !Contains(m, "commit")
  {
    assert !Contains(m, "push") by { AbsentCharExcludes(m, "push", 'p'); }
    assert !Contains(m, "pull request") by { AbsentCharExcludes(m, "pull request", 'p'); }
    assert !Contains(m, "pr") by { AbsentCharExcludes(m, "pr", 'p'); }
    assert !Contains(m, "commit") by { AbsentCharExcludes(m, "commit", 't'); }
  }

  lemma ClassifyConfigInvalidExample(m: string)
    requires m == "config"
    ensures ClassifyCode(m, None) == ConfigInvalid
  {
    ClassifyConfigInvalidExampleFacts1(m);
    ClassifyConfigInvalidExampleFacts2(m);
  }

  lemma ClassifyConfigInvalidExampleFacts1(m: string)
    requires m == "config"
    ensures Contains(m, "config") && !Contains(m, "token") && !Contains(m, "fetch")
  {
    assert Contains(m, "config") by { ContainsWitness(m, "config", 0); }
    assert !Contains(m, "token") by { AbsentCharExcludes(m, "token", 'k'); }
    assert !Contains(m, "fetch") by { AbsentCharExcludes(m, "fetch", 'e'); }
  }

  lemma ClassifyConfigInvalidExampleFacts2(m: string)
    requires m == "config"
    ensures !Contains(m, "push") && !Contains(m, "pr") && !Contains(m, "pull request") && !Contains(m, "commit")
  {
    assert !Contains(m, "push") by { AbsentCharExcludes(m, "push", 'p'); }
    assert !Contains(m, "pull request") by { AbsentCharExcludes(m, "pull request", 'p'); }
    assert !Contains(m, "pr") by { AbsentCharExcludes(m, "pr", 'p'); }
    assert !Contains(m, "commit") by { AbsentCharExcludes(m, "commit", 'm'); }
  }
}
