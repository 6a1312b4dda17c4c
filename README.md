# Design-token export plugin: error pipeline, export workflow and GitHub glue

This project models the core of a Figma plugin, written in TypeScript, that exports design tokens.
The plugin either pushes the tokens to a GitHub repository or offers them as a JSON download.
Properties of the model are proved in Dafny. The modelled parts:

- **Error taxonomy and classifier**: the `ErrorCode`/`ErrorCategory`/`ErrorSeverity` enums, the
  `ERROR_REGISTRY` table and `classifyError`. The classifier is a first-match cascade of status
  tests and substring tests on the lower-cased message. The model writes the cascade both as a
  nested conditional and as a flat ordered rule table, and proves the two agree.
  The classifier takes the registry table as a parameter (`ClassifyWith`), and `ClassifyError`
  applies it to `ERROR_REGISTRY`, so the facts about the cascade hold for any table.
- **Presentation routing**: the screen manager picks the offline screen, the empty-file screen or a
  fallback; the enhanced handler picks a specialised screen or the generic error dialog. The dialog
  gates its buttons on the error's flags. Each window has a message handler that invokes a callback
  and settles a promise once. The handlers share one generic "session" model: the settled value
  plus the callbacks invoked.
- **Export workflow**: init, extract, Git status, choice, then push, download or cancel, with a
  download fallback after a failed push and a catch-all that never rethrows. Also the download file
  name rule and the JSON dataset.
- **Secure storage**: a repeating-key XOR cipher followed by `btoa`, and `atob` followed by the same
  XOR on the way back. `btoa`/`atob` use the Base 64 alphabet of section 4 of RFC 4648, with
  forgiving decoding. The client store is a map field of the `SecureStorage` class.
- **Method validator**: `validateMethods` partitions the required names into missing, invalid and
  valid. `getAllProperties` walks the prototype chain. `createSafeWrapper` builds its error message
  and its `get` trap. JavaScript objects are a heap of property lists with prototype links.
- **Client tracker**: an append-only buffer of log lines, the method-call traces, the
  copy/clear operations and the diagnostic report.
- **GitHub integration**: setup from a repository URL, connection status and `canPush`,
  extract-and-push, pushing existing tokens, listing repositories, URL validation and the
  configuration summary.
- **Window constants**: the standard window record and `getWindowOptions`.

Collaborators whose code is not part of this model are inputs. These are the token extractor, the
GitHub configuration manager and its URL parser, the authentication and push services, and the
choice UI. A `Collaborators` record says what each call answers or throws. A class that calls them
records its calls in order in a `calls` field. The host's client storage is a `map` from keys to
strings. JSON encoding and decoding is an abstract codec with a round-trip law. Clock readings and
ISO timestamps are parameters.

Layout: `wrappers.dfy` holds Option, Result and Outcome. `js_strings.dfy` holds the string built-ins
the source relies on (`includes`, `toLowerCase`, `split`, `join`, `trim`, `repeat`, sorting).
`base64.dfy` holds `btoa`/`atob`, and `js_objects.dfy` holds objects and prototype chains. Then
there is one module per source file.

## Model

| member | source | states |
|---|---|---|
| ErrorTypes.RegistryWellFormed | src/errors/ErrorTypes.ts:106-709 | every code has an entry with a non-empty title and user message and at least one solution, numbered 1, 2, ..., N in order |
| ErrorTypes.ClassifyCode | src/errors/ErrorTypes.ts:725-794 | the cascade never yields AUTH_TOKEN_EXPIRED, REPO_INVALID_NAME or EXTRACTION_NO_TOKENS |
| ErrorTypes.ClassifyWith | src/errors/ErrorTypes.ts:718-804 | for any registry table: the code is the cascade applied to the lower-cased original message and the status of an Error (none for other values), and is never one of the three unclassifiable codes |
| ErrorTypes.FirstMatchPicks | src/errors/ErrorTypes.ts:725-794 | in an ordered rule table, a row decides when it holds and no earlier row does |
| ErrorTypes.FirstMatchDefault | src/errors/ErrorTypes.ts:725 | when no row holds, the default code applies |
| ErrorTypes.FirstMatchConcat | src/errors/ErrorTypes.ts:725-794 | reading two tables one after the other is reading the first with the second as its default |
| ErrorTypes.FirstMatchStep | src/errors/ErrorTypes.ts:725-794 | reading a table from row k: row k decides if it holds, otherwise the later rows do |
| ErrorTypes.AuthRulesRead | src/errors/ErrorTypes.ts:728-734 | the three authentication rows read in order: 401 or "bad credentials", then "token" with "invalid"/"expired", then "token" with "missing" |
| ErrorTypes.ForbiddenRulesRead | src/errors/ErrorTypes.ts:737-745 | the 403 rows read in order: "permission"/"scope", then "protected", then access denied |
| ErrorTypes.NotFoundRulesRead | src/errors/ErrorTypes.ts:748-756 | the 404 rows read in order: "repository"/"repo", then "branch"/"ref", then "file", then UNKNOWN_ERROR |
| ErrorTypes.TransportRulesRead | src/errors/ErrorTypes.ts:759-772 | 429 or "rate limit" first, then the network words with "offline", "timeout" or neither |
| ErrorTypes.GitRulesRead | src/errors/ErrorTypes.ts:775-785 | the five git rows read in order |
| ErrorTypes.ConfigRulesRead | src/errors/ErrorTypes.ts:788-794 | "configuration"/"config" gives CONFIG_MISSING with "missing" and CONFIG_INVALID without it |
| ErrorTypes.ClassifyCodeIsFirstMatch | src/errors/ErrorTypes.ts:725-794 | the nested if/else cascade and the flat ordered rule table agree on every message and status |
| ErrorTypes.AuthRulesOutrankStatus | src/errors/ErrorTypes.ts:728-734 | whatever the status: 401 or "bad credentials" gives AUTH_BAD_CREDENTIALS, else "token" with "invalid"/"expired" gives AUTH_TOKEN_INVALID, else "token" with "missing" gives AUTH_TOKEN_MISSING; an authentication code is produced iff one of the rules fires |
| ErrorTypes.ForbiddenGivesAuthorizationCode | src/errors/ErrorTypes.ts:737-745 | a 403 no authentication rule claimed always gives an authorization-category code, chosen as the three 403 rules say |
| ErrorTypes.NotFoundConsultsOnlyNotFoundRules | src/errors/ErrorTypes.ts:748-756 | a 404 gives REPO_NOT_FOUND, REPO_BRANCH_NOT_FOUND, REPO_FILE_NOT_FOUND or UNKNOWN_ERROR, per the 404 rules, and no later rule is consulted |
| ErrorTypes.StatusCodesStopTheCascade | src/errors/ErrorTypes.ts:737-756 | a 403 or 404 never yields a rate-limit, network, git-operation or configuration code |
| ErrorTypes.LaterRulesInOrder | src/errors/ErrorTypes.ts:759-772 | for any other status: rate limit first, then the network rules with offline before timeout |
| ErrorTypes.GitThenConfigRules | src/errors/ErrorTypes.ts:775-794 | git rules in order ("failed to get ref", branch creation, push+failed, "pull request"/"pr", "commit"), then the config rules, then UNKNOWN_ERROR |
| ErrorTypes.KeywordsSubsumed | src/errors/ErrorTypes.ts:749-788 | "repository" implies "repo" and "configuration" implies "config", so the longer tests are redundant |
| ErrorTypes.NoKeywordIsUnknown | src/errors/ErrorTypes.ts:725-794 | without a status and without any keyword the result is UNKNOWN_ERROR |
| ErrorTypes.ClassifiedRecordShape | src/errors/ErrorTypes.ts:797-803 | for any registry table, the record is the registry entry of the code with the code set; only the technical message changes: registry text, " (Context: c)" only for a non-empty context, then "\nOriginal: " and the original, un-lowered message |
| ErrorTypes.ClassificationIgnoresCase | src/errors/ErrorTypes.ts:721 | for any registry table, two errors whose messages agree after lower-casing and whose status agrees get the same code and user message |
| ErrorTypes.NonErrorIsStringified | src/errors/ErrorTypes.ts:720-722 | for any registry table, a thrown non-Error is classified as an Error with its text and no status |
| ErrorTypes.UnauthorizedExample | src/errors/ErrorTypes.ts:728-729 | any message with status 401 is AUTH_BAD_CREDENTIALS titled "Authentication Failed" |
| ErrorTypes.RepositoryNotFoundExample | src/errors/ErrorTypes.ts:748-750 | for any registry table, "repository not found" with status 404 is REPO_NOT_FOUND |
| ErrorTypes.OfflineExample | src/errors/ErrorTypes.ts:764-766 | for any registry table, "network request failed, offline" is NET_OFFLINE |
| ErrorTypes.CodeOfLowerCaseMessage | src/errors/ErrorTypes.ts:720-722 | for a message already in lower case, the code is the cascade applied to the message itself |
| ErrorTypes.PullRequestOvermatchExample | src/errors/ErrorTypes.ts:781-782 | the bare substring "pr" makes "unexpected problem" a GIT_CREATE_PR_FAILED |
| ErrorTypes.ClassifierImage | src/errors/ErrorTypes.ts:725-794 | a code is produced by some message and status iff it is not one of the three unclassifiable codes |
| ErrorTypes.ExampleFor | src/errors/ErrorTypes.ts:725-794 | every producible code has a witness message and status |
| UiConstants.GetWindowOptions | src/ui/constants.ts:14-46 | always 640 x 800 with theme colours; a title is present iff the argument is a non-empty string, and then equals it |
| UiConstants.WindowOptionsDifferOnlyInTitle | src/ui/constants.ts:23-46 | apart from the title every call returns STANDARD_WINDOW_OPTIONS |
| UiEvents.CallbackList | src/ui/OfflineErrorScreen.ts:40-42 | a case invokes its callback only when one was supplied |
| UiEvents.Deliver | src/ui/OfflineErrorScreen.ts:37-60 | an unrecognised message changes nothing; a recognised one invokes its callback, and resolves the promise only if it is still pending |
| UiEvents.ReplayMeaning | src/ui/ErrorDialog.ts:50-77 | after a message sequence, the result is the first recognised message's action and the invoked callbacks are those of every recognised message, in order |
| UiEvents.FirstRecognisedPosition | src/ui/ErrorDialog.ts:50-77 | no action iff no message is recognised; otherwise it is the action of the earliest recognised message |
| UiEvents.NoCallbacksNoInvocations | src/ui/OfflineErrorScreen.ts:24-26 | with no callbacks supplied no message invokes anything |
| UiEvents.InvokedAmong | src/ui/ErrorDialog.ts:50-77 | a handler invokes only callbacks it was given |
| OfflineScreen.ActionFor | src/ui/OfflineErrorScreen.ts:38-59 | a message type maps to an action exactly when it is that action's message |
| OfflineScreen.MessagesAreActions | src/ui/OfflineErrorScreen.ts:39-58 | 'offline-retry', 'offline-download' and 'offline-close' resolve with retry, download and close, and only their own message does |
| OfflineScreen.SingleMessage | src/ui/OfflineErrorScreen.ts:39-58 | one button message resolves with its action after invoking its callback if supplied |
| OfflineScreen.SessionMeaning | src/ui/OfflineErrorScreen.ts:37-60 | the session is the first recognised action plus every fired callback; pending iff no recognised message arrived |
| OfflineScreen.InvokesOnlySupplied | src/ui/OfflineErrorScreen.ts:11-15 | only onRetry, onDownload or onClose can be invoked |
| OfflineScreen.OtherMessagesIgnored | src/ui/OfflineErrorScreen.ts:38-59 | any other message type changes neither the result nor the invoked callbacks |
| OfflineScreen.DefaultOptionsInvokeNothing | src/ui/OfflineErrorScreen.ts:24-26 | the default (empty) options invoke nothing |
| OfflineScreen.OfflineErrorScreen.Show | src/ui/OfflineErrorScreen.ts:31-37 | opens the standard window titled "No Internet Connection" with a fresh pending handler |
| OfflineScreen.OfflineErrorScreen.HandleMessage | src/ui/OfflineErrorScreen.ts:37-60 | one delivered message updates the session as Deliver says |
| EmptyFileScreen.DisplayedDocumentName | src/ui/EmptyFileErrorScreen.ts:58 | the document name when non-empty, 'this document' otherwise |
| EmptyFileScreen.ActionFor | src/ui/EmptyFileErrorScreen.ts:38-52 | a message type maps to an action exactly when it is that action's message |
| EmptyFileScreen.MessagesAreActions | src/ui/EmptyFileErrorScreen.ts:39-51 | 'empty-learn-more' and 'empty-close' resolve with learn-more and close, and only their own message does |
| EmptyFileScreen.SingleMessage | src/ui/EmptyFileErrorScreen.ts:39-51 | one button message resolves with its action after invoking its callback if supplied |
| EmptyFileScreen.SessionMeaning | src/ui/EmptyFileErrorScreen.ts:37-53 | the session is the first recognised action plus every fired callback; pending iff no recognised message arrived |
| EmptyFileScreen.InvokesOnlySupplied | src/ui/EmptyFileErrorScreen.ts:11-15 | only onLearnMore or onClose can be invoked |
| EmptyFileScreen.OtherMessagesIgnored | src/ui/EmptyFileErrorScreen.ts:38-52 | any other message type is ignored |
| EmptyFileScreen.DefaultOptionsInvokeNothing | src/ui/EmptyFileErrorScreen.ts:24-26 | the default options invoke nothing and name "this document" |
| EmptyFileScreen.EmptyFileErrorScreen.Show | src/ui/EmptyFileErrorScreen.ts:31-37 | opens the standard window titled "No Design Tokens Found" with a fresh pending handler |
| EmptyFileScreen.EmptyFileErrorScreen.HandleMessage | src/ui/EmptyFileErrorScreen.ts:37-53 | one delivered message updates the session as Deliver says |
| ErrorDialogScreen.SeverityStylesDistinct | src/ui/ErrorDialog.ts:634-679 | critical/high/medium/low have the colours #dc3545/#fd7e14/#ffc107/#6c757d and icons x-circle/warning-diamond/warning/info, and different severities differ in both |
| ErrorDialogScreen.FormatSeverity | src/ui/ErrorDialog.ts:659-661 | the severity value in capitals: same length, no lower-case letter |
| ErrorDialogScreen.BadgeNamesSeverity | src/ui/ErrorDialog.ts:659-661 | lower-casing the badge gives the severity value back |
| ErrorDialogScreen.FormatCategory | src/ui/ErrorDialog.ts:652-654 | every '_' becomes ' ' and every other character is kept |
| ErrorDialogScreen.FormattedCategories | src/ui/ErrorDialog.ts:652-654 | 'git_operation' and 'rate_limit' read as two words; the other categories are unchanged |
| ErrorDialogScreen.BuildLayout | src/ui/ErrorDialog.ts:84-134 | the severity's colour and icon, a badge that reads back as the severity's name; solutions shown iff there are any; technical details iff requested; Retry iff retryable; Use Alternative iff a fallback is available |
| ErrorDialogScreen.ActionBar | src/ui/ErrorDialog.ts:122-134 | Retry iff retryable, Use Alternative iff a fallback is available, Learn More and Close always the last two, and no button twice |
| ErrorDialogScreen.ActionFor | src/ui/ErrorDialog.ts:51-76 | a message type maps to an action exactly when it is that action's message |
| ErrorDialogScreen.ActionForMessage | src/ui/ErrorDialog.ts:51-133 | the message each action's button posts is handled as that action |
| ErrorDialogScreen.OfferedButtonsAreHandled | src/ui/ErrorDialog.ts:50-134 | every offered button posts a message the handler resolves with that button's action |
| ErrorDialogScreen.CallbackFor | src/ui/ErrorDialog.ts:66-68 | learn-more invokes no callback |
| ErrorDialogScreen.DialogWindow | src/ui/ErrorDialog.ts:47 | the standard window titled "Error: " followed by the error's title |
| ErrorDialogScreen.SingleMessage | src/ui/ErrorDialog.ts:52-75 | retry, fallback and close invoke their callback if supplied, then resolve; learn-more resolves with no callback |
| ErrorDialogScreen.SessionMeaning | src/ui/ErrorDialog.ts:50-77 | the session is the first recognised action plus every fired callback; pending iff no recognised message arrived |
| ErrorDialogScreen.OtherMessagesIgnored | src/ui/ErrorDialog.ts:51-76 | unrecognised message types neither resolve nor invoke anything |
| ErrorDialogScreen.ErrorDialog.Show | src/ui/ErrorDialog.ts:43-50 | builds the layout, opens the titled window and installs a fresh pending handler |
| ErrorDialogScreen.ErrorDialog.HandleMessage | src/ui/ErrorDialog.ts:50-77 | one delivered message updates the session as Deliver says |
| ErrorScreenManager.HasSpecializedScreen | src/ui/ErrorScreenManager.ts:69-74 | true exactly for NET_OFFLINE and EXTRACTION_NO_TOKENS |
| ErrorScreenManager.ShowErrorScreen | src/ui/ErrorScreenManager.ts:29-47 | no screen and the 'fallback' result exactly when the code has no specialised screen, and then nothing is invoked |
| ErrorScreenManager.OfflineRouting | src/ui/ErrorScreenManager.ts:30-56 | NET_OFFLINE opens the offline screen with only onRetry, onDownload and onClose; its action is returned unchanged |
| ErrorScreenManager.EmptyFileRouting | src/ui/ErrorScreenManager.ts:37-64 | EXTRACTION_NO_TOKENS opens the empty-file screen with only documentName, onLearnMore and onClose; its action is returned unchanged |
| ErrorScreenManager.ResultMatchesScreen | src/ui/ErrorScreenManager.ts:12 | every result is an offline action, an empty-file action or 'fallback', matching the screen shown |
| ErrorScreenManager.ScreenSettlesOnRecognisedMessage | src/ui/ErrorScreenManager.ts:29-42 | a specialised screen settles exactly when one of its own messages arrives |
| EnhancedErrorHandler.DedicatedHelpOnlyForSpecializedScreens | src/ui/EnhancedErrorHandler.ts:107-124 | a dedicated help URL (two distinct ones) exactly for the two specialised codes, https://help.figma.com/ otherwise |
| EnhancedErrorHandler.HandleErrorWith | src/ui/EnhancedErrorHandler.ts:23-38 | for any registry table, classifies with options.context, then shows the specialised screen iff the code has one, otherwise the generic dialog with that metadata |
| EnhancedErrorHandler.HandleError | src/ui/EnhancedErrorHandler.ts:23-38 | with the shipped registry: the offline screen exactly for errors classified NET_OFFLINE, otherwise the generic dialog showing the classified record |
| EnhancedErrorHandler.OnlyOfflineScreenReachable | src/ui/EnhancedErrorHandler.ts:29-33 | for any registry table, since classification never yields EXTRACTION_NO_TOKENS, the empty-file screen is never shown |
| EnhancedErrorHandler.TechnicalDetailsDefaultOff | src/ui/EnhancedErrorHandler.ts:74-76 | the dialog shows technical details iff the option is true; the default is off |
| EnhancedErrorHandler.SpecializedCallbacks | src/ui/EnhancedErrorHandler.ts:48-63 | learn-more on the empty-file screen shows the help notice; the offline screen's callbacks do nothing |
| EnhancedErrorHandler.ShouldShowEmptyFileScreen | src/ui/EnhancedErrorHandler.ts:91-102 | false for a falsy argument |
| EnhancedErrorHandler.EmptyFileScreenForArrays | src/ui/EnhancedErrorHandler.ts:94-101 | for array or missing fields: true iff variables, collections and designTokens have lengths summing to 0 |
| EnhancedErrorHandler.EmptyFileScreenCases | src/ui/EnhancedErrorHandler.ts:91-102 | throws iff a field is null; true iff the three lengths sum to 0 |
| ExportWorkflowModel.RepositoryString | src/workflow/ExportWorkflow.ts:500-505 | present iff the configuration names a repository, and reads back the owner before the first '/' |
| ExportWorkflowModel.RepositoryStringSplits | src/workflow/ExportWorkflow.ts:500-505 | an owner and a name without '/' are exactly the two pieces of the string split at '/' |
| ExportWorkflowModel.OwnerPrefix | src/workflow/ExportWorkflow.ts:500-505 | the part of "owner/name" before the first '/' is the owner's own |
| ExportWorkflowModel.CreateJsonDataset | src/workflow/ExportWorkflow.ts:427-449 | tokenCounts are the lengths of the carried tokens, variables, collections, errors and warnings |
| ExportWorkflowModel.FileNameShape | src/workflow/ExportWorkflow.ts:351-355 | for any timestamp the name starts "figma-tokens-", ends ".json" and has no ':' |
| ExportWorkflowModel.FileNameOfIsoTimestamp | src/workflow/ExportWorkflow.ts:351-355 | for a toISOString timestamp the name is "figma-tokens-YYYY-MM-DD-HH-mm-ss.json" |
| ExportWorkflowModel.EscapingErrorsBecomeCancel | src/workflow/ExportWorkflow.ts:82-232 | an escaping error (extraction, a rejected choice window, or an unknown choice) gives success false, choice 'cancel', the message or 'Unknown error', the duration and no extractionResult, and only then is extractionResult absent |
| ExportWorkflowModel.CompletedRunShape | src/workflow/ExportWorkflow.ts:73-80 | a completed run carries the handler's fields, the extraction result and end minus start |
| ExportWorkflowModel.InitializationFailuresSwallowed | src/workflow/ExportWorkflow.ts:98-130 | initialisation failures change neither the result nor whether extraction runs |
| ExportWorkflowModel.GitStatusCases | src/workflow/ExportWorkflow.ts:153-186 | not configured gives false/false without a test; configured gives connected = the test's success and the repository string; an exception gives configured false with an error |
| ExportWorkflowModel.ChoiceSeesConfiguredAndConnected | src/workflow/ExportWorkflow.ts:191-207 | the choice UI gets hasGitConfigured = configured and connected |
| ExportWorkflowModel.CancelTouchesNothing | src/workflow/ExportWorkflow.ts:223-229 | cancel gives success false, choice 'cancel', and neither push nor download happens |
| ExportWorkflowModel.GitPushPaths | src/workflow/ExportWorkflow.ts:239-305 | a successful push succeeds with the git result; a failed or throwing one offers the fallback; accepted, the result is the download's; declined, a git-push failure with the error |
| ExportWorkflowModel.PushFailureDefaultMessage | src/workflow/ExportWorkflow.ts:266-304 | the error is the result's non-empty error, else 'Git push failed'; never empty |
| ExportWorkflowModel.DownloadShape | src/workflow/ExportWorkflow.ts:310-338 | success with initiated true unless showing the page throws; the choice is always 'download'; one page shown with the dataset |
| ExportWorkflowModel.ExportWorkflow.RunWorkflow | src/workflow/ExportWorkflow.ts:53-93 | result and collaborator calls are those of the run specification |
| ExportWorkflowModel.ExportWorkflow.InitializeServices | src/workflow/ExportWorkflow.ts:98-130 | the push service is initialised only after authentication initialised without throwing |
| ExportWorkflowModel.ExportWorkflow.CheckGitStatus | src/workflow/ExportWorkflow.ts:153-186 | result and calls as the Git status specification |
| ExportWorkflowModel.ExportWorkflow.HandleUserChoice | src/workflow/ExportWorkflow.ts:212-234 | dispatches to push, download or cancel; an unknown type throws; the calls it makes are those of the chosen handler |
| ExportWorkflowModel.ExportWorkflow.HandleGitPush | src/workflow/ExportWorkflow.ts:239-305 | result and calls as the push specification |
| ExportWorkflowModel.ExportWorkflow.HandleDownload | src/workflow/ExportWorkflow.ts:310-338 | result and calls as the download specification |
| ExportWorkflowModel.ExportWorkflow.TriggerDownload | src/workflow/ExportWorkflow.ts:343-355 | shows the download page with the dataset and the file name of the timestamp |
| Base64.Btoa | src/storage/SecureStorage.ts:44 | fails exactly on a code unit above 255; otherwise 4 * ceil(n / 3) characters |
| Base64.Atob | src/storage/SecureStorage.ts:53 | a decoded string is Latin-1 |
| Base64.AtobRejects | src/storage/SecureStorage.ts:53 | a character outside the alphabet, whitespace and '=' is an InvalidCharacterError |
| Base64.AtobRejectsLength | src/storage/SecureStorage.ts:53 | a length of 1 mod 4 after removing padding is an InvalidCharacterError |
| Base64.BtoaAtob | src/storage/SecureStorage.ts:44-53 | atob(btoa(s)) == s for every Latin-1 string |
| SecureStorageModel.KeyUnit | src/storage/SecureStorage.ts:30-39 | the key 'figma-github-plugin-2024' is read at i mod 24 and is ASCII |
| SecureStorageModel.Xor | src/storage/SecureStorage.ts:35-42 | same length; unit i is XORed with key unit i mod 24 |
| SecureStorageModel.XorSelfInverse | src/storage/SecureStorage.ts:35-62 | the XOR step undoes itself |
| SecureStorageModel.XorKeepsLatin1 | src/storage/SecureStorage.ts:35-42 | the XOR step keeps a string Latin-1 exactly when it was |
| SecureStorageModel.Encrypt | src/storage/SecureStorage.ts:32-49 | any failure is 'Failed to encrypt data' |
| SecureStorageModel.Decrypt | src/storage/SecureStorage.ts:51-67 | any failure is 'Failed to decrypt data' |
| SecureStorageModel.EncryptFailsIff | src/storage/SecureStorage.ts:32-49 | encryption fails iff some code unit exceeds 255 |
| SecureStorageModel.EncryptDecrypt | src/storage/SecureStorage.ts:32-67 | decrypt(encrypt(t)) == t for Latin-1 text, and non-empty text gives non-empty ciphertext |
| SecureStorageModel.DecryptRejects | src/storage/SecureStorage.ts:51-67 | non-base64 input fails with 'Failed to decrypt data' |
| SecureStorageModel.PutCredentials | src/storage/SecureStorage.ts:78-86 | fails with 'Failed to store GitHub credentials securely' iff the JSON is not Latin-1; otherwise writes the ciphertext under github_credentials_v1 and no other key |
| SecureStorageModel.CredentialsIn | src/storage/SecureStorage.ts:91-105 | null when the key is absent or empty or the text does not decrypt |
| SecureStorageModel.PutConfig | src/storage/SecureStorage.ts:110-126 | writes the JSON of the config with credentials cleared under github_config_v1; no other key changes |
| SecureStorageModel.ConfigIn | src/storage/SecureStorage.ts:131-144 | null when the key is absent or empty |
| SecureStorageModel.CompleteConfigIn | src/storage/SecureStorage.ts:149-168 | present iff both the config and the credentials are, and then the config with those credentials |
| SecureStorageModel.PutLastTest | src/storage/SecureStorage.ts:173-185 | writes the result with timestamp = now under github_last_test_v1; no other key changes |
| SecureStorageModel.LastTestIn | src/storage/SecureStorage.ts:190-210 | a returned result is never more than one hour old; null when the key is absent or empty |
| SecureStorageModel.ClearAll | src/storage/SecureStorage.ts:215-226 | the three keys are gone and every other entry is kept |
| SecureStorageModel.Configured | src/storage/SecureStorage.ts:231-238 | true iff the complete config has a truthy token and a repository with non-empty owner and name |
| SecureStorageModel.CredentialsRoundTrip | src/storage/SecureStorage.ts:78-105 | stored credentials read back unchanged |
| SecureStorageModel.StoreCredentialsFailsIff | src/storage/SecureStorage.ts:78-86 | storing fails iff the JSON text has a code unit above 255 |
| SecureStorageModel.ConfigRoundTrip | src/storage/SecureStorage.ts:110-144 | a stored config reads back with credentials cleared |
| SecureStorageModel.StoreConfigKeepsOthers | src/storage/SecureStorage.ts:110-126 | storing the config changes neither the stored credentials nor the last test |
| SecureStorageModel.CompleteConfigAfterStoring | src/storage/SecureStorage.ts:110-168 | after storing a config and credentials the complete config is the config with those credentials |
| SecureStorageModel.ConfiguredAfterStoring | src/storage/SecureStorage.ts:231-238 | after storing a token and a named repository the plugin counts as configured |
| SecureStorageModel.CredentialsValidIff | src/storage/SecureStorage.ts:243-250 | true iff the stored token is a string that is non-empty after trimming |
| SecureStorageModel.LastTestFreshness | src/storage/SecureStorage.ts:173-210 | a stored test reads back, timestamped, iff no more than one hour has passed |
| SecureStorageModel.FreshAtExactlyOneHour | src/storage/SecureStorage.ts:201 | exactly one hour is still fresh; one millisecond more is not |
| SecureStorageModel.ClearAllForgets | src/storage/SecureStorage.ts:215-226 | after clearing, every getter returns null and the checks are false |
| SecureStorageModel.SecureStorage.StoreCredentials | src/storage/SecureStorage.ts:78-86 | the store becomes PutCredentials, or stays unchanged with the failure |
| SecureStorageModel.SecureStorage.GetCredentials | src/storage/SecureStorage.ts:91-105 | returns the credentials the store holds |
| SecureStorageModel.SecureStorage.StoreConfig | src/storage/SecureStorage.ts:110-126 | the store becomes PutConfig |
| SecureStorageModel.SecureStorage.GetConfig | src/storage/SecureStorage.ts:131-144 | returns the stored config |
| SecureStorageModel.SecureStorage.GetCompleteConfig | src/storage/SecureStorage.ts:149-168 | returns the complete config |
| SecureStorageModel.SecureStorage.StoreLastConnectionTest | src/storage/SecureStorage.ts:173-185 | the store becomes PutLastTest at the given time |
| SecureStorageModel.SecureStorage.GetLastConnectionTest | src/storage/SecureStorage.ts:190-210 | returns the fresh stored test |
| SecureStorageModel.SecureStorage.ClearAllKeys | src/storage/SecureStorage.ts:215-226 | the store becomes ClearAll |
| SecureStorageModel.SecureStorage.IsConfigured | src/storage/SecureStorage.ts:231-238 | returns Configured of the store |
| SecureStorageModel.SecureStorage.ValidateStoredCredentials | src/storage/SecureStorage.ts:243-250 | returns CredentialsValid of the store |
| JsObjects.TypeOf | src/github/MethodValidator.ts:55 | "function" exactly for a callable object |
| JsObjects.Get | src/github/MethodValidator.ts:54 | undefined for a key nowhere on the chain; an own property wins |
| MethodValidatorModel.VerdictOf | src/github/MethodValidator.ts:60-67 | missing iff the value is undefined or null; valid iff it is a function |
| MethodValidatorModel.SelectedIsSubsequence | src/github/MethodValidator.ts:53-66 | the names given one verdict keep the order of the required names |
| MethodValidatorModel.SelectedMembers | src/github/MethodValidator.ts:53-66 | a name is listed iff it is required and has that verdict |
| MethodValidatorModel.Partition | src/github/MethodValidator.ts:53-79 | each required name is missing (undefined/null), invalid (present, not a function) or in neither list (a function), never both |
| MethodValidatorModel.ListsKeepOrder | src/github/MethodValidator.ts:53-66 | missingMethods and invalidMethods are subsequences of the required names |
| MethodValidatorModel.ValidIffAllFunctions | src/github/MethodValidator.ts:81 | both lists are empty iff every required name is a function |
| MethodValidatorModel.ChainNames | src/github/MethodValidator.ts:106-133 | 'constructor' is never listed |
| MethodValidatorModel.AddNames | src/github/MethodValidator.ts:113-117 | adds the own names except 'constructor', without duplicates |
| MethodValidatorModel.AddSymbols | src/github/MethodValidator.ts:120-122 | adds "Symbol(d)" for each own symbol, without duplicates |
| MethodValidatorModel.GetAllProperties | src/github/MethodValidator.ts:106-133 | sorted, duplicate-free, exactly the names on the chain up to Object.prototype, without 'constructor' |
| MethodValidatorModel.ValidateMethods | src/github/MethodValidator.ts:23-101 | a falsy object gives the null/undefined result; otherwise the two lists, isValid iff both empty, the object type, the sorted properties, and a typeof entry for every required name |
| MethodValidatorModel.InspectRequired | src/github/MethodValidator.ts:53-79 | the missing names and the invalid names, each in the order of the required list, and the typeof of every required name |
| MethodValidatorModel.WrapperGet | src/github/MethodValidator.ts:157-185 | unmonitored keys pass through; a monitored key throws iff its value is not a function, with "Method p on N is not a function (type: t)"; otherwise it is wrapped |
| MethodValidatorModel.CreateSafeWrapper | src/github/MethodValidator.ts:138-186 | throws "Safe wrapper creation failed for N: Missing: [..], Invalid: [..]" exactly when validation fails; a validated primitive (only with no required names) makes `new Proxy` throw a TypeError; otherwise the wrapper around the object |
| MethodValidatorModel.PrimitivePassesOnlyEmpty | src/github/MethodValidator.ts:145-154 | a truthy primitive passes validation only when no method is required |
| MethodValidatorModel.WrapperOnValidatedObject | src/github/MethodValidator.ts:157-185 | on a validated object the monitored names are wrapped functions and the rest pass through |
| ClientTrackerModel.EntryShape | src/debug/ClientTracker.ts:11-17 | "[HH:MM:SS.mmm] 🔍 message", plus " data" when data is given |
| ClientTrackerModel.Entries | src/debug/ClientTracker.ts:11-17 | one entry per logged line, in order |
| ClientTrackerModel.EntriesAppend | src/debug/ClientTracker.ts:11-17 | logging two batches is logging their concatenation |
| ClientTrackerModel.CheckOf | src/debug/ClientTracker.ts:39-47 | isFunction iff typeof the member is 'function', and the type name says 'function' exactly then |
| ClientTrackerModel.FalsyObjectTrace | src/debug/ClientTracker.ts:31-37 | a falsy object gives false after the ATTEMPTING and null entries |
| ClientTrackerModel.TraceMeaning | src/debug/ClientTracker.ts:39-57 | for a truthy object: throws iff it is a primitive (the `in` test), the member is an object without a callable toString (`boundCorrectly`), its hasOwnProperty is not callable, or its prototype is null; otherwise true iff the member is a function |
| ClientTrackerModel.AsyncResult | src/debug/ClientTracker.ts:59-85 | false when the trace is false; a throwing trace rejects |
| ClientTrackerModel.AsyncMeaning | src/debug/ClientTracker.ts:69-83 | a valid method resolves true iff its constructor can be read |
| ClientTrackerModel.SplitJoin | src/debug/ClientTracker.ts:108 | joining single-line parts with '\n' and splitting gives the parts back |
| ClientTrackerModel.ReportReadsBack | src/debug/ClientTracker.ts:95-109 | the report's lines are 80 '=', the title, "Generated: …", 80 '=', '', the logs, '', 80 '=', 'END OF REPORT' |
| ClientTrackerModel.ClientTracker.Log | src/debug/ClientTracker.ts:11-17 | appends exactly one entry and keeps the earlier ones |
| ClientTrackerModel.ClientTracker.TraceMethodCall | src/debug/ClientTracker.ts:31-57 | returns the trace result and appends the trace's entries |
| ClientTrackerModel.ClientTracker.ReportCheck | src/debug/ClientTracker.ts:40-56 | logs the METHOD CHECK line, then NOT A FUNCTION or METHOD VALID; true iff the member is a function |
| ClientTrackerModel.ClientTracker.TraceAsyncMethodCall | src/debug/ClientTracker.ts:59-85 | resolves as AsyncResult and appends the async trace's entries |
| ClientTrackerModel.ClientTracker.TestCall | src/debug/ClientTracker.ts:69-83 | the try block: true iff the constructor can be read, logging the test lines |
| ClientTrackerModel.ClientTracker.GetDiagnosticReport | src/debug/ClientTracker.ts:87-89 | a fresh array equal to the buffer, so writing to it cannot change the buffer |
| ClientTrackerModel.ClientTracker.ClearLogs | src/debug/ClientTracker.ts:91-93 | the buffer is empty |
| ClientTrackerModel.ClientTracker.ExportDiagnostics | src/debug/ClientTracker.ts:95-109 | the report of the current buffer |
| GitHubIntegrationModel.OrElse | src/github/GitHubIntegration.ts:59 | or-else on strings: the string when non-empty, the fallback otherwise |
| GitHubIntegrationModel.UnparseableUrlFails | src/github/GitHubIntegration.ts:47-87 | an unparseable URL fails with 'Invalid repository URL format…' and no setup call |
| GitHubIntegrationModel.SetupRequestShape | src/github/GitHubIntegration.ts:53-65 | setup gets the token, the parsed owner and name, the given non-empty branch or else 'main', and the two fixed paths |
| GitHubIntegrationModel.FailedSetupReturnedAsIs | src/github/GitHubIntegration.ts:67-69 | a failed setup result is returned unchanged and no connection test runs |
| GitHubIntegrationModel.SetupSuccessIff | src/github/GitHubIntegration.ts:44-88 | success iff the URL parses, setup succeeds and the test returns; then the test result is carried |
| GitHubIntegrationModel.StatusOf | src/github/GitHubIntegration.ts:100-109 | canPush iff connected and the last test's permissions allow writing; the other fields are copied |
| GitHubIntegrationModel.CreateTokenDataset | src/github/GitHubIntegration.ts:278-302 | counts are the tokens, variables, collections, errors and warnings lengths; the lists and document are carried |
| GitHubIntegrationModel.CannotPushTouchesNothing | src/github/GitHubIntegration.ts:134-191 | without canPush the run fails with "Cannot push to GitHub: <message>" and neither extracts nor pushes |
| GitHubIntegrationModel.SkippedExtraction | src/github/GitHubIntegration.ts:141-156 | skipping never calls the extractor; given tokens are pushed, none gives 'No tokens to push…' |
| GitHubIntegrationModel.PushFailureMessage | src/github/GitHubIntegration.ts:168-170 | an unsuccessful push fails with its error, or 'Failed to push tokens to GitHub' when it has none |
| GitHubIntegrationModel.ExtractAndPushSuccessIff | src/github/GitHubIntegration.ts:130-191 | success iff canPush, tokens at hand and a successful push; then extractionResult and pushResult are carried; a failure always has an error |
| GitHubIntegrationModel.PushExistingMeaning | src/github/GitHubIntegration.ts:197-222 | without canPush nothing is pushed; otherwise the given tokens are pushed and the push's own success and error are reported |
| GitHubIntegrationModel.Summary | src/github/GitHubIntegration.ts:250-257 | description defaults to '', canPush to false; the other fields are copied |
| GitHubIntegrationModel.Summaries | src/github/GitHubIntegration.ts:250-257 | one summary per repository, in order |
| GitHubIntegrationModel.RepositoriesOf | src/github/GitHubIntegration.ts:243-268 | success iff the listing succeeds; then the mapped repositories, [] when none |
| GitHubIntegrationModel.ValidateRepositoryUrl | src/github/GitHubIntegration.ts:314-328 | valid iff parsing succeeds, then with the parse; otherwise the format message |
| GitHubIntegrationModel.ValidationAgreesWithSetup | src/github/GitHubIntegration.ts:47-328 | setup and validation accept the same URLs and give the same message otherwise |
| GitHubIntegrationModel.ConfigurationInfoOf | src/github/GitHubIntegration.ts:341-357 | isConfigured and isConnected are the configuration's; repository "owner/name" and branch present iff a repository is configured; lastTest is the last test's login |
| GitHubIntegrationModel.GitHubIntegration.SetupGitHubIntegration | src/github/GitHubIntegration.ts:39-88 | result and calls as the setup specification |
| GitHubIntegrationModel.GitHubIntegration.GetConnectionStatus | src/github/GitHubIntegration.ts:93-110 | StatusOf the configuration and status message, reading both |
| GitHubIntegrationModel.GitHubIntegration.ExtractAndPushTokens | src/github/GitHubIntegration.ts:119-192 | result and calls as the extract-and-push specification |
| GitHubIntegrationModel.GitHubIntegration.PushExistingTokens | src/github/GitHubIntegration.ts:197-222 | result and calls as the push-existing specification |
| GitHubIntegrationModel.GitHubIntegration.ListRepositoriesOf | src/github/GitHubIntegration.ts:231-269 | result as the listing specification |
| GitHubIntegrationModel.GitHubIntegration.GetConfigurationInfo | src/github/GitHubIntegration.ts:341-357 | the configuration summary |
| JsStrings.ContainsIff | src/errors/ErrorTypes.ts:728-794 | `includes` holds iff the word occurs at some position |
| JsStrings.TrimNonEmpty | src/storage/SecureStorage.ts:246 | a trimmed string is non-empty iff some character is not whitespace |
| JsStrings.SortStrings | src/github/MethodValidator.ts:132 | a sorted permutation of the input, duplicate-free when the input is |

## Left out

- Markup, styling and script text of every window (HTML/CSS templates, `getStyles`, `getScript`, the unused `render*` methods, the download and fallback pages): presentation, not behaviour.
- Host runtime calls (`figma.showUI`, `notify`, `closePlugin`, client storage): a window is its options record and a message handler; storage is a map that never fails, so the error and rethrow paths of `storeConfig`, `clearAll` and `storeLastConnectionTest` are not modelled.
- Console logging throughout, `inspectObject`, `analyzeMethodBinding` (only logs) and the method inspection inside the `validateMethods` loop (`toString`, `name`, `boundCorrectly`), which affect no result.
- Promise and async mechanics: steps run in sequence; `Promise.all` is two reads in order.
- `JSON.stringify`/`JSON.parse`: an abstract codec with a round-trip law; a parse that fails or yields a non-record is folded into "no value".
- Clocks: `Date.now` and `toISOString` are parameters; each trace call uses one timestamp for all its log lines.
- The collaborators whose source is not part of this model (token extractor, GitHub configuration manager and `parseRepositoryUrl`, authentication and push services, choice UI): their answers are inputs. The choice UI's answer may be a rejection, which the run's catch turns into a failed cancel result. The configuration they report is the same for every call on one integration object.
- `initialize`, `getTokenSetupUrl` and `clearConfiguration` of the GitHub integration: pure delegation to the configuration manager.
- The KB size in the download page: floating point.
- Confidentiality of the XOR scheme: only round trip and failure behaviour are modelled.
- JsStrings.ToLowerCase: covers ASCII letters plus U+0130 and U+212A (the only characters whose lower case contains an ASCII letter); other characters are kept, which does not change any keyword test.
- ErrorDialogScreen.FormatSeverity: upper-cases ASCII only, which covers every severity value.
- JsStrings.SortStrings: orders by character, not by UTF-16 code unit; the two differ only outside the Basic Multilingual Plane.
- Statuses are integers or absent; a non-numeric `status` property is not modelled.
- The unreachable `default:` branches of the severity switches: every severity has its own case.
- EnhancedErrorHandler.ShouldShowEmptyFileScreen: a field is missing, null or has an integer length; a non-numeric length is not modelled.
- JsObjects: numbers are integers (no NaN, no fractions); accessor properties, getters and an overridden `hasOwnProperty` are not modelled; primitives have no wrapper prototypes, so `validateMethods`, `getAllProperties` and the traces see no properties on them.
- MethodValidatorModel.ValidateMethods: the object type is the constructor's name when it is a non-empty string; other truthy names are not modelled.
- MethodValidatorModel.WrapperGet: the wrapper's logging and its forwarding of calls (`apply`) are not modelled; a monitored function is returned as a marked value.
- MethodValidatorModel.CreateSafeWrapper: primitives are seen without their wrapper prototypes, so a primitive with required names fails validation rather than passing it and reaching `new Proxy`.
- ClientTrackerModel.CheckOf: a user-defined `toString` that throws, or that returns something other than a string (so that `.includes` throws), is not modelled; only a missing or non-callable `toString` on an object member throws.
- GitHubIntegrationModel.RepositoriesOf: a failed listing is returned with its error but without passing through its raw repository array.
- GitHubIntegrationModel.PushExistingTokens: the tokens are a dataset value; any other shape of `tokens` is not modelled.
- The ISO timestamp format for extended (six-digit) years.
- `DropFromFirstDot` treats every character after the first '.' as removable; the regular expression `/\..+/` stops at a line terminator, which a timestamp never contains.
- Whole files: the build configuration, the icon script, the re-export index, the shared type declarations and the developer demo of the GitHub integration (no logic of its own).
