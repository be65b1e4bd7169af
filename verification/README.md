# Verification of the Jenkins service

A Dafny model of the service's protocols and of the shared pipeline library, with proofs of what they
promise. `dafny verify dfyconfig.toml` checks it all.

- **Control plane** (`Records`, `Attachment`, `ControlPlane`, `ControlInvariants`, `ControlSafety`,
  `ControlRequests`, `ControlTheorems`, `ControlIdentity`, `ControlStatuses`, `ControlCompletion`, `ControlRefresh`,
  `ControlQueues`, `ControlReuse`, `ControlProgress`, `ControlReturns`, `ControlWitness`, `Service`): builds, queue items,
  deliveries and AI-review runs. Every awaited call is answered by an arbitrary environment and may raise
  before or after it took effect, so each request may be cut off anywhere. `ControlPlane` states each operation as a
  function on the stored state; the class in `Service` updates its fields in place, with the loops of the
  program, and is proved to compute those functions. The theorems are about every run of them, and say exactly what
  each operation does when nothing raises. Besides the store, the state keeps the history of what was published, asked
  and saved.
- **Extension runs and the store** (`ExtensionRuns`, `Store`): the insert that decides between interleaved callers,
  and the agreement of the memory store with the Postgres upsert.
- **Unified diffs** (`UnifiedDiff`, `DiffSemantics`, `DiffForms`, `DiffExactness`, `DiffConservation`, `ReviewClient`): the parser
  that decides which lines may receive comments, against an independent semantics of diffs as edit scripts
  ("Diff -u or -U Output Format" of the POSIX.1-2017 `diff` utility, with git headers), and the model client's retry loop.
- **Folder reconciliation** (`Reconciler`, `ReconcilerSystem`): one reconciler's bounded retries under arbitrary
  observations, and any number of them against a Jenkins whose writes commit late.
- **Rate limiting** (`Limiter`), **shell quoting** (`Text`, `ShellQuoting`, `ContainerCommand`) and the
  **required-failure fold** (`PipelineFold`).

Where the code does something a reader might not expect, the model follows the code:

- A review skipped because its policy was disabled is replayed as a success when the policy is enabled later:
  a replay agrees with the record exactly when the stored run was not skipped (`ControlTheorems.ReplayAgrees`), and
  `ControlWitness.DisagreementIsReached` is a run that gets there.
- A completion replayed after its delivery left the listed window saves its result again
  (`ControlCompletion.ForgottenReplayRewrites`).
- Overlapping reviews under one key can both review (`ExtensionRuns.AdoptersBothWork`); run one after the other they cannot
  (`ControlTheorems.ReviewedAtMostOnce`).
- Both stores agree on a saved run except when one id is saved under two keys (`Store.SaveAgrees`).
- The pauses of one reconciliation sum to at most 94 base delays, less than the two full backoffs of 63 together:
  the first loop pauses for the last time only when it gives up (`Reconciler.BoundedEffort`).
- A limiter whose clock steps back can admit more than its limit (`Limiter.BackwardClockOvershoots`).

## Model

| member | source | states |
|---|---|---|
| Limiter.SlidingWindowLimiter.Allow | src/jenkins_service/security.py:88-103 | the loop over one deque decides and stores what one step of the specification `Admit` says; other keys keep their deques |
| Limiter.DecidesByFullHistory | src/jenkins_service/security.py:94-102 | on a clock that never steps back a request is accepted iff fewer than `limit` accepted requests of its key lie in `(now - window, now]` of the full, never pruned history |
| Limiter.NeverExceedsLimit | src/jenkins_service/security.py:94-102 | wherever it is placed, no window of the configured length holds more than `limit` accepted requests of a key |
| Limiter.DequeIsRecentHistory | src/jenkins_service/security.py:96-101 | the stored deque is the accepted history newer than the key's last cutoff |
| Limiter.KeysIndependent | src/jenkins_service/security.py:95 | a key's deque and its history in any interleaved run are those of a run of that key alone |
| Limiter.BackwardClockOvershoots | src/jenkins_service/security.py:94-102 | the clock condition is needed, whatever the window: when a reading steps back, three requests pass a limit of two in one window |
| ShellQuoting.QuoteRoundTrip | shared-library/vars/jenkinsServicePipeline.groovy:564-566 | for every string, a POSIX shell (section 2.2 of the Shell Command Language, POSIX.1-2017) reads the quoted value back as that one word |
| ShellQuoting.CommandRoundTrip | shared-library/vars/jenkinsServicePipeline.groovy:532-534 | a list-valued command, quoted and joined, is read back as the same argument list |
| ShellQuoting.LexLine | shared-library/vars/jenkinsServicePipeline.groovy:535-549 | a line of quoted values, plain text and substitutions is read as its words, each with its value, whatever the values hold |
| ContainerCommand.OuterShellReadsStep | shared-library/vars/jenkinsServicePipeline.groovy:523-562 | the outer shell reads the whole `docker run` line as exactly the arguments of the step: limits with the memory in Docker's unit, mounts, environment, image and script |
| ContainerCommand.MemoryExactly | shared-library/vars/jenkinsServicePipeline.groovy:553-562 | `Gi` becomes `g` and `Mi` becomes `m`, whatever the amount, and a command line exists iff the memory has one of these units |
| ContainerCommand.NestedQuotingRoundTrip | shared-library/vars/jenkinsServicePipeline.groovy:532-549 | the argument list of a step survives both shell levels: the script word of the outer line, read again inside the container, is the list |
| PipelineFold.StepStage | shared-library/vars/jenkinsServicePipeline.groovy:90-96 | a stage of contract steps appends one check per step, with its id, reports and exit code - passed iff zero, a warning iff explicitly waived, else failed - and keeps `requiredFailure` equal to "some recorded check is required and failed" |
| PipelineFold.ChecksInOrder | shared-library/vars/jenkinsServicePipeline.groovy:90-141 | the checks of a pipeline stand in the order of its stages, each with its id, flag, status, exit code and reports; a failed database update fails both scans without an exit code |
| PipelineFold.DependencyStage | shared-library/vars/jenkinsServicePipeline.groovy:108-125 | both branches of the database update record their three checks, and the three reads from the end keep the flag exact |
| PipelineFold.SecurityStage | shared-library/vars/jenkinsServicePipeline.groovy:98-106 | the secret scan appends its check and keeps the flag exact |
| PipelineFold.Call | shared-library/vars/jenkinsServicePipeline.groovy:90-182 | the published checks are those of all stages in order, and the status is `failed` iff one of them is required and failed |
| PipelineFold.FailsExactlyWhen | shared-library/vars/jenkinsServicePipeline.groovy:90-141 | the result fails iff a scanner returned non-zero or a step that is not waived did, for every contract and every exit code |
| UnifiedDiff.ParseUnifiedDiff | src/jenkins_service/review.py:90-153 | the loop over its five variables returns the result or the first error that the line-by-line transition function gives on the lines of the text |
| UnifiedDiff.ParseConcat | src/jenkins_service/review.py:105-150 | parsing a concatenation is parsing the second part from the state the first one leaves |
| DiffExactness.ParserIsExact | src/jenkins_service/review.py:90-153 | for every well-formed structured diff, parsing its text succeeds, names exactly the files with a right side, and for each exactly the lines of the new file that the edit script did not copy from the old one |
| DiffForms.HeaderExactly | src/jenkins_service/review.py:65-68 | a line is a hunk header iff it spells `@@ -`, digits with an optional count, ` +`, the same, and ` @@`; its four numbers are those, with counts one when absent |
| DiffForms.RightSideExactly | src/jenkins_service/review.py:71-87 | a right-side header names a path iff it is `b/` and that path, up to a tab if there is one, and the path is relative: components that are not empty, a dot or two dots |
| DiffExactness.SafePathExactly | src/jenkins_service/review.py:80-86 | the path test accepts exactly relative paths of such components |
| DiffExactness.HeaderRoundTrip | src/jenkins_service/review.py:65-68 | every rendered hunk header, with or without counts and heading, matches with its four numbers |
| DiffExactness.BodyParses | src/jenkins_service/review.py:128-150 | a hunk body uses up exactly its counts and records exactly the numbers of its added lines; context, deletions and no-newline marks record none |
| DiffExactness.PathParses | src/jenkins_service/review.py:71-87 | a safe right-side path is read back from its header line, with or without a time stamp |
| DiffExactness.RemovedFileIsRefused | src/jenkins_service/review.py:73-74 | a diff with a deleted file is refused as such, whatever stands before and after it |
| DiffExactness.LinesRoundTrip | src/jenkins_service/review.py:105 | lines without line breaks, joined by newlines, are split into the same lines |
| DiffExactness.SplitOneLine | src/jenkins_service/review.py:105 | text is split after a line at any of the line breaks of `str.splitlines`, a carriage return with its newline counting once |
| DiffExactness.StrayBreakIsRefused | src/jenkins_service/review.py:105 | why lines must be single lines for `str.splitlines`: any such line break inside an added line makes the parser refuse the diff unless the rest begins like a diff line |
| DiffConservation.HunkConservation | src/jenkins_service/review.py:99-153 | in any accepted input every hunk has exactly the old and new lines its header declares, all tagged, so additions minus deletions is new count minus old count |
| DiffConservation.NumbersAreAddedLines | src/jenkins_service/review.py:139-146 | in any accepted input the recorded numbers of a path are exactly the positions of its added lines, counted from their hunk headers |
| DiffConservation.NumbersInRange | src/jenkins_service/review.py:139-150 | each recorded number lies in the new range its hunk declares |
| DiffConservation.AcceptsExactly | src/jenkins_service/review.py:99-153 | a text is accepted iff every line may stand where it is - file header, index, right side, hunk header or a body line that its hunk still has room for - and every hunk is full when it ends |
| DiffConservation.ValidExactly | src/jenkins_service/review.py:56-62 | a review fits an accepted diff iff every finding is on a line the diff adds, by position |
| ReviewClient.Review | src/jenkins_service/review.py:288-325 | at most `max_attempts` calls, each but the last answered by a transient failure or a finding on no added line; accepted iff the last answer's findings are all on added lines, rejected iff it was refused, and exhausted only after every attempt; the backoff sum is exact |
| Text.Utf8Concat | src/jenkins_service/review.py:179-181 | the byte length of a text is the sum over its parts |
| Reconciler.EnsureRepositoryFolder | src/jenkins_service/clients.py:139-220 | the two polling loops make, against any replies, the requests of the protocol machine, and return normally iff the replies have one of these shapes: a folder at the first read; an empty path and then, within six accepted or refused creates, a folder; or a workflow job that is renamed, or already at both paths, and a migration that settles within six looks, followed by the same |
| Reconciler.AwaitMigration | src/jenkins_service/clients.py:165-185 | the settle loop ends migrated, with a folder seen, or giving up, as the machine does |
| Reconciler.CreateFolder | src/jenkins_service/clients.py:201-220 | the create loop returns iff it saw a folder, as the machine does |
| Reconciler.BoundedEffort | src/jenkins_service/clients.py:124-126 | whatever Jenkins answers: at most 21 item reads, one rename, six creates, and pauses of at most 94 base delays |
| Reconciler.Guarded | src/jenkins_service/clients.py:142-216 | a rename only after a workflow job was seen with nothing at the legacy path; a create only right after the path was seen empty and, when migrating, after the job was seen at the legacy path; a normal return only after a folder was seen |
| Reconciler.LateRenameStillReturns | src/jenkins_service/clients.py:165-217 | a migration that settles in any of the six attempts, whatever was seen before, ends in a normal return when the folder is seen before any of the six creates or after the last, whichever creates were refused |
| Reconciler.StartsWaiting | src/jenkins_service/clients.py:146-165 | the settle loop is entered after an accepted rename and when the job is already seen at both paths |
| ReconcilerSystem.HistoryKept | src/jenkins_service/clients.py:139-220 | with any number of interleaved reconcilers and late, refused or lost writes, a job at either path is at one of the two ever after |
| ReconcilerSystem.FolderStays | src/jenkins_service/clients.py:139-220 | a folder once at the repository path is never renamed away |
| ReconcilerSystem.ReturnMeansFolder | src/jenkins_service/clients.py:139-220 | from the moment any reconciler returns normally there is a folder at the repository path |
| ReconcilerSystem.MigratedBeforeFolder | src/jenkins_service/clients.py:153-185 | a job that was at the repository path is at the legacy path once the folder is there |
| Attachment.NormalForm | src/jenkins_service/service.py:350-400 | after any sequence of attachments: one review check, last, with the id, status, exit code and report of the last outcome; one review artifact with the digest and size of the stored log; other entries in their order; each attached run id once |
| Attachment.AttachedStatus | src/jenkins_service/service.py:397-398 | the status becomes failed iff a required failed review was attached, and is otherwise unchanged |
| Attachment.AttachAgain | src/jenkins_service/service.py:350-400 | attaching the latest run and log again changes nothing |
| Attachment.OtherChecksConcat | src/jenkins_service/service.py:395 | the other checks are kept piece by piece, so in their order |
| Attachment.OtherArtifactsConcat | src/jenkins_service/service.py:377-379 | the other artifacts are kept piece by piece, so in their order |
| Attachment.AttachedStaysHonest | src/jenkins_service/service.py:395-398 | a build that is failed or cancelled whenever a required check failed stays so under attachment |
| Service.JenkinsService.PublishCiStatus | src/jenkins_service/service.py:312-348 | the three-attempt loop retries only upstream errors; returned or raised, its state is the specification's |
| ControlProgress.PublishTries | src/jenkins_service/service.py:322-348 | a status is posted at most three times, again only after an upstream error; true iff a call returned, false after three upstream errors |
| Service.JenkinsService.FindReusable | src/jenkins_service/service.py:402-418 | the search returns the newest listed build that can be reused |
| Service.JenkinsService.ProcessReviewWithRetry | src/jenkins_service/service.py:1002-1030 | at most three tries, none after one returned or was stopped |
| ControlProgress.ReviewTries | src/jenkins_service/service.py:1010-1030 | a review is tried at most three times, again after every error but a cancellation; true iff a try returned |
| Service.ServeAll | src/jenkins_service/service.py:512-1241 | a service object that serves a list of requests, its methods updating the store in place as the program does, ends in exactly the state of the specified run, whatever raised |
| ControlRequests.RunKeeps | src/jenkins_service/service.py:312-1241 | the invariant of builds, queue items, review runs, reviews and statuses holds in every state of every run, with any call raising before or after its effect |
| ControlRequests.RunEvolves | src/jenkins_service/service.py:312-1241 | every later state of a run extends every earlier one: nothing stored is lost, identities are fixed, finished stays finished, histories only grow |
| ControlTheorems.ReviewedAtMostOnce | src/jenkins_service/service.py:675-740 | at most one GitHub review is ever asked for per idempotency key, counting requests that raised |
| ControlIdentity.KeyExactly | src/jenkins_service/service.py:675-687 | two completions are reviewed under one key iff repository, head and base agree up to case, the pull request agrees with zero and none alike, and model and prompt agree |
| ControlIdentity.SuccessIsReviewed | src/jenkins_service/service.py:688-925 | in every run, whatever a review of an accepted completion publishes is on its own repository, commit and build; a success, unless a skipped run was found, stands for a review of that commit asked of GitHub |
| ControlIdentity.ReviewsOnlyAttach | src/jenkins_service/service.py:350-400 | in every run a review changes no queue item, delivery or acceptance, and a build only by attaching a log of that build |
| ControlStatuses.StatusesAreTrue | src/jenkins_service/service.py:312-342 | in every run each status is on its build's repository and commit; a native success only for a build saved as passed, failure for failed or cancelled, pending for queued; an AI-review success only for a commit whose review was asked of GitHub, or was asked for when there was none to make |
| ControlTheorems.CommentsOnAddedLines | src/jenkins_service/service.py:869-904 | every comment ever published is on an added line of its diff, in the range its hunk declares |
| ControlTheorems.NativeBuildsGetNoReviewStatus | src/jenkins_service/service.py:701-718 | a build without a pull request never gets an AI-review status |
| ControlTheorems.PassedReviewWasPublished | src/jenkins_service/service.py:905-950 | a stored log that passed belongs to a review asked of GitHub under its key, with the log's findings as comments |
| ControlTheorems.ReviewVerdict | src/jenkins_service/service.py:883-950 | a submitted review publishes failure iff a finding is critical, and records a pass only without one and with the success published |
| ControlTheorems.ReplayAgrees | src/jenkins_service/service.py:688-718 | in every state of every run, what a deduplicated review publishes is what the stored log says - pending without a log, failure for failed, success for passed - iff the stored run was not skipped; the run is left as it was |
| ControlTheorems.EnabledReplayAgrees | src/jenkins_service/service.py:688-718 | so they agree as long as no request under the key had the review disabled or no pull request |
| ControlTheorems.SkippedReplaysAsSuccess | src/jenkins_service/service.py:696-718 | a run skipped by a disabled policy is replayed as success by every later enabled request, though nothing was reviewed |
| ControlProgress.FreshReview | src/jenkins_service/service.py:791-997 | with nothing raising, a first review goes to GitHub iff base, diff and broker are there, the diff fits its limit and parses, model and prompt match and every finding is on an added line; then exactly one review, a final failure iff a finding is critical, and the succeeded run with its log; else a failed run, log and status |
| ControlProgress.FreshSkip | src/jenkins_service/service.py:742-789 | with nothing raising, a first review that does not apply leaves a skipped run, its log on the build, no status and no review |
| ControlProgress.SettledReplay | src/jenkins_service/service.py:688-722 | with nothing raising, a deduplicated review attaches the stored log to the build, publishes pending, failure or success as the stored run is running, failed or blocking, or neither, and takes up a running run only when no review applies |
| ControlWitness.DisagreementIsReached | src/jenkins_service/service.py:688-789 | for any repository, commit and pull request that disagreement is reached by five requests from the empty store with nothing raising |
| ControlTheorems.SkippedReviewIsAudited | src/jenkins_service/service.py:742-789 | a review of an accepted completion that does not apply, whenever it returns, leaves the stored build with a log of its own, also when it resumes a stalled run or shares one |
| ControlTheorems.AnsweredCallbackIsAudited | src/jenkins_service/app.py:317-323 | an answered completion without a pull request has stored that log |
| ControlTheorems.PassedMeansPassed | src/jenkins_service/service.py:395-398 | with results from the pipeline fold no stored build is ever passed while it holds a required failed check |
| ControlTheorems.Lifecycle | src/jenkins_service/service.py:1167-1241 | a passed, failed or cancelled build is never queued or running again; repository and commit (up to case) and pull request never change |
| ControlTheorems.EndedQueueItems | src/jenkins_service/service.py:1153-1165 | a failed or cancelled queue item always belongs to a finished build, also after an abort between the two saves |
| ControlCompletion.CompletesAtMostOnce | src/jenkins_service/service.py:628-665 | in any run `complete_build` answers true at most once per callback id, even when the duplicate check sees only a window of deliveries, and whether or not the route that called it returned |
| ControlProgress.CompletesExactly | src/jenkins_service/service.py:604-665 | with nothing raising, a completion is refused iff its build is unknown, or another by build id, pull request or - up to case - repository, commit or base, or the result is not final; a listed delivery is answered false; else result and policy are saved and the answer is true iff the delivery is new |
| ControlReturns.CallbackReturns | src/jenkins_service/app.py:313-331 | with nothing raising, the route answers what `complete_build` answers and accepts the completion iff that returns; without a pull request its review is made first |
| ControlCompletion.Converges | src/jenkins_service/service.py:632-658 | after any number of cut-off or failed calls, a call that answers true leaves the builds, queue items and deliveries of one success |
| ControlCompletion.CompleteLeaves | src/jenkins_service/service.py:604-665 | a call leaves the store as it was, or with the build saved, or with the delivery recorded |
| ControlCompletion.CompletionPublishes | src/jenkins_service/service.py:636-648 | the native status is success iff the result passed, and every normal return has published it |
| ControlCompletion.ReplayChangesNothing | src/jenkins_service/service.py:628-631 | with all deliveries listed, a replay of a recorded completion anywhere in a run changes nothing and answers false, whatever it raises |
| ControlCompletion.ForgottenReplayRewrites | src/jenkins_service/service.py:632-650 | a replay outside the listed window answers false when it returns but saves the result again; it changes nothing iff the build already has that result and policy |
| ControlReuse.HitExactly | src/jenkins_service/service.py:402-418 | a hit occurs iff a stored native build of the repository and commit passed with the pull request's base as trusted SHA and is within the listing window; what is found is the newest such build |
| ControlReuse.NewestExactly | src/jenkins_service/service.py:408-417 | of a list, the last build that can be reused is found, and none iff there is none |
| ControlReuse.HitStartsNothing | src/jenkins_service/service.py:525-532 | a hit starts no Jenkins build, however it ends |
| ControlStatuses.MissStartsOne | src/jenkins_service/service.py:533-602 | a miss posts only native pending on the request's commit for the build it records, whatever raises; when it returns it has started exactly one Jenkins build and recorded exactly that one, queued, with its queue item |
| ControlStatuses.HitRecords | src/jenkins_service/service.py:428-471 | a hit, whatever raises, publishes native success for its new build only and starts nothing; when it returns, the new build is the source's native result with the pull request's base, its queue item is stored, and other builds have at most review logs attached |
| ControlStatuses.HitReviews | src/jenkins_service/service.py:485-509 | the reused build is reviewed under the source's policy, with the fetched diff, or as troubled without one |
| ControlReturns.TriggerReturns | src/jenkins_service/service.py:512-602 | with nothing raising, a trigger returns iff its repository is registered |
| ControlReturns.RetryTriggersAgain | src/jenkins_service/service.py:1032-1055 | a retry is a trigger of the stored build's repository, commit, base and pull request |
| ControlReuse.HitRecordsSource | src/jenkins_service/service.py:428-459 | a hit that returns has recorded a build of the pull request that points to the found one, whose trusted SHA is the base of the new build |
| ControlReuse.ReusedSoundAtCreation | src/jenkins_service/service.py:402-471 | whenever a request of a run adds a reused build, returned or raised, its source was stored before the request and reusable for its repository, commit and base: native, passed, not itself reused, with the base as trusted SHA |
| ControlReuse.ReuseIsSound | src/jenkins_service/service.py:402-458 | in every run each reused build, as it stands now, was made by one of the requests from such a source, whatever completions came since |
| ControlReuse.DisabledReuseIsAudited | src/jenkins_service/service.py:485-509 | a reuse that returns under a source policy that disables reviews has left its new build with a log of its own |
| ControlReuse.ReusedBuildsPointToNative | src/jenkins_service/service.py:402-458 | in every run the source of a reused build is still stored, native, not reused, and of the same repository and commit |
| ControlQueues.RefreshAnnounces | src/jenkins_service/service.py:1167-1241 | a refresh that finishes a build and returns leaves its queue item failed, cancelled or started as the build is failed, cancelled or passed |
| ControlQueues.NumberedFollows | src/jenkins_service/service.py:1183-1189 | a refresh that gives a build its Jenkins number leaves the queue item started, unless the build has failed or was cancelled |
| ControlRefresh.RefreshReports | src/jenkins_service/service.py:1167-1241 | a refresh that returns answers the stored build as Jenkins answered: running while it builds, exactly its result file if there is one, else passed iff succeeded, cancelled iff aborted, failed otherwise; cancelled for a cancelled queue item; unchanged for no answer or a finished build; no other build changes |
| ControlRefresh.RefreshReportsInRuns | src/jenkins_service/service.py:1167-1241 | so in every run |
| ControlReturns.RefreshReturns | src/jenkins_service/service.py:1167-1241 | with nothing raising, a refresh returns iff the build is stored and its result file is not unreadable or of another repository, commit or pull request |
| ControlReturns.CancelReports | src/jenkins_service/service.py:1057-1085 | a cancellation returns, with nothing raising, iff the refresh does and the build has a number or a queue id, and leaves the refreshed build cancelled and no other changed |
| ControlQueues.CancelAnnounces | src/jenkins_service/service.py:1057-1085 | a cancellation that returns leaves the stored build and its queue item cancelled |
| ControlQueues.CompletionAnnounces | src/jenkins_service/service.py:649-658 | a completion that answers true leaves the completed build stored and its queue item in the state of its result |
| ControlQueues.ConvergesInRuns | src/jenkins_service/service.py:632-658 | wherever in a run it answers true, after whatever refreshes, reviews and cut-off attempts, the build has the completion's result and policy, its queue item says so, one delivery more is recorded and nothing else changed |
| Store.MemoryStore.SaveExtensionRun | src/jenkins_service/store.py:263-272 | the dictionaries change as specified, and by key exactly as the Postgres upsert changes its table |
| Store.MemoryStore.RecordWebhookOnce | src/jenkins_service/store.py:247-254 | true for exactly the first delivery of an id, which alone is kept |
| Store.MemoryStore.GetExtensionRunByKey | src/jenkins_service/store.py:283-288 | the run under the key, if there is one |
| Store.SaveAgrees | src/jenkins_service/store.py:530-558 | memory store and upsert agree, row and contents, iff the value does not bring a new key under a stored id; then Postgres refuses and the memory store loses the run under its old key |
| Store.FirstSaveWins | src/jenkins_service/store.py:530-558 | with fresh ids no upsert is refused, and the row under a key always has the id of the first value saved there |
| Store.ControlPlaneUpserts | src/jenkins_service/service.py:734-735 | the control plane's runs behave as that table |
| ExtensionRuns.RunnerCalledOnce | src/jenkins_service/service.py:1248-1273 | in every interleaving of any number of callers the runner is called at most once per key |
| ExtensionRuns.OnlyWinnerActs | src/jenkins_service/service.py:1277-1295 | only the caller whose insert won acts on GitHub |
| ExtensionRuns.EveryoneReturnsTheWinner | src/jenkins_service/service.py:1248-1262 | every caller that returns a run returns the one stored under its key, inserted by a caller of that key |
| ExtensionRuns.WinnerFinishes | src/jenkins_service/service.py:1248-1300 | from any state, a caller that finds no run under its key and meets no error runs the runner once, acts once per request, saves its run as succeeded and returns it |
| ExtensionRuns.LoserReturns | src/jenkins_service/service.py:1248-1263 | a caller that meets another's run at its lookup or insert returns it and changes nothing |
| ExtensionRuns.FailureIsSaved | src/jenkins_service/service.py:1300-1316 | a runner or action that raises ends in a raise with the run saved as failed |
| ExtensionRuns.RowStays | src/jenkins_service/store.py:530-558 | once stored, the run under a key keeps its id |
| ExtensionRuns.SecondWorkerWhen | src/jenkins_service/service.py:734-740 | a caller starts to work on a run that is not its own exactly when losers may adopt and its insert meets another caller's row that is still running |
| ExtensionRuns.AdoptersBothWork | src/jenkins_service/service.py:734-740 | overlapping callers that adopt, as review requests do, can thus both go on to work under one key |

## Left out

- Overlapping calls to completion, refresh and review of one build: the code takes no lock, and the serial theorems do not hold there; runs serve one request after the other, each possibly cut off.
- HTTP, crumbs, JSON and XML bodies, FastAPI routes, MCP wiring, Docker and SQL drivers: each is an awaited call with an arbitrary reply.
- SHA-256, HMAC, serialisation and schema validation: an idempotency key is the reviewed identity itself, a digest is the content it is of, and records are well formed.
- Timestamps, branches, job paths, display names, download addresses and audit records: nothing modelled is decided by them; an audit is an awaited call that stores nothing.
- Registering, updating and deleting repositories: the registry is fixed during a run.
- `list_builds` order: builds are listed in the order their ids were given out, which is the order of their creation times.
- The listing of all builds and the log routes: they refresh stored builds one by one as `Look` does, or only read.
- Service.ServeAll: the class holds the store's dictionaries as its own fields, so a caller's alias of a stored object is not modelled; Postgres copies on read.
- Service.JenkinsService.Complete: like the other methods without a row of its own it computes the function of `ControlPlane` that its contract names; `Service.ServeAll` states the result.
- Service.JenkinsService.FindReusable: searches an oldest-first list from its end, where the code searches a newest-first list from its start.
- ControlTheorems.PassedMeansPassed: assumes that incoming results come from the pipeline fold, which `PipelineFold.Call` and `ControlTheorems.PipelineIsHonest` justify.
- DiffExactness.ParserIsExact: assumes that no rendered line holds a character at which `str.splitlines` splits, because of `DiffExactness.StrayBreakIsRefused`.
- Digits and letter case outside ASCII: `\d` and `lower` are modelled on ASCII.
- Arbitrary extension keys inside the review key space: action keys and review keys are different constructors.
- ContainerCommand.OuterShellReadsStep: stated on the text before `stripIndent`, which can alter multi-line values, and without the directory-creation line before it.
- Redaction, contract checks, scopes, allowlists, branch validation, settings, registry tables and bounded reads: single-branch facts.
- The lock of `ensure_job`: the reconciler theorems hold without it.
- Uniqueness of job paths across repositories: `owner--name` does not determine owner and name.
- ExtensionRuns.AdoptersBothWork: `process_ai_review` under overlap is modelled only as an extension caller that may adopt, not with its own replies and logs.
- ReviewClient.Review: error classes outside the caught ones escape as one outcome.
