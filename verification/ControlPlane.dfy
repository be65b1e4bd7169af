/** The build, queue and AI-review control plane as a function of its stored state.

    Every operation is written as the chain of awaited calls it makes.  A call is answered by the
    environment at the current tick of a clock, and the environment may make any of them raise, before or
    after it took effect; `Res` carries the state that such an abort leaves behind. */
module ControlPlane {
  import opened Text
  import opened Records
  import opened Attachment
  import UnifiedDiff

  // ---------------------------------------------------------------- exceptions and the environment

  /** `Stopped` is what `except Exception` does not catch: cancellation, or the death of the process.
      `Value` includes the diff errors; `Other` is every other error of a store or a client. */
  datatype Exn = Upstream | Value | NotFound | Other | Stopped

  /** What an awaited call may raise.  Only the store's own lookups raise `NotFound`. */
  type Raised = e: Exn | e != NotFound witness Other

  datatype Fault = NoFault | Before(e: Raised) | After(e: Raised)

  datatype JenkinsState = Building | Succeeded | Aborted | Unsuccessful

  datatype ArtifactReply = NoResult | Unreadable | ResultFile(result: PipelineResult)

  datatype BrokerReview = BrokerReview(model: string, prompt: string, findings: seq<Finding>)

  /** Everything an awaited call could return; each call reads its own part. */
  datatype Reply = Reply(
    fault: Fault,
    queueId: int,
    queueCancelled: bool,
    executable: Option<int>,
    state: Option<JenkinsState>,
    artifact: ArtifactReply,
    diff: string,
    review: BrokerReview)

  /** `window` is how many rows the store lists: none for the memory store, 500 for Postgres. */
  datatype Env = Env(
    replies: nat -> Reply,
    logSize: AIReviewLog -> nat,
    model: string,
    prompt: string,
    hasBroker: bool,
    window: Option<nat>)

  // ---------------------------------------------------------------- requests, and what leaves the service

  datatype TriggerRequest = TriggerRequest(repositoryId: Id, commitSha: string, baseSha: Option<string>, pullRequest: Option<int>)

  datatype Completion = Completion(callbackId: string, buildId: Id, result: PipelineResult, review: ReviewPolicy, diff: Option<string>)

  datatype Context = NativeCi | AiReview

  datatype CiState = Pending | Success | Failure

  datatype StatusPost = StatusPost(repository: string, commitSha: string, context: Context, state: CiState, buildId: Id)

  datatype ReviewPost = ReviewPost(key: Key, repository: string, commitSha: string, diff: string, comments: seq<Finding>)

  datatype TriggerPost = TriggerPost(buildId: Id, commitSha: string, baseSha: Option<string>, pullRequest: Option<int>)

  /** A request to review, with whether a review applies to it. */
  datatype Asked = Asked(key: Key, live: bool)

  /** The store, and the history of what was published, asked and accepted, and of the statuses in which builds were
      ever saved. */
  datatype World = World(
    repositories: map<Id, string>,
    builds: map<Id, Build>,
    queues: map<Id, QueueItem>,
    deliveries: seq<string>,
    runs: map<Key, ExtensionRun>,
    statuses: seq<StatusPost>,
    reviews: seq<ReviewPost>,
    triggers: seq<TriggerPost>,
    asked: seq<Asked>,
    accepted: seq<Completion>,
    stored: set<(Id, Status)>,
    clock: nat,
    nextId: Id)

  function Start(repositories: map<Id, string>): World {
    World(repositories, map[], map[], [], map[], [], [], [], [], [], {}, 0, 0)
  }

  datatype Res<+T> = Go(w: World, value: T) | Halt(w: World, error: Exn) {
    predicate IsFailure() { Halt? }
    function PropagateFailure<U>(): Res<U> requires Halt? { Halt(w, error) }
    function Extract(): (World, T) requires Go? { (w, value) }
  }

  // ---------------------------------------------------------------- awaited calls

  datatype Effect =
    | Quiet
    | SaveBuild(build: Build)
    | SaveQueue(queue: QueueItem)
    | SaveRun(run: ExtensionRun)
    | Deliver(id: string)
    | PostStatus(status: StatusPost)
    | StartPipeline(trigger: TriggerPost)

  function Apply(w: World, e: Effect): World {
    match e
    case Quiet => w
    case SaveBuild(b) => w.(builds := w.builds[b.id := b], stored := w.stored + {(b.id, b.result.status)})
    case SaveQueue(q) => w.(queues := w.queues[q.id := q])
    case SaveRun(r) => if r.key in w.runs && w.runs[r.key].id != r.id then w else w.(runs := w.runs[r.key := r])
    case Deliver(id) => if id in w.deliveries then w else w.(deliveries := w.deliveries + [id])
    case PostStatus(s) => w.(statuses := w.statuses + [s])
    case StartPipeline(t) => w.(triggers := w.triggers + [t])
  }

  function Tick(w: World): World {
    w.(clock := w.clock + 1)
  }

  /** `n` new ids are given out. */
  function Allot(w: World, n: nat): World {
    w.(nextId := w.nextId + n)
  }

  /** One awaited call. */
  function Do(env: Env, w: World, e: Effect): Res<Reply> {
    match env.replies(w.clock).fault
    case NoFault => Go(Tick(Apply(w, e)), env.replies(w.clock))
    case Before(error) => Halt(Tick(w), error)
    case After(error) => Halt(Tick(Apply(w, e)), error)
  }

  function GetBuild(env: Env, w: World, id: Id): Res<Build> {
    var (w, _) :- Do(env, w, Quiet);
    if id in w.builds then Go(w, w.builds[id]) else Halt(w, NotFound)
  }

  /** The last `window` elements, all of them without a window. */
  function Recent<T>(xs: seq<T>, window: Option<nat>): seq<T> {
    if window.Some? && window.value < |xs| then xs[|xs| - window.value..] else xs
  }

  /** The stored builds with ids below `below`, oldest first: ids are given out in order of creation. */
  function BuildsBelow(builds: map<Id, Build>, below: Id): seq<Build> {
    if below == 0 then []
    else if below - 1 in builds then BuildsBelow(builds, below - 1) + [builds[below - 1]]
    else BuildsBelow(builds, below - 1)
  }

  // ---------------------------------------------------------------- commit statuses

  const STATUS_ATTEMPTS := 3

  /** Tries left after `attempt` failed ones; only an upstream error is tried again. */
  function Publish(env: Env, w: World, status: StatusPost, attempt: nat): Res<bool>
    requires attempt <= STATUS_ATTEMPTS
    decreases STATUS_ATTEMPTS - attempt
  {
    if attempt == STATUS_ATTEMPTS then
      var (w, _) :- Do(env, w, Quiet);
      Go(w, false)
    else match Do(env, w, PostStatus(status))
      case Go(w, _) => Go(w, true)
      case Halt(w, e) => if e == Upstream then Publish(env, w, status, attempt + 1) else Halt(w, e)
  }

  // ---------------------------------------------------------------- attaching review logs

  function LogOf(run: ExtensionRun): Option<AIReviewLog> {
    if run.output.None? then None else run.output.value.reviewLog
  }

  function WithLog(run: ExtensionRun, log: AIReviewLog): ExtensionRun {
    if LogOf(run).Some? then run
    else if run.output.None? then run.(output := Some(ExtensionOutput([], None, Some(log))))
    else run.(output := Some(run.output.value.(reviewLog := Some(log))))
  }

  function AttachReviewLog(env: Env, w: World, run: ExtensionRun, log: AIReviewLog, required: bool): Res<()> {
    var (w, _) :- Do(env, w, SaveRun(WithLog(run, log)));
    var (w, build) :- GetBuild(env, w, log.buildId);
    var (w, _) :- Do(env, w, SaveBuild(Attached(build, run.id, log, required, env.logSize)));
    Go(w, ())
  }

  // ---------------------------------------------------------------- AI review

  predicate Live(c: Completion) {
    c.review.enabled && c.result.pullRequest.Some?
  }

  function LowerOr(s: Option<string>): string {
    if s.None? then "" else Lower(s.value)
  }

  /** Pull request zero and no pull request are written alike. */
  function KeyOf(env: Env, c: Completion): Key {
    ReviewKey(Lower(c.result.repository), if c.result.pullRequest == Some(0) then None else c.result.pullRequest,
              LowerOr(c.result.baseSha), Lower(c.result.commitSha), env.model, env.prompt)
  }

  predicate Blocking(run: ExtensionRun) {
    run.output.Some? && run.output.value.blocking == Some(true)
  }

  /** The status a stored run is replayed as. */
  function ReplayState(run: ExtensionRun): CiState {
    if run.status == RunRunning then Pending
    else if run.status == RunFailed || Blocking(run) then Failure
    else Success
  }

  function AiStatus(c: Completion, state: CiState): StatusPost {
    StatusPost(c.result.repository, c.result.commitSha, AiReview, state, c.buildId)
  }

  function ReviewLog(c: Completion, run: ExtensionRun, outcome: Outcome, findings: seq<Finding>): AIReviewLog {
    AIReviewLog(c.buildId, run.id, c.result.repository, c.result.pullRequest, c.result.baseSha, c.result.commitSha, outcome, findings)
  }

  function Skip(env: Env, w: World, c: Completion, run: ExtensionRun): Res<()> {
    var skipped := run.(output := Some(ExtensionOutput([], None, None)), status := RunSkipped);
    var (w, _) :- AttachReviewLog(env, w, skipped, ReviewLog(c, run, OutcomeSkipped, []), false);
    var (w, _) :- Do(env, w, Quiet);
    Go(w, ())
  }

  function RecordFailure(env: Env, w: World, c: Completion, run: ExtensionRun): Res<()> {
    var (w, _) :- Publish(env, w, AiStatus(c, Failure), 0);
    var failed := run.(output := Some(ExtensionOutput([], None, None)), status := RunFailed);
    var (w, _) :- AttachReviewLog(env, w, failed, ReviewLog(c, run, OutcomeFailed, []), true);
    var (w, _) :- Do(env, w, Quiet);
    Go(w, ())
  }

  predicate HasCritical(findings: seq<Finding>, severities: set<Severity>) {
    exists i :: 0 <= i < |findings| && findings[i].severity in severities
  }

  /** The reviewed run: its GitHub review is published, the final status perhaps not. */
  function Reviewed(run: ExtensionRun, findings: seq<Finding>, blocking: bool, published: bool): ExtensionRun {
    run.(output := Some(ExtensionOutput(findings, Some(blocking), None)), status := if published then RunSucceeded else RunFailed)
  }

  /** The broker's findings, once the diff and the answer have passed every check. */
  function AskBroker(env: Env, w: World, c: Completion, diff: string): Res<seq<Finding>> {
    if Utf8Length(diff) > c.review.maxDiffBytes then Halt(w, Value)
    else match UnifiedDiff.Parse(UnifiedDiff.SplitLines(diff))
      case Err(_) => Halt(w, Value)
      case Ok(added) =>
        var (w, reply) :- Do(env, w, Quiet);
        if reply.review.model != env.model || reply.review.prompt != env.prompt then Halt(w, Value)
        else if !UnifiedDiff.ValidResult(added, reply.review.findings) then Halt(w, Value)
        else Go(w, reply.review.findings)
  }

  /** The end of a review, after its final status. */
  function FinishReview(env: Env, w: World, c: Completion, run: ExtensionRun, findings: seq<Finding>, blocking: bool, published: bool): Res<()> {
    var log := ReviewLog(c, run, if blocking || !published then OutcomeFailed else OutcomePassed, findings);
    var (w, _) :- AttachReviewLog(env, w, Reviewed(run, findings, blocking, published), log, true);
    var (w, _) :- Do(env, w, Quiet);
    Go(w, ())
  }

  /** A review is asked of GitHub, whatever becomes of the request. */
  function Issue(w: World, review: ReviewPost): World {
    w.(reviews := w.reviews + [review])
  }

  /** Checked findings are published as one review, then as the final status. */
  function SubmitReview(env: Env, w: World, c: Completion, run: ExtensionRun, diff: string, findings: seq<Finding>): Res<()> {
    var blocking := HasCritical(findings, c.review.criticalSeverities);
    var (w, _) :- Do(env, Issue(w, ReviewPost(run.key, c.result.repository, c.result.commitSha, diff, findings)), Quiet);
    var (w, published) :- Publish(env, w, AiStatus(c, if blocking then Failure else Success), 0);
    FinishReview(env, w, c, run, findings, blocking, published)
  }

  function Review(env: Env, w: World, c: Completion, run: ExtensionRun, diff: string): Res<()> {
    var (w, findings) :- AskBroker(env, w, c, diff);
    SubmitReview(env, w, c, run, diff, findings)
  }

  /** The review of a run that this call may work on. */
  function ReviewRun(env: Env, w: World, c: Completion, troubled: bool, run: ExtensionRun): Res<()> {
    if !Live(c) then Skip(env, w, c, run)
    else
      var (w, _) :- Publish(env, w, AiStatus(c, Pending), 0);
      if c.result.baseSha.None? || c.diff.None? || !env.hasBroker || troubled then RecordFailure(env, w, c, run)
      else match Review(env, w, c, run, c.diff.value)
        case Go(w, _) => Go(w, ())
        case Halt(w, e) => if e == Upstream || e == Value then RecordFailure(env, w, c, run) else Halt(w, e)
  }

  /** A review asked for again under a key that already has a run. */
  function Replay(env: Env, w: World, c: Completion, troubled: bool, run: ExtensionRun): Res<()> {
    var (w, _) :- match LogOf(run)
                  case None => Go(w, ())
                  case Some(log) => AttachReviewLog(env, w, run, log.(buildId := c.buildId), Live(c));
    if Live(c) then
      var (w, _) :- Publish(env, w, AiStatus(c, ReplayState(run)), 0);
      Go(w, ())
    else if run.status != RunRunning then Go(w, ())
    else ReviewRun(env, w, c, troubled, run)
  }

  function Claim(env: Env, w: World, c: Completion, troubled: bool): Res<()> {
    var run := ExtensionRun(w.nextId, KeyOf(env, c), RunRunning, None);
    var (w, _) :- Do(env, Allot(w, 1), SaveRun(run));
    var stored := w.runs[run.key];
    if stored.id != run.id && (stored.status != RunRunning || LogOf(stored).Some?) then Go(w, ())
    else ReviewRun(env, w, c, troubled, stored)
  }

  /** `troubled` says that a prerequisite of the review is already known to have failed. */
  function ProcessAiReview(env: Env, w: World, c: Completion, troubled: bool): Res<()> {
    var key := KeyOf(env, c);
    var (w, _) :- Do(env, w.(asked := w.asked + [Asked(key, Live(c))]), Quiet);
    if key in w.runs then Replay(env, w, c, troubled, w.runs[key]) else Claim(env, w, c, troubled)
  }

  const REVIEW_ATTEMPTS := 3

  /** Tries left after `attempt` failed ones; true when one of them returned. */
  function ProcessWithRetry(env: Env, w: World, c: Completion, attempt: nat): Res<bool>
    requires attempt <= REVIEW_ATTEMPTS
    decreases REVIEW_ATTEMPTS - attempt
  {
    if attempt == REVIEW_ATTEMPTS then
      var (w, _) :- Do(env, w, Quiet);
      Go(w, false)
    else match ProcessAiReview(env, w, c, false)
      case Go(w, _) => Go(w, true)
      case Halt(w, e) => if e == Stopped then Halt(w, e) else ProcessWithRetry(env, w, c, attempt + 1)
  }

  // ---------------------------------------------------------------- queue items

  function SetQueueState(env: Env, w: World, build: Build, state: QueueState): Res<()> {
    if build.queueItemId.None? then Go(w, ())
    else
      var (w, _) :- Do(env, w, Quiet);
      if build.queueItemId.value !in w.queues then Go(w, ())
      else
        var (w, _) :- Do(env, w, SaveQueue(w.queues[build.queueItemId.value].(state := state)));
        Go(w, ())
  }

  function QueueStateOf(status: Status): QueueState {
    match status
    case Cancelled => QueueCancelled
    case Failed => QueueFailed
    case _ => QueueStarted
  }

  // ---------------------------------------------------------------- triggering and reuse

  predicate Reusable(build: Build, repositoryId: Id, commitSha: string, trustedSha: string) {
    && build.repositoryId == repositoryId
    && Lower(build.result.commitSha) == Lower(commitSha)
    && LowerOr(build.result.trustedSha) == Lower(trustedSha)
    && build.result.pullRequest.None?
    && build.result.status == Passed
    && build.reusedFrom.None?
  }

  /** The newest reusable build of an oldest-first list. */
  function NewestReusable(builds: seq<Build>, repositoryId: Id, commitSha: string, trustedSha: string): Option<Build> {
    if builds == [] then None
    else if Reusable(builds[|builds| - 1], repositoryId, commitSha, trustedSha) then Some(builds[|builds| - 1])
    else NewestReusable(builds[..|builds| - 1], repositoryId, commitSha, trustedSha)
  }

  function ListBuilds(env: Env, w: World): seq<Build> {
    Recent(BuildsBelow(w.builds, w.nextId), env.window)
  }

  function ReusedBuild(id: Id, queueId: Id, req: TriggerRequest, source: Build): Build {
    Build(id, req.repositoryId, Some(queueId), None, source.jenkinsBuildNumber, Some(source.id),
          Some(if source.reviewPolicy.None? then DEFAULT_POLICY else source.reviewPolicy.value), None,
          source.result.(buildId := Some(id), baseSha := req.baseSha, pullRequest := req.pullRequest, status := Passed,
                         checks := OtherChecks(source.result.checks), artifacts := OtherArtifacts(source.result.artifacts),
                         extensionRuns := []))
  }

  /** The pull request's diff, or nothing when GitHub cannot give it. */
  function FetchDiff(env: Env, w: World): Res<Option<string>> {
    match Do(env, w, Quiet)
    case Go(w, reply) => Go(w, Some(reply.diff))
    case Halt(w, e) => if e == Upstream || e == Value then Go(w, None) else Halt(w, e)
  }

  /** A queue item and then its build are saved. */
  function SavePair(env: Env, w: World, queue: QueueItem, build: Build): Res<()> {
    var (w, _) :- Do(env, w, SaveQueue(queue));
    var (w, _) :- Do(env, w, SaveBuild(build));
    Go(w, ())
  }

  /** The reused result is published, and reviewed for the pull request. */
  function ReviewReused(env: Env, w: World, repository: string, commitSha: string, build: Build): Res<()>
    requires build.reviewPolicy.Some?
  {
    var (w, published) :- Publish(env, w, StatusPost(repository, commitSha, NativeCi, Success, build.id), 0);
    if !published then Halt(w, Upstream)
    else
      var (w, _) :- Do(env, w, Quiet);
      var (w, diff) :- FetchDiff(env, w);
      ProcessAiReview(env, w, ReusedCompletion(build, diff), diff.None?)
  }

  function ReusedCompletion(build: Build, diff: Option<string>): Completion
    requires build.reviewPolicy.Some?
  {
    Completion("reused:" + Decimal(build.id), build.id, build.result, build.reviewPolicy.value, diff)
  }

  function ReusedQueue(id: Id, buildId: Id, req: TriggerRequest): QueueItem {
    QueueItem(id, req.repositoryId, buildId, None, QueueReused, req.commitSha, req.baseSha, req.pullRequest)
  }

  function ReuseNativeResult(env: Env, w: World, repository: string, req: TriggerRequest, source: Build): Res<QueueItem> {
    var queue := ReusedQueue(w.nextId + 1, w.nextId, req);
    var build := ReusedBuild(w.nextId, w.nextId + 1, req, source);
    var (w, _) :- SavePair(env, Allot(w, 2), queue, build);
    var (w, _) :- ReviewReused(env, w, repository, req.commitSha, build);
    Go(w, queue)
  }

  function NativeQueue(id: Id, buildId: Id, jenkinsQueueId: int, req: TriggerRequest): QueueItem {
    QueueItem(id, req.repositoryId, buildId, Some(jenkinsQueueId), QueueQueued, req.commitSha, req.baseSha, req.pullRequest)
  }

  function NativeBuild(id: Id, queueId: Id, jenkinsQueueId: int, repository: string, req: TriggerRequest): Build {
    Build(id, req.repositoryId, Some(queueId), Some(jenkinsQueueId), None, None, None, None,
          PipelineResult(repository, req.commitSha, None, req.baseSha, Some(id), req.pullRequest, Queued, [], [], []))
  }

  /** The records of a build that Jenkins has queued. */
  function RecordNative(env: Env, w: World, id: Id, jenkinsQueueId: int, repository: string, req: TriggerRequest): Res<QueueItem> {
    var queue := NativeQueue(w.nextId, id, jenkinsQueueId, req);
    var build := NativeBuild(id, w.nextId, jenkinsQueueId, repository, req);
    var (w, _) :- SavePair(env, Allot(w, 1), queue, build);
    var (w, _) :- Publish(env, w, StatusPost(repository, req.commitSha, NativeCi, Pending, id), 0);
    var (w, _) :- Do(env, w, Quiet);
    Go(w, queue)
  }

  function StartNative(env: Env, w: World, repository: string, req: TriggerRequest): Res<QueueItem> {
    var (w, _) :- Do(env, w, Quiet);
    var (w, _) :- Do(env, w, Quiet);
    var id := w.nextId;
    var (w, reply) :- Do(env, Allot(w, 1), StartPipeline(TriggerPost(id, req.commitSha, req.baseSha, req.pullRequest)));
    RecordNative(env, w, id, reply.queueId, repository, req)
  }

  function TriggerPipeline(env: Env, w: World, req: TriggerRequest): Res<QueueItem> {
    var (w, _) :- Do(env, w, Quiet);
    if req.repositoryId !in w.repositories then Halt(w, NotFound)
    else
      var repository := w.repositories[req.repositoryId];
      if req.pullRequest.None? || req.baseSha.None? then StartNative(env, w, repository, req)
      else
        var (w, _) :- Do(env, w, Quiet);
        match NewestReusable(ListBuilds(env, w), req.repositoryId, req.commitSha, req.baseSha.value)
        case Some(source) => ReuseNativeResult(env, w, repository, req, source)
        case None => StartNative(env, w, repository, req)
  }

  function RetryPipeline(env: Env, w: World, id: Id): Res<QueueItem> {
    var (w, build) :- GetBuild(env, w, id);
    var (w, queue) :- TriggerPipeline(env, w,
      TriggerRequest(build.repositoryId, build.result.commitSha, build.result.baseSha, build.result.pullRequest));
    var (w, _) :- Do(env, w, Quiet);
    Go(w, queue)
  }

  // ---------------------------------------------------------------- completion

  /** The completion is one of this build. */
  predicate Matches(build: Build, c: Completion) {
    && c.result.buildId == Some(build.id)
    && Lower(c.result.repository) == Lower(build.result.repository)
    && Lower(c.result.commitSha) == Lower(build.result.commitSha)
    && LowerOr(c.result.baseSha) == LowerOr(build.result.baseSha)
    && c.result.pullRequest == build.result.pullRequest
  }

  function CompletedBuild(build: Build, c: Completion): Build {
    build.(result := c.result, reviewPolicy := Some(c.review))
  }

  function DeliveryId(c: Completion): string {
    "build-completion:" + c.callbackId
  }

  /** The delivery is recorded once; the first one also moves the queue item. */
  function DeliverOnce(env: Env, w: World, build: Build, c: Completion): Res<bool> {
    var first := DeliveryId(c) !in w.deliveries;
    var (w, _) :- Do(env, w, Deliver(DeliveryId(c)));
    if !first then Go(w, false)
    else
      var (w, _) :- SetQueueState(env, w, build, QueueStateOf(c.result.status));
      var (w, _) :- Do(env, w, Quiet);
      Go(w, true)
  }

  /** The completion's status and its delivery, once the build is saved. */
  function RecordCompletion(env: Env, w: World, build: Build, c: Completion): Res<bool> {
    var state := if c.result.status == Passed then Success else Failure;
    var (w, published) :- Publish(env, w, StatusPost(c.result.repository, c.result.commitSha, NativeCi, state, build.id), 0);
    if !published then Halt(w, Upstream) else DeliverOnce(env, w, build, c)
  }

  /** True for a completion that was recorded now, false for a duplicate. */
  function CompleteBuild(env: Env, w: World, c: Completion): Res<bool> {
    var (w, build) :- GetBuild(env, w, c.buildId);
    if !Matches(build, c) || !Terminal(c.result.status) then Halt(w, Value)
    else
      var (w, _) :- Do(env, w, Quiet);
      if DeliveryId(c) in Recent(w.deliveries, env.window) then Go(w, false)
      else
        var (w, _) :- Do(env, w, SaveBuild(CompletedBuild(build, c)));
        RecordCompletion(env, w, CompletedBuild(build, c), c)
  }

  function Accept(w: World, c: Completion): World {
    w.(accepted := w.accepted + [c])
  }

  /** The completion route: the build is completed, then a completion without a pull request is reviewed
      at once; the review of a pull request runs later. */
  function Callback(env: Env, w: World, c: Completion): Res<bool> {
    var (w, inserted) :- CompleteBuild(env, w, c);
    var w := Accept(w, c);
    if c.result.pullRequest.Some? then Go(w, inserted)
    else
      var (w, recorded) :- ProcessWithRetry(env, w, c, 0);
      if recorded then Go(w, inserted) else Halt(w, Other)
  }

  // ---------------------------------------------------------------- refresh and cancellation

  predicate Active(build: Build) {
    !Terminal(build.result.status)
  }

  function WithStatus(build: Build, status: Status): Build {
    build.(result := build.result.(status := status))
  }

  function StatusOf(state: JenkinsState): Status {
    match state
    case Succeeded => Passed
    case Aborted => Cancelled
    case _ => Failed
  }

  function SaveRefreshed(env: Env, w: World, build: Build): Res<Build> {
    var (w, _) :- Do(env, w, SaveBuild(build));
    var (w, _) :- SetQueueState(env, w, build, QueueStateOf(build.result.status));
    Go(w, build)
  }

  /** A finished Jenkins build: its result file decides, or its Jenkins result without one. */
  function RefreshEnded(env: Env, w: World, build: Build, state: JenkinsState): Res<Build> {
    var (w, file) :- Do(env, w, Quiet);
    match file.artifact
    case Unreadable => Halt(w, Upstream)
    case NoResult => SaveRefreshed(env, w, WithStatus(build, StatusOf(state)))
    case ResultFile(result) =>
      if result.repository != build.result.repository || Lower(result.commitSha) != Lower(build.result.commitSha)
         || result.pullRequest != build.result.pullRequest then Halt(w, Upstream)
      else SaveRefreshed(env, w, build.(result := result))
  }

  /** A build that has its Jenkins number. */
  function RefreshRunning(env: Env, w: World, build: Build): Res<Build> {
    var (w, reply) :- Do(env, w, Quiet);
    match reply.state
    case None => Go(w, build)
    case Some(state) =>
      if state == Building then
        var (w, _) :- Do(env, w, SaveBuild(WithStatus(build, Running)));
        Go(w, WithStatus(build, Running))
      else RefreshEnded(env, w, build, state)
  }

  /** A build that waits in the Jenkins queue. */
  function RefreshQueued(env: Env, w: World, build: Build): Res<Build> {
    var (w, reply) :- Do(env, w, Quiet);
    if reply.queueCancelled then SaveRefreshed(env, w, WithStatus(build, Cancelled))
    else if reply.executable.None? then Go(w, build)
    else
      var started := WithStatus(build.(jenkinsBuildNumber := reply.executable), Running);
      var (w, _) :- SaveRefreshed(env, w, started);
      RefreshRunning(env, w, started)
  }

  function RefreshBuild(env: Env, w: World, build: Build): Res<Build> {
    if !Active(build) then Go(w, build)
    else if build.jenkinsBuildNumber.Some? then RefreshRunning(env, w, build)
    else if build.jenkinsQueueId.None? then Go(w, build)
    else RefreshQueued(env, w, build)
  }

  function Refresh(env: Env, w: World, id: Id): Res<Build> {
    var (w, build) :- GetBuild(env, w, id);
    RefreshBuild(env, w, build)
  }

  function CancelPipeline(env: Env, w: World, id: Id): Res<()> {
    var (w, build) :- Refresh(env, w, id);
    if build.jenkinsBuildNumber.None? && build.jenkinsQueueId.None? then Halt(w, Value)
    else
      var (w, _) :- Do(env, w, Quiet);
      var cancelled := WithStatus(build, Cancelled);
      var (w, _) :- Do(env, w, SaveBuild(cancelled));
      var (w, _) :- SetQueueState(env, w, cancelled, QueueCancelled);
      var (w, _) :- Do(env, w, Quiet);
      Go(w, ())
  }

  // ---------------------------------------------------------------- runs

  /** The requests a run serves one after the other.  A background review belongs to a completion whose
      callback was answered before; `accepted` numbers those. */
  datatype Op =
    | Trigger(request: TriggerRequest)
    | Complete(completion: Completion)
    | ReviewLater(accepted: nat)
    | Look(build: Id)
    | Cancel(build: Id)
    | Retry(build: Id)

  datatype Answer = Returned | Answered(inserted: bool) | Threw(error: Exn)

  datatype Stepped = Stepped(w: World, answer: Answer)

  function Settle<T>(r: Res<T>): Stepped {
    match r
    case Go(w, _) => Stepped(w, Returned)
    case Halt(w, e) => Stepped(w, Threw(e))
  }

  function Step(env: Env, w: World, op: Op): Stepped {
    match op
    case Trigger(req) => Settle(TriggerPipeline(env, w, req))
    case Complete(c) =>
      (match Callback(env, w, c)
       case Go(w, inserted) => Stepped(w, Answered(inserted))
       case Halt(w, e) => Stepped(w, Threw(e)))
    case ReviewLater(i) =>
      if i < |w.accepted| then Settle(ProcessWithRetry(env, w, w.accepted[i], 0)) else Stepped(w, Returned)
    case Look(id) => Settle(Refresh(env, w, id))
    case Cancel(id) => Settle(CancelPipeline(env, w, id))
    case Retry(id) => Settle(RetryPipeline(env, w, id))
  }

  /** The state after a run of requests from the empty store. */
  function Run(env: Env, repositories: map<Id, string>, ops: seq<Op>): World {
    if ops == [] then Start(repositories)
    else Step(env, Run(env, repositories, ops[..|ops| - 1]), ops[|ops| - 1]).w
  }
}
