/** The service object: its methods update the store in place, call by call, and compute exactly what the
    control plane's functions say, returned or raised. */
module Service {
  import opened Text
  import opened Records
  import opened Attachment
  import opened ControlPlane
  import UnifiedDiff

  datatype Outcome<+T> = Done(value: T) | Raised(error: Exn) {
    predicate IsFailure() { Raised? }
    function PropagateFailure<U>(): Outcome<U> requires Raised? { Raised(error) }
    function Extract(): T requires Done? { value }
  }

  /** A state and how the call ended, as one result. */
  function Pack<T>(w: World, r: Outcome<T>): Res<T> {
    match r
    case Done(value) => Go(w, value)
    case Raised(e) => Halt(w, e)
  }

  class JenkinsService {
    const env: Env
    const repositories: map<Id, string>
    var builds: map<Id, Build>
    var queueItems: map<Id, QueueItem>
    var deliveries: seq<string>
    var extensionRuns: map<Key, ExtensionRun>
    var clock: nat
    var nextId: Id
    ghost var statuses: seq<StatusPost>
    ghost var reviews: seq<ReviewPost>
    ghost var triggers: seq<TriggerPost>
    ghost var asked: seq<Asked>
    var accepted: seq<Completion>
    ghost var stored: set<(Id, Status)>

    ghost function State(): World
      reads this
    {
      World(repositories, builds, queueItems, deliveries, extensionRuns, statuses, reviews, triggers, asked, accepted, stored, clock, nextId)
    }

    constructor (env: Env, repositories: map<Id, string>)
      ensures this.env == env && State() == Start(repositories)
    {
      this.env := env;
      this.repositories := repositories;
      builds, queueItems, deliveries, extensionRuns := map[], map[], [], map[];
      clock, nextId := 0, 0;
      statuses, reviews, triggers, asked, accepted, stored := [], [], [], [], [], {};
    }

    // -------------------------------------------------------------- awaited calls

    method Perform(e: Effect)
      modifies this
      ensures State() == Apply(old(State()), e)
    {
      match e {
        case Quiet =>
        case SaveBuild(b) =>
          builds := builds[b.id := b];
          stored := stored + {(b.id, b.result.status)};
        case SaveQueue(q) => queueItems := queueItems[q.id := q];
        case SaveRun(r) =>
          if r.key !in extensionRuns || extensionRuns[r.key].id == r.id {
            extensionRuns := extensionRuns[r.key := r];
          }
        case Deliver(id) =>
          if id !in deliveries {
            deliveries := deliveries + [id];
          }
        case PostStatus(s) => statuses := statuses + [s];
        case StartPipeline(t) => triggers := triggers + [t];
      }
    }

    method Await(e: Effect) returns (r: Outcome<Reply>)
      modifies this
      ensures Pack(State(), r) == Do(env, old(State()), e)
    {
      var reply := env.replies(clock);
      clock := clock + 1;
      if reply.fault.Before? { return Raised(reply.fault.e); }
      Perform(e);
      if reply.fault.After? { return Raised(reply.fault.e); }
      return Done(reply);
    }

    method NewId() returns (id: Id)
      modifies this
      ensures id == old(nextId) && State() == Allot(old(State()), 1)
    {
      id := nextId;
      nextId := nextId + 1;
    }

    method FindBuild(id: Id) returns (r: Outcome<Build>)
      modifies this
      ensures Pack(State(), r) == GetBuild(env, old(State()), id)
    {
      var _ :- Await(Quiet);
      if id !in builds { return Raised(NotFound); }
      return Done(builds[id]);
    }

    method PublishCiStatus(status: StatusPost) returns (r: Outcome<bool>)
      modifies this
      ensures Pack(State(), r) == Publish(env, old(State()), status, 0)
    {
      hide Do;
      var attempt := 0;
      while attempt < STATUS_ATTEMPTS
        invariant attempt <= STATUS_ATTEMPTS
        invariant Publish(env, old(State()), status, 0) == Publish(env, State(), status, attempt)
      {
        var posted := Await(PostStatus(status));
        if posted.Done? { return Done(true); }
        if posted.error != Upstream { return Raised(posted.error); }
        attempt := attempt + 1;
      }
      var _ :- Await(Quiet);
      return Done(false);
    }

    // -------------------------------------------------------------- AI review

    method AttachLog(run: ExtensionRun, log: AIReviewLog, required: bool) returns (r: Outcome<()>)
      modifies this
      ensures Pack(State(), r) == AttachReviewLog(env, old(State()), run, log, required)
    {
      hide Do, GetBuild;
      var saved := run;
      if LogOf(run).None? { saved := WithLog(run, log); }
      var _ :- Await(SaveRun(saved));
      var build :- FindBuild(log.buildId);
      build := build.(reviewLog := Some(log));
      build := build.(result := build.result.(artifacts := OtherArtifacts(build.result.artifacts) + [ReviewArtifact(log, env.logSize(log))]));
      build := build.(result := build.result.(extensionRuns := OtherRuns(build.result.extensionRuns, run.id) + [run.id]));
      build := build.(result := build.result.(checks := OtherChecks(build.result.checks) + [ReviewCheck(log, required)]));
      if required && log.outcome == OutcomeFailed {
        build := build.(result := build.result.(status := Failed));
      }
      var _ :- Await(SaveBuild(build));
      return Done(());
    }

    method SkipReview(c: Completion, run: ExtensionRun) returns (r: Outcome<()>)
      modifies this
      ensures Pack(State(), r) == Skip(env, old(State()), c, run)
    {
      hide Do, AttachReviewLog;
      var skipped := run.(output := Some(ExtensionOutput([], None, None)), status := RunSkipped);
      var _ :- AttachLog(skipped, ReviewLog(c, run, OutcomeSkipped, []), false);
      var _ :- Await(Quiet);
      return Done(());
    }

    method RecordReviewFailure(c: Completion, run: ExtensionRun) returns (r: Outcome<()>)
      modifies this
      ensures Pack(State(), r) == RecordFailure(env, old(State()), c, run)
    {
      hide Do, AttachReviewLog, Publish;
      var _ :- PublishCiStatus(AiStatus(c, Failure));
      var failed := run.(output := Some(ExtensionOutput([], None, None)), status := RunFailed);
      var _ :- AttachLog(failed, ReviewLog(c, run, OutcomeFailed, []), true);
      var _ :- Await(Quiet);
      return Done(());
    }

    method AskReviewBroker(c: Completion, diff: string) returns (r: Outcome<seq<Finding>>)
      modifies this
      ensures Pack(State(), r) == AskBroker(env, old(State()), c, diff)
    {
      hide Do;
      if Utf8Length(diff) > c.review.maxDiffBytes { return Raised(Value); }
      var parsed := UnifiedDiff.ParseUnifiedDiff(diff);
      if parsed.Err? { return Raised(Value); }
      var reply :- Await(Quiet);
      if reply.review.model != env.model || reply.review.prompt != env.prompt { return Raised(Value); }
      if !UnifiedDiff.ValidResult(parsed.value, reply.review.findings) { return Raised(Value); }
      return Done(reply.review.findings);
    }

    method PublishReview(c: Completion, run: ExtensionRun, diff: string) returns (r: Outcome<()>)
      modifies this
      ensures Pack(State(), r) == Review(env, old(State()), c, run, diff)
    {
      hide Do, AttachReviewLog, Publish, AskBroker, HasCritical;
      var findings :- AskReviewBroker(c, diff);
      var blocking := HasCritical(findings, c.review.criticalSeverities);
      reviews := reviews + [ReviewPost(run.key, c.result.repository, c.result.commitSha, diff, findings)];
      var _ :- Await(Quiet);
      var published :- PublishCiStatus(AiStatus(c, if blocking then Failure else Success));
      var log := ReviewLog(c, run, if blocking || !published then OutcomeFailed else OutcomePassed, findings);
      var _ :- AttachLog(Reviewed(run, findings, blocking, published), log, true);
      var _ :- Await(Quiet);
      return Done(());
    }

    method WorkOnRun(c: Completion, troubled: bool, run: ExtensionRun) returns (r: Outcome<()>)
      modifies this
      ensures Pack(State(), r) == ReviewRun(env, old(State()), c, troubled, run)
    {
      hide Do, Skip, Publish, RecordFailure, Review;
      if !c.review.enabled || c.result.pullRequest.None? {
        r := SkipReview(c, run);
        return;
      }
      var _ :- PublishCiStatus(AiStatus(c, Pending));
      if c.result.baseSha.None? || c.diff.None? || !env.hasBroker || troubled {
        r := RecordReviewFailure(c, run);
        return;
      }
      var reviewed := PublishReview(c, run, c.diff.value);
      if reviewed.Done? { return Done(()); }
      if reviewed.error != Upstream && reviewed.error != Value { return Raised(reviewed.error); }
      r := RecordReviewFailure(c, run);
    }

    method ReplayRun(c: Completion, troubled: bool, previous: ExtensionRun) returns (r: Outcome<()>)
      modifies this
      ensures Pack(State(), r) == Replay(env, old(State()), c, troubled, previous)
    {
      hide AttachReviewLog, Publish, ReviewRun;
      if LogOf(previous).Some? {
        var _ :- AttachLog(previous, LogOf(previous).value.(buildId := c.buildId), Live(c));
      }
      if Live(c) {
        var _ :- PublishCiStatus(AiStatus(c, ReplayState(previous)));
        return Done(());
      }
      if previous.status != RunRunning { return Done(()); }
      r := WorkOnRun(c, troubled, previous);
    }

    method ClaimRun(c: Completion, troubled: bool) returns (r: Outcome<()>)
      modifies this
      ensures Pack(State(), r) == Claim(env, old(State()), c, troubled)
    {
      hide ReviewRun, KeyOf;
      var id := NewId();
      var run := ExtensionRun(id, KeyOf(env, c), RunRunning, None);
      var _ :- Await(SaveRun(run));
      var stored := extensionRuns[run.key];
      if stored.id != run.id && (stored.status != RunRunning || LogOf(stored).Some?) { return Done(()); }
      r := WorkOnRun(c, troubled, stored);
    }

    method ProcessReview(c: Completion, troubled: bool) returns (r: Outcome<()>)
      modifies this
      ensures Pack(State(), r) == ProcessAiReview(env, old(State()), c, troubled)
    {
      hide Replay, Claim, KeyOf, Do;
      var key := KeyOf(env, c);
      asked := asked + [Asked(key, Live(c))];
      var _ :- Await(Quiet);
      if key in extensionRuns {
        r := ReplayRun(c, troubled, extensionRuns[key]);
      } else {
        r := ClaimRun(c, troubled);
      }
    }

    method ProcessReviewWithRetry(c: Completion) returns (r: Outcome<bool>)
      modifies this
      ensures Pack(State(), r) == ProcessWithRetry(env, old(State()), c, 0)
    {
      hide Do, ProcessAiReview;
      var attempt := 0;
      while attempt < REVIEW_ATTEMPTS
        invariant attempt <= REVIEW_ATTEMPTS
        invariant ProcessWithRetry(env, old(State()), c, 0) == ProcessWithRetry(env, State(), c, attempt)
      {
        var processed := ProcessReview(c, false);
        if processed.Done? { return Done(true); }
        if processed.error == Stopped { return Raised(Stopped); }
        attempt := attempt + 1;
      }
      var _ :- Await(Quiet);
      return Done(false);
    }

    // -------------------------------------------------------------- queue items

    method MoveQueueItem(build: Build, state: QueueState) returns (r: Outcome<()>)
      modifies this
      ensures Pack(State(), r) == SetQueueState(env, old(State()), build, state)
    {
      hide Do;
      if build.queueItemId.None? { return Done(()); }
      var _ :- Await(Quiet);
      if build.queueItemId.value !in queueItems { return Done(()); }
      var queue := queueItems[build.queueItemId.value];
      queue := queue.(state := state);
      var _ :- Await(SaveQueue(queue));
      return Done(());
    }

    // -------------------------------------------------------------- triggering

    /** The newest of the listed builds that can be reused. */
    method FindReusable(listed: seq<Build>, repositoryId: Id, commitSha: string, trustedSha: string) returns (found: Option<Build>)
      ensures found == NewestReusable(listed, repositoryId, commitSha, trustedSha)
    {
      hide Reusable;
      var i := |listed|;
      assert listed[..i] == listed;
      while i > 0
        invariant 0 <= i <= |listed|
        invariant NewestReusable(listed, repositoryId, commitSha, trustedSha) == NewestReusable(listed[..i], repositoryId, commitSha, trustedSha)
      {
        assert listed[..i][..i - 1] == listed[..i - 1];
        i := i - 1;
        if Reusable(listed[i], repositoryId, commitSha, trustedSha) { return Some(listed[i]); }
      }
      return None;
    }

    method RecordPair(queue: QueueItem, build: Build) returns (r: Outcome<()>)
      modifies this
      ensures Pack(State(), r) == SavePair(env, old(State()), queue, build)
    {
      hide Do;
      var _ :- Await(SaveQueue(queue));
      var _ :- Await(SaveBuild(build));
      return Done(());
    }

    method ReviewReusedBuild(repository: string, commitSha: string, build: Build) returns (r: Outcome<()>)
      requires build.reviewPolicy.Some?
      modifies this
      ensures Pack(State(), r) == ReviewReused(env, old(State()), repository, commitSha, build)
    {
      hide Do, Publish, ProcessAiReview;
      var published :- PublishCiStatus(StatusPost(repository, commitSha, NativeCi, Success, build.id));
      if !published { return Raised(Upstream); }
      var _ :- Await(Quiet);
      var diff: Option<string> := None;
      var fetched := Await(Quiet);
      if fetched.Done? {
        diff := Some(fetched.value.diff);
      } else if fetched.error != Upstream && fetched.error != Value {
        return Raised(fetched.error);
      }
      r := ProcessReview(ReusedCompletion(build, diff), diff.None?);
    }

    method Reuse(repository: string, req: TriggerRequest, source: Build) returns (r: Outcome<QueueItem>)
      modifies this
      ensures Pack(State(), r) == ReuseNativeResult(env, old(State()), repository, req, source)
    {
      hide Do, SavePair, ReviewReused;
      var id := NewId();
      var queueId := NewId();
      var build := ReusedBuild(id, queueId, req, source);
      var queue := ReusedQueue(queueId, id, req);
      var _ :- RecordPair(queue, build);
      var _ :- ReviewReusedBuild(repository, req.commitSha, build);
      return Done(queue);
    }

    method StartBuild(repository: string, req: TriggerRequest) returns (r: Outcome<QueueItem>)
      modifies this
      ensures Pack(State(), r) == StartNative(env, old(State()), repository, req)
    {
      hide Do, SavePair, Publish;
      var _ :- Await(Quiet);
      var _ :- Await(Quiet);
      var id := NewId();
      var reply :- Await(StartPipeline(TriggerPost(id, req.commitSha, req.baseSha, req.pullRequest)));
      var queueId := NewId();
      var queue := NativeQueue(queueId, id, reply.queueId, req);
      var build := NativeBuild(id, queueId, reply.queueId, repository, req);
      var _ :- RecordPair(queue, build);
      var _ :- PublishCiStatus(StatusPost(repository, req.commitSha, NativeCi, Pending, id));
      var _ :- Await(Quiet);
      return Done(queue);
    }

    method Trigger(req: TriggerRequest) returns (r: Outcome<QueueItem>)
      modifies this
      ensures Pack(State(), r) == TriggerPipeline(env, old(State()), req)
    {
      hide Do, StartNative, ReuseNativeResult, NewestReusable;
      var _ :- Await(Quiet);
      if req.repositoryId !in repositories { return Raised(NotFound); }
      var repository := repositories[req.repositoryId];
      if req.pullRequest.Some? && req.baseSha.Some? {
        var _ :- Await(Quiet);
        var listed := Recent(BuildsBelow(builds, nextId), env.window);
        var source := FindReusable(listed, req.repositoryId, req.commitSha, req.baseSha.value);
        if source.Some? {
          r := Reuse(repository, req, source.value);
          return;
        }
      }
      r := StartBuild(repository, req);
    }

    method RetryBuild(id: Id) returns (r: Outcome<QueueItem>)
      modifies this
      ensures Pack(State(), r) == RetryPipeline(env, old(State()), id)
    {
      hide Do, TriggerPipeline, GetBuild;
      var build :- FindBuild(id);
      var queue :- Trigger(TriggerRequest(build.repositoryId, build.result.commitSha, build.result.baseSha, build.result.pullRequest));
      var _ :- Await(Quiet);
      return Done(queue);
    }

    // -------------------------------------------------------------- completion

    method Complete(c: Completion) returns (r: Outcome<bool>)
      modifies this
      ensures Pack(State(), r) == CompleteBuild(env, old(State()), c)
    {
      hide Do, GetBuild, Publish, SetQueueState, DeliveryId, Matches;
      var build :- FindBuild(c.buildId);
      if !Matches(build, c) || !Terminal(c.result.status) { return Raised(Value); }
      var _ :- Await(Quiet);
      if DeliveryId(c) in Recent(deliveries, env.window) { return Done(false); }
      build := build.(result := c.result);
      build := build.(reviewPolicy := Some(c.review));
      var _ :- Await(SaveBuild(build));
      r := RecordAndDeliver(build, c);
    }

    method RecordAndDeliver(build: Build, c: Completion) returns (r: Outcome<bool>)
      modifies this
      ensures Pack(State(), r) == RecordCompletion(env, old(State()), build, c)
    {
      hide Do, Publish, SetQueueState, DeliveryId;
      var state := if c.result.status == Passed then Success else Failure;
      var published :- PublishCiStatus(StatusPost(c.result.repository, c.result.commitSha, NativeCi, state, build.id));
      if !published { return Raised(Upstream); }
      var first := DeliveryId(c) !in deliveries;
      var _ :- Await(Deliver(DeliveryId(c)));
      if !first { return Done(false); }
      var _ :- MoveQueueItem(build, QueueStateOf(c.result.status));
      var _ :- Await(Quiet);
      return Done(true);
    }

    method BuildCompletion(c: Completion) returns (r: Outcome<bool>)
      modifies this
      ensures Pack(State(), r) == Callback(env, old(State()), c)
    {
      hide CompleteBuild, ProcessWithRetry;
      var inserted :- Complete(c);
      accepted := accepted + [c];
      if c.result.pullRequest.None? {
        var recorded :- ProcessReviewWithRetry(c);
        if !recorded { return Raised(Other); }
      }
      return Done(inserted);
    }

    // -------------------------------------------------------------- refresh and cancellation

    method SaveAndMove(build: Build) returns (r: Outcome<Build>)
      modifies this
      ensures Pack(State(), r) == SaveRefreshed(env, old(State()), build)
    {
      hide Do, SetQueueState;
      var _ :- Await(SaveBuild(build));
      var _ :- MoveQueueItem(build, QueueStateOf(build.result.status));
      return Done(build);
    }

    method RefreshStarted(start: Build) returns (r: Outcome<Build>)
      modifies this
      ensures Pack(State(), r) == RefreshRunning(env, old(State()), start)
    {
      hide Do, SaveRefreshed, Lower;
      var build := start;
      var reply :- Await(Quiet);
      if reply.state.None? { return Done(build); }
      if reply.state.value == Building {
        build := build.(result := build.result.(status := Running));
        var _ :- Await(SaveBuild(build));
        return Done(build);
      }
      var file :- Await(Quiet);
      match file.artifact {
        case Unreadable => return Raised(Upstream);
        case NoResult => build := build.(result := build.result.(status := StatusOf(reply.state.value)));
        case ResultFile(result) =>
          if result.repository != build.result.repository || Lower(result.commitSha) != Lower(build.result.commitSha)
             || result.pullRequest != build.result.pullRequest {
            return Raised(Upstream);
          }
          build := build.(result := result);
      }
      r := SaveAndMove(build);
    }

    method RefreshStored(start: Build) returns (r: Outcome<Build>)
      modifies this
      ensures Pack(State(), r) == RefreshBuild(env, old(State()), start)
    {
      hide Do, SaveRefreshed, RefreshRunning;
      var build := start;
      if !Active(build) { return Done(build); }
      if build.jenkinsBuildNumber.None? && build.jenkinsQueueId.Some? {
        var reply :- Await(Quiet);
        if reply.queueCancelled {
          build := build.(result := build.result.(status := Cancelled));
          r := SaveAndMove(build);
          return;
        }
        if reply.executable.Some? {
          build := build.(jenkinsBuildNumber := reply.executable);
          build := build.(result := build.result.(status := Running));
          var _ :- SaveAndMove(build);
        }
      }
      if build.jenkinsBuildNumber.None? { return Done(build); }
      r := RefreshStarted(build);
    }

    method Look(id: Id) returns (r: Outcome<Build>)
      modifies this
      ensures Pack(State(), r) == Refresh(env, old(State()), id)
    {
      hide GetBuild, RefreshBuild;
      var build :- FindBuild(id);
      r := RefreshStored(build);
    }

    method Cancel(id: Id) returns (r: Outcome<()>)
      modifies this
      ensures Pack(State(), r) == CancelPipeline(env, old(State()), id)
    {
      hide Do, Refresh, SetQueueState;
      var build :- Look(id);
      if build.jenkinsBuildNumber.None? && build.jenkinsQueueId.None? { return Raised(Value); }
      var _ :- Await(Quiet);
      build := build.(result := build.result.(status := Cancelled));
      var _ :- Await(SaveBuild(build));
      var _ :- MoveQueueItem(build, QueueCancelled);
      var _ :- Await(Quiet);
      return Done(());
    }

    // -------------------------------------------------------------- requests

    /** One request of a run. */
    method Serve(op: Op) returns (answer: Answer)
      modifies this
      ensures Stepped(State(), answer) == Step(env, old(State()), op)
    {
      hide TriggerPipeline, Callback, ProcessWithRetry, Refresh, CancelPipeline, RetryPipeline;
      match op {
        case Trigger(req) =>
          var r := Trigger(req);
          answer := if r.Done? then Returned else Threw(r.error);
        case Complete(c) =>
          var r := BuildCompletion(c);
          answer := if r.Done? then Answered(r.value) else Threw(r.error);
        case ReviewLater(i) =>
          if i < |accepted| {
            var r := ProcessReviewWithRetry(accepted[i]);
            answer := if r.Done? then Returned else Threw(r.error);
          } else {
            answer := Returned;
          }
        case Look(id) =>
          var r := Look(id);
          answer := if r.Done? then Returned else Threw(r.error);
        case Cancel(id) =>
          var r := Cancel(id);
          answer := if r.Done? then Returned else Threw(r.error);
        case Retry(id) =>
          var r := RetryBuild(id);
          answer := if r.Done? then Returned else Threw(r.error);
      }
    }
  }

  /** A service that serves a list of requests ends in the state of that run. */
  method ServeAll(env: Env, repositories: map<Id, string>, ops: seq<Op>) returns (service: JenkinsService)
    ensures service.env == env && service.State() == Run(env, repositories, ops)
  {
    service := new JenkinsService(env, repositories);
    assert ops[..0] == [];
    hide Step;
    for i := 0 to |ops|
      invariant fresh(service) && service.env == env && service.State() == Run(env, repositories, ops[..i])
    {
      assert ops[..i + 1][..i] == ops[..i];
      var _ := service.Serve(ops[i]);
    }
    assert ops[..|ops|] == ops;
  }
}
