/** Triggering, completing, refreshing and cancelling keep the invariant, and so does every run. */
module ControlRequests {
  import opened Text
  import opened Records
  import opened Attachment
  import opened ControlPlane
  import opened ControlInvariants
  import opened ControlSafety

  /** Every result file that Jenkins may return comes from the pipeline fold. */
  ghost predicate HonestEnv(env: Env) {
    forall t :: env.replies(t).artifact.ResultFile? ==> Honest(env.replies(t).artifact.result)
  }

  /** The rules of a request: it may do more than review, and an AI-review success may stand for nothing to do. */
  predicate Serial(rules: Rules) {
    rules.mayNative && !rules.strict && rules.about.None?
  }

  // ---------------------------------------------------------------- queue items

  predicate QueueMatches(w: World, build: Build, state: QueueState) {
    && build.id in w.builds && w.builds[build.id].queueItemId == build.queueItemId
    && (Ended(state) ==> Terminal(w.builds[build.id].result.status))
  }

  lemma QueueStateAllowed(w: World, build: Build, state: QueueState, rules: Rules)
    requires Serial(rules) && Inv(w, rules) && QueueMatches(w, build, state) && build.queueItemId.Some? && build.queueItemId.value in w.queues
    ensures Allowed(w, SaveQueue(w.queues[build.queueItemId.value].(state := state)), rules)
  {
    BuildFacts(w, build.id, rules);
    hide Inv;
  }

  lemma QueueCallFrame(env: Env, w: World, q: QueueItem)
    ensures Do(env, w, SaveQueue(q)).w.builds == w.builds
  {
  }

  lemma SetQueueStateKeeps(env: Env, w: World, build: Build, state: QueueState, rules: Rules)
    requires Serial(rules) && Inv(w, rules) && QueueMatches(w, build, state)
    ensures var r := SetQueueState(env, w, build, state); Good(w, r.w, rules) && Inv(r.w, rules) && r.w.builds == w.builds
  {
    hide Inv, Good, Allowed, Do, Ended;
    GoodItself(w, rules);
    if build.queueItemId.Some? {
      QuietKeeps(env, w, rules);
      var w1 := Tick(w);
      if build.queueItemId.value in w1.queues {
        var q := w1.queues[build.queueItemId.value].(state := state);
        assert QueueMatches(w1, build, state);
        QueueStateAllowed(w1, build, state, rules);
        DoKeeps(env, w1, SaveQueue(q), rules);
        QueueCallFrame(env, w1, q);
        GoodThen(w, w1, Do(env, w1, SaveQueue(q)).w, rules);
        Later(w, Do(env, w1, SaveQueue(q)).w, rules);
      }
    }
  }

  // ---------------------------------------------------------------- the reusable build

  lemma {:induction false} ListedStored(builds: map<Id, Build>, below: Id, i: nat)
    requires i < |BuildsBelow(builds, below)|
    ensures exists id :: id in builds && id < below && builds[id] == BuildsBelow(builds, below)[i]
  {
    if below - 1 in builds && i == |BuildsBelow(builds, below - 1)| {
      assert builds[below - 1] == BuildsBelow(builds, below)[i];
    } else {
      ListedStored(builds, below - 1, i);
    }
  }

  lemma {:induction false} NewestIsListed(builds: seq<Build>, repositoryId: Id, commitSha: string, trustedSha: string) returns (i: nat)
    requires NewestReusable(builds, repositoryId, commitSha, trustedSha).Some?
    ensures i < |builds| && builds[i] == NewestReusable(builds, repositoryId, commitSha, trustedSha).value
    ensures Reusable(builds[i], repositoryId, commitSha, trustedSha)
  {
    if Reusable(builds[|builds| - 1], repositoryId, commitSha, trustedSha) {
      i := |builds| - 1;
    } else {
      i := NewestIsListed(builds[..|builds| - 1], repositoryId, commitSha, trustedSha);
    }
  }

  /** The build found for reuse is stored under its id, and it is reusable. */
  lemma FoundIsStored(env: Env, w: World, req: TriggerRequest, source: Build, rules: Rules)
    requires Inv(w, rules) && req.baseSha.Some?
    requires NewestReusable(ListBuilds(env, w), req.repositoryId, req.commitSha, req.baseSha.value) == Some(source)
    ensures source.id in w.builds && w.builds[source.id] == source
    ensures Reusable(source, req.repositoryId, req.commitSha, req.baseSha.value)
  {
    var i := NewestIsListed(ListBuilds(env, w), req.repositoryId, req.commitSha, req.baseSha.value);
    var all := BuildsBelow(w.builds, w.nextId);
    var j := i + |all| - |ListBuilds(env, w)|;
    assert all[j] == ListBuilds(env, w)[i];
    ListedStored(w.builds, w.nextId, j);
    var id :| id in w.builds && w.builds[id] == source;
    BuildFacts(w, id, rules);
    hide Inv;
  }

  lemma ReusedHonest(id: Id, queueId: Id, req: TriggerRequest, source: Build)
    requires Honest(source.result) && source.result.status == Passed
    ensures Honest(ReusedBuild(id, queueId, req, source).result)
  {
    OthersFail(source.result.checks);
    hide RequiredFailure, OtherChecks, OtherArtifacts;
  }

  lemma OthersFail(checks: seq<CheckResult>)
    ensures RequiredFailure(OtherChecks(checks)) ==> RequiredFailure(checks)
  {
    forall i | 0 <= i < |OtherChecks(checks)| ensures OtherChecks(checks)[i] in checks {
    }
  }

  /** Both ids are given out and neither record is stored yet. */
  ghost predicate NewPair(w: World, q: QueueItem, b: Build, rules: Rules) {
    && q.id < w.nextId && b.id < w.nextId && q.buildId == b.id && b.queueItemId == Some(q.id) && !Ended(q.state)
    && q.id !in w.queues && b.id !in w.builds && Registered(w, b)
    && (forall id :: id in w.builds ==> w.builds[id].queueItemId != Some(q.id))
    && (rules.honest ==> Honest(b.result))
    && (b.reusedFrom.Some? ==> rules.mayReuse && ReusesNative(w, b))
  }

  lemma SavePairKeeps(env: Env, w: World, q: QueueItem, b: Build, rules: Rules)
    requires Serial(rules) && Inv(w, rules) && NewPair(w, q, b, rules)
    ensures var r := SavePair(env, w, q, b);
            && Good(w, r.w, rules)
            && (r.Go? ==> b.id in r.w.builds && r.w.builds[b.id] == b && (b.id, b.result.status) in r.w.stored)
  {
    hide Inv, Good, Lower, Honest;
    DoKeeps(env, w, SaveQueue(q), rules);
    var saved := Do(env, w, SaveQueue(q));
    Later(w, saved.w, rules);
    if saved.Go? {
      assert saved.w.builds == w.builds && saved.w.queues == w.queues[q.id := q] && saved.w.nextId == w.nextId;
      DoKeeps(env, saved.w, SaveBuild(b), rules);
      GoodThen(w, saved.w, Do(env, saved.w, SaveBuild(b)).w, rules);
    }
  }

  lemma NewIds(w: World, id: Id, rules: Rules)
    requires Inv(w, rules) && w.nextId <= id
    ensures id !in w.queues && id !in w.builds && forall b :: b in w.builds ==> w.builds[b].queueItemId != Some(id)
  {
  }

  // ---------------------------------------------------------------- triggering

  /** A native status may be published that says what its build was saved as. */
  lemma NativeAllowed(w: World, s: StatusPost, status: Status, rules: Rules)
    requires Serial(rules) && s.context == NativeCi && s.buildId in w.builds && (s.buildId, status) in w.stored
    requires SameCommit(s.repository, s.commitSha, w.builds[s.buildId])
    requires match s.state
             case Success => status == Passed
             case Failure => status == Failed || status == Cancelled
             case Pending => status == Queued
    ensures Allowed(w, PostStatus(s), rules)
  {
    hide Lower;
  }

  /** The repository is the one registered for the request. */
  predicate RegisteredAs(w: World, req: TriggerRequest, repository: string) {
    req.repositoryId in w.repositories && w.repositories[req.repositoryId] == repository
  }

  /** The stored build can be reused for the pull request's commit. */
  predicate Hits(w: World, repository: string, req: TriggerRequest, source: Build) {
    && RegisteredAs(w, req, repository) && req.pullRequest.Some? && req.baseSha.Some?
    && source.id in w.builds && w.builds[source.id] == source
    && Reusable(source, req.repositoryId, req.commitSha, req.baseSha.value)
  }

  lemma FetchDiffKeeps(env: Env, w: World, rules: Rules)
    requires Inv(w, rules)
    ensures FetchDiff(env, w).w == Tick(w) && Good(w, Tick(w), rules) && Inv(Tick(w), rules)
  {
    QuietKeeps(env, w, rules);
    hide Inv, Good, Do;
  }

  /** The reused build is saved and can be published and reviewed. */
  predicate Reused(w: World, repository: string, commitSha: string, build: Build) {
    && build.reviewPolicy.Some? && PullRequestBuild(w, build.id) && (build.id, Passed) in w.stored
    && SameCommit(repository, commitSha, w.builds[build.id])
    && SameCommit(build.result.repository, build.result.commitSha, w.builds[build.id])
  }

  lemma ReviewReusedKeeps(env: Env, w: World, repository: string, commitSha: string, build: Build, rules: Rules)
    requires Serial(rules) && Inv(w, rules) && Reused(w, repository, commitSha, build)
    ensures var r := ReviewReused(env, w, repository, commitSha, build);
            Good(w, r.w, rules) && (r.Go? && !build.reviewPolicy.value.enabled ==> Audited(r.w, build.id))
  {
    hide Inv, Good, Publish, ProcessAiReview, Do, FetchDiff, Decimal, Lower, Audited, Allowed;
    var status := StatusPost(repository, commitSha, NativeCi, Success, build.id);
    NativeAllowed(w, status, Passed, rules);
    PublishKeeps(env, w, status, 0, rules);
    var p := Publish(env, w, status, 0);
    if p.Go? {
      Later(w, p.w, rules);
      QuietKeeps(env, p.w, rules);
      FetchDiffKeeps(env, Tick(p.w), rules);
      var w2 := Tick(Tick(p.w));
      GoodThen(w, p.w, Tick(p.w), rules);
      GoodThen(w, Tick(p.w), w2, rules);
      var diff := FetchDiff(env, Tick(p.w));
      if diff.Go? {
        var c := ReusedCompletion(build, diff.value);
        BuildLater(w, w2, build.id, rules);
        ProcessKeeps(env, w2, c, diff.value.None?, rules);
        GoodThen(w, w2, ProcessAiReview(env, w2, c, diff.value.None?).w, rules);
      }
    }
  }

  lemma ReusedPair(w: World, repository: string, req: TriggerRequest, source: Build, rules: Rules)
    requires rules.mayReuse && Inv(w, rules) && Hits(w, repository, req, source)
    ensures NewPair(Allot(w, 2), ReusedQueue(w.nextId + 1, w.nextId, req), ReusedBuild(w.nextId, w.nextId + 1, req, source), rules)
  {
    BuildFacts(w, source.id, rules);
    NewIds(w, w.nextId, rules);
    NewIds(w, w.nextId + 1, rules);
    if rules.honest { ReusedHonest(w.nextId, w.nextId + 1, req, source); }
    hide Inv, Lower, OtherChecks, OtherArtifacts, Honest;
  }

  lemma ReusedFields(id: Id, queueId: Id, req: TriggerRequest, source: Build)
    ensures var b := ReusedBuild(id, queueId, req, source);
            && b.id == id && b.reviewPolicy.Some? && b.result.pullRequest == req.pullRequest && b.result.buildId == Some(id)
            && b.result.status == Passed && b.result.commitSha == source.result.commitSha
            && b.result.repository == source.result.repository && b.reusedFrom == Some(source.id)
  {
  }

  lemma ReuseUnfolds(env: Env, w: World, repository: string, req: TriggerRequest, source: Build)
    ensures ReusedBuild(w.nextId, w.nextId + 1, req, source).reviewPolicy.Some?
    ensures var queue, build := ReusedQueue(w.nextId + 1, w.nextId, req), ReusedBuild(w.nextId, w.nextId + 1, req, source);
            var saved := SavePair(env, Allot(w, 2), queue, build);
            ReuseNativeResult(env, w, repository, req, source) ==
            match saved
            case Halt(w', e) => Halt(w', e)
            case Go(w', _) =>
              match ReviewReused(env, w', repository, req.commitSha, build)
              case Halt(w'', e) => Halt(w'', e)
              case Go(w'', _) => Go(w'', queue)
  {
    hide SavePair, ReviewReused, ReusedQueue, Allot, OtherChecks, OtherArtifacts;
  }

  lemma ReusedSaves(env: Env, w: World, repository: string, req: TriggerRequest, source: Build, rules: Rules)
    requires Serial(rules) && rules.mayReuse && Inv(w, rules) && Hits(w, repository, req, source)
    ensures var build := ReusedBuild(w.nextId, w.nextId + 1, req, source);
            var saved := SavePair(env, Allot(w, 2), ReusedQueue(w.nextId + 1, w.nextId, req), build);
            && Good(w, saved.w, rules)
            && (saved.Go? ==>
                  build.id in saved.w.builds && saved.w.builds[build.id] == build && Reused(saved.w, repository, req.commitSha, build))
  {
    var queue, build := ReusedQueue(w.nextId + 1, w.nextId, req), ReusedBuild(w.nextId, w.nextId + 1, req, source);
    var w1 := Allot(w, 2);
    ReusedPair(w, repository, req, source, rules);
    ReusedFields(w.nextId, w.nextId + 1, req, source);
    BuildFacts(w, source.id, rules);
    hide Inv, Good, SavePair, ReusedBuild, ReusedQueue, NewPair, Allot, Lower;
    NewIdsKeep(w, 2, rules);
    Later(w, w1, rules);
    SavePairKeeps(env, w1, queue, build, rules);
    GoodThen(w, w1, SavePair(env, w1, queue, build).w, rules);
  }

  lemma ReuseKeeps(env: Env, w: World, repository: string, req: TriggerRequest, source: Build, rules: Rules)
    requires Serial(rules) && rules.mayReuse && Inv(w, rules) && Hits(w, repository, req, source)
    ensures Good(w, ReuseNativeResult(env, w, repository, req, source).w, rules)
  {
    var build := ReusedBuild(w.nextId, w.nextId + 1, req, source);
    ReuseUnfolds(env, w, repository, req, source);
    hide *;
    ReusedSaves(env, w, repository, req, source, rules);
    var saved := SavePair(env, Allot(w, 2), ReusedQueue(w.nextId + 1, w.nextId, req), build);
    Later(w, saved.w, rules);
    if saved.Go? {
      ReviewReusedKeeps(env, saved.w, repository, req.commitSha, build, rules);
      GoodThen(w, saved.w, ReviewReused(env, saved.w, repository, req.commitSha, build).w, rules);
    }
  }

  lemma NativePair(w: World, id: Id, jenkinsQueueId: int, repository: string, req: TriggerRequest, rules: Rules)
    requires Inv(w, rules) && id < w.nextId && id !in w.builds && RegisteredAs(w, req, repository)
    ensures NewPair(Allot(w, 1), NativeQueue(w.nextId, id, jenkinsQueueId, req),
                    NativeBuild(id, w.nextId, jenkinsQueueId, repository, req), rules)
  {
    NewIds(w, w.nextId, rules);
    hide Inv;
  }

  lemma NativeFields(id: Id, queueId: Id, jenkinsQueueId: int, repository: string, req: TriggerRequest)
    ensures var b := NativeBuild(id, queueId, jenkinsQueueId, repository, req);
            && b.id == id && b.result.status == Queued
            && b.result.repository == repository && b.result.commitSha == req.commitSha
  {
  }

  lemma RecordNativeKeeps(env: Env, w: World, id: Id, jenkinsQueueId: int, repository: string, req: TriggerRequest, rules: Rules)
    requires Serial(rules) && Inv(w, rules) && id < w.nextId && id !in w.builds && RegisteredAs(w, req, repository)
    ensures Good(w, RecordNative(env, w, id, jenkinsQueueId, repository, req).w, rules)
  {
    NativePair(w, id, jenkinsQueueId, repository, req, rules);
    hide Inv, Good, Publish, SavePair, Do, NewPair, Allot, NativeQueue, NativeBuild, Allowed;
    var w1 := Allot(w, 1);
    NewIdsKeep(w, 1, rules);
    Later(w, w1, rules);
    var queue, build := NativeQueue(w.nextId, id, jenkinsQueueId, req), NativeBuild(id, w.nextId, jenkinsQueueId, repository, req);
    SavePairKeeps(env, w1, queue, build, rules);
    var saved := SavePair(env, w1, queue, build);
    GoodThen(w, w1, saved.w, rules);
    Later(w, saved.w, rules);
    if saved.Go? {
      var status := StatusPost(repository, req.commitSha, NativeCi, Pending, id);
      NativeFields(id, w.nextId, jenkinsQueueId, repository, req);
      NativeAllowed(saved.w, status, Queued, rules);
      PublishKeeps(env, saved.w, status, 0, rules);
      var p := Publish(env, saved.w, status, 0);
      GoodThen(w, saved.w, p.w, rules);
      Later(w, p.w, rules);
      QuietKeeps(env, p.w, rules);
      GoodThen(w, p.w, Tick(p.w), rules);
    }
  }

  lemma StartNativeKeeps(env: Env, w: World, repository: string, req: TriggerRequest, rules: Rules)
    requires Serial(rules) && Inv(w, rules) && rules.mayTrigger && RegisteredAs(w, req, repository)
    ensures Good(w, StartNative(env, w, repository, req).w, rules)
  {
    hide Inv, Good, Publish, SavePair;
    var w2, id := Tick(Tick(w)), w.nextId;
    QuietKeeps(env, w, rules);
    QuietKeeps(env, Tick(w), rules);
    GoodThen(w, Tick(w), w2, rules);
    NewIds(w2, id, rules);
    NewIdsKeep(w2, 1, rules);
    var w3 := Allot(w2, 1);
    GoodThen(w, w2, w3, rules);
    Later(w, w3, rules);
    var e := StartPipeline(TriggerPost(id, req.commitSha, req.baseSha, req.pullRequest));
    DoKeeps(env, w3, e, rules);
    var started := Do(env, w3, e);
    GoodThen(w, w3, started.w, rules);
    Later(w, started.w, rules);
    hide Do;
    if started.Go? {
      RecordNativeKeeps(env, started.w, id, started.value.queueId, repository, req, rules);
      GoodThen(w, started.w, RecordNative(env, started.w, id, started.value.queueId, repository, req).w, rules);
    }
  }

  /** The trigger asks for a pull request whose commit was built before. */
  function Found(env: Env, w: World, req: TriggerRequest): Option<Build> {
    if req.repositoryId in w.repositories && req.pullRequest.Some? && req.baseSha.Some? then
      NewestReusable(ListBuilds(env, w), req.repositoryId, req.commitSha, req.baseSha.value)
    else None
  }

  lemma TriggerUnfolds(env: Env, w: World, req: TriggerRequest)
    ensures var r, found := TriggerPipeline(env, w, req), Found(env, w, req);
            || r.w == Tick(w)
            || r.w == Tick(Tick(w))
            || (found.None? && r == StartNative(env, Tick(w), w.repositories[req.repositoryId], req))
            || (found.None? && r == StartNative(env, Tick(Tick(w)), w.repositories[req.repositoryId], req))
            || (found.Some? && r == ReuseNativeResult(env, Tick(Tick(w)), w.repositories[req.repositoryId], req, found.value))
  {
    hide StartNative, ReuseNativeResult, NewestReusable, BuildsBelow, Recent;
  }

  /** What is found is still there when it is reused, two calls later. */
  lemma FoundHits(env: Env, w: World, req: TriggerRequest, rules: Rules)
    requires Inv(w, rules) && Found(env, w, req).Some?
    ensures Hits(Tick(Tick(w)), w.repositories[req.repositoryId], req, Found(env, w, req).value)
  {
    FoundIsStored(env, w, req, Found(env, w, req).value, rules);
    hide Inv, ListBuilds, NewestReusable, Lower;
  }

  lemma TriggerKeeps(env: Env, w: World, req: TriggerRequest, rules: Rules)
    requires Serial(rules) && Inv(w, rules) && (if Found(env, w, req).Some? then rules.mayReuse else rules.mayTrigger)
    ensures Good(w, TriggerPipeline(env, w, req).w, rules)
  {
    var w1, w2 := Tick(w), Tick(Tick(w));
    QuietKeeps(env, w, rules);
    QuietKeeps(env, w1, rules);
    GoodThen(w, w1, w2, rules);
    TriggerUnfolds(env, w, req);
    var r := TriggerPipeline(env, w, req);
    if Found(env, w, req).Some? {
      FoundHits(env, w, req, rules);
      hide *;
      ReuseKeeps(env, w2, w.repositories[req.repositoryId], req, Found(env, w, req).value, rules);
      GoodThen(w, w2, ReuseNativeResult(env, w2, w.repositories[req.repositoryId], req, Found(env, w, req).value).w, rules);
    } else if r.w != w1 && r.w != w2 {
      var w' := if r == StartNative(env, w1, w.repositories[req.repositoryId], req) then w1 else w2;
      hide *;
      StartNativeKeeps(env, w', w.repositories[req.repositoryId], req, rules);
      GoodThen(w, w', r.w, rules);
    }
  }

  lemma RetryPipelineKeeps(env: Env, w: World, id: Id, rules: Rules)
    requires Serial(rules) && Inv(w, rules) && rules.mayTrigger && rules.mayReuse
    ensures Good(w, RetryPipeline(env, w, id).w, rules)
  {
    hide Inv, Good, TriggerPipeline;
    GetBuildKeeps(env, w, id, rules);
    var got := GetBuild(env, w, id);
    Later(w, got.w, rules);
    if got.Go? {
      var req := TriggerRequest(got.value.repositoryId, got.value.result.commitSha, got.value.result.baseSha, got.value.result.pullRequest);
      TriggerKeeps(env, got.w, req, rules);
      var r := TriggerPipeline(env, got.w, req);
      GoodThen(w, got.w, r.w, rules);
      QuietAfter(env, w, r.w, rules);
    }
  }

  // ---------------------------------------------------------------- completion

  lemma CompletedAllowed(w: World, build: Build, c: Completion, rules: Rules)
    requires Serial(rules) && Inv(w, rules) && build.id in w.builds && w.builds[build.id] == build
    requires Matches(build, c) && Terminal(c.result.status) && (rules.honest ==> Honest(c.result))
    ensures Allowed(w, SaveBuild(CompletedBuild(build, c)), rules)
  {
    hide Inv, Honest, Lower;
  }

  lemma DeliverOnceKeeps(env: Env, w: World, build: Build, c: Completion, rules: Rules)
    requires Serial(rules) && Inv(w, rules) && build.id in w.builds && SameIdentity(w.builds[build.id], build)
    requires Terminal(w.builds[build.id].result.status)
    ensures Good(w, DeliverOnce(env, w, build, c).w, rules)
  {
    hide Inv, Good, Do, SetQueueState, DeliveryId, Lower;
    var e := Deliver(DeliveryId(c));
    DoKeeps(env, w, e, rules);
    var delivered := Do(env, w, e);
    Later(w, delivered.w, rules);
    BuildLater(w, delivered.w, build.id, rules);
    SetQueueStateKeeps(env, delivered.w, build, QueueStateOf(c.result.status), rules);
    var moved := SetQueueState(env, delivered.w, build, QueueStateOf(c.result.status));
    GoodThen(w, delivered.w, moved.w, rules);
    QuietAfter(env, w, moved.w, rules);
  }

  /** The part of a completion that follows the saved build. */
  lemma CompleteRestKeeps(env: Env, w: World, build: Build, c: Completion, rules: Rules)
    requires Serial(rules) && Inv(w, rules) && build.id in w.builds && SameIdentity(w.builds[build.id], build)
    requires Terminal(w.builds[build.id].result.status) && Terminal(c.result.status)
    requires (build.id, c.result.status) in w.stored
    requires SameCommit(c.result.repository, c.result.commitSha, w.builds[build.id])
    ensures Good(w, RecordCompletion(env, w, build, c).w, rules)
  {
    hide Inv, Good, Publish, DeliverOnce, Lower, Allowed;
    var state := if c.result.status == Passed then Success else Failure;
    var status := StatusPost(c.result.repository, c.result.commitSha, NativeCi, state, build.id);
    NativeAllowed(w, status, c.result.status, rules);
    PublishKeeps(env, w, status, 0, rules);
    var p := Publish(env, w, status, 0);
    Later(w, p.w, rules);
    BuildLater(w, p.w, build.id, rules);
    DeliverOnceKeeps(env, p.w, build, c, rules);
    GoodThen(w, p.w, DeliverOnce(env, p.w, build, c).w, rules);
  }

  lemma CompleteKeeps(env: Env, w: World, c: Completion, rules: Rules)
    requires Serial(rules) && Inv(w, rules) && (rules.honest ==> Honest(c.result))
    ensures var r := CompleteBuild(env, w, c);
            Good(w, r.w, rules) && (r.Go? ==> ForBuild(r.w, c))
  {
    hide Inv, Good, Allowed, Recent, DeliveryId, RecordCompletion, Lower, Honest, Do;
    GetBuildKeeps(env, w, c.buildId, rules);
    var got := GetBuild(env, w, c.buildId);
    Later(w, got.w, rules);
    QuietKeeps(env, got.w, rules);
    var w2 := Tick(got.w);
    GoodThen(w, got.w, w2, rules);
    if got.Go? && Matches(got.value, c) && Terminal(c.result.status) {
      var completed := CompletedBuild(got.value, c);
      CompletedAllowed(w2, got.value, c, rules);
      DoKeeps(env, w2, SaveBuild(completed), rules);
      var saved := Do(env, w2, SaveBuild(completed));
      GoodThen(w, w2, saved.w, rules);
      Later(w, saved.w, rules);
      if saved.Go? {
        assert saved.w.builds[completed.id] == completed;
        CompleteRestKeeps(env, saved.w, completed, c, rules);
        var r := RecordCompletion(env, saved.w, completed, c);
        GoodThen(w, saved.w, r.w, rules);
        BuildLater(saved.w, r.w, completed.id, rules);
      }
    }
  }

  lemma CallbackKeeps(env: Env, w: World, c: Completion, rules: Rules)
    requires Serial(rules) && Inv(w, rules) && (rules.honest ==> Honest(c.result))
    ensures var r := Callback(env, w, c);
            Good(w, r.w, rules) && (r.Go? && c.result.pullRequest.None? ==> Audited(r.w, c.buildId))
  {
    CompleteKeeps(env, w, c, rules);
    var completed := CompleteBuild(env, w, c);
    Later(w, completed.w, rules);
    if completed.Go? {
      AcceptKeeps(completed.w, c, rules);
      var w' := Accept(completed.w, c);
      GoodThen(w, completed.w, w', rules);
      Later(w, w', rules);
      assert Addressed(w', c);
      hide Inv, Good, CompleteBuild, ProcessWithRetry, Audited, Addressed;
      if c.result.pullRequest.None? {
        RetryKeeps(env, w', c, 0, rules);
        GoodThen(w, w', ProcessWithRetry(env, w', c, 0).w, rules);
      }
    }
  }

  // ---------------------------------------------------------------- refresh and cancellation

  /** A build that is refreshed: the stored one, or what this call has just made of it. */
  ghost predicate Refreshing(w: World, build: Build, rules: Rules) {
    && build.id in w.builds && SameIdentity(w.builds[build.id], build)
    && Active(w.builds[build.id]) && Active(build) && (rules.honest ==> Honest(build.result))
  }

  /** The build was saved as it is now. */
  predicate Saved(r: Res<Build>) {
    r.Go? ==> r.value.id in r.w.builds && r.w.builds[r.value.id] == r.value
  }

  lemma SaveRefreshedKeeps(env: Env, w: World, build: Build, rules: Rules)
    requires Serial(rules) && Inv(w, rules) && Allowed(w, SaveBuild(build), rules)
    ensures var r := SaveRefreshed(env, w, build);
            Good(w, r.w, rules) && Saved(r) && (r.Go? ==> r.value == build)
  {
    hide Inv, Good, Allowed, Do, SetQueueState;
    DoKeeps(env, w, SaveBuild(build), rules);
    var saved := Do(env, w, SaveBuild(build));
    Later(w, saved.w, rules);
    if saved.Go? {
      SetQueueStateKeeps(env, saved.w, build, QueueStateOf(build.result.status), rules);
      GoodThen(w, saved.w, SetQueueState(env, saved.w, build, QueueStateOf(build.result.status)).w, rules);
    }
  }

  lemma StatusAllowed(w: World, build: Build, status: Status, rules: Rules)
    requires Serial(rules) && Refreshing(w, build, rules)
    ensures Allowed(w, SaveBuild(WithStatus(build, status)), rules)
    ensures rules.honest ==> Honest(WithStatus(build, status).result)
  {
    hide RequiredFailure, Lower;
  }

  lemma ResultAllowed(w: World, build: Build, result: PipelineResult, rules: Rules)
    requires Serial(rules) && Refreshing(w, build, rules) && (rules.honest ==> Honest(result))
    requires result.repository == build.result.repository && Lower(result.commitSha) == Lower(build.result.commitSha)
             && result.pullRequest == build.result.pullRequest
    ensures Allowed(w, SaveBuild(build.(result := result)), rules)
  {
    hide Honest, Lower;
  }

  lemma RefreshingLater(w: World, build: Build, rules: Rules)
    requires Refreshing(w, build, rules)
    ensures Refreshing(Tick(w), build, rules)
  {
  }

  lemma RefreshEndedKeeps(env: Env, w: World, build: Build, state: JenkinsState, rules: Rules)
    requires Serial(rules) && Inv(w, rules) && Refreshing(w, build, rules) && (rules.honest ==> HonestEnv(env))
    ensures var r := RefreshEnded(env, w, build, state); Good(w, r.w, rules) && Saved(r)
  {
    hide Inv, Good, Allowed, SaveRefreshed, Lower, Refreshing, Honest, Saved;
    QuietKeeps(env, w, rules);
    RefreshingLater(w, build, rules);
    var file := Do(env, w, Quiet);
    if file.Go? {
      NothingSaved<Build>(Tick(w), Upstream);
      match file.value.artifact {
        case Unreadable =>
        case NoResult =>
          StatusAllowed(Tick(w), build, StatusOf(state), rules);
          SaveRefreshedKeeps(env, Tick(w), WithStatus(build, StatusOf(state)), rules);
          GoodThen(w, Tick(w), SaveRefreshed(env, Tick(w), WithStatus(build, StatusOf(state))).w, rules);
        case ResultFile(result) =>
          if result.repository == build.result.repository && Lower(result.commitSha) == Lower(build.result.commitSha)
             && result.pullRequest == build.result.pullRequest {
            ResultAllowed(Tick(w), build, result, rules);
            SaveRefreshedKeeps(env, Tick(w), build.(result := result), rules);
            GoodThen(w, Tick(w), SaveRefreshed(env, Tick(w), build.(result := result)).w, rules);
          }
      }
    } else {
      NothingSaved<Build>(file.w, file.error);
    }
  }

  lemma NothingSaved<T>(w: World, e: Exn)
    ensures Saved(Halt(w, e))
  {
  }

  lemma RefreshRunningKeeps(env: Env, w: World, build: Build, rules: Rules)
    requires Serial(rules) && Inv(w, rules) && Refreshing(w, build, rules) && w.builds[build.id] == build && (rules.honest ==> HonestEnv(env))
    ensures var r := RefreshRunning(env, w, build); Good(w, r.w, rules) && Saved(r)
  {
    hide Inv, Good, RefreshEnded, Lower, Allowed, HonestEnv, Refreshing, SameIdentity, Honest;
    RefreshedSame(w, build, rules);
    QuietKeeps(env, w, rules);
    RefreshingLater(w, build, rules);
    var asked := Do(env, w, Quiet);
    var w1 := Tick(w);
    if asked.Go? && asked.value.state.Some? {
      if asked.value.state.value == Building {
        StatusAllowed(w1, build, Running, rules);
        DoKeeps(env, w1, SaveBuild(WithStatus(build, Running)), rules);
        GoodThen(w, w1, Do(env, w1, SaveBuild(WithStatus(build, Running))).w, rules);
      } else {
        RefreshEndedKeeps(env, w1, build, asked.value.state.value, rules);
        GoodThen(w, w1, RefreshEnded(env, w1, build, asked.value.state.value).w, rules);
      }
    }
  }

  lemma RefreshedSame(w: World, build: Build, rules: Rules)
    requires Refreshing(w, build, rules)
    ensures build.id in w.builds
  {
  }

  lemma RefreshBuildKeeps(env: Env, w: World, build: Build, rules: Rules)
    requires Serial(rules) && Inv(w, rules) && build.id in w.builds && w.builds[build.id] == build && (rules.honest ==> HonestEnv(env))
    ensures var r := RefreshBuild(env, w, build); Good(w, r.w, rules) && Saved(r)
  {
    GoodItself(w, rules);
    BuildFacts(w, build.id, rules);
    hide Inv, Good, RefreshRunning, SaveRefreshed, Lower, Allowed, HonestEnv, Honest;
    if Active(build) {
      if build.jenkinsBuildNumber.Some? {
        RefreshRunningKeeps(env, w, build, rules);
      } else if build.jenkinsQueueId.Some? {
        RefreshQueuedKeeps(env, w, build, rules);
      }
    }
    hide RefreshQueued;
  }

  lemma RefreshQueuedKeeps(env: Env, w: World, build: Build, rules: Rules)
    requires Serial(rules) && Inv(w, rules) && Refreshing(w, build, rules) && w.builds[build.id] == build && (rules.honest ==> HonestEnv(env))
    ensures var r := RefreshQueued(env, w, build); Good(w, r.w, rules) && Saved(r)
  {
    hide Inv, Good, RefreshRunning, SaveRefreshed, Lower, Allowed, HonestEnv, Honest;
    QuietKeeps(env, w, rules);
    RefreshingLater(w, build, rules);
    var asked := Do(env, w, Quiet);
    var w1 := Tick(w);
    if asked.Go? {
      if asked.value.queueCancelled {
        StatusAllowed(w1, build, Cancelled, rules);
        SaveRefreshedKeeps(env, w1, WithStatus(build, Cancelled), rules);
        GoodThen(w, w1, SaveRefreshed(env, w1, WithStatus(build, Cancelled)).w, rules);
      } else if asked.value.executable.Some? {
        var numbered := build.(jenkinsBuildNumber := asked.value.executable);
        var started := WithStatus(numbered, Running);
        StatusAllowed(w1, numbered, Running, rules);
        SaveRefreshedKeeps(env, w1, started, rules);
        var saved := SaveRefreshed(env, w1, started);
        GoodThen(w, w1, saved.w, rules);
        Later(w, saved.w, rules);
        if saved.Go? {
          RefreshRunningKeeps(env, saved.w, started, rules);
          GoodThen(w, saved.w, RefreshRunning(env, saved.w, started).w, rules);
        }
      }
    }
  }

  lemma RefreshKeeps(env: Env, w: World, id: Id, rules: Rules)
    requires Serial(rules) && Inv(w, rules) && (rules.honest ==> HonestEnv(env))
    ensures var r := Refresh(env, w, id); Good(w, r.w, rules) && Saved(r)
  {
    hide Inv, Good, RefreshBuild, HonestEnv;
    GetBuildKeeps(env, w, id, rules);
    var got := GetBuild(env, w, id);
    Later(w, got.w, rules);
    if got.Go? {
      RefreshBuildKeeps(env, got.w, got.value, rules);
      GoodThen(w, got.w, RefreshBuild(env, got.w, got.value).w, rules);
    }
  }

  lemma CancelledAllowed(w: World, build: Build, rules: Rules)
    requires Serial(rules) && Inv(w, rules) && build.id in w.builds && w.builds[build.id] == build
    ensures Allowed(w, SaveBuild(WithStatus(build, Cancelled)), rules)
  {
    hide Inv, RequiredFailure, Lower;
  }

  lemma CancelKeeps(env: Env, w: World, id: Id, rules: Rules)
    requires Serial(rules) && Inv(w, rules) && (rules.honest ==> HonestEnv(env))
    ensures Good(w, CancelPipeline(env, w, id).w, rules)
  {
    hide Inv, Good, Refresh, HonestEnv, Do, SetQueueState, Allowed;
    RefreshKeeps(env, w, id, rules);
    var r := Refresh(env, w, id);
    Later(w, r.w, rules);
    if r.Go? {
      QuietKeeps(env, r.w, rules);
      GoodThen(w, r.w, Tick(r.w), rules);
      var cancelled := WithStatus(r.value, Cancelled);
      CancelledAllowed(Tick(r.w), r.value, rules);
      DoKeeps(env, Tick(r.w), SaveBuild(cancelled), rules);
      var saved := Do(env, Tick(r.w), SaveBuild(cancelled));
      GoodThen(w, Tick(r.w), saved.w, rules);
      Later(w, saved.w, rules);
      if saved.Go? {
        SetQueueStateKeeps(env, saved.w, cancelled, QueueCancelled, rules);
        var s := SetQueueState(env, saved.w, cancelled, QueueCancelled);
        GoodThen(w, saved.w, s.w, rules);
        QuietAfter(env, w, s.w, rules);
      }
    }
  }

  // ---------------------------------------------------------------- runs

  /** The request brings in only results of the pipeline fold. */
  predicate HonestOp(op: Op) {
    op.Complete? ==> Honest(op.completion.result)
  }

  lemma StepKeeps(env: Env, w: World, op: Op, rules: Rules)
    requires Serial(rules) && Inv(w, rules) && rules.mayTrigger && (op.Trigger? || op.Retry? ==> rules.mayReuse)
    requires rules.honest ==> HonestEnv(env) && HonestOp(op)
    ensures Good(w, Step(env, w, op).w, rules)
  {
    hide Inv, Good, HonestEnv, TriggerPipeline, Callback, ProcessWithRetry, Refresh, CancelPipeline, RetryPipeline, Addressed, Honest;
    GoodItself(w, rules);
    match op {
      case Trigger(req) => TriggerKeeps(env, w, req, rules);
      case Complete(c) => CallbackKeeps(env, w, c, rules);
      case ReviewLater(i) =>
        if i < |w.accepted| {
          AcceptedAddressed(w, i, rules);
          RetryKeeps(env, w, w.accepted[i], 0, rules);
        }
      case Look(id) => RefreshKeeps(env, w, id, rules);
      case Cancel(id) => CancelKeeps(env, w, id, rules);
      case Retry(id) => RetryPipelineKeeps(env, w, id, rules);
    }
  }

  lemma AcceptedAddressed(w: World, i: nat, rules: Rules)
    requires Inv(w, rules) && i < |w.accepted|
    ensures Addressed(w, w.accepted[i])
  {
  }

  lemma StartGood(repositories: map<Id, string>, rules: Rules)
    ensures Inv(Start(repositories), rules)
  {
  }

  /** Every state of every run satisfies the invariant. */
  lemma {:induction false} RunKeeps(env: Env, repositories: map<Id, string>, ops: seq<Op>, rules: Rules)
    requires Serial(rules) && rules.mayTrigger && rules.mayReuse && (rules.honest ==> HonestEnv(env) && forall i :: 0 <= i < |ops| ==> HonestOp(ops[i]))
    ensures Inv(Run(env, repositories, ops), rules)
  {
    if ops == [] {
      StartGood(repositories, rules);
    } else {
      var init := ops[..|ops| - 1];
      RunKeeps(env, repositories, init, rules);
      StepKeeps(env, Run(env, repositories, init), ops[|ops| - 1], rules);
      Later(Run(env, repositories, init), Run(env, repositories, ops), rules);
      hide Inv, Step;
    }
  }

  /** Every later state of a run has evolved from every earlier one. */
  lemma {:induction false} RunEvolves(env: Env, repositories: map<Id, string>, ops: seq<Op>, k: nat, rules: Rules)
    requires k <= |ops| && Serial(rules) && rules.mayTrigger && rules.mayReuse && (rules.honest ==> HonestEnv(env) && forall i :: 0 <= i < |ops| ==> HonestOp(ops[i]))
    ensures Good(Run(env, repositories, ops[..k]), Run(env, repositories, ops), rules)
  {
    RunKeeps(env, repositories, ops, rules);
    if k == |ops| {
      assert ops[..k] == ops;
      GoodItself(Run(env, repositories, ops), rules);
    } else {
      var init := ops[..|ops| - 1];
      assert init[..k] == ops[..k];
      RunEvolves(env, repositories, init, k, rules);
      RunKeeps(env, repositories, init, rules);
      StepKeeps(env, Run(env, repositories, init), ops[|ops| - 1], rules);
      GoodThen(Run(env, repositories, ops[..k]), Run(env, repositories, init), Run(env, repositories, ops), rules);
      hide Inv, Good, Step;
    }
  }
}
