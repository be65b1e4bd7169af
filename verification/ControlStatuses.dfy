/** Which commit statuses are published, for which builds, and what a new build is recorded as. */
module ControlStatuses {
  import opened Text
  import opened Records
  import opened Attachment
  import opened ControlPlane
  import opened ControlInvariants
  import opened ControlSafety
  import opened ControlRequests
  import opened ControlTheorems
  import opened ControlReuse
  import opened ControlIdentity

  // ---------------------------------------------------------------- over runs

  /** A review of this repository and commit was asked for when it did not apply. */
  ghost predicate NothingToReview(w: World, repository: string, commitSha: string) {
    exists i :: 0 <= i < |w.asked| && !w.asked[i].live && Names(w.asked[i].key, repository, commitSha)
  }

  /** Every status of every run is posted to its build's repository and commit, up to case.  A native success is only
      posted for a build that was saved as passed, a native failure for one saved as failed or cancelled, a native pending
      for one saved as queued.  An AI-review status is only posted for a build of a pull request, and a success of it only
      for a commit whose review was published, or was asked for when there was none to make. */
  lemma StatusesAreTrue(env: Env, repositories: map<Id, string>, ops: seq<Op>, i: nat)
    ensures var w := Run(env, repositories, ops);
            i < |w.statuses| ==>
              var s := w.statuses[i];
              && s.buildId in w.builds
              && UpToCase(s.repository, w.builds[s.buildId].result.repository)
              && UpToCase(s.commitSha, w.builds[s.buildId].result.commitSha)
              && (s.context == NativeCi && s.state == Success ==> (s.buildId, Passed) in w.stored)
              && (s.context == NativeCi && s.state == Failure ==> (s.buildId, Failed) in w.stored || (s.buildId, Cancelled) in w.stored)
              && (s.context == NativeCi && s.state == Pending ==> (s.buildId, Queued) in w.stored)
              && (s.context == AiReview ==> w.builds[s.buildId].result.pullRequest.Some?)
              && (s.context == AiReview && s.state == Success ==>
                    ReviewAsked(w, s.repository, s.commitSha) || NothingToReview(w, s.repository, s.commitSha))
  {
    var w := Run(env, repositories, ops);
    AnyRun(env, repositories, ops);
    hide Run, Inv, ReviewedFor, ReviewAsked, NothingToReview, Lower, UpToCase;
    if i < |w.statuses| {
      var s := w.statuses[i];
      StatusFacts(w, i);
      LowerExactly(s.repository, w.builds[s.buildId].result.repository);
      LowerExactly(s.commitSha, w.builds[s.buildId].result.commitSha);
      if ReviewedFor(w, s.repository, s.commitSha) { ReviewedIsAsked(w, s.repository, s.commitSha); }
      if IdleFor(w, s.repository, s.commitSha) { IdleIsNothing(w, s.repository, s.commitSha); }
      hide IdleFor;
    }
  }

  lemma StatusFacts(w: World, i: nat)
    requires Inv(w, ANY) && i < |w.statuses|
    ensures StatusOk(w, w.statuses[i])
  {
  }

  lemma IdleIsNothing(w: World, repository: string, commitSha: string)
    requires IdleFor(w, repository, commitSha)
    ensures NothingToReview(w, repository, commitSha)
  {
  }

  // ---------------------------------------------------------------- a miss

  lemma SavePairReturns(env: Env, w: World, q: QueueItem, b: Build)
    ensures var r := SavePair(env, w, q, b);
            && r.w.statuses == w.statuses
            && (r.Go? ==> r.w == w.(queues := w.queues[q.id := q], builds := w.builds[b.id := b],
                                    stored := w.stored + {(b.id, b.result.status)}, clock := r.w.clock))
  {
  }

  /** What the store holds once Jenkins has queued a build for the request under the queue id `jenkinsId`. */
  function WithQueued(w: World, repository: string, req: TriggerRequest, jenkinsId: int): World {
    var id, queueId := w.nextId, w.nextId + 1;
    w.(nextId := w.nextId + 2,
       triggers := w.triggers + [TriggerPost(id, req.commitSha, req.baseSha, req.pullRequest)],
       queues := w.queues[queueId := QueueItem(queueId, req.repositoryId, id, Some(jenkinsId), QueueQueued,
                                               req.commitSha, req.baseSha, req.pullRequest)],
       builds := w.builds[id := Build(id, req.repositoryId, Some(queueId), Some(jenkinsId), None, None, None, None,
                                      PipelineResult(repository, req.commitSha, None, req.baseSha, Some(id), req.pullRequest,
                                                     Queued, [], [], []))],
       stored := w.stored + {(id, Queued)})
  }

  /** How starting a build ends: only its pending status is posted, and a return leaves it recorded. */
  ghost predicate Starts(w: World, r: Res<QueueItem>, repository: string, req: TriggerRequest, jenkinsId: int) {
    && PostedOnly(r.w, |w.statuses|, StatusPost(repository, req.commitSha, NativeCi, Pending, w.nextId))
    && (r.Go? ==>
          && r.w == WithQueued(w, repository, req, jenkinsId).(statuses := r.w.statuses, clock := r.w.clock)
          && w.nextId + 1 in r.w.queues && r.value == r.w.queues[w.nextId + 1])
  }

  lemma RecordNativeReturns(env: Env, w: World, id: Id, jenkinsId: int, repository: string, req: TriggerRequest)
    ensures var r := RecordNative(env, w, id, jenkinsId, repository, req);
            var queue, build := NativeQueue(w.nextId, id, jenkinsId, req), NativeBuild(id, w.nextId, jenkinsId, repository, req);
            && PostedOnly(r.w, |w.statuses|, StatusPost(repository, req.commitSha, NativeCi, Pending, id))
            && (r.Go? ==>
                  && r.value == queue
                  && r.w == w.(queues := w.queues[queue.id := queue], builds := w.builds[id := build], nextId := w.nextId + 1,
                               stored := w.stored + {(id, Queued)}, statuses := r.w.statuses, clock := r.w.clock))
  {
    var queue, build := NativeQueue(w.nextId, id, jenkinsId, req), NativeBuild(id, w.nextId, jenkinsId, repository, req);
    var status := StatusPost(repository, req.commitSha, NativeCi, Pending, id);
    SavePairReturns(env, Allot(w, 1), queue, build);
    var saved := SavePair(env, Allot(w, 1), queue, build);
    PublishPosts(env, saved.w, status, 0, |w.statuses|);
    PublishOnlyPosts(env, saved.w, status, 0);
    var p := Publish(env, saved.w, status, 0);
    DoPosts(env, p.w, status, |w.statuses|);
    QuietFrame(env, p.w);
    hide SavePair, Publish, Do;
  }

  lemma RecordedStarts(env: Env, w: World, started: World, repository: string, req: TriggerRequest, jenkinsId: int)
    requires started == w.(nextId := w.nextId + 1, clock := started.clock,
                           triggers := w.triggers + [TriggerPost(w.nextId, req.commitSha, req.baseSha, req.pullRequest)])
    ensures Starts(w, RecordNative(env, started, w.nextId, jenkinsId, repository, req), repository, req, jenkinsId)
  {
    RecordNativeReturns(env, started, w.nextId, jenkinsId, repository, req);
    hide RecordNative, PostedOnly;
  }

  lemma HaltedStarts(w: World, w': World, e: Exn, repository: string, req: TriggerRequest, jenkinsId: int)
    requires w'.statuses == w.statuses
    ensures Starts(w, Halt(w', e), repository, req, jenkinsId)
  {
  }

  lemma StartNativeUnfolds(env: Env, w: World, repository: string, req: TriggerRequest)
    ensures var r := StartNative(env, w, repository, req);
            var started := Do(env, Allot(Tick(Tick(w)), 1), StartPipeline(TriggerPost(w.nextId, req.commitSha, req.baseSha, req.pullRequest)));
            || (r.Halt? && r.w.statuses == w.statuses)
            || (&& started.Go? && r == RecordNative(env, started.w, w.nextId, env.replies(w.clock + 2).queueId, repository, req)
                && started.w == w.(nextId := w.nextId + 1, clock := started.w.clock,
                                   triggers := w.triggers + [TriggerPost(w.nextId, req.commitSha, req.baseSha, req.pullRequest)]))
  {
    hide RecordNative;
  }

  lemma StartNativeStarts(env: Env, w: World, repository: string, req: TriggerRequest)
    ensures Starts(w, StartNative(env, w, repository, req), repository, req, env.replies(w.clock + 2).queueId)
  {
    hide RecordNative, StartNative, Starts, Do, Allot, Tick;
    StartNativeUnfolds(env, w, repository, req);
    var r := StartNative(env, w, repository, req);
    var started := Do(env, Allot(Tick(Tick(w)), 1), StartPipeline(TriggerPost(w.nextId, req.commitSha, req.baseSha, req.pullRequest)));
    if r.Halt? && r.w.statuses == w.statuses {
      HaltedStarts(w, r.w, r.error, repository, req, env.replies(w.clock + 2).queueId);
    } else {
      RecordedStarts(env, w, started.w, repository, req, env.replies(w.clock + 2).queueId);
    }
  }

  lemma StartsEarlier(w: World, w': World, r: Res<QueueItem>, repository: string, req: TriggerRequest, jenkinsId: int)
    requires w' == w.(clock := w'.clock) && Starts(w', r, repository, req, jenkinsId)
    ensures Starts(w, r, repository, req, jenkinsId)
  {
    hide PostedOnly;
  }

  /** The call that asks Jenkins for the build: after the listing, if there is one. */
  function TriggerCall(w: World, req: TriggerRequest): nat {
    if req.pullRequest.Some? && req.baseSha.Some? then w.clock + 4 else w.clock + 3
  }

  /** A miss posts one status only, whatever raises: native pending, on the request's commit, for the build it records.
      When it returns it has started one Jenkins build and recorded exactly that one, queued, with its queue item. */
  lemma MissStartsOne(env: Env, w: World, req: TriggerRequest)
    requires Found(env, w, req).None? && req.repositoryId in w.repositories
    ensures Starts(w, TriggerPipeline(env, w, req), w.repositories[req.repositoryId], req, env.replies(TriggerCall(w, req)).queueId)
  {
    hide *;
    MissUnfolds(env, w, req);
    LookedIs(w, req);
    var w' := Looked(w, req);
    var repository, r, jenkinsId := w.repositories[req.repositoryId], TriggerPipeline(env, w, req), env.replies(TriggerCall(w, req)).queueId;
    if r.Halt? && r.w.statuses == w.statuses {
      HaltedStarts(w, r.w, r.error, repository, req, jenkinsId);
    } else {
      StartNativeStarts(env, w', repository, req);
      StartsEarlier(w, w', r, repository, req, jenkinsId);
    }
  }

  /** The state in which the build is started, after the lookups. */
  function Looked(w: World, req: TriggerRequest): World {
    if req.pullRequest.Some? && req.baseSha.Some? then Tick(Tick(w)) else Tick(w)
  }

  lemma LookedIs(w: World, req: TriggerRequest)
    ensures Looked(w, req) == w.(clock := Looked(w, req).clock) && Looked(w, req).clock + 2 == TriggerCall(w, req)
  {
  }

  lemma MissUnfolds(env: Env, w: World, req: TriggerRequest)
    requires Found(env, w, req).None? && req.repositoryId in w.repositories
    ensures var r := TriggerPipeline(env, w, req);
            || (r.Halt? && r.w.statuses == w.statuses)
            || r == StartNative(env, Looked(w, req), w.repositories[req.repositoryId], req)
  {
    hide StartNative, ReuseNativeResult, NewestReusable, BuildsBelow, Recent;
  }

  // ---------------------------------------------------------------- a hit

  /** What a hit saves first: the pull request's build, native results kept, and its queue item. */
  function ReuseOf(source: Build, id: Id, req: TriggerRequest): Build {
    Build(id, req.repositoryId, Some(id + 1), None, source.jenkinsBuildNumber, Some(source.id),
          Some(if source.reviewPolicy.None? then ReviewPolicy(true, {Critical}, 200_000) else source.reviewPolicy.value), None,
          PipelineResult(source.result.repository, source.result.commitSha, source.result.trustedSha, req.baseSha, Some(id),
                         req.pullRequest, Passed, OtherChecks(source.result.checks), OtherArtifacts(source.result.artifacts), []))
  }

  /** From the `n`th on, only the reused build's native success is posted, and AI-review statuses. */
  ghost predicate HitStatuses(w: World, n: nat, success: StatusPost) {
    n <= |w.statuses| && forall i :: n <= i < |w.statuses| ==> w.statuses[i] == success || w.statuses[i].context == AiReview
  }

  lemma PostedHit(w: World, n: nat, success: StatusPost)
    requires PostedOnly(w, n, success)
    ensures HitStatuses(w, n, success)
  {
  }

  lemma ReviewedHit(w: World, w': World, n: nat, success: StatusPost, rules: Rules)
    requires HitStatuses(w, n, success) && Good(w, w', rules) && !rules.mayNative
    ensures HitStatuses(w', n, success) && ReviewFrame(w, w') && (!rules.mayTrigger ==> w'.triggers == w.triggers)
    ensures success in w.statuses ==> success in w'.statuses
  {
    hide Inv, BuildStep, RunStep, OnlyAttached;
    forall i | n <= i < |w'.statuses| ensures w'.statuses[i] == success || w'.statuses[i].context == AiReview {
      if i < |w.statuses| {
        assert w'.statuses[i] == w.statuses[i];
      } else {
        NewStatusFacts(w, w', i, rules);
      }
    }
    if success in w.statuses {
      var i :| 0 <= i < |w.statuses| && w.statuses[i] == success;
      assert w'.statuses[i] == success;
    }
  }

  lemma SameFrame(w: World, w': World)
    requires w' == w.(statuses := w'.statuses, clock := w'.clock)
    ensures ReviewFrame(w, w') && w'.triggers == w.triggers
  {
    hide OtherChecks, OtherArtifacts;
  }

  /** How a reused build is published and reviewed. */
  ghost predicate Reviews(w: World, r: Res<()>, success: StatusPost) {
    && HitStatuses(r.w, |w.statuses|, success) && (r.Go? ==> success in r.w.statuses)
    && ReviewFrame(w, r.w) && r.w.triggers == w.triggers
  }

  lemma StopsEarly(w: World, w': World, e: Exn, success: StatusPost)
    requires OnlyPosted(w, w') && HitStatuses(w', |w.statuses|, success)
    ensures Reviews(w, Halt(w', e), success)
  {
    SameFrame(w, w');
    hide ReviewFrame;
  }

  lemma ThenReviewed(w: World, w1: World, r: Res<()>, success: StatusPost, rules: Rules)
    requires OnlyPosted(w, w1) && HitStatuses(w1, |w.statuses|, success) && success in w1.statuses
    requires Good(w1, r.w, rules) && !rules.mayNative && !rules.mayTrigger
    ensures Reviews(w, r, success)
  {
    ReviewedHit(w1, r.w, |w.statuses|, success, rules);
    SameFrame(w, w1);
    FrameThen(w, w1, r.w);
    hide Good, ReviewFrame, HitStatuses;
  }

  /** Published, then a diff is fetched and the review begins, or it stops before. */
  lemma ReviewReusedUnfolds(env: Env, w: World, repository: string, commitSha: string, build: Build)
    requires build.reviewPolicy.Some?
    ensures var r, success := ReviewReused(env, w, repository, commitSha, build), StatusPost(repository, commitSha, NativeCi, Success, build.id);
            var p := Publish(env, w, success, 0);
            var diff := FetchDiff(env, Tick(p.w));
            || (r.Halt? && (r.w == p.w || r.w == Tick(p.w) || r.w == Tick(Tick(p.w))))
            || (&& p.Go? && p.value && diff.Go? && diff.w == Tick(Tick(p.w))
                && r == ProcessAiReview(env, diff.w, ReusedCompletion(build, diff.value), diff.value.None?))
  {
    hide Publish, ProcessAiReview, Decimal;
  }

  lemma TickPosts(w: World, n: nat, success: StatusPost)
    requires PostedOnly(w, n, success)
    ensures OnlyPosted(w, Tick(w)) && OnlyPosted(w, Tick(Tick(w)))
    ensures PostedOnly(Tick(w), n, success) && PostedOnly(Tick(Tick(w)), n, success)
    ensures Tick(Tick(w)).statuses == w.statuses
  {
  }

  lemma PostedThen(w: World, w1: World, w2: World)
    requires OnlyPosted(w, w1) && OnlyPosted(w1, w2)
    ensures OnlyPosted(w, w2)
  {
  }

  lemma ReviewReusedReviews(env: Env, w: World, repository: string, commitSha: string, build: Build)
    requires Inv(w, ANY) && Reused(w, repository, commitSha, build)
    ensures Reviews(w, ReviewReused(env, w, repository, commitSha, build), StatusPost(repository, commitSha, NativeCi, Success, build.id))
  {
    var success := StatusPost(repository, commitSha, NativeCi, Success, build.id);
    var p := Publish(env, w, success, 0);
    var diff := FetchDiff(env, Tick(p.w));
    var r := ReviewReused(env, w, repository, commitSha, build);
    var w' := if r.Halt? && r.w == p.w then p.w else if r.Halt? && r.w == Tick(p.w) then Tick(p.w) else Tick(Tick(p.w));
    assert PostedOnly(w, |w.statuses|, success);
    hide *;
    PublishOnlyPosts(env, w, success, 0);
    PublishPosts(env, w, success, 0, |w.statuses|);
    TickPosts(p.w, |w.statuses|, success);
    PostedThen(w, p.w, Tick(p.w));
    PostedThen(w, p.w, Tick(Tick(p.w)));
    PostedHit(w', |w.statuses|, success);
    ReviewReusedUnfolds(env, w, repository, commitSha, build);
    if r.Halt? && (r.w == p.w || r.w == Tick(p.w) || r.w == Tick(Tick(p.w))) {
      StopsEarly(w, w', r.error, success);
    } else {
      ReusedReviewKeeps(env, w, repository, commitSha, build, p.w, diff.value);
      ThenReviewed(w, w', r, success, Reviewing(ReusedCompletion(build, diff.value), false));
    }
  }

  lemma ReusedReviewKeeps(env: Env, w: World, repository: string, commitSha: string, build: Build, published: World, diff: Option<string>)
    requires Inv(w, ANY) && Reused(w, repository, commitSha, build)
    requires published == Publish(env, w, StatusPost(repository, commitSha, NativeCi, Success, build.id), 0).w
    ensures var c, w2 := ReusedCompletion(build, diff), Tick(Tick(published));
            Good(w2, ProcessAiReview(env, w2, c, diff.None?).w, Reviewing(c, false))
  {
    var success := StatusPost(repository, commitSha, NativeCi, Success, build.id);
    var c, w2 := ReusedCompletion(build, diff), Tick(Tick(published));
    assert Serial(ANY) && About(Reviewing(c, false), c) && !Reviewing(c, false).strict && Reviewing(c, false).honest == ANY.honest;
    NativeAllowed(w, success, Passed, ANY);
    hide *;
    PublishKeeps(env, w, success, 0, ANY);
    Later(w, published, ANY);
    QuietKeeps(env, published, ANY);
    QuietKeeps(env, Tick(published), ANY);
    GoodThen(w, published, Tick(published), ANY);
    GoodThen(w, Tick(published), w2, ANY);
    InvUnder(w2, ANY, Reviewing(c, false));
    ReusedAddressed(w, w2, repository, commitSha, build, diff);
    ProcessKeeps(env, w2, c, diff.None?, Reviewing(c, false));
  }

  lemma ReusedAddressed(w: World, w': World, repository: string, commitSha: string, build: Build, diff: Option<string>)
    requires Reused(w, repository, commitSha, build) && Good(w, w', ANY)
    ensures Addressed(w', ReusedCompletion(build, diff))
  {
    BuildLater(w, w', build.id, ANY);
    hide Good, Decimal, Lower;
  }

  /** How a reuse ends: it starts no Jenkins build and publishes the native success of its new build, besides statuses of
      the review; a return leaves the new build and its queue item, with nothing but review logs attached to any build. */
  ghost predicate Reuses(w: World, r: Res<QueueItem>, repository: string, req: TriggerRequest, source: Build) {
    var success := StatusPost(repository, req.commitSha, NativeCi, Success, w.nextId);
    && HitStatuses(r.w, |w.statuses|, success) && r.w.triggers == w.triggers && r.w.deliveries == w.deliveries
    && r.w.accepted == w.accepted
    && (r.Go? ==>
          && success in r.w.statuses
          && r.value == QueueItem(w.nextId + 1, req.repositoryId, w.nextId, None, QueueReused, req.commitSha, req.baseSha, req.pullRequest)
          && r.w.queues == w.queues[w.nextId + 1 := r.value]
          && r.w.builds.Keys == w.builds.Keys + {w.nextId}
          && OnlyAttached(ReuseOf(source, w.nextId, req), r.w.builds[w.nextId])
          && forall id :: id in w.builds && id != w.nextId ==> OnlyAttached(w.builds[id], r.w.builds[id]))
  }

  lemma ReusedIs(w: World, req: TriggerRequest, source: Build)
    ensures ReusedBuild(w.nextId, w.nextId + 1, req, source) == ReuseOf(source, w.nextId, req)
  {
  }

  lemma SavedReuses(w: World, saved: World, r: Res<()>, repository: string, req: TriggerRequest, source: Build)
    requires var queue, build := ReusedQueue(w.nextId + 1, w.nextId, req), ReuseOf(source, w.nextId, req);
             saved == w.(nextId := saved.nextId, queues := w.queues[queue.id := queue], builds := w.builds[build.id := build],
                         stored := saved.stored, clock := saved.clock)
    requires Reviews(saved, r, StatusPost(repository, req.commitSha, NativeCi, Success, w.nextId))
    ensures Reuses(w, if r.Go? then Go(r.w, ReusedQueue(w.nextId + 1, w.nextId, req)) else Halt(r.w, r.error), repository, req, source)
  {
    hide OnlyAttached, OtherChecks, OtherArtifacts, HitStatuses;
  }

  lemma HaltedReuses(w: World, w': World, e: Exn, repository: string, req: TriggerRequest, source: Build)
    requires w'.statuses == w.statuses && w'.triggers == w.triggers && w'.deliveries == w.deliveries && w'.accepted == w.accepted
    ensures Reuses(w, Halt(w', e), repository, req, source)
  {
  }

  lemma ReuseReuses(env: Env, w: World, repository: string, req: TriggerRequest, source: Build)
    requires Inv(w, ANY) && Hits(w, repository, req, source)
    ensures Reuses(w, ReuseNativeResult(env, w, repository, req, source), repository, req, source)
  {
    var queue, build := ReusedQueue(w.nextId + 1, w.nextId, req), ReusedBuild(w.nextId, w.nextId + 1, req, source);
    var saved := SavePair(env, Allot(w, 2), queue, build);
    ReuseUnfolds(env, w, repository, req, source);
    SavePairReturns(env, Allot(w, 2), queue, build);
    SavePairPassive(env, Allot(w, 2), queue, build);
    ReusedIs(w, req, source);
    assert Allot(w, 2) == w.(nextId := w.nextId + 2);
    assert ANY.mayReuse && Serial(ANY);
    assert build.id == w.nextId;
    hide *;
    ReusedSaves(env, w, repository, req, source, ANY);
    if saved.Halt? {
      HaltedReuses(w, saved.w, saved.error, repository, req, source);
    } else {
      Later(w, saved.w, ANY);
      ReviewReusedReviews(env, saved.w, repository, req.commitSha, build);
      SavedReuses(w, saved.w, ReviewReused(env, saved.w, repository, req.commitSha, build), repository, req, source);
    }
  }

  lemma SavePairPassive(env: Env, w: World, q: QueueItem, b: Build)
    ensures var r := SavePair(env, w, q, b).w; r.triggers == w.triggers && r.deliveries == w.deliveries && r.accepted == w.accepted
  {
  }

  /** A hit, whatever raises, publishes for its new build alone, and leaves it as the source's native result. */
  lemma HitRecords(env: Env, w: World, req: TriggerRequest)
    requires Inv(w, ANY) && Found(env, w, req).Some?
    ensures Reuses(w, TriggerPipeline(env, w, req), w.repositories[req.repositoryId], req, Found(env, w, req).value)
  {
    var source, repository, w2 := Found(env, w, req).value, w.repositories[req.repositoryId], Tick(Tick(w));
    var r := TriggerPipeline(env, w, req);
    assert w2 == w.(clock := w2.clock);
    hide *;
    HitUnfolds(env, w, req);
    if r.Halt? && r.w == w.(clock := r.w.clock) {
      HaltedReuses(w, r.w, r.error, repository, req, source);
    } else {
      FoundHits(env, w, req, ANY);
      QuietKeeps(env, w, ANY);
      QuietKeeps(env, Tick(w), ANY);
      ReuseReuses(env, w2, repository, req, source);
      ReusesEarlier(w, w2, r, repository, req, source);
    }
  }

  lemma HitUnfolds(env: Env, w: World, req: TriggerRequest)
    requires Found(env, w, req).Some?
    ensures var r := TriggerPipeline(env, w, req);
            || (r.Halt? && r.w == w.(clock := r.w.clock))
            || r == ReuseNativeResult(env, Tick(Tick(w)), w.repositories[req.repositoryId], req, Found(env, w, req).value)
  {
    hide StartNative, ReuseNativeResult, NewestReusable, BuildsBelow, Recent;
  }

  lemma ReusesEarlier(w: World, w': World, r: Res<QueueItem>, repository: string, req: TriggerRequest, source: Build)
    requires w' == w.(clock := w'.clock) && Reuses(w', r, repository, req, source)
    ensures Reuses(w, r, repository, req, source)
  {
    hide OnlyAttached, HitStatuses;
  }

  /** The review of a reused build is one of its reused result, under the source's policy, with the pull request's diff if
      that could be fetched, and with none, as troubled, if not. */
  lemma HitReviews(env: Env, w: World, req: TriggerRequest) returns (fetched: World, diff: Option<string>)
    requires Found(env, w, req).Some?
    ensures var build := ReuseOf(Found(env, w, req).value, w.nextId, req);
            var c := Completion("reused:" + Decimal(w.nextId), w.nextId, build.result, build.reviewPolicy.value, diff);
            var r := TriggerPipeline(env, w, req);
            r.Go? ==>
              && FetchDiff(env, fetched) == Go(fetched.(clock := fetched.clock + 1), diff)
              && r.w == ProcessAiReview(env, fetched.(clock := fetched.clock + 1), c, diff.None?).w
  {
    var source, repository, w2 := Found(env, w, req).value, w.repositories[req.repositoryId], Tick(Tick(w));
    var queue, build := ReusedQueue(w2.nextId + 1, w2.nextId, req), ReusedBuild(w2.nextId, w2.nextId + 1, req, source);
    var saved := SavePair(env, Allot(w2, 2), queue, build);
    HitReturns(env, w, req);
    ReuseUnfolds(env, w2, repository, req, source);
    ReusedIs(w2, req, source);
    ReviewReusedUnfolds(env, saved.w, repository, req.commitSha, build);
    var success := StatusPost(repository, req.commitSha, NativeCi, Success, build.id);
    var p := Publish(env, saved.w, success, 0);
    fetched := Tick(p.w);
    var fetch := FetchDiff(env, fetched);
    diff := if fetch.Go? then fetch.value else None;
    assert w2.nextId == w.nextId && Tick(fetched) == fetched.(clock := fetched.clock + 1);
    hide SavePair, Publish, FetchDiff, ProcessAiReview, ReviewReused, ReuseNativeResult, TriggerPipeline, Found, Decimal, ReusedBuild, Allot;
  }
}
