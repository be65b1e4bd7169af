/** When the requests return, if nothing raises: what they refuse, and nothing else. */
module ControlReturns {
  import opened Text
  import opened Records
  import opened ControlPlane
  import opened ControlInvariants
  import opened ControlSafety
  import opened ControlRequests
  import opened ControlTheorems
  import opened Attachment
  import opened ControlRefresh
  import opened ControlProgress

  // ---------------------------------------------------------------- refresh

  lemma CalmSaveRefreshed(env: Env, w: World, build: Build)
    requires Calm(env)
    ensures SaveRefreshed(env, w, build).Go?
  {
    CalmDo(env, w, SaveBuild(build));
    CalmMove(env, Tick(Apply(w, SaveBuild(build))), build, QueueStateOf(build.result.status));
    hide Calm, Do, SetQueueState;
  }

  /** Jenkins has ended the build with a result file that is unreadable or another build's. */
  ghost predicate Refused(env: Env, t: nat, build: Build) {
    && env.replies(t).state.Some? && env.replies(t).state.value != Building
    && match env.replies(t + 1).artifact
       case Unreadable => true
       case NoResult => false
       case ResultFile(result) => !FileMatches(result, build)
  }

  lemma RunningReturns(env: Env, w: World, build: Build)
    requires Calm(env)
    ensures RefreshRunning(env, w, build).Go? <==> !Refused(env, w.clock, build)
  {
    CalmDo(env, w, Quiet);
    CalmDo(env, Tick(w), Quiet);
    CalmDo(env, Tick(w), SaveBuild(WithStatus(build, Running)));
    var state, artifact := env.replies(w.clock).state, env.replies(w.clock + 1).artifact;
    if state.Some? { CalmSaveRefreshed(env, Tick(Tick(w)), WithStatus(build, StatusOf(state.value))); }
    if artifact.ResultFile? {
      LowerExactly(artifact.result.commitSha, build.result.commitSha);
      CalmSaveRefreshed(env, Tick(Tick(w)), build.(result := artifact.result));
    }
    hide Calm, Do, SaveRefreshed, Lower, UpToCase;
  }

  /** The refusal of a refresh whose first call is `t`. */
  ghost predicate RefreshRefused(env: Env, w: World, t: nat, build: Build) {
    && build.result.status in {Queued, Running}
    && if build.jenkinsBuildNumber.Some? then Refused(env, t, build)
       else
         && build.jenkinsQueueId.Some? && !env.replies(t).queueCancelled && env.replies(t).executable.Some?
         && Refused(env, t + 2 + QueueCalls(w, build), build)
  }

  lemma QueuedReturns(env: Env, w: World, build: Build)
    requires Calm(env) && Holding(w, build)
    ensures RefreshQueued(env, w, build).Go? <==>
              !(!env.replies(w.clock).queueCancelled && env.replies(w.clock).executable.Some? && Refused(env, w.clock + 2 + QueueCalls(w, build), build))
  {
    CalmDo(env, w, Quiet);
    var w1, started := Tick(w), WithStatus(build.(jenkinsBuildNumber := env.replies(w.clock).executable), Running);
    CalmSaveRefreshed(env, w1, WithStatus(build, Cancelled));
    CalmSaveRefreshed(env, w1, started);
    SaveRefreshedStores(env, w1, build, started);
    RunningReturns(env, SaveRefreshed(env, w1, started).w, started);
    assert QueueCalls(w1, started) == QueueCalls(w, build);
    assert forall t :: Refused(env, t, started) <==> Refused(env, t, build);
    hide Calm, Do, SaveRefreshed, RefreshRunning, Refused, QueueCalls;
  }

  /** When nothing raises, a refresh returns exactly when the build is stored and its result file is not refused. */
  lemma RefreshReturns(env: Env, w: World, id: Id, rules: Rules)
    requires Calm(env) && Inv(w, rules)
    ensures Refresh(env, w, id).Go? <==> id in w.builds && !RefreshRefused(env, w, w.clock + 1, w.builds[id])
  {
    CalmGetBuild(env, w, id);
    if id in w.builds {
      InvHolding(w, id, rules);
      assert Holding(Tick(w), w.builds[id]);
      RunningReturns(env, Tick(w), w.builds[id]);
      QueuedReturns(env, Tick(w), w.builds[id]);
    }
    hide Calm, Inv, GetBuild, RefreshRunning, RefreshQueued, Refused;
  }

  // ---------------------------------------------------------------- cancellation

  /** A cancellation that returns has asked Jenkins for a refreshed build that has a number or a queue id, and leaves that
      build as refreshed, but cancelled, and no other build changed.  When nothing raises, it returns exactly then. */
  lemma CancelReports(env: Env, w: World, id: Id, rules: Rules)
    requires Inv(w, rules)
    ensures var r, refreshed := CancelPipeline(env, w, id), Refresh(env, w, id);
            && (r.Go? ==>
                  && id in w.builds && refreshed.Go? && Refreshed(env, w, w.clock + 1, w.builds[id], refreshed.value)
                  && r.w.builds == w.builds[id := refreshed.value.(result := refreshed.value.result.(status := Cancelled))])
            && (refreshed.Go? && refreshed.value.jenkinsBuildNumber.None? && refreshed.value.jenkinsQueueId.None? ==> r == Halt(refreshed.w, Value))
            && (Calm(env) && refreshed.Go? && (refreshed.value.jenkinsBuildNumber.Some? || refreshed.value.jenkinsQueueId.Some?) ==> r.Go?)
            && (refreshed.Halt? ==> r == Halt(refreshed.w, refreshed.error))
  {
    var refreshed := Refresh(env, w, id);
    RefreshFinds(env, w, id);
    if id in w.builds { RefreshReports(env, w, id, rules); }
    if refreshed.Go? { CancelEnds(env, w, id, refreshed.w, refreshed.value); }
    hide *;
  }

  lemma RefreshFinds(env: Env, w: World, id: Id)
    ensures Refresh(env, w, id).Go? ==> id in w.builds
    ensures Refresh(env, w, id).Halt? ==> CancelPipeline(env, w, id) == Halt(Refresh(env, w, id).w, Refresh(env, w, id).error)
  {
    hide RefreshBuild, SetQueueState;
  }

  lemma CancelEnds(env: Env, w: World, id: Id, refreshed: World, build: Build)
    requires Refresh(env, w, id) == Go(refreshed, build)
    ensures var r := CancelPipeline(env, w, id);
            && (build.jenkinsBuildNumber.None? && build.jenkinsQueueId.None? ==> r == Halt(refreshed, Value))
            && (r.Go? ==> r.w.builds == refreshed.builds[build.id := build.(result := build.result.(status := Cancelled))])
            && (Calm(env) && (build.jenkinsBuildNumber.Some? || build.jenkinsQueueId.Some?) ==> r.Go?)
  {
    var cancelled := WithStatus(build, Cancelled);
    if Calm(env) {
      CalmDo(env, refreshed, Quiet);
      CalmDo(env, Tick(refreshed), SaveBuild(cancelled));
      var saved := Tick(Apply(Tick(refreshed), SaveBuild(cancelled)));
      CalmMove(env, saved, cancelled, QueueCancelled);
      CalmDo(env, SetQueueState(env, saved, cancelled, QueueCancelled).w, Quiet);
    }
    SaveStores(env, Tick(refreshed), cancelled);
    var saved := Do(env, Tick(refreshed), SaveBuild(cancelled));
    SetQueueBuilds(env, saved.w, cancelled);
    hide Calm, Refresh, SetQueueState;
  }

  lemma SetQueueBuilds(env: Env, w: World, build: Build)
    ensures SetQueueState(env, w, build, QueueCancelled).w.builds == w.builds
  {
  }

  // ---------------------------------------------------------------- reviews and triggers

  lemma ReviewReturns(env: Env, w: World, c: Completion, troubled: bool)
    requires Calm(env) && Inv(w, ANY) && c.buildId in w.builds
    ensures ProcessAiReview(env, w, c, troubled).Go?
  {
    BuildFacts(w, c.buildId, ANY);
    hide Inv, Calm, KeyOf, ProcessAiReview, LogFor, Attached, Reviews, ControlProgress.Blocks;
    if KeyOf(env, c) in w.runs {
      SettledReplay(env, w, c, troubled);
    } else if Live(c) {
      FreshReview(env, w, c, troubled);
    } else {
      FreshSkip(env, w, c, troubled);
    }
  }

  lemma CalmSavePair(env: Env, w: World, q: QueueItem, b: Build)
    requires Calm(env)
    ensures SavePair(env, w, q, b).Go?
  {
    CalmDo(env, w, SaveQueue(q));
    CalmDo(env, Tick(Apply(w, SaveQueue(q))), SaveBuild(b));
    hide Calm, Do;
  }

  lemma CalmStart(env: Env, w: World, repository: string, req: TriggerRequest)
    requires Calm(env)
    ensures StartNative(env, w, repository, req).Go?
  {
    var w2 := Tick(Tick(w));
    CalmDo(env, w, Quiet);
    CalmDo(env, Tick(w), Quiet);
    var e := StartPipeline(TriggerPost(w2.nextId, req.commitSha, req.baseSha, req.pullRequest));
    CalmDo(env, Allot(w2, 1), e);
    CalmRecordNative(env, Tick(Apply(Allot(w2, 1), e)), w2.nextId, env.replies(w2.clock).queueId, repository, req);
    hide RecordNative, Do, Calm;
  }

  lemma CalmRecordNative(env: Env, w: World, id: Id, jenkinsId: int, repository: string, req: TriggerRequest)
    requires Calm(env)
    ensures RecordNative(env, w, id, jenkinsId, repository, req).Go?
  {
    var queue, build := NativeQueue(w.nextId, id, jenkinsId, req), NativeBuild(id, w.nextId, jenkinsId, repository, req);
    CalmSavePair(env, Allot(w, 1), queue, build);
    var saved := SavePair(env, Allot(w, 1), queue, build).w;
    CalmPublish(env, saved, StatusPost(repository, req.commitSha, NativeCi, Pending, id));
    CalmDo(env, Publish(env, saved, StatusPost(repository, req.commitSha, NativeCi, Pending, id), 0).w, Quiet);
    hide Do, Calm, Publish, SavePair;
  }

  lemma CalmReviewReused(env: Env, w: World, repository: string, commitSha: string, build: Build)
    requires Calm(env) && Inv(w, ANY) && Reused(w, repository, commitSha, build)
    ensures ReviewReused(env, w, repository, commitSha, build).Go?
  {
    var success := StatusPost(repository, commitSha, NativeCi, Success, build.id);
    NativeAllowed(w, success, Passed, ANY);
    CalmPublish(env, w, success);
    PublishKeeps(env, w, success, 0, ANY);
    var p := Publish(env, w, success, 0);
    Later(w, p.w, ANY);
    QuietKeeps(env, p.w, ANY);
    QuietKeeps(env, Tick(p.w), ANY);
    CalmDo(env, p.w, Quiet);
    CalmDo(env, Tick(p.w), Quiet);
    var diff := Some(env.replies(Tick(p.w).clock).diff);
    ReviewReturns(env, Tick(Tick(p.w)), ReusedCompletion(build, diff), false);
    hide Calm, Inv, Publish, Do, ProcessAiReview, Decimal, Lower;
  }

  lemma CalmReuse(env: Env, w: World, repository: string, req: TriggerRequest, source: Build)
    requires Calm(env) && Inv(w, ANY) && Hits(w, repository, req, source)
    ensures ReuseNativeResult(env, w, repository, req, source).Go?
  {
    var queue, build := ReusedQueue(w.nextId + 1, w.nextId, req), ReusedBuild(w.nextId, w.nextId + 1, req, source);
    ReuseUnfolds(env, w, repository, req, source);
    assert Serial(ANY) && ANY.mayReuse;
    hide *;
    ReusedSaves(env, w, repository, req, source, ANY);
    CalmSavePair(env, Allot(w, 2), queue, build);
    var saved := SavePair(env, Allot(w, 2), queue, build);
    Later(w, saved.w, ANY);
    CalmReviewReused(env, saved.w, repository, req.commitSha, build);
  }

  /** When nothing raises, a trigger returns exactly when its repository is registered, and otherwise changes nothing. */
  lemma TriggerReturns(env: Env, w: World, req: TriggerRequest)
    requires Calm(env) && Inv(w, ANY)
    ensures var r := TriggerPipeline(env, w, req);
            if req.repositoryId in w.repositories then r.Go? else r == Halt(w.(clock := w.clock + 1), NotFound)
  {
    CalmDo(env, w, Quiet);
    CalmDo(env, Tick(w), Quiet);
    if req.repositoryId in w.repositories {
      var repository := w.repositories[req.repositoryId];
      CalmStart(env, Tick(w), repository, req);
      CalmStart(env, Tick(Tick(w)), repository, req);
      if Found(env, w, req).Some? {
        FoundHits(env, w, req, ANY);
        QuietKeeps(env, w, ANY);
        QuietKeeps(env, Tick(w), ANY);
        CalmReuse(env, Tick(Tick(w)), repository, req, Found(env, w, req).value);
      }
    }
    hide Calm, Inv, Do, StartNative, ReuseNativeResult, NewestReusable, BuildsBelow, Recent, Hits;
  }

  /** A retry triggers the stored build's repository, commit, base and pull request again; when nothing raises, it returns
      exactly when the build is stored. */
  lemma RetryTriggersAgain(env: Env, w: World, id: Id)
    requires Inv(w, ANY)
    ensures var r := RetryPipeline(env, w, id);
            && (r.Go? ==> id in w.builds)
            && (id in w.builds ==>
                  var b := w.builds[id];
                  var again := TriggerPipeline(env, w.(clock := w.clock + 1),
                                 TriggerRequest(b.repositoryId, b.result.commitSha, b.result.baseSha, b.result.pullRequest));
                  && (r.Go? ==> again.Go? && r.value == again.value && r.w == again.w.(clock := r.w.clock))
                  && (Calm(env) ==> r.Go?))
  {
    RetryIsTrigger(env, w, id);
    if id in w.builds {
      BuildFacts(w, id, ANY);
      QuietKeeps(env, w, ANY);
      if Calm(env) {
        var b := w.builds[id];
        var req := TriggerRequest(b.repositoryId, b.result.commitSha, b.result.baseSha, b.result.pullRequest);
        CalmGetBuild(env, w, id);
        TriggerReturns(env, Tick(w), req);
        CalmDo(env, TriggerPipeline(env, Tick(w), req).w, Quiet);
      }
    }
    hide Inv, Calm, Do, TriggerPipeline, GetBuild;
  }

  lemma RetryIsTrigger(env: Env, w: World, id: Id)
    ensures var r := RetryPipeline(env, w, id);
            && (r.Go? ==> id in w.builds)
            && (id in w.builds && r.Go? ==>
                  var b := w.builds[id];
                  var again := TriggerPipeline(env, w.(clock := w.clock + 1),
                                 TriggerRequest(b.repositoryId, b.result.commitSha, b.result.baseSha, b.result.pullRequest));
                  again.Go? && r.value == again.value && r.w == again.w.(clock := r.w.clock))
  {
    QuietReturns(env, w);
    hide TriggerPipeline;
  }

  // ---------------------------------------------------------------- the completion route

  /** When nothing raises, the completion route answers what `complete_build` answers, and accepts the completion exactly
      when that one returns; without a pull request the review has been made by then. */
  lemma CallbackReturns(env: Env, w: World, c: Completion)
    requires Calm(env) && Inv(w, ANY)
    ensures var r, completed := Callback(env, w, c), CompleteBuild(env, w, c);
            if completed.Halt? then r == Halt(completed.w, completed.error)
            else
              && r.Go? && r.value == completed.value
              && var accepted := completed.w.(accepted := completed.w.accepted + [c]);
                 r.w == if c.result.pullRequest.Some? then accepted else ProcessAiReview(env, accepted, c, false).w
  {
    CompleteKeeps(env, w, c, ANY);
    var completed := CompleteBuild(env, w, c);
    Later(w, completed.w, ANY);
    if completed.Go? {
      var accepted := Accept(completed.w, c);
      AcceptKeeps(completed.w, c, ANY);
      Later(completed.w, accepted, ANY);
      ReviewReturns(env, accepted, c, false);
      ReviewTries(env, accepted, c);
    }
    hide Inv, Good, Calm, CompleteBuild, ProcessAiReview, ProcessWithRetry;
  }
}
