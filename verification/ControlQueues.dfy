/** Whenever a request that finishes a build returns, the build's queue item says how it finished. */
module ControlQueues {
  import opened Text
  import opened Records
  import opened ControlPlane
  import opened ControlInvariants
  import opened ControlSafety
  import opened ControlRequests
  import opened ControlCompletion
  import ControlTheorems

  ghost predicate QueueIds(w: World) {
    forall id :: id in w.queues ==> w.queues[id].id == id
  }

  /** The build's queue item, if it is stored, is in this state. */
  predicate QueueSays(w: World, build: Build, state: QueueState) {
    build.queueItemId.Some? && build.queueItemId.value in w.queues ==> w.queues[build.queueItemId.value].state == state
  }

  /** The build's queue item, if it is stored, says how the build stands: cancelled, failed, or else started. */
  predicate QueueFollows(w: World, build: Build) {
    build.queueItemId.Some? && build.queueItemId.value in w.queues ==>
      var state := w.queues[build.queueItemId.value].state;
      && (state == QueueCancelled <==> build.result.status == Cancelled)
      && (state == QueueFailed <==> build.result.status == Failed)
      && (state == QueueStarted <==> build.result.status != Cancelled && build.result.status != Failed)
  }

  lemma SaysFollows(w: World, build: Build)
    ensures QueueSays(w, build, QueueStateOf(build.result.status)) <==> QueueFollows(w, build)
  {
  }

  /** A build that was still active and is now finished agrees with its queue item. */
  predicate Announced(r: Res<Build>) {
    r.Go? && Terminal(r.value.result.status) ==> QueueFollows(r.w, r.value)
  }

  lemma MovedSays(env: Env, w: World, build: Build, state: QueueState)
    requires QueueIds(w)
    ensures var r := SetQueueState(env, w, build, state); r.Go? ==> QueueSays(r.w, build, state)
  {
    SetQueueFrame(env, w, build, state);
    hide SetQueueState;
  }

  lemma SaveRefreshedSays(env: Env, w: World, build: Build)
    requires QueueIds(w)
    ensures Announced(SaveRefreshed(env, w, build))
  {
    var saved := Do(env, w, SaveBuild(build));
    if saved.Go? {
      var state := QueueStateOf(build.result.status);
      MovedSays(env, saved.w, build, state);
      SaysFollows(SetQueueState(env, saved.w, build, state).w, build);
    }
    hide SetQueueState, QueueFollows, QueueSays;
  }

  lemma RefreshEndedSays(env: Env, w: World, build: Build, state: JenkinsState)
    requires QueueIds(w)
    ensures Announced(RefreshEnded(env, w, build, state))
  {
    hide SaveRefreshed, Announced, Lower;
    var file := Do(env, w, Quiet);
    Silent(file.w, Upstream);
    if file.Go? {
      SaveRefreshedSays(env, file.w, WithStatus(build, StatusOf(state)));
      if file.value.artifact.ResultFile? {
        SaveRefreshedSays(env, file.w, build.(result := file.value.artifact.result));
      }
    } else {
      Silent(file.w, file.error);
    }
  }

  lemma Silent(w: World, e: Exn)
    ensures Announced(Halt(w, e))
  {
  }

  lemma RefreshRunningSays(env: Env, w: World, build: Build)
    requires QueueIds(w) && Active(build)
    ensures Announced(RefreshRunning(env, w, build))
  {
    hide RefreshEnded;
    var asked := Do(env, w, Quiet);
    if asked.Go? && asked.value.state.Some? {
      RefreshEndedSays(env, asked.w, build, asked.value.state.value);
    }
  }

  lemma SavedQueueIds(env: Env, w: World, build: Build)
    requires QueueIds(w)
    ensures QueueIds(SaveRefreshed(env, w, build).w)
  {
    var saved := Do(env, w, SaveBuild(build));
    SetQueueFrame(env, saved.w, build, QueueStateOf(build.result.status));
    SetQueueIds(env, saved.w, build, QueueStateOf(build.result.status));
    hide SetQueueState;
  }

  lemma SetQueueIds(env: Env, w: World, build: Build, state: QueueState)
    requires QueueIds(w)
    ensures QueueIds(SetQueueState(env, w, build, state).w)
  {
  }

  lemma RefreshQueuedSays(env: Env, w: World, build: Build)
    requires QueueIds(w) && Active(build)
    ensures Announced(RefreshQueued(env, w, build))
  {
    hide RefreshRunning, SaveRefreshed;
    var asked := Do(env, w, Quiet);
    if asked.Go? {
      SaveRefreshedSays(env, asked.w, WithStatus(build, Cancelled));
      var started := WithStatus(build.(jenkinsBuildNumber := asked.value.executable), Running);
      SavedQueueIds(env, asked.w, started);
      var saved := SaveRefreshed(env, asked.w, started);
      RefreshRunningSays(env, saved.w, started);
    }
  }

  /** A refresh that returns and gives a build its Jenkins number leaves its queue item as the build stands: started, if it
      is not failed or cancelled. */
  lemma NumberedFollows(env: Env, w: World, build: Build, rules: Rules)
    requires Inv(w, rules) && build.jenkinsBuildNumber.None?
    ensures var r := RefreshBuild(env, w, build); r.Go? && r.value.jenkinsBuildNumber.Some? ==> QueueFollows(r.w, r.value)
  {
    InvQueueIds(w, rules);
    hide RefreshQueued, Inv;
    if Active(build) {
      NumberedQueued(env, w, build);
    }
  }

  lemma NumberedQueued(env: Env, w: World, build: Build)
    requires QueueIds(w) && build.jenkinsBuildNumber.None?
    ensures var r := RefreshQueued(env, w, build); r.Go? && r.value.jenkinsBuildNumber.Some? ==> QueueFollows(r.w, r.value)
  {
    var asked := Do(env, w, Quiet);
    hide RefreshRunning, SaveRefreshed, QueueFollows;
    if asked.Go? {
      var started := WithStatus(build.(jenkinsBuildNumber := asked.value.executable), Running);
      SaveRefreshedFollows(env, asked.w, WithStatus(build, Cancelled));
      SaveRefreshedFollows(env, asked.w, started);
      SavedQueueIds(env, asked.w, started);
      var saved := SaveRefreshed(env, asked.w, started);
      if saved.Go? {
        RunningFollows(env, saved.w, started);
      }
    }
  }

  lemma SaveRefreshedFollows(env: Env, w: World, build: Build)
    requires QueueIds(w)
    ensures var r := SaveRefreshed(env, w, build); r.Go? ==> r.value == build && QueueFollows(r.w, build)
  {
    var saved := Do(env, w, SaveBuild(build));
    if saved.Go? {
      var state := QueueStateOf(build.result.status);
      MovedSays(env, saved.w, build, state);
      SaysFollows(SetQueueState(env, saved.w, build, state).w, build);
    }
    hide SetQueueState, QueueFollows, QueueSays;
  }

  lemma RunningFollows(env: Env, w: World, build: Build)
    requires QueueIds(w) && QueueFollows(w, build) && build.result.status == Running
    ensures var r := RefreshRunning(env, w, build); r.Go? ==> QueueFollows(r.w, r.value)
  {
    var asked := Do(env, w, Quiet);
    var file := Do(env, asked.w, Quiet);
    if asked.Go? && file.Go? && asked.value.state.Some? {
      SaveRefreshedFollows(env, file.w, WithStatus(build, StatusOf(asked.value.state.value)));
      if file.value.artifact.ResultFile? {
        SaveRefreshedFollows(env, file.w, build.(result := file.value.artifact.result));
      }
    }
    hide SaveRefreshed, Lower;
  }

  /** A refresh that finishes a build leaves its queue item failed, cancelled or started as the build is
      failed, cancelled or passed. */
  lemma RefreshAnnounces(env: Env, w: World, build: Build, rules: Rules)
    requires Inv(w, rules) && Active(build)
    ensures Announced(RefreshBuild(env, w, build))
  {
    InvQueueIds(w, rules);
    hide RefreshRunning, RefreshQueued, Inv;
    RefreshRunningSays(env, w, build);
    RefreshQueuedSays(env, w, build);
  }

  lemma InvQueueIds(w: World, rules: Rules)
    requires Inv(w, rules)
    ensures QueueIds(w)
  {
  }

  lemma RefreshKeepsId(env: Env, w: World, build: Build)
    ensures var r := RefreshBuild(env, w, build); r.Go? ==> r.value.id == build.id
  {
    hide Do, SetQueueState, Lower;
  }

  lemma CancelUnfolds(env: Env, w: World, id: Id)
    requires CancelPipeline(env, w, id).Go?
    ensures var refreshed := Refresh(env, w, id);
            && refreshed.Go?
            && var cancelled := WithStatus(refreshed.value, Cancelled);
               var saved := Do(env, Tick(refreshed.w), SaveBuild(cancelled));
               && saved.Go?
               && var moved := SetQueueState(env, saved.w, cancelled, QueueCancelled);
                  moved.Go? && CancelPipeline(env, w, id).w == Tick(moved.w)
  {
    hide Refresh, SetQueueState, WithStatus;
  }

  lemma SavedBuild(env: Env, w: World, build: Build)
    requires QueueIds(w) && Do(env, Tick(w), SaveBuild(build)).Go?
    ensures var saved := Do(env, Tick(w), SaveBuild(build)).w;
            QueueIds(saved) && build.id in saved.builds && saved.builds[build.id] == build
  {
  }

  lemma RefreshFinds(env: Env, w: World, id: Id, rules: Rules)
    requires Serial(rules) && Inv(w, rules) && (rules.honest ==> HonestEnv(env))
    ensures var r := Refresh(env, w, id); QueueIds(r.w) && (r.Go? ==> r.value.id == id)
  {
    RefreshKeeps(env, w, id, rules);
    Later(w, Refresh(env, w, id).w, rules);
    InvQueueIds(Refresh(env, w, id).w, rules);
    GetBuildKeeps(env, w, id, rules);
    var got := GetBuild(env, w, id);
    if got.Go? {
      RefreshKeepsId(env, got.w, got.value);
    }
    hide RefreshBuild, Inv, Good, GetBuild, QueueIds;
  }

  /** A cancellation that returns leaves the build and its queue item cancelled. */
  lemma CancelAnnounces(env: Env, w: World, id: Id, rules: Rules)
    requires Serial(rules) && Inv(w, rules) && (rules.honest ==> HonestEnv(env))
    ensures var r := CancelPipeline(env, w, id);
            r.Go? ==>
              id in r.w.builds && r.w.builds[id].result.status == Cancelled && QueueSays(r.w, r.w.builds[id], QueueCancelled)
  {
    RefreshFinds(env, w, id, rules);
    hide Inv, Refresh, SetQueueState, CancelPipeline, QueueIds, Do, HonestEnv;
    if CancelPipeline(env, w, id).Go? {
      CancelUnfolds(env, w, id);
      var refreshed := Refresh(env, w, id);
      var cancelled := WithStatus(refreshed.value, Cancelled);
      var saved := Do(env, Tick(refreshed.w), SaveBuild(cancelled));
      SavedBuild(env, refreshed.w, cancelled);
      SetQueueFrame(env, saved.w, cancelled, QueueCancelled);
      MovedSays(env, saved.w, cancelled, QueueCancelled);
    }
  }

  /** A completion that answers true leaves the build's queue item in the state of its result. */
  lemma CompletionAnnounces(env: Env, w: World, c: Completion, rules: Rules)
    requires Inv(w, rules) && c.buildId in w.builds
    ensures var r := CompleteBuild(env, w, c);
            r.Go? && r.value ==>
              c.buildId in r.w.builds && r.w.builds[c.buildId] == CompletedBuild(w.builds[c.buildId], c)
              && QueueFollows(r.w, r.w.builds[c.buildId])
  {
    BuildFacts(w, c.buildId, rules);
    InvQueueIds(w, rules);
    hide Inv, CompleteBuild, DeliveryId;
    CompleteLeaves(env, w, c);
    var r := CompleteBuild(env, w, c);
    if r.Go? && r.value {
      assert CoreOf(r.w) == Finished(WithBuild(CoreOf(w), w.builds[c.buildId], c), CompletedBuild(w.builds[c.buildId], c), c);
    }
  }

  /** The rest of the store, besides the completed build and its queue item. */
  ghost predicate Elsewhere(w: World, w': World, build: Build) {
    && w'.builds.Keys == w.builds.Keys && w'.queues.Keys == w.queues.Keys
    && (forall id :: id in w.builds && id != build.id ==> w'.builds[id] == w.builds[id])
    && (forall q :: q in w.queues && Some(q) != build.queueItemId ==> w'.queues[q] == w.queues[q])
  }

  /** Convergence in runs: wherever in a run `complete_build` answers true, after whatever refreshes, reviews, other
      completions and cut-off attempts, the build has the completion's result and policy, its queue item says
      so, one delivery more is recorded, and nothing else in the store has changed. */
  lemma ConvergesInRuns(env: Env, repositories: map<Id, string>, ops: seq<Op>, c: Completion)
    ensures var w := Run(env, repositories, ops);
            var r := CompleteBuild(env, w, c);
            Inserts(r) ==>
              && c.buildId in w.builds && c.buildId in r.w.builds
              && var build := r.w.builds[c.buildId];
                 && build == w.builds[c.buildId].(result := c.result, reviewPolicy := Some(c.review))
                 && QueueFollows(r.w, build)
                 && r.w.deliveries == w.deliveries + ["build-completion:" + c.callbackId]
                 && Elsewhere(w, r.w, build)
  {
    var w := Run(env, repositories, ops);
    ControlTheorems.AnyRun(env, repositories, ops);
    CompletesStored(env, w, c);
    assert DeliveryId(c) == "build-completion:" + c.callbackId;
    hide Run, Inv, CompleteBuild, DeliveryId, QueueIds;
    if c.buildId in w.builds {
      BuildFacts(w, c.buildId, ControlTheorems.ANY);
      InvQueueIds(w, ControlTheorems.ANY);
      CompletionAnnounces(env, w, c, ControlTheorems.ANY);
      CompleteLeaves(env, w, c);
      if Inserts(CompleteBuild(env, w, c)) {
        FinishedElsewhere(w, CompleteBuild(env, w, c).w, c);
      }
    }
    hide QueueFollows, Elsewhere;
  }

  lemma FinishedElsewhere(w: World, w': World, c: Completion)
    requires c.buildId in w.builds && w.builds[c.buildId].id == c.buildId && QueueIds(w)
    requires CoreOf(w') == Finished(WithBuild(CoreOf(w), w.builds[c.buildId], c), CompletedBuild(w.builds[c.buildId], c), c)
    ensures Elsewhere(w, w', CompletedBuild(w.builds[c.buildId], c))
    ensures w'.deliveries == w.deliveries + [DeliveryId(c)]
  {
    hide DeliveryId;
  }
}
