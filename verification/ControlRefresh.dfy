/** What a refresh that returns has made of the build, told from what Jenkins answered. */
module ControlRefresh {
  import opened Text
  import opened Records
  import opened ControlPlane
  import opened ControlInvariants
  import opened ControlSafety
  import opened ControlRequests
  import opened ControlCompletion
  import opened ControlTheorems

  /** The result file is one of this build. */
  predicate FileMatches(result: PipelineResult, build: Build) {
    && result.repository == build.result.repository && UpToCase(result.commitSha, build.result.commitSha)
    && result.pullRequest == build.result.pullRequest
  }

  /** The build after the Jenkins build was asked for by call `t`: unchanged when Jenkins does not know it, running
      while it builds, exactly the result file when there is one, and otherwise passed for a success, cancelled for an
      abort and failed for anything else. */
  ghost predicate Polled(env: Env, t: nat, before: Build, after: Build) {
    match env.replies(t).state
    case None => after == before
    case Some(state) =>
      if state == Building then after == before.(result := before.result.(status := Running))
      else
        match env.replies(t + 1).artifact
        case Unreadable => false
        case ResultFile(result) => FileMatches(result, before) && after == before.(result := result)
        case NoResult =>
          if state == Succeeded then after == before.(result := before.result.(status := Passed))
          else if state == Aborted then after == before.(result := before.result.(status := Cancelled))
          else after == before.(result := before.result.(status := Failed))
  }

  /** The calls that look up and save the build's queue item. */
  function QueueCalls(w: World, build: Build): nat {
    if build.queueItemId.None? then 0 else if build.queueItemId.value !in w.queues then 1 else 2
  }

  /** The build after a refresh whose first call is `t`. */
  ghost predicate Refreshed(env: Env, w: World, t: nat, before: Build, after: Build) {
    if before.result.status in {Passed, Failed, Cancelled} then after == before
    else if before.jenkinsBuildNumber.Some? then Polled(env, t, before, after)
    else if before.jenkinsQueueId.None? then after == before
    else if env.replies(t).queueCancelled then after == before.(result := before.result.(status := Cancelled))
    else if env.replies(t).executable.None? then after == before
    else
      Polled(env, t + 2 + QueueCalls(w, before),
             before.(jenkinsBuildNumber := env.replies(t).executable, result := before.result.(status := Running)), after)
  }

  /** The build as it is returned is the stored one, and no other build changed. */
  predicate Stores(w: World, before: Build, r: Res<Build>) {
    r.Go? ==>
      && r.value.id == before.id
      && r.w == w.(builds := w.builds[before.id := r.value], queues := r.w.queues, stored := r.w.stored, clock := r.w.clock)
      && r.w.queues.Keys == w.queues.Keys
  }

  predicate Holding(w: World, build: Build) {
    build.id in w.builds && w.builds[build.id] == build && forall id :: id in w.queues ==> w.queues[id].id == id
  }

  lemma Unchanged(w: World, build: Build, n: nat)
    requires Holding(w, build)
    ensures Stores(w, build, Go(w.(clock := n), build))
  {
    assert w.builds[build.id := build] == w.builds;
  }

  lemma SaveStores(env: Env, w: World, build: Build)
    ensures var r := Do(env, w, SaveBuild(build));
            r.Go? ==> r.w == w.(builds := w.builds[build.id := build], stored := w.stored + {(build.id, build.result.status)}, clock := w.clock + 1)
  {
  }

  lemma SaveRefreshedStores(env: Env, w: World, before: Build, build: Build)
    requires Holding(w, before) && build.id == before.id
    ensures var r := SaveRefreshed(env, w, build);
            Stores(w, before, r) && (r.Go? ==> r.value == build && r.w.clock == w.clock + 1 + QueueCalls(w, build))
  {
    var saved := Do(env, w, SaveBuild(build));
    SaveStores(env, w, build);
    var state := QueueStateOf(build.result.status);
    hide Do;
    if saved.Go? {
      SetQueueFrame(env, saved.w, build, state);
      SetQueueClock(env, saved.w, build, state);
    }
    hide SetQueueState;
  }

  lemma SetQueueClock(env: Env, w: World, build: Build, state: QueueState)
    ensures var r := SetQueueState(env, w, build, state); r.Go? ==> r.w.clock == w.clock + QueueCalls(w, build)
  {
  }

  lemma QuietReturns(env: Env, w: World)
    ensures var r := Do(env, w, Quiet); r.Go? ==> r.w == w.(clock := w.clock + 1) && r.value == env.replies(w.clock)
  {
  }

  lemma StoresEarlier(w: World, w': World, before: Build, r: Res<Build>)
    requires w' == w.(clock := w'.clock) && Stores(w', before, r)
    ensures Stores(w, before, r)
  {
  }

  /** The build that an ended Jenkins build leaves, unless its file is refused. */
  function Ending(env: Env, t: nat, build: Build, state: JenkinsState): Build {
    match env.replies(t).artifact
    case ResultFile(result) => build.(result := result)
    case _ => WithStatus(build, StatusOf(state))
  }

  lemma EndedUnfolds(env: Env, w: World, build: Build, state: JenkinsState)
    ensures var r := RefreshEnded(env, w, build, state);
            r.Go? ==>
              && !env.replies(w.clock).artifact.Unreadable?
              && (env.replies(w.clock).artifact.ResultFile? ==> FileMatches(env.replies(w.clock).artifact.result, build))
              && r == SaveRefreshed(env, w.(clock := w.clock + 1), Ending(env, w.clock, build, state))
  {
    QuietReturns(env, w);
    if env.replies(w.clock).artifact.ResultFile? {
      LowerExactly(env.replies(w.clock).artifact.result.commitSha, build.result.commitSha);
    }
    hide Do, SaveRefreshed, Lower, UpToCase;
  }

  lemma EndingPolled(env: Env, t: nat, build: Build)
    requires env.replies(t).state.Some? && env.replies(t).state.value != Building && !env.replies(t + 1).artifact.Unreadable?
    requires env.replies(t + 1).artifact.ResultFile? ==> FileMatches(env.replies(t + 1).artifact.result, build)
    ensures Polled(env, t, build, Ending(env, t + 1, build, env.replies(t).state.value))
  {
    hide FileMatches;
  }

  lemma RefreshEndedPolled(env: Env, w: World, build: Build)
    requires Holding(w, build) && env.replies(w.clock).state.Some? && env.replies(w.clock).state.value != Building
    ensures var r := RefreshEnded(env, w.(clock := w.clock + 1), build, env.replies(w.clock).state.value);
            Stores(w, build, r) && (r.Go? ==> Polled(env, w.clock, build, r.value))
  {
    var w1, w2, state := w.(clock := w.clock + 1), w.(clock := w.clock + 2), env.replies(w.clock).state.value;
    var after := Ending(env, w.clock + 1, build, state);
    assert after.id == build.id && Holding(w2, build);
    EndedUnfolds(env, w1, build, state);
    hide Ending, SaveRefreshed, RefreshEnded, Polled, FileMatches, Holding, Do;
    SaveRefreshedStores(env, w2, build, after);
    if RefreshEnded(env, w1, build, state).Go? {
      EndingPolled(env, w.clock, build);
    }
  }

  lemma RefreshRunningPolled(env: Env, w: World, build: Build)
    requires Holding(w, build)
    ensures var r := RefreshRunning(env, w, build);
            Stores(w, build, r) && (r.Go? ==> Polled(env, w.clock, build, r.value))
  {
    var w1 := w.(clock := w.clock + 1);
    QuietReturns(env, w);
    var asked := Do(env, w, Quiet);
    Unchanged(w, build, w.clock + 1);
    SaveStores(env, w1, WithStatus(build, Running));
    hide Do, RefreshEnded;
    if asked.Go? && asked.value.state.Some? && asked.value.state.value != Building {
      RefreshEndedPolled(env, w, build);
    }
  }

  lemma QueuedUnfolds(env: Env, w: World, build: Build)
    ensures var r, reply := RefreshQueued(env, w, build), env.replies(w.clock);
            var w1 := w.(clock := w.clock + 1);
            r.Go? ==>
              if reply.queueCancelled then r == SaveRefreshed(env, w1, build.(result := build.result.(status := Cancelled)))
              else if reply.executable.None? then r == Go(w1, build)
              else
                var started := build.(jenkinsBuildNumber := reply.executable, result := build.result.(status := Running));
                var saved := SaveRefreshed(env, w1, started);
                saved.Go? && r == RefreshRunning(env, saved.w, started)
  {
    QuietReturns(env, w);
    hide Do, SaveRefreshed, RefreshRunning;
  }

  lemma StoresThen(w: World, before: Build, mid: Res<Build>, r: Res<Build>)
    requires Stores(w, before, mid) && mid.Go? && Stores(mid.w, mid.value, r)
    ensures Stores(w, before, r)
  {
  }

  function Numbered(env: Env, t: nat, build: Build): Build {
    build.(jenkinsBuildNumber := env.replies(t).executable, result := build.result.(status := Running))
  }

  lemma NumberedReports(env: Env, w: World, w1: World, build: Build)
    requires Holding(w, build) && w1 == w.(clock := w.clock + 1)
    ensures var started := Numbered(env, w.clock, build);
            var saved := SaveRefreshed(env, w1, started);
            saved.Go? ==>
              var r := RefreshRunning(env, saved.w, started);
              Stores(w, build, r) && (r.Go? ==> Polled(env, w.clock + 2 + QueueCalls(w, build), started, r.value))
  {
    var started := Numbered(env, w.clock, build);
    assert started.id == build.id && Holding(w1, build) && QueueCalls(w1, started) == QueueCalls(w, build);
    SaveRefreshedStores(env, w1, build, started);
    var saved := SaveRefreshed(env, w1, started);
    hide Polled, RefreshRunning, SaveRefreshed, Numbered, QueueCalls;
    if saved.Go? {
      SavedHolding(env, w1, started);
      RefreshRunningPolled(env, saved.w, started);
      StoresEarlier(w, w1, build, saved);
      StoresThen(w, build, saved, RefreshRunning(env, saved.w, started));
    }
  }

  lemma RefreshQueuedReports(env: Env, w: World, build: Build)
    requires Holding(w, build) && Active(build) && build.jenkinsBuildNumber.None? && build.jenkinsQueueId.Some?
    ensures var r := RefreshQueued(env, w, build);
            Stores(w, build, r) && (r.Go? ==> Refreshed(env, w, w.clock, build, r.value))
  {
    var w1, cancelled := w.(clock := w.clock + 1), build.(result := build.result.(status := Cancelled));
    QueuedUnfolds(env, w, build);
    Unchanged(w, build, w.clock + 1);
    assert Holding(w1, build);
    SaveRefreshedStores(env, w1, build, cancelled);
    StoresEarlier(w, w1, build, SaveRefreshed(env, w1, cancelled));
    NumberedReports(env, w, w1, build);
    hide Polled, RefreshQueued, RefreshRunning, SaveRefreshed, QueueCalls, Holding;
  }

  lemma SavedHolding(env: Env, w: World, build: Build)
    requires SaveRefreshed(env, w, build).Go? && forall id :: id in w.queues ==> w.queues[id].id == id
    ensures Holding(SaveRefreshed(env, w, build).w, build)
  {
    var saved := Do(env, w, SaveBuild(build));
    SetQueueFrame(env, saved.w, build, QueueStateOf(build.result.status));
    hide SetQueueState;
  }

  /** A refresh that returns answers the stored build, refreshed by what Jenkins answered, and changes no other build. */
  lemma RefreshReports(env: Env, w: World, id: Id, rules: Rules)
    requires Inv(w, rules) && id in w.builds
    ensures var r := Refresh(env, w, id);
            Stores(w, w.builds[id], r) && (r.Go? ==> Refreshed(env, w, w.clock + 1, w.builds[id], r.value))
  {
    var build, w1 := w.builds[id], w.(clock := w.clock + 1);
    InvHolding(w, id, rules);
    QuietReturns(env, w);
    Unchanged(w, build, w.clock + 1);
    assert Holding(w1, build);
    hide Inv, Do, RefreshQueued, RefreshRunning, Polled;
    if Active(build) {
      RefreshRunningPolled(env, w1, build);
      if build.jenkinsBuildNumber.None? && build.jenkinsQueueId.Some? {
        RefreshQueuedReports(env, w1, build);
      }
    }
  }

  lemma InvHolding(w: World, id: Id, rules: Rules)
    requires Inv(w, rules) && id in w.builds
    ensures Holding(w, w.builds[id]) && w.builds[id].id == id
  {
  }

  /** In every run. */
  lemma RefreshReportsInRuns(env: Env, repositories: map<Id, string>, ops: seq<Op>, id: Id)
    ensures var w := Run(env, repositories, ops);
            var r := Refresh(env, w, id);
            id in w.builds ==>
              Stores(w, w.builds[id], r) && (r.Go? ==> Refreshed(env, w, w.clock + 1, w.builds[id], r.value))
  {
    hide *;
    AnyRun(env, repositories, ops);
    if id in Run(env, repositories, ops).builds {
      RefreshReports(env, Run(env, repositories, ops), id, ANY);
    }
  }
}
