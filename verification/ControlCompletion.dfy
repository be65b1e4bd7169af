/** Completions are recorded exactly once and converge, however often they are delivered. */
module ControlCompletion {
  import opened Text
  import opened Records
  import opened ControlPlane
  import opened ControlInvariants
  import opened ControlSafety
  import opened ControlRequests
  import opened ControlTheorems

  // ---------------------------------------------------------------- what one completion leaves

  /** What completions change in the store. */
  datatype Core = Core(builds: map<Id, Build>, queues: map<Id, QueueItem>, deliveries: seq<string>)

  function CoreOf(w: World): Core {
    Core(w.builds, w.queues, w.deliveries)
  }

  function QueueSet(queues: map<Id, QueueItem>, build: Build, state: QueueState): map<Id, QueueItem> {
    if build.queueItemId.None? || build.queueItemId.value !in queues then queues
    else
      var q := queues[build.queueItemId.value].(state := state);
      queues[q.id := q]
  }

  lemma QueueSaveFrame(env: Env, w: World, q: QueueItem)
    ensures var r := Do(env, w, SaveQueue(q));
            r.w == w.(queues := r.w.queues, clock := r.w.clock) && (r.Go? ==> r.w.queues == w.queues[q.id := q])
  {
  }

  /** Setting a queue state saves one queue item and nothing else. */
  lemma SetQueueFrame(env: Env, w: World, build: Build, state: QueueState)
    ensures var r := SetQueueState(env, w, build, state);
            && r.w == w.(queues := r.w.queues, clock := r.w.clock)
            && (r.Go? ==> r.w.queues == QueueSet(w.queues, build, state))
  {
    hide Do;
    if build.queueItemId.Some? {
      QuietFrame(env, w);
      if build.queueItemId.value in w.queues {
        QueueSaveFrame(env, Do(env, w, Quiet).w, w.queues[build.queueItemId.value].(state := state));
      }
    }
  }

  /** The completed build, its queue item and its delivery. */
  function Finished(core: Core, build: Build, c: Completion): Core {
    Core(core.builds, QueueSet(core.queues, build, QueueStateOf(c.result.status)), core.deliveries + [DeliveryId(c)])
  }

  lemma DeliverOnceLeaves(env: Env, w: World, build: Build, c: Completion)
    ensures var r := DeliverOnce(env, w, build, c);
            && r.w.builds == w.builds
            && (CoreOf(r.w) == CoreOf(w) || DeliveryId(c) in r.w.deliveries)
            && (DeliveryId(c) in w.deliveries ==> CoreOf(r.w) == CoreOf(w) && (r.Go? ==> !r.value))
            && (r.Go? && r.value ==> DeliveryId(c) !in w.deliveries && CoreOf(r.w) == Finished(CoreOf(w), build, c))
  {
    var delivered := Do(env, w, Deliver(DeliveryId(c)));
    SetQueueFrame(env, delivered.w, build, QueueStateOf(c.result.status));
    hide SetQueueState, DeliveryId, QueueSet;
  }

  lemma RecordLeaves(env: Env, w: World, build: Build, c: Completion)
    ensures var r := RecordCompletion(env, w, build, c);
            && r.w.builds == w.builds
            && (CoreOf(r.w) == CoreOf(w) || DeliveryId(c) in r.w.deliveries)
            && (DeliveryId(c) in w.deliveries ==> CoreOf(r.w) == CoreOf(w) && (r.Go? ==> !r.value))
            && (r.Go? && r.value ==> DeliveryId(c) !in w.deliveries && CoreOf(r.w) == Finished(CoreOf(w), build, c))
  {
    var state := if c.result.status == Passed then Success else Failure;
    var status := StatusPost(c.result.repository, c.result.commitSha, NativeCi, state, build.id);
    PublishOnlyPosts(env, w, status, 0);
    var p := Publish(env, w, status, 0);
    DeliverOnceLeaves(env, p.w, build, c);
    hide Publish, DeliverOnce, DeliveryId, QueueSet;
  }

  /** The store with the completion's build saved. */
  function WithBuild(core: Core, build: Build, c: Completion): Core {
    core.(builds := core.builds[build.id := CompletedBuild(build, c)])
  }

  /** Cut short before its save, or the save and what follows it. */
  lemma CompleteUnfolds(env: Env, w: World, c: Completion)
    requires c.buildId in w.builds
    ensures var r, completed := CompleteBuild(env, w, c), CompletedBuild(w.builds[c.buildId], c);
            var saved := Do(env, Tick(Tick(w)), SaveBuild(completed));
            || (CoreOf(r.w) == CoreOf(w) && (r.Go? ==> !r.value))
            || (r.Halt? && saved.Halt? && r.w == saved.w)
            || (saved.Go? && r == RecordCompletion(env, saved.w, completed, c))
  {
    hide RecordCompletion, DeliveryId, Recent, Matches, Terminal, CompletedBuild;
  }

  lemma SaveLeaves(env: Env, w: World, build: Build, c: Completion)
    ensures var saved := Do(env, Tick(Tick(w)), SaveBuild(CompletedBuild(build, c)));
            && saved.w.deliveries == w.deliveries
            && (CoreOf(saved.w) == CoreOf(w) || CoreOf(saved.w) == WithBuild(CoreOf(w), build, c))
            && (saved.Go? ==> CoreOf(saved.w) == WithBuild(CoreOf(w), build, c))
  {
  }

  /** Everything one call can leave: the store as it was, the store with the build saved, or a store that
      has the delivery.  An answer of true leaves exactly one of them. */
  lemma CompleteLeaves(env: Env, w: World, c: Completion)
    requires c.buildId in w.builds && w.builds[c.buildId].id == c.buildId
    ensures var r, build := CompleteBuild(env, w, c), w.builds[c.buildId];
            && (CoreOf(r.w) == CoreOf(w) || CoreOf(r.w) == WithBuild(CoreOf(w), build, c) || DeliveryId(c) in r.w.deliveries)
            && (DeliveryId(c) in w.deliveries ==>
                  (CoreOf(r.w) == CoreOf(w) || CoreOf(r.w) == WithBuild(CoreOf(w), build, c)) && (r.Go? ==> !r.value))
            && (r.Go? && r.value ==>
                  && DeliveryId(c) !in w.deliveries
                  && CoreOf(r.w) == Finished(WithBuild(CoreOf(w), build, c), CompletedBuild(build, c), c))
  {
    var build := w.builds[c.buildId];
    var saved := Do(env, Tick(Tick(w)), SaveBuild(CompletedBuild(build, c)));
    CompleteUnfolds(env, w, c);
    SaveLeaves(env, w, build, c);
    RecordLeaves(env, saved.w, CompletedBuild(build, c), c);
    hide CompleteBuild, RecordCompletion, DeliveryId, QueueSet, CompletedBuild, Do, Finished, WithBuild;
  }

  // ---------------------------------------------------------------- exactly once

  /** An answer of true means that the delivery was not there before and is there now. */
  lemma CompletedNow(env: Env, w: World, c: Completion, rules: Rules)
    requires Inv(w, rules)
    ensures var r := CompleteBuild(env, w, c);
            r.Go? && r.value ==> DeliveryId(c) !in w.deliveries && DeliveryId(c) in r.w.deliveries
  {
    CompletesStored(env, w, c);
    hide Inv, CompleteBuild, DeliveryId, QueueSet;
    if c.buildId in w.builds {
      BuildFacts(w, c.buildId, rules);
      CompleteLeaves(env, w, c);
      assert Finished(WithBuild(CoreOf(w), w.builds[c.buildId], c), CompletedBuild(w.builds[c.buildId], c), c).deliveries
             == w.deliveries + [DeliveryId(c)];
    }
  }

  lemma CompletesStored(env: Env, w: World, c: Completion)
    ensures CompleteBuild(env, w, c).Go? ==> c.buildId in w.builds
  {
    hide RecordCompletion, Recent, Matches;
  }

  /** What `complete_build` delivered stays delivered, whether or not the route that called it returns. */
  lemma CallbackDelivers(env: Env, w: World, c: Completion, id: string, rules: Rules)
    requires Serial(rules) && Inv(w, rules) && (rules.honest ==> Honest(c.result))
    ensures id in CompleteBuild(env, w, c).w.deliveries ==> id in Callback(env, w, c).w.deliveries
  {
    hide Inv, Good, CompleteBuild, ProcessWithRetry, Addressed, Audited;
    CompleteKeeps(env, w, c, rules);
    var completed := CompleteBuild(env, w, c);
    var w1 := completed.w;
    if completed.Go? && c.result.pullRequest.None? && id in w1.deliveries {
      Later(w, w1, rules);
      AcceptKeeps(w1, c, rules);
      Later(w1, Accept(w1, c), rules);
      AddressedNative(Accept(w1, c), c);
      RetryKeeps(env, Accept(w1, c), c, 0, rules);
      DeliveriesLater(Accept(w1, c), ProcessWithRetry(env, Accept(w1, c), c, 0).w, id, rules);
    }
  }

  lemma AddressedNative(w: World, c: Completion)
    requires c.result.pullRequest.None?
    ensures Addressed(w, c)
  {
  }

  lemma DeliveriesLater(w: World, w': World, id: string, rules: Rules)
    requires Good(w, w', rules) && id in w.deliveries
    ensures id in w'.deliveries
  {
    var i :| 0 <= i < |w.deliveries| && w.deliveries[i] == id;
    assert w'.deliveries[i] == id;
  }

  predicate Inserts(r: Res<bool>) {
    r.Go? && r.value
  }

  /** A delivery recorded by one request of a run is there before every later one. */
  lemma DeliveredBefore(env: Env, repositories: map<Id, string>, ops: seq<Op>, i: nat, j: nat)
    requires i < j < |ops| && ops[i].Complete?
    ensures Inserts(CompleteBuild(env, Run(env, repositories, ops[..i]), ops[i].completion)) ==>
              DeliveryId(ops[i].completion) in Run(env, repositories, ops[..j]).deliveries
  {
    var first, second := Run(env, repositories, ops[..i]), Run(env, repositories, ops[..j]);
    var after, c := Run(env, repositories, ops[..i + 1]), ops[i].completion;
    assert ops[..i + 1][..i] == ops[..i] && ops[..i + 1][i] == ops[i];
    assert after == Callback(env, first, c).w by { hide Callback; }
    assert ops[..j][..i + 1] == ops[..i + 1];
    hide Run, Inv, Good, Callback, CompleteBuild, DeliveryId;
    AnyRun(env, repositories, ops[..i]);
    RunEvolves(env, repositories, ops[..j], i + 1, ANY);
    CompletedNow(env, first, c, ANY);
    CallbackDelivers(env, first, c, DeliveryId(c), ANY);
    if DeliveryId(c) in after.deliveries {
      DeliveriesLater(after, second, DeliveryId(c), ANY);
    }
  }

  /** In any run `complete_build` answers true at most once per callback id, whatever part of the deliveries the
      duplicate check can see, whatever was cut off in between, and whether or not the route that called it
      went on to return. */
  lemma CompletesAtMostOnce(env: Env, repositories: map<Id, string>, ops: seq<Op>, i: nat, j: nat)
    requires i < j < |ops| && ops[i].Complete? && ops[j].Complete?
    requires ops[i].completion.callbackId == ops[j].completion.callbackId
    ensures !(Inserts(CompleteBuild(env, Run(env, repositories, ops[..i]), ops[i].completion))
              && Inserts(CompleteBuild(env, Run(env, repositories, ops[..j]), ops[j].completion)))
  {
    DeliveredBefore(env, repositories, ops, i, j);
    AnyRun(env, repositories, ops[..j]);
    CompletedNow(env, Run(env, repositories, ops[..j]), ops[j].completion, ANY);
    hide Run, Inv, CompleteBuild;
  }

  /** The native status of a completion is a success exactly for a passed result, whatever raises in between,
      and an answer of true means that it was published. */
  lemma CompletionPublishes(env: Env, w: World, build: Build, c: Completion)
    ensures var r := RecordCompletion(env, w, build, c);
            var state := if c.result.status == Passed then Success else Failure;
            var status := StatusPost(c.result.repository, c.result.commitSha, NativeCi, state, build.id);
            PostedOnly(r.w, |w.statuses|, status) && (r.Go? ==> status in r.w.statuses)
  {
    var state := if c.result.status == Passed then Success else Failure;
    var status := StatusPost(c.result.repository, c.result.commitSha, NativeCi, state, build.id);
    PublishPosts(env, w, status, 0, |w.statuses|);
    var p := Publish(env, w, status, 0);
    if p.Go? && p.value {
      DeliverPostsNothing(env, p.w, build, c);
    }
    hide Publish, DeliverOnce;
  }

  lemma DeliverPostsNothing(env: Env, w: World, build: Build, c: Completion)
    ensures DeliverOnce(env, w, build, c).w.statuses == w.statuses
  {
    var delivered := Do(env, w, Deliver(DeliveryId(c)));
    SetQueueFrame(env, delivered.w, build, QueueStateOf(c.result.status));
    hide SetQueueState, DeliveryId, QueueSet;
  }

  // ---------------------------------------------------------------- convergence

  /** The store after `n` calls with the same completion, whatever they answered. */
  function Attempts(env: Env, w: World, c: Completion, n: nat): World {
    if n == 0 then w else CompleteBuild(env, Attempts(env, w, c, n - 1), c).w
  }

  ghost predicate Progress(w: World, w': World, c: Completion)
    requires c.buildId in w.builds
  {
    || CoreOf(w') == CoreOf(w)
    || CoreOf(w') == WithBuild(CoreOf(w), w.builds[c.buildId], c)
    || DeliveryId(c) in w'.deliveries
  }

  predicate HasBuild(w: World, id: Id) {
    id in w.builds && w.builds[id].id == id
  }

  lemma CompletedTwice(w: World, w': World, c: Completion)
    requires HasBuild(w, c.buildId) && CoreOf(w') == WithBuild(CoreOf(w), w.builds[c.buildId], c)
    ensures HasBuild(w', c.buildId)
    ensures CompletedBuild(w'.builds[c.buildId], c) == CompletedBuild(w.builds[c.buildId], c)
    ensures WithBuild(CoreOf(w'), w'.builds[c.buildId], c) == CoreOf(w')
  {
    var build := CompletedBuild(w.builds[c.buildId], c);
    assert CompletedBuild(build, c) == build;
    assert w'.builds[c.buildId := build] == w'.builds;
  }

  lemma ProgressStep(env: Env, w: World, before: World, c: Completion)
    requires HasBuild(w, c.buildId) && HasBuild(before, c.buildId) && Progress(w, before, c)
    requires DeliveryId(c) !in before.deliveries
    ensures Progress(w, CompleteBuild(env, before, c).w, c)
  {
    hide CompleteBuild, DeliveryId, CompletedBuild, QueueSet, Finished;
    CompleteLeaves(env, before, c);
    if CoreOf(before) != CoreOf(w) {
      CompletedTwice(w, before, c);
    }
  }

  lemma NoProgressYet(w: World, c: Completion)
    requires c.buildId in w.builds
    ensures Progress(w, w, c)
  {
  }

  lemma DeliveredProgress(w: World, w': World, c: Completion)
    requires c.buildId in w.builds && DeliveryId(c) in w'.deliveries
    ensures Progress(w, w', c)
  {
  }

  lemma Named(w: World, id: Id, rules: Rules)
    requires Inv(w, rules) && id in w.builds
    ensures HasBuild(w, id)
  {
    BuildFacts(w, id, rules);
  }

  lemma AttemptProgress(env: Env, w: World, before: World, c: Completion, rules: Rules)
    requires Serial(rules) && Inv(w, rules) && Inv(before, rules) && (rules.honest ==> Honest(c.result))
    requires c.buildId in w.builds && c.buildId in before.builds && Progress(w, before, c)
    ensures var after := CompleteBuild(env, before, c).w;
            Inv(after, rules) && c.buildId in after.builds && Progress(w, after, c)
  {
    var after := CompleteBuild(env, before, c).w;
    hide *;
    CompleteKeeps(env, before, c, rules);
    Later(before, after, rules);
    BuildLater(before, after, c.buildId, rules);
    Named(w, c.buildId, rules);
    Named(before, c.buildId, rules);
    if DeliveryId(c) in before.deliveries {
      DeliveriesLater(before, after, DeliveryId(c), rules);
      DeliveredProgress(w, after, c);
    } else {
      ProgressStep(env, w, before, c);
    }
  }

  lemma {:induction false} AttemptsProgress(env: Env, w: World, c: Completion, n: nat, rules: Rules)
    requires Serial(rules) && Inv(w, rules) && c.buildId in w.builds && (rules.honest ==> Honest(c.result))
    ensures Inv(Attempts(env, w, c, n), rules) && c.buildId in Attempts(env, w, c, n).builds
    ensures Progress(w, Attempts(env, w, c, n), c)
  {
    hide Inv, Progress, CompleteBuild, Honest;
    if n == 0 {
      NoProgressYet(w, c);
    } else {
      AttemptsProgress(env, w, c, n - 1, rules);
      AttemptProgress(env, w, Attempts(env, w, c, n - 1), c, rules);
    }
  }

  /** Completion converges: after any number of calls that were cut off or whose status publication failed, a
      call that answers true leaves the builds, queue items and deliveries that it would have left at once. */
  lemma Converges(env: Env, w: World, c: Completion, n: nat, rules: Rules)
    requires Serial(rules) && Inv(w, rules) && c.buildId in w.builds && (rules.honest ==> Honest(c.result))
    ensures var last, build := CompleteBuild(env, Attempts(env, w, c, n), c), w.builds[c.buildId];
            last.Go? && last.value ==> CoreOf(last.w) == Finished(WithBuild(CoreOf(w), build, c), CompletedBuild(build, c), c)
  {
    var before := Attempts(env, w, c, n);
    AttemptsProgress(env, w, c, n, rules);
    BuildFacts(w, c.buildId, rules);
    BuildFacts(before, c.buildId, rules);
    hide Inv, CompleteBuild, DeliveryId, CompletedBuild, QueueSet, Finished, Attempts;
    CompleteLeaves(env, before, c);
    if CoreOf(before) == WithBuild(CoreOf(w), w.builds[c.buildId], c) {
      CompletedTwice(w, before, c);
    }
  }

  // ---------------------------------------------------------------- replays

  /** A delivery that the duplicate check can see changes nothing. */
  lemma VisibleReplayChangesNothing(env: Env, w: World, c: Completion)
    requires DeliveryId(c) in Recent(w.deliveries, env.window)
    ensures var r := CompleteBuild(env, w, c); r.w == w.(clock := r.w.clock) && (r.Go? ==> !r.value)
  {
    hide RecordCompletion, Matches, DeliveryId, Recent;
  }

  /** Without a window every recorded delivery is seen. */
  lemma EverythingIsVisible(env: Env, w: World, c: Completion)
    requires env.window.None? && DeliveryId(c) in w.deliveries
    ensures DeliveryId(c) in Recent(w.deliveries, env.window)
  {
  }

  /** With all deliveries listed, as the memory store does, a replay of a recorded completion changes nothing and
      answers false, wherever it comes in a run and whatever it raises. */
  lemma ReplayChangesNothing(env: Env, repositories: map<Id, string>, ops: seq<Op>, i: nat, j: nat)
    requires env.window.None? && i < j < |ops| && ops[i].Complete? && ops[j].Complete?
    requires ops[i].completion.callbackId == ops[j].completion.callbackId
    ensures var w := Run(env, repositories, ops[..j]);
            var r := CompleteBuild(env, w, ops[j].completion);
            Inserts(CompleteBuild(env, Run(env, repositories, ops[..i]), ops[i].completion)) ==>
              r.w == w.(clock := r.w.clock) && (r.Go? ==> !r.value)
  {
    var w := Run(env, repositories, ops[..j]);
    DeliveredBefore(env, repositories, ops, i, j);
    hide Run, CompleteBuild, Recent;
    if DeliveryId(ops[j].completion) in w.deliveries {
      EverythingIsVisible(env, w, ops[j].completion);
      VisibleReplayChangesNothing(env, w, ops[j].completion);
    }
  }

  /** A replay of a delivery that has left the listed window answers false when it returns, but saves its result
      again; it changes nothing exactly when the build already has the completion's result and policy. */
  lemma ForgottenReplayRewrites(env: Env, w: World, c: Completion, rules: Rules)
    requires Inv(w, rules) && c.buildId in w.builds
    requires DeliveryId(c) in w.deliveries && DeliveryId(c) !in Recent(w.deliveries, env.window)
    ensures var r, build := CompleteBuild(env, w, c), w.builds[c.buildId];
            && (CoreOf(r.w) == CoreOf(w) || CoreOf(r.w) == WithBuild(CoreOf(w), build, c))
            && (r.Go? ==> !r.value && CoreOf(r.w) == WithBuild(CoreOf(w), build, c))
            && (WithBuild(CoreOf(w), build, c) == CoreOf(w) <==> build.result == c.result && build.reviewPolicy == Some(c.review))
  {
    var build := w.builds[c.buildId];
    BuildFacts(w, c.buildId, rules);
    CompleteLeaves(env, w, c);
    SavedAgain(w, c);
    hide Inv, Good, CompleteBuild, DeliveryId, QueueSet, RecordCompletion, Do, CompletedBuild, Recent, WithBuild, CoreOf;
    if CompleteBuild(env, w, c).Go? {
      var saved := Do(env, Tick(Tick(w)), SaveBuild(CompletedBuild(build, c)));
      ForgottenUnfolds(env, w, c);
      SaveLeaves(env, w, build, c);
      RecordLeaves(env, saved.w, CompletedBuild(build, c), c);
    }
  }

  lemma SavedAgain(w: World, c: Completion)
    requires c.buildId in w.builds && w.builds[c.buildId].id == c.buildId
    ensures var build := w.builds[c.buildId];
            WithBuild(CoreOf(w), build, c) == CoreOf(w) <==> build.result == c.result && build.reviewPolicy == Some(c.review)
  {
    var build := w.builds[c.buildId];
    if CompletedBuild(build, c) == build {
      assert w.builds[build.id := build] == w.builds;
    } else {
      assert w.builds[build.id := CompletedBuild(build, c)][build.id] != w.builds[build.id];
    }
  }

  lemma ForgottenUnfolds(env: Env, w: World, c: Completion)
    requires c.buildId in w.builds && DeliveryId(c) !in Recent(w.deliveries, env.window) && CompleteBuild(env, w, c).Go?
    ensures var completed := CompletedBuild(w.builds[c.buildId], c);
            var saved := Do(env, Tick(Tick(w)), SaveBuild(completed));
            saved.Go? && CompleteBuild(env, w, c) == RecordCompletion(env, saved.w, completed, c)
  {
    hide RecordCompletion, DeliveryId, Recent, Matches, Terminal, CompletedBuild;
  }
}
