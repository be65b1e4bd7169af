/** What requests achieve when nothing raises, and how often calls are tried when something does. */
module ControlProgress {
  import opened Text
  import opened Records
  import opened Attachment
  import opened ControlPlane
  import opened ControlInvariants
  import opened ControlSafety
  import opened ControlRequests
  import opened ControlTheorems
  import UnifiedDiff
  import DiffConservation

  // ---------------------------------------------------------------- three tries

  /** A status is posted up to three times, again only after an upstream error; the answer is true exactly when one of the
      three calls returned, and false only after three upstream errors. */
  lemma PublishTries(env: Env, w: World, status: StatusPost)
    ensures var r := Publish(env, w, status, 0);
            var first := Do(env, w, PostStatus(status));
            var second := Do(env, first.w, PostStatus(status));
            var third := Do(env, second.w, PostStatus(status));
            var audit := Do(env, third.w, Quiet);
            if first.Go? then r == Go(first.w, true)
            else if first.error != Upstream then r == Halt(first.w, first.error)
            else if second.Go? then r == Go(second.w, true)
            else if second.error != Upstream then r == Halt(second.w, second.error)
            else if third.Go? then r == Go(third.w, true)
            else if third.error != Upstream then r == Halt(third.w, third.error)
            else if audit.Go? then r == Go(audit.w, false) else r == Halt(audit.w, audit.error)
  {
    hide Do;
    var first := Do(env, w, PostStatus(status));
    if first.Halt? && first.error == Upstream {
      var second := Do(env, first.w, PostStatus(status));
      assert Publish(env, w, status, 0) == Publish(env, first.w, status, 1);
      if second.Halt? && second.error == Upstream {
        assert Publish(env, first.w, status, 1) == Publish(env, second.w, status, 2);
        var third := Do(env, second.w, PostStatus(status));
        if third.Halt? && third.error == Upstream {
          assert Publish(env, second.w, status, 2) == Publish(env, third.w, status, 3);
        }
      }
    }
  }

  /** A review is tried up to three times, again after every error but a cancellation; the answer is true exactly when one
      of the tries returned. */
  lemma ReviewTries(env: Env, w: World, c: Completion)
    ensures var r := ProcessWithRetry(env, w, c, 0);
            var first := ProcessAiReview(env, w, c, false);
            var second := ProcessAiReview(env, first.w, c, false);
            var third := ProcessAiReview(env, second.w, c, false);
            var record := Do(env, third.w, Quiet);
            if first.Go? then r == Go(first.w, true)
            else if first.error == Stopped then r == Halt(first.w, Stopped)
            else if second.Go? then r == Go(second.w, true)
            else if second.error == Stopped then r == Halt(second.w, Stopped)
            else if third.Go? then r == Go(third.w, true)
            else if third.error == Stopped then r == Halt(third.w, Stopped)
            else if record.Go? then r == Go(record.w, false) else r == Halt(record.w, record.error)
  {
    hide Do, ProcessAiReview;
    var first := ProcessAiReview(env, w, c, false);
    if first.Halt? && first.error != Stopped {
      var second := ProcessAiReview(env, first.w, c, false);
      assert ProcessWithRetry(env, w, c, 0) == ProcessWithRetry(env, first.w, c, 1);
      if second.Halt? && second.error != Stopped {
        assert ProcessWithRetry(env, first.w, c, 1) == ProcessWithRetry(env, second.w, c, 2);
        var third := ProcessAiReview(env, second.w, c, false);
        if third.Halt? && third.error != Stopped {
          assert ProcessWithRetry(env, second.w, c, 2) == ProcessWithRetry(env, third.w, c, 3);
        }
      }
    }
  }

  // ---------------------------------------------------------------- errors that are caught

  /** A pull request's diff may be missing: an upstream or value error leaves none, and every other error escapes. */
  lemma DiffMayBeMissing(env: Env, w: World)
    ensures var r, reply := FetchDiff(env, w), env.replies(w.clock);
            if reply.fault == NoFault then r == Go(w.(clock := w.clock + 1), Some(reply.diff))
            else if reply.fault.e in {Upstream, Value} then r == Go(w.(clock := w.clock + 1), None)
            else r == Halt(w.(clock := w.clock + 1), reply.fault.e)
  {
  }

  /** A review that raises an upstream or value error, wherever it was, is recorded as failed from there; every other error
      escapes. */
  lemma ReviewErrorsAreRecorded(env: Env, w: World, c: Completion, run: ExtensionRun)
    requires c.review.enabled && c.result.pullRequest.Some? && c.result.baseSha.Some? && c.diff.Some? && env.hasBroker
    ensures var r, pending := ReviewRun(env, w, c, false, run), Publish(env, w, AiStatus(c, Pending), 0);
            if pending.Halt? then r == Halt(pending.w, pending.error)
            else
              var review := Review(env, pending.w, c, run, c.diff.value);
              if review.Go? then r.Go? && r.w == review.w
              else if review.error in {Upstream, Value} then r == RecordFailure(env, review.w, c, run)
              else r == Halt(review.w, review.error)
  {
    hide Publish, Review, RecordFailure;
  }

  // ---------------------------------------------------------------- calm environments

  /** Nothing raises. */
  ghost predicate Calm(env: Env) {
    forall t :: env.replies(t).fault == NoFault
  }

  lemma CalmDo(env: Env, w: World, e: Effect)
    requires Calm(env)
    ensures Do(env, w, e) == Go(Tick(Apply(w, e)), env.replies(w.clock))
  {
  }

  lemma CalmPublish(env: Env, w: World, s: StatusPost)
    requires Calm(env)
    ensures Publish(env, w, s, 0) == Go(Tick(Apply(w, PostStatus(s))), true)
  {
    CalmDo(env, w, PostStatus(s));
    hide Do, Calm;
  }

  lemma CalmGetBuild(env: Env, w: World, id: Id)
    requires Calm(env)
    ensures GetBuild(env, w, id) == if id in w.builds then Go(Tick(w), w.builds[id]) else Halt(Tick(w), NotFound)
  {
    CalmDo(env, w, Quiet);
    hide Do, Calm;
  }

  lemma CalmMove(env: Env, w: World, build: Build, state: QueueState)
    requires Calm(env)
    ensures var r := SetQueueState(env, w, build, state); r.Go? && r.w == w.(queues := r.w.queues, clock := r.w.clock)
  {
    CalmDo(env, w, Quiet);
    if build.queueItemId.Some? && build.queueItemId.value in w.queues {
      CalmDo(env, Tick(w), SaveQueue(w.queues[build.queueItemId.value].(state := state)));
    }
    hide Do, Calm;
  }

  // ---------------------------------------------------------------- completion

  /** The completion is of this build: build id, pull request, and up to case repository, commit and base. */
  predicate OfBuild(c: Completion, build: Build) {
    && c.result.buildId == Some(build.id) && c.result.pullRequest == build.result.pullRequest
    && UpToCase(c.result.repository, build.result.repository) && UpToCase(c.result.commitSha, build.result.commitSha)
    && UpToCase(if c.result.baseSha.None? then "" else c.result.baseSha.value,
                if build.result.baseSha.None? then "" else build.result.baseSha.value)
  }

  lemma MatchesExactly(build: Build, c: Completion)
    ensures Matches(build, c) <==> OfBuild(c, build)
  {
    LowerExactly(c.result.repository, build.result.repository);
    LowerExactly(c.result.commitSha, build.result.commitSha);
    LowerExactly(if c.result.baseSha.None? then "" else c.result.baseSha.value,
                 if build.result.baseSha.None? then "" else build.result.baseSha.value);
    assert Lower("") == "";
    hide Lower, UpToCase;
  }

  /** The delivery is among the listed ones: all of them, or the newest `window`. */
  ghost predicate Listed(deliveries: seq<string>, window: Option<nat>, id: string) {
    exists i :: 0 <= i < |deliveries| && (window.None? || |deliveries| - window.value <= i) && deliveries[i] == id
  }

  lemma ListedExactly(deliveries: seq<string>, window: Option<nat>, id: string)
    ensures id in Recent(deliveries, window) <==> Listed(deliveries, window, id)
  {
    var listed := Recent(deliveries, window);
    var skipped := |deliveries| - |listed|;
    if id in listed {
      var i :| 0 <= i < |listed| && listed[i] == id;
      assert deliveries[i + skipped] == id;
    }
    if Listed(deliveries, window, id) {
      var i :| 0 <= i < |deliveries| && (window.None? || |deliveries| - window.value <= i) && deliveries[i] == id;
      assert listed[i - skipped] == id;
    }
  }

  /** When nothing raises, a completion is refused exactly when its build is unknown, or is another, or the result is not
      final; a listed delivery is answered false and changes nothing; else the result and policy are saved, and the answer
      is true exactly for a delivery that was not recorded before, and is now. */
  lemma CompletesExactly(env: Env, w: World, c: Completion)
    requires Calm(env) && (c.buildId in w.builds ==> w.builds[c.buildId].id == c.buildId)
    ensures var r, delivery := CompleteBuild(env, w, c), "build-completion:" + c.callbackId;
            if c.buildId !in w.builds then r == Halt(w.(clock := w.clock + 1), NotFound)
            else if !OfBuild(c, w.builds[c.buildId]) || c.result.status !in {Passed, Failed, Cancelled} then
              r == Halt(w.(clock := w.clock + 1), Value)
            else if Listed(w.deliveries, env.window, delivery) then r == Go(w.(clock := w.clock + 2), false)
            else
              && r.Go? && (r.value <==> delivery !in w.deliveries)
              && r.w == w.(builds := w.builds[c.buildId := w.builds[c.buildId].(result := c.result, reviewPolicy := Some(c.review))],
                           deliveries := if r.value then w.deliveries + [delivery] else w.deliveries,
                           queues := r.w.queues, statuses := r.w.statuses, stored := r.w.stored, clock := r.w.clock)
  {
    CalmGetBuild(env, w, c.buildId);
    if c.buildId in w.builds {
      var build := w.builds[c.buildId];
      MatchesExactly(build, c);
      ListedExactly(w.deliveries, env.window, DeliveryId(c));
      CalmDo(env, Tick(w), Quiet);
      CalmSaved(env, w, build, c);
    }
    hide Do, Calm, GetBuild, RecordCompletion, Matches, OfBuild, Listed, Recent;
  }

  /** The save and what follows it. */
  lemma CalmSaved(env: Env, w: World, build: Build, c: Completion)
    requires Calm(env)
    ensures var completed := CompletedBuild(build, c);
            var saved := Do(env, Tick(Tick(w)), SaveBuild(completed));
            && saved.Go?
            && var r := RecordCompletion(env, saved.w, completed, c);
               && r.Go? && (r.value <==> DeliveryId(c) !in w.deliveries)
               && r.w == w.(builds := w.builds[build.id := completed],
                            deliveries := if r.value then w.deliveries + [DeliveryId(c)] else w.deliveries,
                            queues := r.w.queues, statuses := r.w.statuses, stored := r.w.stored, clock := r.w.clock)
  {
    var completed := CompletedBuild(build, c);
    CalmDo(env, Tick(Tick(w)), SaveBuild(completed));
    CalmRecord(env, Tick(Apply(Tick(Tick(w)), SaveBuild(completed))), completed, c);
    hide Do, Calm, RecordCompletion, DeliveryId;
  }

  lemma CalmRecord(env: Env, w: World, build: Build, c: Completion)
    requires Calm(env)
    ensures var r, delivery := RecordCompletion(env, w, build, c), DeliveryId(c);
            && r.Go? && (r.value <==> delivery !in w.deliveries)
            && r.w.deliveries == (if delivery in w.deliveries then w.deliveries else w.deliveries + [delivery])
            && r.w == w.(deliveries := r.w.deliveries, queues := r.w.queues, statuses := r.w.statuses, clock := r.w.clock)
  {
    var state := if c.result.status == Passed then Success else Failure;
    var status := StatusPost(c.result.repository, c.result.commitSha, NativeCi, state, build.id);
    CalmPublish(env, w, status);
    var w1 := Tick(Apply(w, PostStatus(status)));
    CalmDo(env, w1, Deliver(DeliveryId(c)));
    var w2 := Tick(Apply(w1, Deliver(DeliveryId(c))));
    CalmMove(env, w2, build, QueueStateOf(c.result.status));
    CalmDo(env, SetQueueState(env, w2, build, QueueStateOf(c.result.status)).w, Quiet);
    hide Do, Calm, Publish, SetQueueState, DeliveryId;
  }

  // ---------------------------------------------------------------- a fresh review

  /** Attaching saves the run with its log, and the build with the log attached. */
  lemma CalmAttach(env: Env, w: World, run: ExtensionRun, log: AIReviewLog, required: bool)
    requires Calm(env) && log.buildId in w.builds && w.builds[log.buildId].id == log.buildId && Holds(w, run)
    ensures var r := AttachReviewLog(env, w, run, log, required);
            && r.Go?
            && r.w == w.(runs := w.runs[run.key := WithLog(run, log)], stored := r.w.stored, clock := r.w.clock,
                         builds := w.builds[log.buildId := Attached(w.builds[log.buildId], run.id, log, required, env.logSize)])
  {
    var saved := WithLog(run, log);
    CalmDo(env, w, SaveRun(saved));
    var w1 := Tick(Apply(w, SaveRun(saved)));
    CalmGetBuild(env, w1, log.buildId);
    var build := Attached(w.builds[log.buildId], run.id, log, required, env.logSize);
    CalmDo(env, Tick(w1), SaveBuild(build));
    AttachedFields(w.builds[log.buildId], run.id, log, required, env.logSize);
    assert saved.key == run.key && saved.id == run.id;
    hide Do, Calm, GetBuild, WithLog, Attached;
  }

  /** What a review of the completion with this outcome leaves: its statuses posted, its review asked for, its run stored
      with its log, and the log attached to the build. */
  ghost predicate Leaves(env: Env, w: World, r: Res<()>, c: Completion, reviews: seq<ReviewPost>, states: seq<CiState>, run: ExtensionRun,
                         log: AIReviewLog, required: bool)
  {
    && r.Go? && c.buildId in w.builds
    && r.w.reviews == w.reviews + reviews
    && |r.w.statuses| == |w.statuses| + |states| && w.statuses <= r.w.statuses
    && (forall i :: 0 <= i < |states| ==>
          r.w.statuses[|w.statuses| + i] == StatusPost(c.result.repository, c.result.commitSha, AiReview, states[i], c.buildId))
    && r.w.runs == w.runs[run.key := run]
    && r.w.builds == w.builds[c.buildId := Attached(w.builds[c.buildId], run.id, log, required, env.logSize)]
    && r.w.queues == w.queues && r.w.deliveries == w.deliveries && r.w.accepted == w.accepted && r.w.triggers == w.triggers
  }

  /** The log of a review of the completion by the run `id`. */
  function LogFor(c: Completion, id: Id, outcome: Outcome, findings: seq<Finding>): AIReviewLog {
    AIReviewLog(c.buildId, id, c.result.repository, c.result.pullRequest, c.result.baseSha, c.result.commitSha, outcome, findings)
  }

  predicate Ready(w: World, c: Completion, run: ExtensionRun) {
    Holds(w, run) && c.buildId in w.builds && w.builds[c.buildId].id == c.buildId
  }

  lemma CalmFailure(env: Env, w: World, c: Completion, run: ExtensionRun)
    requires Calm(env) && Ready(w, c, run)
    ensures var log := LogFor(c, run.id, OutcomeFailed, []);
            Leaves(env, w, RecordFailure(env, w, c, run), c, [], [Failure],
                   ExtensionRun(run.id, run.key, RunFailed, Some(ExtensionOutput([], None, Some(log)))), log, true)
  {
    CalmPublish(env, w, AiStatus(c, Failure));
    var w1 := Tick(Apply(w, PostStatus(AiStatus(c, Failure))));
    var failed := run.(output := Some(ExtensionOutput([], None, None)), status := RunFailed);
    var log := ReviewLog(c, run, OutcomeFailed, []);
    CalmAttach(env, w1, failed, log, true);
    CalmDo(env, AttachReviewLog(env, w1, failed, log, true).w, Quiet);
    hide Do, Calm, Publish, AttachReviewLog, Attached;
  }

  lemma CalmSkip(env: Env, w: World, c: Completion, run: ExtensionRun)
    requires Calm(env) && Ready(w, c, run)
    ensures var log := LogFor(c, run.id, OutcomeSkipped, []);
            Leaves(env, w, Skip(env, w, c, run), c, [], [],
                   ExtensionRun(run.id, run.key, RunSkipped, Some(ExtensionOutput([], None, Some(log)))), log, false)
  {
    var skipped := run.(output := Some(ExtensionOutput([], None, None)), status := RunSkipped);
    var log := ReviewLog(c, run, OutcomeSkipped, []);
    CalmAttach(env, w, skipped, log, false);
    CalmDo(env, AttachReviewLog(env, w, skipped, log, false).w, Quiet);
    hide Do, Calm, AttachReviewLog, Attached;
  }

  /** Some finding has a severity that the policy calls critical. */
  ghost predicate Blocks(c: Completion, findings: seq<Finding>) {
    exists i :: 0 <= i < |findings| && findings[i].severity in c.review.criticalSeverities
  }

  lemma CalmSubmit(env: Env, w: World, c: Completion, run: ExtensionRun, diff: string, findings: seq<Finding>)
    requires Calm(env) && Ready(w, c, run)
    ensures var blocks := Blocks(c, findings);
            var log := LogFor(c, run.id, if blocks then OutcomeFailed else OutcomePassed, findings);
            Leaves(env, w, SubmitReview(env, w, c, run, diff, findings), c,
                   [ReviewPost(run.key, c.result.repository, c.result.commitSha, diff, findings)],
                   [if blocks then Failure else Success],
                   ExtensionRun(run.id, run.key, RunSucceeded, Some(ExtensionOutput(findings, Some(blocks), Some(log)))), log, true)
  {
    var blocks := HasCritical(findings, c.review.criticalSeverities);
    assert blocks == Blocks(c, findings);
    var w1 := Issue(w, ReviewPost(run.key, c.result.repository, c.result.commitSha, diff, findings));
    CalmDo(env, w1, Quiet);
    var status := AiStatus(c, if blocks then Failure else Success);
    CalmPublish(env, Tick(w1), status);
    var w2 := Tick(Apply(Tick(w1), PostStatus(status)));
    var log := ReviewLog(c, run, if blocks then OutcomeFailed else OutcomePassed, findings);
    var reviewed := Reviewed(run, findings, blocks, true);
    assert Holds(w2, reviewed) && w2.builds == w.builds && w2.runs == w.runs;
    CalmAttach(env, w2, reviewed, log, true);
    CalmDo(env, AttachReviewLog(env, w2, reviewed, log, true).w, Quiet);
    hide Do, Calm, Publish, AttachReviewLog, Attached, HasCritical, Blocks;
  }

  /** The diff and the broker's answer pass every check: size, format, model and prompt, and comment lines. */
  ghost predicate Passes(env: Env, c: Completion, diff: string, answer: BrokerReview) {
    && Utf8Length(diff) <= c.review.maxDiffBytes
    && UnifiedDiff.Parse(UnifiedDiff.SplitLines(diff)).Ok?
    && answer.model == env.model && answer.prompt == env.prompt
    && DiffConservation.OnAddedLines(diff, answer.findings)
  }

  lemma CalmAsk(env: Env, w: World, c: Completion, diff: string)
    requires Calm(env)
    ensures var r, answer := AskBroker(env, w, c, diff), env.replies(w.clock).review;
            if Passes(env, c, diff, answer) then r == Go(Tick(w), answer.findings)
            else r.Halt? && r.error == Value && (r.w == w || r.w == Tick(w))
  {
    CalmDo(env, w, Quiet);
    if UnifiedDiff.Parse(UnifiedDiff.SplitLines(diff)).Ok? {
      DiffConservation.ValidExactly(diff, env.replies(w.clock).review.findings);
    }
    hide Do, Calm, UnifiedDiff.Parse, UnifiedDiff.SplitLines, UnifiedDiff.ValidResult, DiffConservation.OnAddedLines, Utf8Length;
  }

  /** The review is made of GitHub: its prerequisites hold and the broker, asked by call `t`, answers acceptably. */
  ghost predicate Reviews(env: Env, t: nat, c: Completion, troubled: bool) {
    && c.result.baseSha.Some? && c.diff.Some? && env.hasBroker && !troubled
    && Passes(env, c, c.diff.value, env.replies(t).review)
  }

  /** How the review of an applicable completion by a run ends. */
  ghost predicate ReviewedBy(env: Env, w: World, r: Res<()>, t: nat, c: Completion, troubled: bool, id: Id, key: Key) {
    if Reviews(env, t, c, troubled) then
      var findings := env.replies(t).review.findings;
      var blocks := Blocks(c, findings);
      var log := LogFor(c, id, if blocks then OutcomeFailed else OutcomePassed, findings);
      Leaves(env, w, r, c, [ReviewPost(key, c.result.repository, c.result.commitSha, c.diff.value, findings)],
             [Pending, if blocks then Failure else Success],
             ExtensionRun(id, key, RunSucceeded, Some(ExtensionOutput(findings, Some(blocks), Some(log)))), log, true)
    else
      var log := LogFor(c, id, OutcomeFailed, []);
      Leaves(env, w, r, c, [], [Pending, Failure],
             ExtensionRun(id, key, RunFailed, Some(ExtensionOutput([], None, Some(log)))), log, true)
  }

  /** The pending status comes first, and the caller returns as the rest does. */
  lemma LeavesThen(env: Env, w: World, w': World, r: Res<()>, r': Res<()>, c: Completion, reviews: seq<ReviewPost>, state: CiState, run: ExtensionRun, log: AIReviewLog)
    requires w' == w.(statuses := w.statuses + [AiStatus(c, Pending)], clock := w'.clock)
    requires Leaves(env, w', r, c, reviews, [state], run, log, true) && (r.Go? ==> r'.Go? && r'.w == r.w)
    ensures Leaves(env, w, r', c, reviews, [Pending, state], run, log, true)
  {
    forall i | 0 <= i < 2
      ensures r.w.statuses[|w.statuses| + i] == StatusPost(c.result.repository, c.result.commitSha, AiReview, [Pending, state][i], c.buildId)
    {
      if i == 0 {
        assert r.w.statuses[|w.statuses|] == w'.statuses[|w.statuses|];
      } else {
        assert [state][0] == state && |w.statuses| + 1 == |w'.statuses| + 0;
      }
    }
    hide Attached;
  }

  lemma ReadyLater(w: World, w': World, c: Completion, run: ExtensionRun)
    requires Ready(w, c, run) && w'.runs == w.runs && w'.builds == w.builds
    ensures Ready(w', c, run)
  {
  }

  /** The review after its pending status is posted: asked and submitted, or recorded as failed. */
  lemma ReviewRunUnfolds(env: Env, w: World, c: Completion, troubled: bool, run: ExtensionRun, w1: World)
    requires Live(c) && Publish(env, w, AiStatus(c, Pending), 0) == Go(w1, true)
    ensures var r := ReviewRun(env, w, c, troubled, run);
            if c.result.baseSha.None? || c.diff.None? || !env.hasBroker || troubled then r == RecordFailure(env, w1, c, run)
            else
              var asked := AskBroker(env, w1, c, c.diff.value);
              if asked.Go? then
                var submitted := SubmitReview(env, asked.w, c, run, c.diff.value, asked.value);
                submitted.Go? ==> r.Go? && r.w == submitted.w
              else asked.error == Value ==> r == RecordFailure(env, asked.w, c, run)
  {
    hide Publish, RecordFailure, AskBroker, SubmitReview;
  }

  predicate Prepared(env: Env, c: Completion, troubled: bool) {
    c.result.baseSha.Some? && c.diff.Some? && env.hasBroker && !troubled
  }

  /** After the pending status: the state in which the review is submitted, or recorded as failed. */
  lemma PendingThen(env: Env, w: World, c: Completion, troubled: bool, run: ExtensionRun) returns (w': World)
    requires Calm(env) && Live(c)
    ensures w' == w.(statuses := w.statuses + [AiStatus(c, Pending)], clock := w'.clock)
    ensures var r := ReviewRun(env, w, c, troubled, run);
            if Reviews(env, w.clock + 1, c, troubled) then
              var submitted := SubmitReview(env, w', c, run, c.diff.value, env.replies(w.clock + 1).review.findings);
              submitted.Go? ==> r.Go? && r.w == submitted.w
            else r == RecordFailure(env, w', c, run)
  {
    var w1 := Tick(Apply(w, PostStatus(AiStatus(c, Pending))));
    assert w1 == w.(statuses := w.statuses + [AiStatus(c, Pending)], clock := w.clock + 1);
    assert Tick(w1) == w.(statuses := w.statuses + [AiStatus(c, Pending)], clock := w.clock + 2);
    assert Reviews(env, w.clock + 1, c, troubled) <==> Prepared(env, c, troubled) && Passes(env, c, c.diff.value, env.replies(w.clock + 1).review);
    CalmPublish(env, w, AiStatus(c, Pending));
    ReviewRunUnfolds(env, w, c, troubled, run, w1);
    hide ReviewRun, RecordFailure, AskBroker, SubmitReview, Publish, Calm, Passes, Reviews, Live, Tick, Apply, AiStatus;
    if Prepared(env, c, troubled) {
      CalmAsk(env, w1, c, c.diff.value);
      w' := AskBroker(env, w1, c, c.diff.value).w;
    } else {
      w' := w1;
    }
  }

  lemma CalmReviewRun(env: Env, w: World, c: Completion, troubled: bool, run: ExtensionRun)
    requires Calm(env) && Ready(w, c, run) && Live(c)
    ensures ReviewedBy(env, w, ReviewRun(env, w, c, troubled, run), w.clock + 1, c, troubled, run.id, run.key)
  {
    hide ReviewRun, RecordFailure, SubmitReview, Calm, Passes, Leaves, Ready, LogFor, Blocks, Live;
    var w' := PendingThen(env, w, c, troubled, run);
    ReadyLater(w, w', c, run);
    var r := ReviewRun(env, w, c, troubled, run);
    if Reviews(env, w.clock + 1, c, troubled) {
      var findings := env.replies(w.clock + 1).review.findings;
      var blocks, diff := Blocks(c, findings), c.diff.value;
      var log := LogFor(c, run.id, if blocks then OutcomeFailed else OutcomePassed, findings);
      CalmSubmit(env, w', c, run, diff, findings);
      LeavesThen(env, w, w', SubmitReview(env, w', c, run, diff, findings), r, c,
                 [ReviewPost(run.key, c.result.repository, c.result.commitSha, diff, findings)], if blocks then Failure else Success,
                 ExtensionRun(run.id, run.key, RunSucceeded, Some(ExtensionOutput(findings, Some(blocks), Some(log)))), log);
    } else {
      var log := LogFor(c, run.id, OutcomeFailed, []);
      CalmFailure(env, w', c, run);
      LeavesThen(env, w, w', r, r, c, [], Failure,
                 ExtensionRun(run.id, run.key, RunFailed, Some(ExtensionOutput([], None, Some(log)))), log);
    }
  }

  /** A review under a key without a run, when nothing raises: it goes to GitHub exactly when its prerequisites hold, the
      diff passes and the broker's answer does, and then leaves one review with the findings, a final failure exactly when
      one of them is critical, and the succeeded run with its log; otherwise it leaves a failed run, log and status. */
  lemma FreshReview(env: Env, w: World, c: Completion, troubled: bool)
    requires Calm(env) && c.review.enabled && c.result.pullRequest.Some? && KeyOf(env, c) !in w.runs
    requires c.buildId in w.builds && w.builds[c.buildId].id == c.buildId
    ensures ReviewedBy(env, w, ProcessAiReview(env, w, c, troubled), w.clock + 3, c, troubled, w.nextId, KeyOf(env, c))
  {
    assert Live(c);
    hide *;
    var run, w' := ClaimThen(env, w, c, troubled);
    CalmReviewRun(env, w', c, troubled, run);
    ReviewedEarlier(env, w, w', ReviewRun(env, w', c, troubled, run), w.clock + 3, c, troubled, run);
  }

  lemma ClaimThen(env: Env, w: World, c: Completion, troubled: bool) returns (run: ExtensionRun, w': World)
    requires Calm(env) && KeyOf(env, c) !in w.runs && c.buildId in w.builds && w.builds[c.buildId].id == c.buildId
    ensures run == ExtensionRun(w.nextId, KeyOf(env, c), RunRunning, None)
    ensures ProcessAiReview(env, w, c, troubled) == ReviewRun(env, w', c, troubled, run)
    ensures Ready(w', c, run) && ClaimedFor(w, w', run) && w'.clock == w.clock + 2
  {
    run := ExtensionRun(w.nextId, KeyOf(env, c), RunRunning, None);
    var w1 := Tick(w.(asked := w.asked + [Asked(KeyOf(env, c), Live(c))]));
    w' := Tick(Apply(Allot(w1, 1), SaveRun(run)));
    CalmDo(env, w.(asked := w.asked + [Asked(KeyOf(env, c), Live(c))]), Quiet);
    CalmDo(env, Allot(w1, 1), SaveRun(run));
    ClaimReviews(env, w1, c, troubled);
    hide ReviewRun, Claim, Replay, KeyOf, Do, Calm, Live;
  }

  /** The state differs by the claimed run alone. */
  predicate ClaimedFor(w: World, w': World, run: ExtensionRun) {
    w' == w.(asked := w'.asked, nextId := w'.nextId, clock := w'.clock, runs := w.runs[run.key := run])
  }

  lemma ReviewedEarlier(env: Env, w: World, w': World, r: Res<()>, t: nat, c: Completion, troubled: bool, run: ExtensionRun)
    requires ClaimedFor(w, w', run) && ReviewedBy(env, w', r, t, c, troubled, run.id, run.key)
    ensures ReviewedBy(env, w, r, t, c, troubled, run.id, run.key)
  {
    hide Passes, Blocks, LogFor, Attached;
  }

  /** A review that does not apply leaves, under a key without a run, a skipped run and log, and asks GitHub for nothing. */
  lemma FreshSkip(env: Env, w: World, c: Completion, troubled: bool)
    requires Calm(env) && !(c.review.enabled && c.result.pullRequest.Some?) && KeyOf(env, c) !in w.runs
    requires c.buildId in w.builds && w.builds[c.buildId].id == c.buildId
    ensures SkippedBy(env, w, ProcessAiReview(env, w, c, troubled), c, w.nextId, KeyOf(env, c))
  {
    assert !Live(c);
    hide *;
    var run, w' := ClaimThen(env, w, c, troubled);
    NotLiveSkips(env, w', c, troubled, run);
    CalmSkip(env, w', c, run);
    SkippedEarlier(env, w, w', Skip(env, w', c, run), c, run);
  }

  ghost predicate SkippedBy(env: Env, w: World, r: Res<()>, c: Completion, id: Id, key: Key) {
    var log := LogFor(c, id, OutcomeSkipped, []);
    Leaves(env, w, r, c, [], [], ExtensionRun(id, key, RunSkipped, Some(ExtensionOutput([], None, Some(log)))), log, false)
  }

  lemma NotLiveSkips(env: Env, w: World, c: Completion, troubled: bool, run: ExtensionRun)
    requires !Live(c)
    ensures ReviewRun(env, w, c, troubled, run) == Skip(env, w, c, run)
  {
  }

  lemma SkippedEarlier(env: Env, w: World, w': World, r: Res<()>, c: Completion, run: ExtensionRun)
    requires ClaimedFor(w, w', run)
    requires var log := LogFor(c, run.id, OutcomeSkipped, []);
             Leaves(env, w', r, c, [], [], ExtensionRun(run.id, run.key, RunSkipped, Some(ExtensionOutput([], None, Some(log)))), log, false)
    ensures SkippedBy(env, w, r, c, run.id, run.key)
  {
    hide LogFor, Attached;
  }

  /** The status that a deduplicated review publishes, told from the stored run. */
  function Deduplicated(run: ExtensionRun): CiState {
    match run.status
    case RunRunning => Pending
    case RunFailed => Failure
    case _ => if run.output.Some? && run.output.value.blocking == Some(true) then Failure else Success
  }

  /** A review under a key that has a run, when nothing raises: a settled run's log is attached to the build, an applicable
      review publishes what the run says, and one that does not apply takes up a running run and skips it. */
  lemma SettledReplay(env: Env, w: World, c: Completion, troubled: bool)
    requires Calm(env) && Inv(w, ANY) && KeyOf(env, c) in w.runs && c.buildId in w.builds
    ensures var r, run := ProcessAiReview(env, w, c, troubled), w.runs[KeyOf(env, c)];
            var live := c.review.enabled && c.result.pullRequest.Some?;
            && r.Go? && r.w.reviews == w.reviews
            && (run.status != RunRunning ==>
                  && r.w.runs == w.runs && LogOf(run).Some?
                  && r.w.builds == w.builds[c.buildId := Attached(w.builds[c.buildId], run.id, LogOf(run).value.(buildId := c.buildId), live, env.logSize)])
            && r.w.statuses == w.statuses + (if live then [StatusPost(c.result.repository, c.result.commitSha, AiReview, Deduplicated(run), c.buildId)] else [])
            && (run.status == RunRunning && live ==> r.w.runs == w.runs && r.w.builds == w.builds)
            && (run.status == RunRunning && !live ==> SkippedBy(env, w, r, c, run.id, run.key))
  {
    var key, run := KeyOf(env, c), w.runs[KeyOf(env, c)];
    RunFacts(w, key, ANY);
    BuildFacts(w, c.buildId, ANY);
    var w1 := Tick(w.(asked := w.asked + [Asked(key, Live(c))]));
    CalmDo(env, w.(asked := w.asked + [Asked(key, Live(c))]), Quiet);
    assert ProcessAiReview(env, w, c, troubled) == Replay(env, w1, c, troubled, run);
    hide Inv, KeyOf, Do, Calm, ProcessAiReview, SkippedBy, Replay, Attached;
    if run.status == RunRunning {
      RunningReplays(env, w, w1, c, troubled, run);
    } else {
      SettledReplays(env, w, w1, c, troubled, run);
    }
  }

  lemma RunningReplays(env: Env, w: World, w1: World, c: Completion, troubled: bool, run: ExtensionRun)
    requires Calm(env) && w1 == w.(asked := w1.asked, clock := w1.clock) && Ready(w, c, run) && w.runs[run.key] == run
    requires run.status == RunRunning && run.output.None?
    ensures var r := Replay(env, w1, c, troubled, run);
            && r.Go? && r.w.reviews == w.reviews
            && (if Live(c) then r.w.runs == w.runs && r.w.builds == w.builds && r.w.statuses == w.statuses + [AiStatus(c, Pending)]
                else SkippedBy(env, w, r, c, run.id, run.key) && r.w.statuses == w.statuses)
  {
    CalmPublish(env, w1, AiStatus(c, Pending));
    hide Calm, Publish, Attached, Skip, LogFor;
    if !Live(c) {
      NotLiveSkips(env, w1, c, troubled, run);
      CalmSkip(env, w1, c, run);
    }
  }

  lemma SettledReplays(env: Env, w: World, w1: World, c: Completion, troubled: bool, run: ExtensionRun)
    requires Calm(env) && w1 == w.(asked := w1.asked, clock := w1.clock) && Ready(w, c, run) && w.runs[run.key] == run
    requires run.status != RunRunning && LogOf(run).Some?
    ensures var r := Replay(env, w1, c, troubled, run);
            && r.Go? && r.w.reviews == w.reviews && r.w.runs == w.runs
            && r.w.builds == w.builds[c.buildId := Attached(w.builds[c.buildId], run.id, LogOf(run).value.(buildId := c.buildId), Live(c), env.logSize)]
            && r.w.statuses == w.statuses + (if Live(c) then [AiStatus(c, Deduplicated(run))] else [])
  {
    var log := LogOf(run).value.(buildId := c.buildId);
    CalmAttach(env, w1, run, log, Live(c));
    assert WithLog(run, log) == run && w.runs[run.key := run] == w.runs;
    assert ReplayState(run) == Deduplicated(run);
    var attached := AttachReviewLog(env, w1, run, log, Live(c));
    CalmPublish(env, attached.w, AiStatus(c, ReplayState(run)));
    hide Calm, Publish, AttachReviewLog, Attached, ReplayState, Deduplicated, Live, ReviewRun, WithLog;
  }
}
