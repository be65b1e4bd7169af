/** What the control plane promises over every run of requests, whatever raises and wherever it is cut off. */
module ControlTheorems {
  import opened Text
  import opened Records
  import opened Attachment
  import opened ControlPlane
  import opened ControlInvariants
  import opened ControlSafety
  import opened ControlRequests
  import UnifiedDiff
  import DiffConservation

  /** Nothing is assumed of the results that come in. */
  const ANY := Rules(false, true, true, true, false, None)

  /** Every result comes from the pipeline fold. */
  const FOLDED := Rules(true, true, true, true, false, None)

  lemma AnyRun(env: Env, repositories: map<Id, string>, ops: seq<Op>)
    ensures Inv(Run(env, repositories, ops), ANY)
  {
    RunKeeps(env, repositories, ops, ANY);
  }

  // ---------------------------------------------------------------- AI reviews

  /** At most one GitHub review is ever asked for under an idempotency key, counting requests that raised. */
  lemma ReviewedAtMostOnce(env: Env, repositories: map<Id, string>, ops: seq<Op>, i: nat, j: nat)
    requires i < j
    ensures var reviews := Run(env, repositories, ops).reviews;
            j < |reviews| ==> reviews[i].key != reviews[j].key
  {
    AnyRun(env, repositories, ops);
    hide Run;
  }

  /** The comment is on an added line of the review's diff, in the new range that the line's hunk declares. */
  ghost predicate InHunkRange(review: ReviewPost, comment: Finding) {
    var lines := UnifiedDiff.SplitLines(review.diff);
    && UnifiedDiff.Parse(lines).Ok?
    && exists k: nat ::
         && DiffConservation.AddedAt(lines, k, comment.path, comment.line)
         && var h := UnifiedDiff.MatchHeader(lines[DiffConservation.OpenHunk(lines[..k]).value]).value;
            h.newStart <= comment.line < h.newStart + h.newCount
  }

  /** Every comment of every review is there. */
  lemma CommentsOnAddedLines(env: Env, repositories: map<Id, string>, ops: seq<Op>, i: nat, j: nat)
    ensures var reviews := Run(env, repositories, ops).reviews;
            i < |reviews| && j < |reviews[i].comments| ==> InHunkRange(reviews[i], reviews[i].comments[j])
  {
    var w := Run(env, repositories, ops);
    AnyRun(env, repositories, ops);
    hide Run, Inv, InHunkRange;
    if i < |w.reviews| && j < |w.reviews[i].comments| {
      ReviewOnDiff(w, i);
      CommentPosition(w.reviews[i], j);
    }
  }

  lemma ReviewOnDiff(w: World, i: nat)
    requires Inv(w, ANY) && i < |w.reviews|
    ensures OnDiff(w.reviews[i])
  {
  }

  lemma CommentPosition(review: ReviewPost, j: nat)
    requires OnDiff(review) && j < |review.comments|
    ensures InHunkRange(review, review.comments[j])
  {
    var lines, comment := UnifiedDiff.SplitLines(review.diff), review.comments[j];
    assert UnifiedDiff.OnAddedLine(UnifiedDiff.Parse(lines).value, comment);
    hide UnifiedDiff.Parse, UnifiedDiff.SplitLines, DiffConservation.AddedAt, UnifiedDiff.MatchHeader, DiffConservation.OpenHunk;
    DiffConservation.NumbersAreAddedLines(lines, comment.path, comment.line);
    var k: nat :| DiffConservation.AddedAt(lines, k, comment.path, comment.line);
    DiffConservation.NumbersInRange(lines, k, comment.path, comment.line);
  }

  /** A build without a pull request never gets an AI-review status: it would still have none later. */
  lemma NativeBuildsGetNoReviewStatus(env: Env, repositories: map<Id, string>, ops: seq<Op>, k: nat, i: nat, id: Id)
    requires k <= |ops|
    ensures var before, after := Run(env, repositories, ops[..k]), Run(env, repositories, ops);
            id in before.builds && before.builds[id].result.pullRequest.None?
            && i < |after.statuses| && after.statuses[i].context == AiReview ==>
              after.statuses[i].buildId != id
  {
    AnyRun(env, repositories, ops);
    RunEvolves(env, repositories, ops, k, ANY);
    hide Run, Inv, Good, Lower;
    var before, after := Run(env, repositories, ops[..k]), Run(env, repositories, ops);
    if id in before.builds && i < |after.statuses| && after.statuses[i].context == AiReview {
      BuildLater(before, after, id, ANY);
      StatusHasBuild(after, i);
    }
  }

  lemma StatusHasBuild(w: World, i: nat)
    requires Inv(w, ANY) && i < |w.statuses| && w.statuses[i].context == AiReview
    ensures PullRequestBuild(w, w.statuses[i].buildId)
  {
  }

  /** A passed review is a published one: in every run, a stored log that passed belongs to a review that was
      asked of GitHub under its key, with the log's findings as its comments. */
  lemma PassedReviewWasPublished(env: Env, repositories: map<Id, string>, ops: seq<Op>, key: Key)
    ensures var w := Run(env, repositories, ops);
            key in w.runs && LogOf(w.runs[key]).Some? && LogOf(w.runs[key]).value.outcome == OutcomePassed ==>
              ReviewedAs(w, key, LogOf(w.runs[key]).value.findings)
  {
    AnyRun(env, repositories, ops);
    hide Run, Inv;
    if key in Run(env, repositories, ops).runs {
      RunFacts(Run(env, repositories, ops), key, ANY);
    }
    hide ReviewedAs;
  }

  /** The verdict of a submitted review: it publishes failure exactly when a finding has a critical severity,
      and it records a pass exactly when there is none and the success was published. */
  lemma ReviewVerdict(env: Env, w: World, c: Completion, run: ExtensionRun, diff: string, findings: seq<Finding>)
    requires Holds(w, run)
    ensures var r, critical := SubmitReview(env, w, c, run, diff, findings), HasCritical(findings, c.review.criticalSeverities);
            && PostedOnly(r.w, |w.statuses|, AiStatus(c, if critical then Failure else Success))
            && (r.Go? ==>
                  && run.key in r.w.runs && LogOf(r.w.runs[run.key]).Some?
                  && var outcome := LogOf(r.w.runs[run.key]).value.outcome;
                     && (critical ==> outcome == OutcomeFailed)
                     && (outcome == OutcomePassed ==> !critical && AiStatus(c, Success) in r.w.statuses))
  {
    var critical := HasCritical(findings, c.review.criticalSeverities);
    var status := AiStatus(c, if critical then Failure else Success);
    var w1 := Issue(w, ReviewPost(run.key, c.result.repository, c.result.commitSha, diff, findings));
    var posted := Do(env, w1, Quiet);
    DoPosts(env, w1, status, |w.statuses|);
    PublishPosts(env, posted.w, status, 0, |w.statuses|);
    PublishOnlyPosts(env, posted.w, status, 0);
    var p := Publish(env, posted.w, status, 0);
    if p.Go? {
      FinishVerdict(env, p.w, c, run, findings, critical, p.value);
    }
    hide Publish, FinishReview, HasCritical;
  }

  lemma FinishVerdict(env: Env, w: World, c: Completion, run: ExtensionRun, findings: seq<Finding>, blocking: bool, published: bool)
    requires Holds(w, run)
    ensures var r := FinishReview(env, w, c, run, findings, blocking, published);
            && r.w.statuses == w.statuses
            && (r.Go? ==>
                  && run.key in r.w.runs && LogOf(r.w.runs[run.key]).Some?
                  && LogOf(r.w.runs[run.key]).value.outcome == if blocking || !published then OutcomeFailed else OutcomePassed)
  {
    hide AttachReviewLog, Do;
    var log := ReviewLog(c, run, if blocking || !published then OutcomeFailed else OutcomePassed, findings);
    SettledRunSaved(env, w, Reviewed(run, findings, blocking, published), log, true);
    var attached := AttachReviewLog(env, w, Reviewed(run, findings, blocking, published), log, true);
    QuietFrame(env, attached.w);
  }

  lemma QuietFrame(env: Env, w: World)
    ensures var r := Do(env, w, Quiet); r.w == w.(clock := r.w.clock)
  {
  }

  lemma SettledRunSaved(env: Env, w: World, run: ExtensionRun, log: AIReviewLog, required: bool)
    requires Holds(w, run)
    ensures var r := AttachReviewLog(env, w, run, log, required);
            && r.w.statuses == w.statuses && r.w.reviews == w.reviews
            && (r.Go? ==> run.key in r.w.runs && r.w.runs[run.key] == WithLog(run, log))
  {
    var saved := Do(env, w, SaveRun(WithLog(run, log)));
    SaveRunFrame(env, w, WithLog(run, log));
    hide Attached, Do, GetBuild, WithLog;
    GetBuildFrame(env, saved.w, log.buildId);
    var got := GetBuild(env, saved.w, log.buildId);
    if got.Go? {
      SaveBuildFrame(env, got.w, Attached(got.value, run.id, log, required, env.logSize));
    }
  }

  lemma SaveRunFrame(env: Env, w: World, run: ExtensionRun)
    requires Holds(w, run)
    ensures var r := Do(env, w, SaveRun(run));
            r.w.statuses == w.statuses && r.w.reviews == w.reviews && (r.Go? ==> r.w.runs == w.runs[run.key := run])
  {
  }

  // ---------------------------------------------------------------- replays

  /** The state says what the stored log says. */
  predicate Agrees(run: ExtensionRun, state: CiState) {
    && (state == Pending <==> LogOf(run).None?)
    && (state == Failure <==> LogOf(run).Some? && LogOf(run).value.outcome == OutcomeFailed)
    && (state == Success <==> LogOf(run).Some? && LogOf(run).value.outcome == OutcomePassed)
  }

  /** The statuses from `n` on are all this one. */
  ghost predicate PostedOnly(w: World, n: nat, status: StatusPost) {
    n <= |w.statuses| && forall i :: n <= i < |w.statuses| ==> w.statuses[i] == status
  }

  lemma DoPosts(env: Env, w: World, status: StatusPost, n: nat)
    requires PostedOnly(w, n, status)
    ensures PostedOnly(Do(env, w, PostStatus(status)).w, n, status) && PostedOnly(Do(env, w, Quiet).w, n, status)
    ensures Do(env, w, PostStatus(status)).Go? ==> status in Do(env, w, PostStatus(status)).w.statuses
  {
  }

  /** Whatever raises, publishing posts copies of the one status, and at least one when it answers true. */
  lemma {:induction false} PublishPosts(env: Env, w: World, status: StatusPost, attempt: nat, n: nat)
    requires attempt <= STATUS_ATTEMPTS && PostedOnly(w, n, status)
    ensures PostedOnly(Publish(env, w, status, attempt).w, n, status)
    ensures var r := Publish(env, w, status, attempt); r.Go? && r.value ==> status in r.w.statuses
    decreases STATUS_ATTEMPTS - attempt
  {
    DoPosts(env, w, status, n);
    hide Do, PostedOnly;
    var r := Do(env, w, PostStatus(status));
    if attempt < STATUS_ATTEMPTS && r.Halt? && r.error == Upstream {
      PublishPosts(env, r.w, status, attempt + 1, n);
    }
  }

  lemma SaveAgain(env: Env, w: World, run: ExtensionRun)
    requires run.key in w.runs && w.runs[run.key] == run
    ensures var r := Do(env, w, SaveRun(run)); r.w == w.(clock := r.w.clock)
  {
    assert w.runs[run.key := run] == w.runs;
  }

  lemma GetBuildFrame(env: Env, w: World, id: Id)
    ensures var r := GetBuild(env, w, id); r.w == w.(clock := r.w.clock)
  {
  }

  lemma SaveBuildFrame(env: Env, w: World, b: Build)
    ensures var r := Do(env, w, SaveBuild(b)); r.w == w.(clock := r.w.clock, builds := r.w.builds, stored := r.w.stored)
  {
  }

  lemma AttachAgainFrame(env: Env, w: World, run: ExtensionRun, log: AIReviewLog, required: bool)
    requires run.key in w.runs && w.runs[run.key] == run && LogOf(run).Some?
    ensures var r := AttachReviewLog(env, w, run, log, required); r.w.runs == w.runs && r.w.statuses == w.statuses && r.w.reviews == w.reviews
  {
    SaveAgain(env, w, run);
    hide Attached, Do, GetBuild;
    var saved := Do(env, w, SaveRun(run));
    GetBuildFrame(env, saved.w, log.buildId);
    var got := GetBuild(env, saved.w, log.buildId);
    if got.Go? {
      SaveBuildFrame(env, got.w, Attached(got.value, run.id, log, required, env.logSize));
    }
  }

  lemma ReplayPosts(env: Env, w: World, c: Completion, troubled: bool, run: ExtensionRun)
    requires run.key in w.runs && w.runs[run.key] == run && Live(c)
    ensures var r := Replay(env, w, c, troubled, run);
            && r.w.runs == w.runs && r.w.reviews == w.reviews
            && PostedOnly(r.w, |w.statuses|, AiStatus(c, ReplayState(run)))
  {
    var status := AiStatus(c, ReplayState(run));
    hide AttachReviewLog, Publish, ReviewRun;
    if LogOf(run).None? {
      PublishPosts(env, w, status, 0, |w.statuses|);
      PublishOnlyPosts(env, w, status, 0);
    } else {
      var log := LogOf(run).value.(buildId := c.buildId);
      AttachAgainFrame(env, w, run, log, Live(c));
      var a := AttachReviewLog(env, w, run, log, Live(c));
      if a.Go? {
        PublishPosts(env, a.w, status, 0, |w.statuses|);
        PublishOnlyPosts(env, a.w, status, 0);
      }
    }
  }

  /** A deduplicated review leaves the stored run as it was, asks for no review, and publishes one state only. */
  lemma DeduplicatedPosts(env: Env, w: World, c: Completion, troubled: bool)
    requires Inv(w, ANY) && Live(c) && KeyOf(env, c) in w.runs
    ensures var r, run := ProcessAiReview(env, w, c, troubled), w.runs[KeyOf(env, c)];
            && r.w.runs == w.runs && r.w.reviews == w.reviews
            && PostedOnly(r.w, |w.statuses|, AiStatus(c, ReplayState(run)))
  {
    RunFacts(w, KeyOf(env, c), ANY);
    hide Inv, Replay, Claim, KeyOf, Live, ReplayState;
    var asked := Do(env, w.(asked := w.asked + [Asked(KeyOf(env, c), Live(c))]), Quiet);
    ReplayPosts(env, asked.w, c, troubled, w.runs[KeyOf(env, c)]);
  }

  lemma ReplayedStateAgrees(run: ExtensionRun)
    requires Recorded(run)
    ensures Agrees(run, ReplayState(run)) <==> run.status != RunSkipped
  {
  }

  /** Replay agrees with the record exactly when the record is not a skipped run: in every state of every run, what
      a deduplicated review publishes is what the stored log says - pending without a log, failure for failed,
      success for passed - if and only if the stored run was not skipped.  The run itself is left as it was. */
  lemma ReplayAgrees(env: Env, repositories: map<Id, string>, ops: seq<Op>, c: Completion, troubled: bool, i: nat)
    requires Live(c)
    ensures var w := Run(env, repositories, ops);
            var r := ProcessAiReview(env, w, c, troubled);
            KeyOf(env, c) in w.runs && |w.statuses| <= i < |r.w.statuses| ==>
              && r.w.runs == w.runs
              && r.w.statuses[i].context == AiReview && r.w.statuses[i].buildId == c.buildId
              && (Agrees(w.runs[KeyOf(env, c)], r.w.statuses[i].state) <==> w.runs[KeyOf(env, c)].status != RunSkipped)
  {
    var w := Run(env, repositories, ops);
    AnyRun(env, repositories, ops);
    hide Run, ProcessAiReview, Live, KeyOf, Inv, Agrees, ReplayState, Recorded;
    if KeyOf(env, c) in w.runs {
      RunFacts(w, KeyOf(env, c), ANY);
      DeduplicatedPosts(env, w, c, troubled);
      ReplayedStateAgrees(w.runs[KeyOf(env, c)]);
    }
  }

  /** So a policy that stays enabled for an identity never makes them disagree: a run is skipped only after a request
      under its key that had the review disabled or no pull request. */
  lemma EnabledReplayAgrees(env: Env, repositories: map<Id, string>, ops: seq<Op>, c: Completion, troubled: bool, i: nat)
    requires Live(c)
    ensures var w := Run(env, repositories, ops);
            var r := ProcessAiReview(env, w, c, troubled);
            KeyOf(env, c) in w.runs && Asked(KeyOf(env, c), false) !in w.asked && |w.statuses| <= i < |r.w.statuses| ==>
              Agrees(w.runs[KeyOf(env, c)], r.w.statuses[i].state)
  {
    var w := Run(env, repositories, ops);
    AnyRun(env, repositories, ops);
    hide Run, ProcessAiReview, Live, KeyOf, Inv, Agrees;
    ReplayAgrees(env, repositories, ops, c, troubled, i);
    if KeyOf(env, c) in w.runs {
      RunFacts(w, KeyOf(env, c), ANY);
    }
  }

  lemma SkipSkips(env: Env, w: World, c: Completion, run: ExtensionRun)
    requires Holds(w, run)
    ensures var r := Skip(env, w, c, run);
            r.Go? ==> run.key in r.w.runs && r.w.runs[run.key].status == RunSkipped && r.w.reviews == w.reviews
  {
    var skipped := run.(output := Some(ExtensionOutput([], None, None)), status := RunSkipped);
    SettledRunSaved(env, w, skipped, ReviewLog(c, run, OutcomeSkipped, []), false);
    hide AttachReviewLog;
  }

  lemma ReviewRunSkips(env: Env, w: World, c: Completion, run: ExtensionRun)
    requires !Live(c)
    ensures ReviewRun(env, w, c, false, run) == Skip(env, w, c, run)
  {
  }

  lemma ClaimSkips(env: Env, w: World, c: Completion)
    requires Inv(w, ANY) && !Live(c) && KeyOf(env, c) !in w.runs && Claim(env, w, c, false).Go?
    ensures var r := Claim(env, w, c, false);
            KeyOf(env, c) in r.w.runs && r.w.runs[KeyOf(env, c)].status == RunSkipped && r.w.reviews == w.reviews
  {
    hide Inv, Good, Claim, Skip, KeyOf, Unreviewed, ReviewRun, Live, Do;
    ClaimWins(env, w, c, ANY);
    ClaimReviews(env, w, c, false);
    var run := ExtensionRun(w.nextId, KeyOf(env, c), RunRunning, None);
    var claimed := Do(env, Allot(w, 1), SaveRun(run));
    ClaimIssuesNothing(env, w, run);
    if claimed.Go? {
      ReviewRunSkips(env, claimed.w, c, run);
      SkipSkips(env, claimed.w, c, run);
    }
  }

  lemma ClaimIssuesNothing(env: Env, w: World, run: ExtensionRun)
    ensures Do(env, Allot(w, 1), SaveRun(run)).w.reviews == w.reviews
  {
  }

  lemma FirstSkip(env: Env, w: World, c: Completion)
    requires Inv(w, ANY) && Addressed(w, c) && !Live(c) && KeyOf(env, c) !in w.runs && ProcessAiReview(env, w, c, false).Go?
    ensures var r := ProcessAiReview(env, w, c, false);
            && Inv(r.w, ANY) && r.w.reviews == w.reviews
            && KeyOf(env, c) in r.w.runs && r.w.runs[KeyOf(env, c)].status == RunSkipped
  {
    var key := KeyOf(env, c);
    ProcessKeeps(env, w, c, false, ANY);
    Later(w, ProcessAiReview(env, w, c, false).w, ANY);
    AskOnce(env, w, Asked(key, Live(c)), c, ANY);
    var asked := Do(env, w.(asked := w.asked + [Asked(key, Live(c))]), Quiet);
    hide Inv, Good, Replay, Claim, KeyOf, Live, Addressed;
    if asked.Go? {
      Later(w, asked.w, ANY);
      ClaimSkips(env, asked.w, c);
    }
  }

  /** The condition is needed: a pull request whose review was first skipped by a disabled policy is later
      reported as successfully reviewed, once the policy is enabled, although no review was ever asked for. */
  lemma SkippedReplaysAsSuccess(env: Env, w: World, disabled: Completion, enabled: Completion)
    requires Inv(w, ANY) && Addressed(w, disabled) && KeyOf(env, disabled) !in w.runs
    requires !Live(disabled) && Live(enabled) && KeyOf(env, enabled) == KeyOf(env, disabled)
    requires ProcessAiReview(env, w, disabled, false).Go?
    ensures var w1 := ProcessAiReview(env, w, disabled, false).w;
            var w2 := ProcessAiReview(env, w1, enabled, false).w;
            && w2.reviews == w.reviews
            && PostedOnly(w2, |w1.statuses|, AiStatus(enabled, Success))
            && KeyOf(env, enabled) in w2.runs && !Agrees(w2.runs[KeyOf(env, enabled)], Success)
  {
    FirstSkip(env, w, disabled);
    var w1 := ProcessAiReview(env, w, disabled, false).w;
    RunFacts(w1, KeyOf(env, enabled), ANY);
    DeduplicatedPosts(env, w1, enabled, false);
    hide Inv, ProcessAiReview, Live, KeyOf, PostedOnly;
  }

  // ---------------------------------------------------------------- audit artifacts

  /** A review that does not apply, because the policy disables it or there is no pull request, leaves the
      build with a log of its own whenever it returns: a stalled run is resumed and a shared one attached. */
  lemma SkippedReviewIsAudited(env: Env, repositories: map<Id, string>, ops: seq<Op>, i: nat)
    ensures var w := Run(env, repositories, ops);
            i < |w.accepted| && !Live(w.accepted[i]) && ProcessAiReview(env, w, w.accepted[i], false).Go? ==>
              Audited(ProcessAiReview(env, w, w.accepted[i], false).w, w.accepted[i].buildId)
  {
    var w := Run(env, repositories, ops);
    AnyRun(env, repositories, ops);
    hide Run, Inv, ProcessAiReview, Live, Audited;
    if i < |w.accepted| {
      AcceptedAddressed(w, i, ANY);
      ProcessKeeps(env, w, w.accepted[i], false, ANY);
    }
  }

  /** An answered callback without a pull request has stored that log. */
  lemma AnsweredCallbackIsAudited(env: Env, repositories: map<Id, string>, ops: seq<Op>, c: Completion)
    requires c.result.pullRequest.None?
    ensures var r := Callback(env, Run(env, repositories, ops), c); r.Go? ==> Audited(r.w, c.buildId)
  {
    AnyRun(env, repositories, ops);
    CallbackKeeps(env, Run(env, repositories, ops), c, ANY);
  }

  // ---------------------------------------------------------------- results

  /** Passed means passed: when every incoming result comes from the pipeline fold, no stored build is ever
      `passed` while it holds a required failed check. */
  lemma PassedMeansPassed(env: Env, repositories: map<Id, string>, ops: seq<Op>, id: Id)
    requires HonestEnv(env) && forall i :: 0 <= i < |ops| ==> HonestOp(ops[i])
    ensures var w := Run(env, repositories, ops);
            id in w.builds && w.builds[id].result.status == Passed ==> !RequiredFailure(w.builds[id].result.checks)
  {
    RunKeeps(env, repositories, ops, FOLDED);
    hide Inv, Run;
    if id in Run(env, repositories, ops).builds {
      BuildFacts(Run(env, repositories, ops), id, FOLDED);
    }
  }

  /** What the pipeline publishes is such a result. */
  lemma PipelineIsHonest(result: PipelineResult)
    requires FromPipeline(result)
    ensures Honest(result)
  {
  }

  predicate KeepsIdentity(before: Build, after: Build) {
    && Lower(after.result.repository) == Lower(before.result.repository)
    && Lower(after.result.commitSha) == Lower(before.result.commitSha)
    && after.result.pullRequest == before.result.pullRequest
    && (Terminal(before.result.status) ==> Terminal(after.result.status))
  }

  /** Lifecycle: a stored build stays stored, its repository and commit (up to case) and its pull request never
      change, and once it is passed, failed or cancelled it is never queued or running again. */
  lemma Lifecycle(env: Env, repositories: map<Id, string>, ops: seq<Op>, k: nat, id: Id)
    requires k <= |ops|
    ensures var w, w' := Run(env, repositories, ops[..k]), Run(env, repositories, ops);
            id in w.builds ==> id in w'.builds && KeepsIdentity(w.builds[id], w'.builds[id])
  {
    RunEvolves(env, repositories, ops, k, ANY);
    hide Run, Good, Lower, Terminal;
    if id in Run(env, repositories, ops[..k]).builds {
      BuildLater(Run(env, repositories, ops[..k]), Run(env, repositories, ops), id, ANY);
    }
  }

  /** A failed or cancelled queue item belongs to a finished build. */
  lemma EndedQueueItems(env: Env, repositories: map<Id, string>, ops: seq<Op>, id: Id)
    ensures var w := Run(env, repositories, ops);
            id in w.queues && Ended(w.queues[id].state) ==>
              w.queues[id].buildId in w.builds && Terminal(w.builds[w.queues[id].buildId].result.status)
  {
    AnyRun(env, repositories, ops);
    hide Run, Inv;
    var w := Run(env, repositories, ops);
    if id in w.queues && Ended(w.queues[id].state) {
      QueueFacts(w, id);
    }
  }

  lemma QueueFacts(w: World, id: Id)
    requires Inv(w, ANY) && id in w.queues && Ended(w.queues[id].state)
    ensures w.queues[id].buildId in w.builds && Terminal(w.builds[w.queues[id].buildId].result.status)
  {
  }
}
