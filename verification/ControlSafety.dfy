/** Every request of the control plane keeps the invariant, at every point where it may be cut off. */
module ControlSafety {
  import opened Text
  import opened Records
  import opened Attachment
  import opened ControlPlane
  import opened ControlInvariants
  import UnifiedDiff

  lemma GetBuildKeeps(env: Env, w: World, id: Id, rules: Rules)
    requires Inv(w, rules)
    ensures var r := GetBuild(env, w, id);
            && Good(w, r.w, rules)
            && (r.Go? ==> r.w == Tick(w) && id in w.builds && r.value == w.builds[id] && r.value.id == id)
  {
    DoKeeps(env, w, Quiet, rules);
    if id in w.builds {
      BuildFacts(w, id, rules);
    }
    hide Inv, Good;
  }

  predicate OnlyPosted(w: World, w': World) {
    w' == w.(statuses := w'.statuses, clock := w'.clock)
  }

  lemma DoOnlyPosts(env: Env, w: World, status: StatusPost)
    ensures OnlyPosted(w, Do(env, w, PostStatus(status)).w) && OnlyPosted(w, Do(env, w, Quiet).w)
  {
  }

  /** Publishing a status changes nothing but the history of statuses. */
  lemma {:induction false} PublishOnlyPosts(env: Env, w: World, status: StatusPost, attempt: nat)
    requires attempt <= STATUS_ATTEMPTS
    ensures OnlyPosted(w, Publish(env, w, status, attempt).w)
    decreases STATUS_ATTEMPTS - attempt
  {
    DoOnlyPosts(env, w, status);
    hide Do;
    var r := Do(env, w, PostStatus(status));
    if attempt < STATUS_ATTEMPTS && r.Halt? && r.error == Upstream {
      PublishOnlyPosts(env, r.w, status, attempt + 1);
    }
  }

  lemma {:induction false} PublishKeeps(env: Env, w: World, status: StatusPost, attempt: nat, rules: Rules)
    requires attempt <= STATUS_ATTEMPTS && Inv(w, rules) && Allowed(w, PostStatus(status), rules)
    ensures Good(w, Publish(env, w, status, attempt).w, rules)
    decreases STATUS_ATTEMPTS - attempt
  {
    hide Inv, Good;
    DoKeeps(env, w, Quiet, rules);
    hide Allowed;
    DoKeeps(env, w, PostStatus(status), rules);
    var r := Do(env, w, PostStatus(status));
    if attempt < STATUS_ATTEMPTS && r.Halt? && r.error == Upstream {
      Later(w, r.w, rules);
      StatusLater(w, r.w, status, rules);
      hide Do;
      PublishKeeps(env, r.w, status, attempt + 1, rules);
      GoodThen(w, r.w, Publish(env, r.w, status, attempt + 1).w, rules);
    }
  }

  lemma GoodGrows(w: World, w': World, rules: Rules)
    requires Good(w, w', rules)
    ensures Grows(w, w')
  {
    hide Inv, Lower;
  }

  lemma StatusLater(w: World, w': World, status: StatusPost, rules: Rules)
    requires Good(w, w', rules) && Allowed(w, PostStatus(status), rules)
    ensures Allowed(w', PostStatus(status), rules)
  {
    GoodGrows(w, w', rules);
    StatusGrows(w, w', status);
    assert w.reviews <= w'.reviews by { hide StatusOk; }
    NewStatusLater(w, w', status, rules);
    hide Good, StatusOk, NewStatus;
  }

  // ---------------------------------------------------------------- attaching

  lemma AttachedStep(build: Build, runId: Id, log: AIReviewLog, required: bool, size: AIReviewLog -> nat)
    ensures BuildStep(build, Attached(build, runId, log, required, size))
    ensures Honest(build.result) ==> Honest(Attached(build, runId, log, required, size).result)
  {
    if Honest(build.result) {
      AttachedStaysHonest(build, Attach(runId, log, required), size);
    }
    hide RequiredFailure, Lower, OtherChecks, OtherArtifacts, OtherRuns;
  }

  lemma AttachKeeps(env: Env, w: World, run: ExtensionRun, log: AIReviewLog, required: bool, rules: Rules)
    requires Inv(w, rules) && Allowed(w, SaveRun(WithLog(run, log)), rules)
    ensures var r := AttachReviewLog(env, w, run, log, required);
            && Good(w, r.w, rules)
            && (r.Go? ==> log.buildId in r.w.builds && r.w.builds[log.buildId].reviewLog == Some(log))
            && (r.Go? ==> r.w.runs == Apply(w, SaveRun(WithLog(run, log))).runs)
  {
    hide Inv, Good, Allowed, WithLog, Attached;
    DoKeeps(env, w, SaveRun(WithLog(run, log)), rules);
    var saved := Do(env, w, SaveRun(WithLog(run, log)));
    Later(w, saved.w, rules);
    if saved.Go? {
      GetBuildKeeps(env, saved.w, log.buildId, rules);
      var got := GetBuild(env, saved.w, log.buildId);
      Later(saved.w, got.w, rules);
      GoodThen(w, saved.w, got.w, rules);
      if got.Go? {
        var build := Attached(got.value, run.id, log, required, env.logSize);
        AttachedAllowed(got.w, got.value, run.id, log, required, env.logSize, rules);
        DoKeeps(env, got.w, SaveBuild(build), rules);
        GoodThen(w, got.w, Do(env, got.w, SaveBuild(build)).w, rules);
        AttachedFields(got.value, run.id, log, required, env.logSize);
      }
    }
  }

  lemma AttachedFields(build: Build, runId: Id, log: AIReviewLog, required: bool, size: AIReviewLog -> nat)
    ensures Attached(build, runId, log, required, size).id == build.id
    ensures Attached(build, runId, log, required, size).reviewLog == Some(log)
  {
  }

  lemma ReviewCheckDropped(checks: seq<CheckResult>, log: AIReviewLog, required: bool)
    ensures OtherChecks(OtherChecks(checks) + [ReviewCheck(log, required)]) == OtherChecks(checks)
  {
    KeepChecks(OtherChecks(checks));
    var all := OtherChecks(checks) + [ReviewCheck(log, required)];
    assert all[..|all| - 1] == OtherChecks(checks);
  }

  lemma ReviewArtifactDropped(artifacts: seq<Artifact>, log: AIReviewLog, size: nat)
    ensures OtherArtifacts(OtherArtifacts(artifacts) + [ReviewArtifact(log, size)]) == OtherArtifacts(artifacts)
  {
    KeepArtifacts(OtherArtifacts(artifacts));
    var all := OtherArtifacts(artifacts) + [ReviewArtifact(log, size)];
    assert all[..|all| - 1] == OtherArtifacts(artifacts);
  }

  lemma AttachedIsAttached(build: Build, runId: Id, log: AIReviewLog, required: bool, size: AIReviewLog -> nat)
    requires log.buildId == build.id
    ensures OnlyAttached(build, Attached(build, runId, log, required, size))
  {
    ReviewCheckDropped(build.result.checks, log, required);
    ReviewArtifactDropped(build.result.artifacts, log, size(log));
    hide OtherChecks, OtherArtifacts, OtherRuns, ReviewCheck, ReviewArtifact;
  }

  lemma AttachedAllowed(w: World, build: Build, runId: Id, log: AIReviewLog, required: bool, size: AIReviewLog -> nat, rules: Rules)
    requires Inv(w, rules) && build.id in w.builds && w.builds[build.id] == build && log.buildId == build.id
    ensures Allowed(w, SaveBuild(Attached(build, runId, log, required, size)), rules)
  {
    AttachedStep(build, runId, log, required, size);
    AttachedFields(build, runId, log, required, size);
    AttachedIsAttached(build, runId, log, required, size);
    BuildFacts(w, build.id, rules);
    hide Inv, Attached, BuildStep, Honest, OnlyAttached;
  }

  // ---------------------------------------------------------------- AI review

  /** The run is the stored one under its key, so that saving it again replaces it. */
  predicate Holds(w: World, run: ExtensionRun) {
    run.key in w.runs && w.runs[run.key].id == run.id
  }

  /** The completion is for a stored pull-request build of its own repository and commit. */
  predicate Reviewable(w: World, c: Completion) {
    PullRequestBuild(w, c.buildId) && SameCommit(c.result.repository, c.result.commitSha, w.builds[c.buildId])
  }

  predicate Addressed(w: World, c: Completion) {
    c.result.pullRequest.Some? ==> Reviewable(w, c)
  }

  predicate About(rules: Rules, c: Completion) {
    rules.about == None || rules.about == Some(c)
  }

  lemma ReviewableLater(w: World, w': World, c: Completion, rules: Rules)
    requires Good(w, w', rules) && Reviewable(w, c)
    ensures Reviewable(w', c)
  {
    BuildLater(w, w', c.buildId, rules);
    hide Lower;
  }

  /** An AI-review status of a reviewable completion may be published; a success needs something to stand for. */
  lemma AiAllowed(w: World, c: Completion, state: CiState, rules: Rules)
    requires About(rules, c) && Reviewable(w, c)
    requires state == Success ==>
               || ReviewedFor(w, c.result.repository, c.result.commitSha)
               || (!rules.strict && IdleFor(w, c.result.repository, c.result.commitSha))
    ensures Allowed(w, PostStatus(AiStatus(c, state)), rules)
  {
    hide ReviewedFor, IdleFor, Lower;
  }

  lemma KeyNames(env: Env, c: Completion)
    ensures Names(KeyOf(env, c), c.result.repository, c.result.commitSha)
  {
  }

  lemma HoldsLater(w: World, w': World, run: ExtensionRun, rules: Rules)
    requires Good(w, w', rules) && Holds(w, run)
    ensures Holds(w', run)
  {
    RunLater(w, w', run.key, rules);
  }

  lemma AddressedLater(w: World, w': World, c: Completion, rules: Rules)
    requires Good(w, w', rules) && Addressed(w, c)
    ensures Addressed(w', c)
  {
    if c.result.pullRequest.Some? {
      ReviewableLater(w, w', c, rules);
    }
    hide Good, Reviewable;
  }

  lemma SettledAllowed(w: World, run: ExtensionRun, rules: Rules)
    requires Inv(w, rules) && Holds(w, run) && run.status != RunRunning && Recorded(run) && Earned(w, run)
    requires run.status == RunSkipped ==> AskedIdle(w, run.key)
    ensures Allowed(w, SaveRun(run), rules)
  {
    RunFacts(w, run.key, rules);
    hide Inv;
  }

  /** What a review that does not apply must leave: the build with a log of its own. */
  ghost predicate Audited(w: World, id: Id) {
    id in w.builds && w.builds[id].reviewLog.Some? && w.builds[id].reviewLog.value.buildId == id
  }

  lemma SkipKeeps(env: Env, w: World, c: Completion, run: ExtensionRun, rules: Rules)
    requires Inv(w, rules) && Holds(w, run) && AskedIdle(w, run.key)
    ensures var r := Skip(env, w, c, run);
            && Good(w, r.w, rules)
            && (r.Go? ==> Audited(r.w, c.buildId))
  {
    hide Inv, Good, AskedIdle, AttachReviewLog;
    var skipped := run.(output := Some(ExtensionOutput([], None, None)), status := RunSkipped);
    var log := ReviewLog(c, run, OutcomeSkipped, []);
    SettledAllowed(w, WithLog(skipped, log), rules);
    hide Allowed, Recorded, Holds;
    AttachKeeps(env, w, skipped, log, false, rules);
    QuietAfter(env, w, AttachReviewLog(env, w, skipped, log, false).w, rules);
    hide WithLog;
  }

  /** A last awaited call that stores nothing. */
  lemma QuietAfter(env: Env, w: World, w': World, rules: Rules)
    requires Good(w, w', rules)
    ensures Good(w, Do(env, w', Quiet).w, rules)
    ensures Do(env, w', Quiet).Go? ==> Do(env, w', Quiet).w == Tick(w')
  {
    Later(w, w', rules);
    hide Inv, Good;
    DoKeeps(env, w', Quiet, rules);
    GoodThen(w, w', Do(env, w', Quiet).w, rules);
  }

  lemma RecordFailureKeeps(env: Env, w: World, c: Completion, run: ExtensionRun, rules: Rules)
    requires About(rules, c) && Inv(w, rules) && Holds(w, run) && Reviewable(w, c)
    ensures Good(w, RecordFailure(env, w, c, run).w, rules)
  {
    hide Inv, Good, AttachReviewLog;
    AiAllowed(w, c, Failure, rules);
    PublishKeeps(env, w, AiStatus(c, Failure), 0, rules);
    var p := Publish(env, w, AiStatus(c, Failure), 0);
    Later(w, p.w, rules);
    if p.Go? {
      HoldsLater(w, p.w, run, rules);
      var failed := run.(output := Some(ExtensionOutput([], None, None)), status := RunFailed);
      var log := ReviewLog(c, run, OutcomeFailed, []);
      SettledAllowed(p.w, WithLog(failed, log), rules);
      hide Allowed, Recorded, Holds, Publish;
      AttachKeeps(env, p.w, failed, log, true, rules);
      var a := AttachReviewLog(env, p.w, failed, log, true);
      GoodThen(w, p.w, a.w, rules);
      QuietAfter(env, w, a.w, rules);
      hide WithLog;
    }
  }

  lemma AskBrokerKeeps(env: Env, w: World, c: Completion, diff: string, rules: Rules)
    requires Inv(w, rules)
    ensures var r := AskBroker(env, w, c, diff);
            && Good(w, r.w, rules)
            && (r.Go? ==> r.w == Tick(w))
            && (r.Go? ==> forall key, repository, sha :: OnDiff(ReviewPost(key, repository, sha, diff, r.value)))
  {
    GoodItself(w, rules);
    DoKeeps(env, w, Quiet, rules);
    hide Inv, Good, Utf8Length;
  }

  /** The run of a published review, with its log, records what happened. */
  lemma ReviewedRecorded(c: Completion, run: ExtensionRun, findings: seq<Finding>, blocking: bool, published: bool)
    ensures var log := ReviewLog(c, run, if blocking || !published then OutcomeFailed else OutcomePassed, findings);
            var r := WithLog(Reviewed(run, findings, blocking, published), log);
            && r.id == run.id && r.key == run.key && r.status != RunRunning && r.status != RunSkipped && Recorded(r)
            && r.output.Some? && r.output.value.findings == findings && LogOf(r).Some? && LogOf(r).value.findings == findings
  {
  }

  lemma IssueReviewKeeps(env: Env, w: World, c: Completion, run: ExtensionRun, review: ReviewPost, rules: Rules)
    requires Inv(w, rules) && Holds(w, run) && Reviewable(w, c) && Unreviewed(w, run.key)
    requires review.key == run.key && OnDiff(review) && Names(review.key, review.repository, review.commitSha)
    requires review.repository == c.result.repository && review.commitSha == c.result.commitSha
    ensures var r := Do(env, Issue(w, review), Quiet);
            && Good(w, r.w, rules) && Holds(r.w, run) && Reviewable(r.w, c) && ReviewedAs(r.w, run.key, review.comments)
            && ReviewedFor(r.w, c.result.repository, c.result.commitSha)
  {
    hide Inv, Good, OnDiff, Unreviewed, Names, Lower;
    IssueKeeps(w, review, rules);
    assert Issue(w, review).reviews[|w.reviews|] == review;
    assert ReviewedAs(Issue(w, review), run.key, review.comments);
    Later(w, Issue(w, review), rules);
    QuietKeeps(env, Issue(w, review), rules);
    GoodThen(w, Issue(w, review), Tick(Issue(w, review)), rules);
  }

  lemma FinishReviewKeeps(env: Env, w: World, c: Completion, run: ExtensionRun, findings: seq<Finding>, blocking: bool, published: bool, rules: Rules)
    requires Inv(w, rules) && Holds(w, run) && ReviewedAs(w, run.key, findings)
    ensures Good(w, FinishReview(env, w, c, run, findings, blocking, published).w, rules)
  {
    hide Inv, Good, AttachReviewLog;
    var log := ReviewLog(c, run, if blocking || !published then OutcomeFailed else OutcomePassed, findings);
    var reviewed := Reviewed(run, findings, blocking, published);
    ReviewedRecorded(c, run, findings, blocking, published);
    SettledAllowed(w, WithLog(reviewed, log), rules);
    hide Allowed, Recorded, WithLog;
    AttachKeeps(env, w, reviewed, log, true, rules);
    QuietAfter(env, w, AttachReviewLog(env, w, reviewed, log, true).w, rules);
  }

  lemma SubmitReviewKeeps(env: Env, w: World, c: Completion, run: ExtensionRun, diff: string, findings: seq<Finding>, rules: Rules)
    requires About(rules, c) && Inv(w, rules) && Holds(w, run) && Reviewable(w, c) && Unreviewed(w, run.key)
    requires Names(run.key, c.result.repository, c.result.commitSha)
    requires OnDiff(ReviewPost(run.key, c.result.repository, c.result.commitSha, diff, findings))
    ensures Good(w, SubmitReview(env, w, c, run, diff, findings).w, rules)
  {
    hide Inv, Good, OnDiff, FinishReview, Do, Publish, Unreviewed, Reviewable, Holds, HasCritical, ReviewedAs, ReviewedFor, Names, Allowed;
    var review := ReviewPost(run.key, c.result.repository, c.result.commitSha, diff, findings);
    IssueReviewKeeps(env, w, c, run, review, rules);
    var blocking := HasCritical(findings, c.review.criticalSeverities);
    var posted := Do(env, Issue(w, review), Quiet);
    Later(w, posted.w, rules);
    if posted.Go? {
      var status := AiStatus(c, if blocking then Failure else Success);
      AiAllowed(posted.w, c, if blocking then Failure else Success, rules);
      PublishKeeps(env, posted.w, status, 0, rules);
      var p := Publish(env, posted.w, status, 0);
      GoodThen(w, posted.w, p.w, rules);
      Later(w, p.w, rules);
      if p.Go? {
        HoldsLater(posted.w, p.w, run, rules);
        ReviewedLater(posted.w, p.w, run.key, findings, rules);
        FinishReviewKeeps(env, p.w, c, run, findings, blocking, p.value, rules);
        GoodThen(w, p.w, FinishReview(env, p.w, c, run, findings, blocking, p.value).w, rules);
      }
    }
  }

  lemma ReviewKeeps(env: Env, w: World, c: Completion, run: ExtensionRun, diff: string, rules: Rules)
    requires About(rules, c) && Inv(w, rules) && Holds(w, run) && Reviewable(w, c) && Unreviewed(w, run.key)
    requires Names(run.key, c.result.repository, c.result.commitSha)
    ensures Good(w, Review(env, w, c, run, diff).w, rules)
  {
    hide Inv, Good, OnDiff, AskBroker, SubmitReview, Names;
    AskBrokerKeeps(env, w, c, diff, rules);
    var asked := AskBroker(env, w, c, diff);
    if asked.Go? {
      Later(w, asked.w, rules);
      assert OnDiff(ReviewPost(run.key, c.result.repository, c.result.commitSha, diff, asked.value));
      SubmitReviewKeeps(env, asked.w, c, run, diff, asked.value, rules);
      GoodThen(w, asked.w, SubmitReview(env, asked.w, c, run, diff, asked.value).w, rules);
    }
  }

  lemma ReviewRunKeeps(env: Env, w: World, c: Completion, troubled: bool, run: ExtensionRun, rules: Rules)
    requires About(rules, c) && Inv(w, rules) && Holds(w, run) && Addressed(w, c)
    requires if Live(c) then Unreviewed(w, run.key) && Names(run.key, c.result.repository, c.result.commitSha) else AskedIdle(w, run.key)
    ensures var r := ReviewRun(env, w, c, troubled, run);
            && Good(w, r.w, rules)
            && (r.Go? && !Live(c) ==> Audited(r.w, c.buildId))
  {
    hide Inv, Good, Holds, AskedIdle, Skip, RecordFailure, Review, Publish, Reviewable, Names, Allowed;
    if !Live(c) {
      SkipKeeps(env, w, c, run, rules);
    } else {
      AiAllowed(w, c, Pending, rules);
      PublishKeeps(env, w, AiStatus(c, Pending), 0, rules);
      PublishOnlyPosts(env, w, AiStatus(c, Pending), 0);
      var p := Publish(env, w, AiStatus(c, Pending), 0);
      Later(w, p.w, rules);
      HoldsLater(w, p.w, run, rules);
      ReviewableLater(w, p.w, c, rules);
      if p.Go? {
        if c.result.baseSha.None? || c.diff.None? || !env.hasBroker || troubled {
          RecordFailureKeeps(env, p.w, c, run, rules);
          GoodThen(w, p.w, RecordFailure(env, p.w, c, run).w, rules);
        } else {
          ReviewKeeps(env, p.w, c, run, c.diff.value, rules);
          var r := Review(env, p.w, c, run, c.diff.value);
          GoodThen(w, p.w, r.w, rules);
          Later(w, r.w, rules);
          HoldsLater(p.w, r.w, run, rules);
          ReviewableLater(p.w, r.w, c, rules);
          RecordFailureKeeps(env, r.w, c, run, rules);
          GoodThen(w, r.w, RecordFailure(env, r.w, c, run).w, rules);
        }
      }
    }
  }

  /** What a settled run that was not skipped stands for, when it is replayed as a success. */
  lemma ReplayVouched(w: World, key: Key, repository: string, commitSha: string, rules: Rules)
    requires Inv(w, rules) && key in w.runs && Names(key, repository, commitSha) && ReplayState(w.runs[key]) == Success
    ensures w.runs[key].status != RunSkipped ==> ReviewedFor(w, repository, commitSha)
    ensures w.runs[key].status == RunSkipped ==> IdleFor(w, repository, commitSha)
  {
    RunFacts(w, key, rules);
    if w.runs[key].status == RunSkipped {
      var i :| 0 <= i < |w.asked| && w.asked[i] == Asked(key, false);
    } else {
      var i :| 0 <= i < |w.reviews| && w.reviews[i].key == w.runs[key].key && w.reviews[i].comments == w.runs[key].output.value.findings;
      ReviewFacts(w, i, rules);
    }
    hide Inv, Lower;
  }

  lemma ReviewFacts(w: World, i: nat, rules: Rules)
    requires Inv(w, rules) && i < |w.reviews|
    ensures ReviewOk(w, w.reviews[i])
  {
  }

  lemma ReplayAllowed(w: World, c: Completion, key: Key, rules: Rules)
    requires About(rules, c) && Inv(w, rules) && Reviewable(w, c) && key in w.runs && Names(key, c.result.repository, c.result.commitSha)
    requires rules.strict ==> w.runs[key].status != RunSkipped
    ensures Allowed(w, PostStatus(AiStatus(c, ReplayState(w.runs[key]))), rules)
  {
    hide Inv, Reviewable, Names, Allowed, ReviewedFor, IdleFor;
    if ReplayState(w.runs[key]) == Success {
      ReplayVouched(w, key, c.result.repository, c.result.commitSha, rules);
    }
    AiAllowed(w, c, ReplayState(w.runs[key]), rules);
  }

  lemma ReplayKeeps(env: Env, w: World, c: Completion, troubled: bool, key: Key, rules: Rules)
    requires About(rules, c) && Inv(w, rules) && Addressed(w, c) && key in w.runs && (!Live(c) ==> AskedIdle(w, key))
    requires Names(key, c.result.repository, c.result.commitSha) && (rules.strict ==> w.runs[key].status != RunSkipped)
    ensures var r := Replay(env, w, c, troubled, w.runs[key]);
            Good(w, r.w, rules) && (r.Go? && !Live(c) ==> Audited(r.w, c.buildId))
  {
    RunFacts(w, key, rules);
    var run := w.runs[key];
    GoodItself(w, rules);
    if Live(c) { ReplayAllowed(w, c, key, rules); }
    if LogOf(run).None? {
      if Live(c) {
        PublishKeeps(env, w, AiStatus(c, ReplayState(run)), 0, rules);
      } else {
        ReviewRunKeeps(env, w, c, troubled, run, rules);
      }
      hide Inv, Good, Publish, ReviewRun, AskedIdle, AttachReviewLog, Allowed, Names, Reviewable;
    } else {
      var log := LogOf(run).value.(buildId := c.buildId);
      assert WithLog(run, log) == run && run.status != RunRunning;
      SettledAllowed(w, run, rules);
      hide Inv, Good, Publish, ReviewRun, AskedIdle, AttachReviewLog, WithLog, Allowed, Names, Reviewable;
      AttachKeeps(env, w, run, log, Live(c), rules);
      var a := AttachReviewLog(env, w, run, log, Live(c));
      Later(w, a.w, rules);
      if a.Go? && Live(c) {
        StatusLater(w, a.w, AiStatus(c, ReplayState(run)), rules);
        PublishKeeps(env, a.w, AiStatus(c, ReplayState(run)), 0, rules);
        GoodThen(w, a.w, Publish(env, a.w, AiStatus(c, ReplayState(run)), 0).w, rules);
      }
    }
  }

  /** A claim finds no other run under its key: the new one is saved, and this call works on it. */
  lemma ClaimWins(env: Env, w: World, c: Completion, rules: Rules)
    requires Inv(w, rules) && KeyOf(env, c) !in w.runs
    ensures var run := ExtensionRun(w.nextId, KeyOf(env, c), RunRunning, None);
            var r := Do(env, Allot(w, 1), SaveRun(run));
            && Good(w, r.w, rules)
            && (r.Go? ==> run.key in r.w.runs && r.w.runs[run.key] == run && r.w.asked == w.asked && Unreviewed(r.w, run.key))
  {
    var run := ExtensionRun(w.nextId, KeyOf(env, c), RunRunning, None);
    var w1 := Allot(w, 1);
    NewIdsKeep(w, 1, rules);
    Later(w, w1, rules);
    DoKeeps(env, w1, SaveRun(run), rules);
    GoodThen(w, w1, Do(env, w1, SaveRun(run)).w, rules);
    NeverReviewed(w, run.key, rules);
    hide Inv, Good, Recorded;
  }

  lemma NeverReviewed(w: World, key: Key, rules: Rules)
    requires Inv(w, rules) && key !in w.runs
    ensures Unreviewed(w, key)
  {
  }

  lemma ClaimReviews(env: Env, w: World, c: Completion, troubled: bool)
    ensures var run := ExtensionRun(w.nextId, KeyOf(env, c), RunRunning, None);
            var claimed := Do(env, Allot(w, 1), SaveRun(run));
            match claimed
            case Halt(w', e) => Claim(env, w, c, troubled) == Halt(w', e)
            case Go(w', _) =>
              run.key in w'.runs && w'.runs[run.key] == run ==> Claim(env, w, c, troubled) == ReviewRun(env, w', c, troubled, run)
  {
    hide ReviewRun, KeyOf;
  }

  lemma ClaimKeeps(env: Env, w: World, c: Completion, troubled: bool, rules: Rules)
    requires About(rules, c) && Inv(w, rules) && Addressed(w, c) && KeyOf(env, c) !in w.runs && (!Live(c) ==> AskedIdle(w, KeyOf(env, c)))
    ensures var r := Claim(env, w, c, troubled);
            Good(w, r.w, rules) && (r.Go? && !Live(c) ==> Audited(r.w, c.buildId))
  {
    ClaimWins(env, w, c, rules);
    ClaimReviews(env, w, c, troubled);
    var run := ExtensionRun(w.nextId, KeyOf(env, c), RunRunning, None);
    var r := Do(env, Allot(w, 1), SaveRun(run));
    KeyNames(env, c);
    hide Inv, Good, ReviewRun, AskedIdle, KeyOf, Do, Unreviewed, Addressed, Audited, Live, Claim, Names;
    Later(w, r.w, rules);
    AddressedLater(w, r.w, c, rules);
    if r.Go? {
      if !Live(c) { AskedLater(w, r.w, run.key, rules); }
      assert Holds(r.w, run);
      ReviewRunKeeps(env, r.w, c, troubled, run, rules);
      GoodThen(w, r.w, ReviewRun(env, r.w, c, troubled, run).w, rules);
    }
  }

  lemma AskOnce(env: Env, w: World, a: Asked, c: Completion, rules: Rules)
    requires Inv(w, rules) && Addressed(w, c)
    ensures var r := Do(env, w.(asked := w.asked + [a]), Quiet);
            && Good(w, r.w, rules) && Addressed(r.w, c) && (!a.live ==> AskedIdle(r.w, a.key))
            && (r.Go? ==> r.w.runs == w.runs)
  {
    var w1 := w.(asked := w.asked + [a]);
    AskKeeps(w, a, rules);
    Later(w, w1, rules);
    DoKeeps(env, w1, Quiet, rules);
    var r := Do(env, w1, Quiet);
    GoodThen(w, w1, r.w, rules);
    AddressedLater(w, r.w, c, rules);
    if !a.live {
      assert w1.asked[|w.asked|] == Asked(a.key, false);
      AskedLater(w1, r.w, a.key, rules);
    }
    hide Inv, Good;
  }

  lemma ProcessKeeps(env: Env, w: World, c: Completion, troubled: bool, rules: Rules)
    requires About(rules, c) && Inv(w, rules) && Addressed(w, c)
    requires rules.strict ==> KeyOf(env, c) in w.runs ==> w.runs[KeyOf(env, c)].status != RunSkipped
    ensures var r := ProcessAiReview(env, w, c, troubled);
            Good(w, r.w, rules) && (r.Go? && !Live(c) ==> Audited(r.w, c.buildId))
  {
    var key := KeyOf(env, c);
    AskOnce(env, w, Asked(key, Live(c)), c, rules);
    var r := Do(env, w.(asked := w.asked + [Asked(key, Live(c))]), Quiet);
    KeyNames(env, c);
    hide Inv, Good, AskedIdle, KeyOf, Do, Replay, Claim, Addressed, Audited, Live, Names;
    Later(w, r.w, rules);
    if r.Go? {
      if key in r.w.runs {
        ReplayKeeps(env, r.w, c, troubled, key, rules);
        GoodThen(w, r.w, Replay(env, r.w, c, troubled, r.w.runs[key]).w, rules);
      } else {
        ClaimKeeps(env, r.w, c, troubled, rules);
        GoodThen(w, r.w, Claim(env, r.w, c, troubled).w, rules);
      }
    }
  }

  lemma {:induction false} RetryKeeps(env: Env, w: World, c: Completion, attempt: nat, rules: Rules)
    requires About(rules, c) && attempt <= REVIEW_ATTEMPTS && !rules.strict && Inv(w, rules) && Addressed(w, c)
    ensures var r := ProcessWithRetry(env, w, c, attempt);
            Good(w, r.w, rules) && (r.Go? && r.value && !Live(c) ==> Audited(r.w, c.buildId))
    decreases REVIEW_ATTEMPTS - attempt
  {
    hide Inv, Good, Do, Addressed, Audited, Live, ProcessAiReview;
    DoKeeps(env, w, Quiet, rules);
    ProcessKeeps(env, w, c, false, rules);
    var r := ProcessAiReview(env, w, c, false);
    Later(w, r.w, rules);
    AddressedLater(w, r.w, c, rules);
    if attempt < REVIEW_ATTEMPTS && r.Halt? && r.error != Stopped {
      RetryKeeps(env, r.w, c, attempt + 1, rules);
      GoodThen(w, r.w, ProcessWithRetry(env, r.w, c, attempt + 1).w, rules);
    }
  }
}
