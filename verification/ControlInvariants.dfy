/** What every awaited call of the control plane keeps, whatever raises and wherever a request is cut off. */
module ControlInvariants {
  import opened Text
  import opened Records
  import opened Attachment
  import opened ControlPlane
  import UnifiedDiff

  // ---------------------------------------------------------------- records

  /** A result that is failed or cancelled whenever a required check failed. */
  predicate Honest(result: PipelineResult) {
    RequiredFailure(result.checks) ==> result.status == Failed || result.status == Cancelled
  }

  /** The parts of a build that no operation changes. */
  predicate SameIdentity(a: Build, b: Build) {
    && a.id == b.id && a.repositoryId == b.repositoryId && a.queueItemId == b.queueItemId && a.reusedFrom == b.reusedFrom
    && Lower(a.result.repository) == Lower(b.result.repository)
    && Lower(a.result.commitSha) == Lower(b.result.commitSha)
    && a.result.pullRequest == b.result.pullRequest
  }

  /** A finished build stays finished, and its base is fixed too. */
  predicate BuildStep(a: Build, b: Build) {
    && SameIdentity(a, b)
    && (Terminal(a.result.status) ==> Terminal(b.result.status) && LowerOr(a.result.baseSha) == LowerOr(b.result.baseSha))
  }

  /** A stored review run: running without an output, or settled with its own log, whose outcome says
      what the run and its GitHub action say. */
  predicate Recorded(run: ExtensionRun) {
    if run.status == RunRunning then run.output.None?
    else
      && LogOf(run).Some?
      && LogOf(run).value.reviewRunId == run.id
      && (LogOf(run).value.outcome == OutcomeSkipped <==> run.status == RunSkipped)
      && (LogOf(run).value.outcome == OutcomeFailed <==> run.status == RunFailed || Blocking(run))
      && (LogOf(run).value.outcome == OutcomePassed <==> run.status == RunSucceeded && !Blocking(run))
  }

  predicate RunStep(a: ExtensionRun, b: ExtensionRun) {
    a.id == b.id && (a.status != RunRunning ==> b.status != RunRunning)
  }

  predicate Ended(state: QueueState) {
    state == QueueFailed || state == QueueCancelled
  }

  // ---------------------------------------------------------------- the invariant

  /** The build a reused one points to: native, not itself reused, of the same repository and commit. */
  predicate ReusesNative(w: World, b: Build) {
    && b.reusedFrom.Some? && b.reusedFrom.value in w.builds
    && var source := w.builds[b.reusedFrom.value];
       && source.reusedFrom.None? && source.result.pullRequest.None? && b.result.pullRequest.Some?
       && source.repositoryId == b.repositoryId
       && Lower(source.result.commitSha) == Lower(b.result.commitSha)
  }

  predicate PullRequestBuild(w: World, id: Id) {
    id in w.builds && w.builds[id].result.pullRequest.Some?
  }

  /** The build is of a registered repository, under its name up to case. */
  predicate Registered(w: World, b: Build) {
    b.repositoryId in w.repositories && Lower(w.repositories[b.repositoryId]) == Lower(b.result.repository)
  }

  /** The repository and the commit are the build's, up to case. */
  predicate SameCommit(repository: string, commitSha: string, b: Build) {
    Lower(repository) == Lower(b.result.repository) && Lower(commitSha) == Lower(b.result.commitSha)
  }

  ghost predicate BuildsOk(w: World, rules: Rules) {
    forall id :: id in w.builds ==>
      var b := w.builds[id];
      && b.id == id < w.nextId && Registered(w, b)
      && (b.queueItemId.Some? ==> b.queueItemId.value < w.nextId)
      && (b.queueItemId.Some? && b.queueItemId.value in w.queues ==> w.queues[b.queueItemId.value].buildId == id)
      && (b.reusedFrom.Some? ==> ReusesNative(w, b))
      && (rules.honest ==> Honest(b.result))
  }

  ghost predicate QueuesOk(w: World) {
    forall id :: id in w.queues ==>
      var q := w.queues[id];
      && q.id == id < w.nextId
      && (Ended(q.state) ==> q.buildId in w.builds && Terminal(w.builds[q.buildId].result.status))
  }

  ghost predicate AskedIdle(w: World, key: Key) {
    Asked(key, false) in w.asked
  }

  /** A review with these comments was asked of GitHub under the key. */
  ghost predicate ReviewedAs(w: World, key: Key, comments: seq<Finding>) {
    exists i :: 0 <= i < |w.reviews| && w.reviews[i].key == key && w.reviews[i].comments == comments
  }

  /** What a succeeded run records is what GitHub was asked to publish. */
  ghost predicate Earned(w: World, run: ExtensionRun) {
    run.status == RunSucceeded ==>
      && run.output.Some? && ReviewedAs(w, run.key, run.output.value.findings)
      && LogOf(run).Some? && LogOf(run).value.findings == run.output.value.findings
  }

  ghost predicate RunsOk(w: World) {
    forall key :: key in w.runs ==>
      && w.runs[key].key == key && w.runs[key].id < w.nextId && Recorded(w.runs[key])
      && (w.runs[key].status == RunSkipped ==> AskedIdle(w, key))
      && Earned(w, w.runs[key])
  }

  /** Every published comment is on a line that its diff added. */
  predicate OnDiff(review: ReviewPost) {
    var parsed := UnifiedDiff.Parse(UnifiedDiff.SplitLines(review.diff));
    parsed.Ok? && UnifiedDiff.ValidResult(parsed.value, review.comments)
  }

  /** The key is one of this repository and head commit. */
  predicate Names(key: Key, repository: string, commitSha: string) {
    key.ReviewKey? && key.repository == Lower(repository) && key.headSha == Lower(commitSha)
  }

  predicate ReviewOk(w: World, r: ReviewPost) {
    r.key in w.runs && OnDiff(r) && Names(r.key, r.repository, r.commitSha)
  }

  ghost predicate ReviewsOk(w: World) {
    && (forall i :: 0 <= i < |w.reviews| ==> ReviewOk(w, w.reviews[i]))
    && (forall i, j :: 0 <= i < j < |w.reviews| ==> w.reviews[i].key != w.reviews[j].key)
  }

  /** GitHub was asked to publish a review of this repository and commit. */
  ghost predicate ReviewedFor(w: World, repository: string, commitSha: string) {
    exists i :: 0 <= i < |w.reviews|
      && Lower(w.reviews[i].repository) == Lower(repository) && Lower(w.reviews[i].commitSha) == Lower(commitSha)
  }

  /** A review of this repository and commit was asked for when it did not apply. */
  ghost predicate IdleFor(w: World, repository: string, commitSha: string) {
    exists i :: 0 <= i < |w.asked| && !w.asked[i].live && Names(w.asked[i].key, repository, commitSha)
  }

  /** A published status is about its build's repository and commit.  A native one says what the build was saved as; one of the AI
      review is for a pull request, and a success stands for a review, or for a request that had none to make. */
  ghost predicate StatusOk(w: World, s: StatusPost) {
    && s.buildId in w.builds && SameCommit(s.repository, s.commitSha, w.builds[s.buildId])
    && match s.context
       case AiReview =>
         && w.builds[s.buildId].result.pullRequest.Some?
         && (s.state == Success ==> ReviewedFor(w, s.repository, s.commitSha) || IdleFor(w, s.repository, s.commitSha))
       case NativeCi =>
         match s.state
         case Success => (s.buildId, Passed) in w.stored
         case Failure => (s.buildId, Failed) in w.stored || (s.buildId, Cancelled) in w.stored
         case Pending => (s.buildId, Queued) in w.stored
  }

  ghost predicate StatusesOk(w: World) {
    forall i :: 0 <= i < |w.statuses| ==> StatusOk(w, w.statuses[i])
  }

  ghost predicate AcceptedOk(w: World) {
    forall i :: 0 <= i < |w.accepted| ==> ForBuild(w, w.accepted[i])
  }

  predicate ForBuild(w: World, c: Completion) {
    && c.buildId in w.builds && w.builds[c.buildId].result.pullRequest == c.result.pullRequest
    && SameCommit(c.result.repository, c.result.commitSha, w.builds[c.buildId])
  }

  ghost predicate Inv(w: World, rules: Rules) {
    BuildsOk(w, rules) && QueuesOk(w) && RunsOk(w) && ReviewsOk(w) && StatusesOk(w) && AcceptedOk(w)
  }

  // ---------------------------------------------------------------- what can only grow

  /** `rules.honest` keeps results honest; without `rules.mayTrigger` no Jenkins build is started, without
      `rules.mayReuse` no result is reused, and without `rules.mayNative` only reviews happen; with `rules.strict` an
      AI-review success stands for a review, and with `rules.about` every status is an AI-review one of that completion. */
  datatype Rules = Rules(honest: bool, mayTrigger: bool, mayReuse: bool, mayNative: bool, strict: bool, about: Option<Completion>)

  /** Review logs are attached to a build, or nothing. */
  predicate OnlyAttached(a: Build, b: Build) {
    b == a ||
      (&& b == a.(reviewLog := b.reviewLog, result := a.result.(artifacts := b.result.artifacts, checks := b.result.checks,
                                                               extensionRuns := b.result.extensionRuns, status := b.result.status))
       && b.reviewLog.Some? && b.reviewLog.value.buildId == a.id
       && (b.result.status == a.result.status || b.result.status == Failed)
       && OtherChecks(b.result.checks) == OtherChecks(a.result.checks)
       && OtherArtifacts(b.result.artifacts) == OtherArtifacts(a.result.artifacts))
  }

  /** What reviews leave as it was. */
  ghost predicate ReviewFrame(w: World, w': World) {
    && w'.queues == w.queues && w'.deliveries == w.deliveries && w'.accepted == w.accepted && w'.builds.Keys == w.builds.Keys
    && forall id :: id in w.builds ==> OnlyAttached(w.builds[id], w'.builds[id])
  }

  ghost predicate NewStatus(w: World, s: StatusPost, rules: Rules) {
    && (rules.mayNative || s.context == AiReview)
    && (rules.about.Some? ==> s == AiStatus(rules.about.value, s.state))
    && (rules.strict && s.context == AiReview && s.state == Success ==> ReviewedFor(w, s.repository, s.commitSha))
  }

  ghost predicate Evolves(w: World, w': World, rules: Rules) {
    && w.nextId <= w'.nextId && w'.repositories == w.repositories
    && (forall id :: id in w.builds ==> id in w'.builds && BuildStep(w.builds[id], w'.builds[id]))
    && (!rules.mayNative ==> ReviewFrame(w, w'))
    && (!rules.mayReuse ==> forall id :: id in w'.builds && id !in w.builds ==> w'.builds[id].reusedFrom.None?)
    && (forall id :: id in w.queues ==> id in w'.queues && w'.queues[id].buildId == w.queues[id].buildId)
    && (forall key :: key in w.runs ==> key in w'.runs && RunStep(w.runs[key], w'.runs[key]))
    && w.deliveries <= w'.deliveries && w.statuses <= w'.statuses && w.reviews <= w'.reviews
    && w.triggers <= w'.triggers && (!rules.mayTrigger ==> w'.triggers == w.triggers)
    && w.asked <= w'.asked && w.accepted <= w'.accepted && w.stored <= w'.stored
    && (forall i :: |w.statuses| <= i < |w'.statuses| ==> NewStatus(w', w'.statuses[i], rules))
  }

  ghost predicate Good(w: World, w': World, rules: Rules) {
    Inv(w', rules) && Evolves(w, w', rules)
  }

  lemma GoodItself(w: World, rules: Rules)
    requires Inv(w, rules)
    ensures Good(w, w, rules)
  {
  }

  lemma GoodThen(a: World, b: World, c: World, rules: Rules)
    requires Good(a, b, rules) && Good(b, c, rules)
    ensures Good(a, c, rules)
  {
    StatusesThen(a, b, c, rules);
    if !rules.mayNative { FrameThen(a, b, c); }
    BuildsThen(a, b, c, rules);
    hide Inv, NewStatus, BuildStep, RunStep, ReviewFrame;
    forall key | key in a.runs ensures key in c.runs && RunStep(a.runs[key], c.runs[key]) {
      RunsThen(a.runs[key], b.runs[key], c.runs[key]);
    }
  }

  lemma BuildsThen(a: World, b: World, c: World, rules: Rules)
    requires Evolves(a, b, rules) && Evolves(b, c, rules)
    ensures forall id :: id in a.builds ==> id in c.builds && BuildStep(a.builds[id], c.builds[id])
    ensures !rules.mayReuse ==> forall id :: id in c.builds && id !in a.builds ==> c.builds[id].reusedFrom.None?
  {
    hide NewStatus, BuildStep, RunStep, ReviewFrame;
    forall id | id in a.builds ensures id in c.builds && BuildStep(a.builds[id], c.builds[id]) {
      StepsThen(a.builds[id], b.builds[id], c.builds[id]);
    }
    forall id | !rules.mayReuse && id in c.builds && id !in a.builds ensures c.builds[id].reusedFrom.None? {
      if id in b.builds { SameSource(b.builds[id], c.builds[id]); }
    }
  }

  lemma FrameThen(a: World, b: World, c: World)
    requires ReviewFrame(a, b) && ReviewFrame(b, c)
    ensures ReviewFrame(a, c)
  {
    hide OnlyAttached;
    forall id | id in a.builds ensures OnlyAttached(a.builds[id], c.builds[id]) {
      AttachedThen(a.builds[id], b.builds[id], c.builds[id]);
    }
  }

  lemma AttachedThen(a: Build, b: Build, c: Build)
    requires OnlyAttached(a, b) && OnlyAttached(b, c)
    ensures OnlyAttached(a, c)
  {
    hide OtherChecks, OtherArtifacts;
  }

  lemma StepsThen(a: Build, b: Build, c: Build)
    requires BuildStep(a, b) && BuildStep(b, c)
    ensures BuildStep(a, c)
  {
    hide Lower;
  }

  lemma SameSource(a: Build, b: Build)
    requires BuildStep(a, b)
    ensures b.reusedFrom == a.reusedFrom
  {
  }

  lemma RunsThen(a: ExtensionRun, b: ExtensionRun, c: ExtensionRun)
    requires RunStep(a, b) && RunStep(b, c)
    ensures RunStep(a, c)
  {
  }

  lemma ReviewedForLater(w: World, w': World, repository: string, commitSha: string)
    requires w.reviews <= w'.reviews && ReviewedFor(w, repository, commitSha)
    ensures ReviewedFor(w', repository, commitSha)
  {
    hide Lower;
    var i :| 0 <= i < |w.reviews|
      && Lower(w.reviews[i].repository) == Lower(repository) && Lower(w.reviews[i].commitSha) == Lower(commitSha);
    assert w'.reviews[i] == w.reviews[i];
  }

  lemma IdleForLater(w: World, w': World, repository: string, commitSha: string)
    requires w.asked <= w'.asked && IdleFor(w, repository, commitSha)
    ensures IdleFor(w', repository, commitSha)
  {
    hide Names;
    var i :| 0 <= i < |w.asked| && !w.asked[i].live && Names(w.asked[i].key, repository, commitSha);
    assert w'.asked[i] == w.asked[i];
  }

  lemma NewStatusLater(w: World, w': World, s: StatusPost, rules: Rules)
    requires w.reviews <= w'.reviews && NewStatus(w, s, rules)
    ensures NewStatus(w', s, rules)
  {
    if ReviewedFor(w, s.repository, s.commitSha) {
      ReviewedForLater(w, w', s.repository, s.commitSha);
    }
    hide ReviewedFor;
  }

  lemma StatusesThen(a: World, b: World, c: World, rules: Rules)
    requires Evolves(a, b, rules) && Evolves(b, c, rules)
    ensures forall i :: |a.statuses| <= i < |c.statuses| ==> NewStatus(c, c.statuses[i], rules)
  {
    hide NewStatus, BuildStep, RunStep;
    forall i | |a.statuses| <= i < |c.statuses| ensures NewStatus(c, c.statuses[i], rules) {
      if i < |b.statuses| {
        assert c.statuses[i] == b.statuses[i];
        NewStatusLater(b, c, b.statuses[i], rules);
      }
    }
  }

  /** What a status rests on only grows. */
  ghost predicate Grows(w: World, w': World) {
    && (forall id :: id in w.builds ==> id in w'.builds && SameIdentity(w.builds[id], w'.builds[id]))
    && w.reviews <= w'.reviews && w.asked <= w'.asked && w.stored <= w'.stored
  }

  lemma StatusGrows(w: World, w': World, s: StatusPost)
    requires Grows(w, w') && StatusOk(w, s)
    ensures StatusOk(w', s)
  {
    if ReviewedFor(w, s.repository, s.commitSha) {
      ReviewedForLater(w, w', s.repository, s.commitSha);
    }
    if IdleFor(w, s.repository, s.commitSha) {
      IdleForLater(w, w', s.repository, s.commitSha);
    }
    hide ReviewedFor, IdleFor, Lower;
  }

  lemma StatusesGrow(w: World, w': World)
    requires Grows(w, w') && StatusesOk(w) && w'.statuses == w.statuses
    ensures StatusesOk(w')
  {
    hide Grows, StatusOk;
    forall i | 0 <= i < |w.statuses| ensures StatusOk(w', w'.statuses[i]) {
      StatusGrows(w, w', w.statuses[i]);
    }
  }

  // ---------------------------------------------------------------- single effects

  ghost predicate Allowed(w: World, e: Effect, rules: Rules) {
    match e
    case SaveBuild(b) =>
      && (rules.honest ==> Honest(b.result))
      && (!rules.mayNative ==> b.id in w.builds && OnlyAttached(w.builds[b.id], b))
      && (if b.id in w.builds then BuildStep(w.builds[b.id], b)
          else
            && b.id < w.nextId && Registered(w, b)
            && (b.queueItemId.Some? ==>
                  b.queueItemId.value < w.nextId && (b.queueItemId.value in w.queues ==> w.queues[b.queueItemId.value].buildId == b.id))
            && (b.reusedFrom.Some? ==> rules.mayReuse && ReusesNative(w, b)))
    case SaveQueue(q) =>
      && rules.mayNative && q.id < w.nextId
      && (Ended(q.state) ==> q.buildId in w.builds && Terminal(w.builds[q.buildId].result.status))
      && (q.id in w.queues ==> w.queues[q.id].buildId == q.buildId)
      && (q.id !in w.queues ==> forall id :: id in w.builds ==> w.builds[id].queueItemId != Some(q.id))
    case SaveRun(r) =>
      && r.id < w.nextId && Recorded(r)
      && (r.status == RunSkipped ==> AskedIdle(w, r.key))
      && Earned(w, r)
      && (r.key in w.runs && w.runs[r.key].status != RunRunning ==> r.status != RunRunning)
    case PostStatus(s) => StatusOk(w, s) && NewStatus(w, s, rules)
    case StartPipeline(_) => rules.mayTrigger
    case Deliver(_) => rules.mayNative
    case Quiet => true
  }

  lemma SaveBuildKeeps(w: World, b: Build, rules: Rules)
    requires Inv(w, rules) && Allowed(w, SaveBuild(b), rules)
    ensures Good(w, Apply(w, SaveBuild(b)), rules)
  {
    hide BuildsOk, QueuesOk, RunsOk, ReviewsOk, AcceptedOk, StatusesOk, Grows, Evolves, Allowed, Apply;
    SaveBuildBuilds(w, b, rules);
    SaveBuildRest(w, b, rules);
    SaveBuildGrows(w, b, rules);
    SaveBuildEvolves(w, b, rules);
    SaveBuildStatuses(w, b);
    StatusesGrow(w, Apply(w, SaveBuild(b)));
  }

  lemma SaveBuildStatuses(w: World, b: Build)
    ensures Apply(w, SaveBuild(b)).statuses == w.statuses
  {
  }

  lemma SaveBuildEvolves(w: World, b: Build, rules: Rules)
    requires Allowed(w, SaveBuild(b), rules)
    ensures Evolves(w, Apply(w, SaveBuild(b)), rules)
  {
    hide OtherChecks, OtherArtifacts, Honest, ReusesNative, Registered, Lower, NewStatus;
  }

  lemma SaveBuildBuilds(w: World, b: Build, rules: Rules)
    requires BuildsOk(w, rules) && Allowed(w, SaveBuild(b), rules)
    ensures BuildsOk(Apply(w, SaveBuild(b)), rules)
  {
    hide Honest, Lower, RequiredFailure;
    var w' := Apply(w, SaveBuild(b));
    forall id | id in w'.builds && w'.builds[id].reusedFrom.Some? ensures ReusesNative(w', w'.builds[id]) {
      assert id in w.builds ==> ReusesNative(w, w.builds[id]);
    }
    hide ReusesNative;
  }

  lemma SaveBuildGrows(w: World, b: Build, rules: Rules)
    requires Allowed(w, SaveBuild(b), rules)
    ensures Grows(w, Apply(w, SaveBuild(b)))
  {
    hide Honest, Lower, ReusesNative;
  }

  lemma SaveBuildRest(w: World, b: Build, rules: Rules)
    requires QueuesOk(w) && AcceptedOk(w) && RunsOk(w) && ReviewsOk(w) && Allowed(w, SaveBuild(b), rules)
    ensures var w' := Apply(w, SaveBuild(b)); QueuesOk(w') && AcceptedOk(w') && RunsOk(w') && ReviewsOk(w')
  {
    hide Honest, Lower, RequiredFailure, Recorded, OnDiff, ReusesNative, Names;
  }

  lemma SaveQueueKeeps(w: World, q: QueueItem, rules: Rules)
    requires Inv(w, rules) && Allowed(w, SaveQueue(q), rules)
    ensures Good(w, Apply(w, SaveQueue(q)), rules)
  {
    hide BuildsOk, QueuesOk, RunsOk, ReviewsOk, AcceptedOk, StatusesOk, Evolves, Allowed, Apply;
    SaveQueueStore(w, q, rules);
    SaveQueueRest(w, q);
    SaveQueueEvolves(w, q, rules);
  }

  lemma SaveQueueEvolves(w: World, q: QueueItem, rules: Rules)
    requires Allowed(w, SaveQueue(q), rules)
    ensures Evolves(w, Apply(w, SaveQueue(q)), rules)
  {
    hide Lower, NewStatus;
  }

  lemma SaveQueueStore(w: World, q: QueueItem, rules: Rules)
    requires BuildsOk(w, rules) && QueuesOk(w) && Allowed(w, SaveQueue(q), rules)
    ensures BuildsOk(Apply(w, SaveQueue(q)), rules) && QueuesOk(Apply(w, SaveQueue(q)))
  {
    hide Honest, Lower, ReusesNative;
    SaveQueueReuse(w, q);
  }

  lemma SaveQueueReuse(w: World, q: QueueItem)
    ensures forall b :: ReusesNative(Apply(w, SaveQueue(q)), b) <==> ReusesNative(w, b)
  {
  }

  lemma SaveQueueRest(w: World, q: QueueItem)
    requires RunsOk(w) && ReviewsOk(w) && AcceptedOk(w) && StatusesOk(w)
    ensures var w' := Apply(w, SaveQueue(q)); RunsOk(w') && ReviewsOk(w') && AcceptedOk(w') && StatusesOk(w')
  {
    hide Recorded, OnDiff, Lower, Names;
    StatusesGrow(w, Apply(w, SaveQueue(q)));
    SameReviews(w, Apply(w, SaveQueue(q)));
    hide StatusesOk, Earned;
  }

  lemma SaveRunKeeps(w: World, r: ExtensionRun, rules: Rules)
    requires Inv(w, rules) && Allowed(w, SaveRun(r), rules)
    ensures Good(w, Apply(w, SaveRun(r)), rules)
  {
    hide BuildsOk, QueuesOk, StatusesOk, AcceptedOk, ReviewsOk, RunsOk, Allowed, Apply, Evolves;
    SaveRunRest(w, r, rules);
    SaveRunReviews(w, r);
    SaveRunRuns(w, r, rules);
    SaveRunEvolves(w, r, rules);
  }

  lemma SaveRunEvolves(w: World, r: ExtensionRun, rules: Rules)
    requires Allowed(w, SaveRun(r), rules)
    ensures Evolves(w, Apply(w, SaveRun(r)), rules)
  {
    hide Recorded, Earned, Lower;
  }

  lemma SaveRunRuns(w: World, r: ExtensionRun, rules: Rules)
    requires RunsOk(w) && Allowed(w, SaveRun(r), rules)
    ensures RunsOk(Apply(w, SaveRun(r)))
  {
    hide Recorded;
    SameReviews(w, Apply(w, SaveRun(r)));
    hide Earned;
  }

  lemma SameReviews(w: World, w': World)
    requires w'.reviews == w.reviews
    ensures forall run :: Earned(w', run) <==> Earned(w, run)
  {
  }

  lemma SaveRunRest(w: World, r: ExtensionRun, rules: Rules)
    requires BuildsOk(w, rules) && QueuesOk(w) && StatusesOk(w) && AcceptedOk(w)
    ensures var w' := Apply(w, SaveRun(r)); BuildsOk(w', rules) && QueuesOk(w') && StatusesOk(w') && AcceptedOk(w')
  {
    hide Honest, Recorded, OnDiff, Lower;
    StatusesGrow(w, Apply(w, SaveRun(r)));
    hide StatusesOk;
  }

  lemma SaveRunReviews(w: World, r: ExtensionRun)
    requires ReviewsOk(w)
    ensures ReviewsOk(Apply(w, SaveRun(r)))
  {
    hide OnDiff, Names;
  }

  lemma PostStatusKeeps(w: World, s: StatusPost, rules: Rules)
    requires Inv(w, rules) && Allowed(w, PostStatus(s), rules)
    ensures Good(w, Apply(w, PostStatus(s)), rules)
  {
    var w' := Apply(w, PostStatus(s));
    PostStatusStatuses(w, s);
    SameOthers(w, w', rules);
    PostedIsNew(w, s, rules);
    GoodItself(w, rules);
    hide Inv, StatusesOk, StatusOk, NewStatus, BuildStep, RunStep;
  }

  lemma PostedIsNew(w: World, s: StatusPost, rules: Rules)
    requires NewStatus(w, s, rules)
    ensures NewStatus(Apply(w, PostStatus(s)), s, rules)
  {
    NewStatusLater(w, Apply(w, PostStatus(s)), s, rules);
  }

  lemma PostStatusStatuses(w: World, s: StatusPost)
    requires StatusesOk(w) && StatusOk(w, s)
    ensures StatusesOk(Apply(w, PostStatus(s)))
  {
    var w' := Apply(w, PostStatus(s));
    assert Grows(w, w') by { hide Lower; }
    hide StatusOk, Grows;
    forall i | 0 <= i < |w'.statuses| ensures StatusOk(w', w'.statuses[i]) {
      StatusGrows(w, w', w'.statuses[i]);
    }
  }

  /** The clauses about everything but statuses. */
  lemma SameOthers(w: World, w': World, rules: Rules)
    requires Inv(w, rules) && StatusesOk(w')
    requires w' == w.(clock := w'.clock, deliveries := w'.deliveries, triggers := w'.triggers, statuses := w'.statuses)
    ensures Inv(w', rules)
  {
    SameReviews(w, w');
    hide Honest, Recorded, OnDiff, Lower, Names, StatusesOk, Earned;
  }

  lemma SameStore(w: World, w': World, rules: Rules)
    requires Inv(w, rules) && w' == w.(clock := w'.clock, deliveries := w'.deliveries, triggers := w'.triggers)
    ensures Inv(w', rules)
  {
    assert Grows(w, w') by { hide Lower; }
    StatusesGrow(w, w');
    SameOthers(w, w', rules);
    hide Inv;
  }

  lemma PassiveKeeps(w: World, e: Effect, rules: Rules)
    requires Inv(w, rules) && Allowed(w, e, rules) && (e.Quiet? || e.Deliver? || e.StartPipeline?)
    ensures Good(w, Apply(w, e), rules)
  {
    GoodItself(w, rules);
    SameStore(w, Apply(w, e), rules);
    hide Inv, BuildStep, RunStep;
  }

  lemma ApplyKeeps(w: World, e: Effect, rules: Rules)
    requires Inv(w, rules) && Allowed(w, e, rules)
    ensures Good(w, Apply(w, e), rules)
  {
    hide *;
    match e {
      case SaveBuild(b) => SaveBuildKeeps(w, b, rules);
      case SaveQueue(q) => SaveQueueKeeps(w, q, rules);
      case SaveRun(r) => SaveRunKeeps(w, r, rules);
      case PostStatus(s) => PostStatusKeeps(w, s, rules);
      case _ => PassiveKeeps(w, e, rules);
    }
  }

  lemma TickKeeps(w: World, w': World, rules: Rules)
    requires Good(w, w', rules)
    ensures Good(w, Tick(w'), rules)
  {
    hide Inv, Evolves;
    TickGood(w', rules);
    GoodThen(w, w', Tick(w'), rules);
  }

  lemma TickGood(w: World, rules: Rules)
    requires Inv(w, rules)
    ensures Good(w, Tick(w), rules)
  {
    SameStore(w, Tick(w), rules);
    GoodItself(w, rules);
    hide Inv, BuildStep, RunStep, OnlyAttached, NewStatus;
  }

  /** An awaited call keeps the invariant, whether it returns, raises before its effect or after it. */
  lemma DoKeeps(env: Env, w: World, e: Effect, rules: Rules)
    requires Inv(w, rules) && Allowed(w, e, rules)
    ensures Good(w, Do(env, w, e).w, rules)
    ensures Do(env, w, e).Go? ==> Do(env, w, e).w == Tick(Apply(w, e))
  {
    hide Good, Inv, Allowed, Apply;
    ApplyKeeps(w, e, rules);
    GoodItself(w, rules);
    TickKeeps(w, w, rules);
    TickKeeps(w, Apply(w, e), rules);
  }

  /** An awaited call that stores nothing. */
  lemma QuietKeeps(env: Env, w: World, rules: Rules)
    requires Inv(w, rules)
    ensures Do(env, w, Quiet).w == Tick(w) && Good(w, Tick(w), rules) && Inv(Tick(w), rules)
  {
    DoKeeps(env, w, Quiet, rules);
    hide Inv, Evolves;
  }

  // ---------------------------------------------------------------- changes that await nothing

  lemma NewIdsKeep(w: World, n: nat, rules: Rules)
    requires Inv(w, rules)
    ensures Good(w, Allot(w, n), rules)
  {
    var w' := Allot(w, n);
    assert Grows(w, w') by { hide Lower; }
    StatusesGrow(w, w');
    SameReviews(w, w');
    GoodItself(w, rules);
    hide Honest, Recorded, OnDiff, Names, StatusesOk, Earned, BuildStep, RunStep, NewStatus, OnlyAttached, Registered;
  }

  lemma AskKeeps(w: World, a: Asked, rules: Rules)
    requires Inv(w, rules)
    ensures Good(w, w.(asked := w.asked + [a]), rules)
  {
    var w' := w.(asked := w.asked + [a]);
    assert Grows(w, w') by { hide Lower; }
    StatusesGrow(w, w');
    SameReviews(w, w');
    GoodItself(w, rules);
    hide Honest, Recorded, OnDiff, Names, StatusesOk, Earned, BuildStep, RunStep, NewStatus, OnlyAttached, Registered;
  }

  lemma AcceptKeeps(w: World, c: Completion, rules: Rules)
    requires rules.mayNative && Inv(w, rules) && ForBuild(w, c)
    ensures Good(w, Accept(w, c), rules)
  {
    var w' := Accept(w, c);
    assert Grows(w, w') by { hide Lower; }
    StatusesGrow(w, w');
    SameReviews(w, w');
    AcceptInv(w, c, rules);
    GoodItself(w, rules);
    hide Inv, BuildStep, RunStep, NewStatus, OnlyAttached, Lower;
  }

  lemma AcceptInv(w: World, c: Completion, rules: Rules)
    requires Inv(w, rules) && ForBuild(w, c) && StatusesOk(Accept(w, c))
    ensures Inv(Accept(w, c), rules)
  {
    SameReviews(w, Accept(w, c));
    hide Honest, Recorded, OnDiff, Names, StatusesOk, Earned, Registered, Lower;
  }

  ghost predicate Unreviewed(w: World, key: Key) {
    forall i :: 0 <= i < |w.reviews| ==> w.reviews[i].key != key
  }

  lemma IssueKeeps(w: World, r: ReviewPost, rules: Rules)
    requires Inv(w, rules) && ReviewOk(w, r) && Unreviewed(w, r.key)
    ensures Good(w, Issue(w, r), rules)
  {
    hide BuildsOk, QueuesOk, RunsOk, ReviewsOk, StatusesOk, AcceptedOk, Grows, Evolves, ReviewOk, Unreviewed, Issue;
    IssueEvolves(w, r, rules);
    IssueStore(w, r, rules);
    IssueReviews(w, r);
    IssueRuns(w, r);
    StatusesGrow(w, Issue(w, r));
  }

  lemma IssueEvolves(w: World, r: ReviewPost, rules: Rules)
    ensures Evolves(w, Issue(w, r), rules) && Grows(w, Issue(w, r)) && Issue(w, r).statuses == w.statuses
  {
    hide Lower, OtherChecks, OtherArtifacts, NewStatus;
  }

  lemma IssueStore(w: World, r: ReviewPost, rules: Rules)
    requires BuildsOk(w, rules) && QueuesOk(w) && AcceptedOk(w)
    ensures BuildsOk(Issue(w, r), rules) && QueuesOk(Issue(w, r)) && AcceptedOk(Issue(w, r))
  {
    hide Lower, Honest;
  }

  lemma IssueRuns(w: World, r: ReviewPost)
    requires RunsOk(w)
    ensures RunsOk(Issue(w, r)) && ReviewedAs(Issue(w, r), r.key, r.comments)
  {
    hide Recorded;
    var w' := Issue(w, r);
    assert w'.reviews[|w.reviews|] == r;
    forall key | key in w.runs && w.runs[key].status == RunSucceeded ensures Earned(w', w'.runs[key]) {
      assert Earned(w, w.runs[key]);
      var i :| 0 <= i < |w.reviews| && w.reviews[i].key == w.runs[key].key && w.reviews[i].comments == w.runs[key].output.value.findings;
      assert w'.reviews[i] == w.reviews[i];
    }
  }

  lemma IssueReviews(w: World, r: ReviewPost)
    requires ReviewsOk(w) && ReviewOk(w, r) && Unreviewed(w, r.key)
    ensures ReviewsOk(Issue(w, r))
  {
    hide OnDiff, Names;
  }

  // ---------------------------------------------------------------- facts to use

  lemma BuildFacts(w: World, id: Id, rules: Rules)
    requires Inv(w, rules) && id in w.builds
    ensures w.builds[id].id == id < w.nextId
    ensures rules.honest ==> Honest(w.builds[id].result)
    ensures Registered(w, w.builds[id])
    ensures var b := w.builds[id];
            b.queueItemId.Some? && b.queueItemId.value in w.queues ==>
              w.queues[b.queueItemId.value].buildId == id && w.queues[b.queueItemId.value].id == b.queueItemId.value < w.nextId
  {
  }

  lemma RunFacts(w: World, key: Key, rules: Rules)
    requires Inv(w, rules) && key in w.runs
    ensures w.runs[key].key == key && w.runs[key].id < w.nextId && Recorded(w.runs[key])
    ensures w.runs[key].status == RunSkipped ==> AskedIdle(w, key)
    ensures Earned(w, w.runs[key])
  {
  }

  lemma Later(w: World, w': World, rules: Rules)
    requires Good(w, w', rules)
    ensures Inv(w', rules) && w.nextId <= w'.nextId && w'.repositories == w.repositories
  {
  }

  lemma InvUnder(w: World, rules: Rules, others: Rules)
    requires Inv(w, rules) && others.honest == rules.honest
    ensures Inv(w, others)
  {
  }

  lemma NoneReused(w: World, w': World, id: Id, rules: Rules)
    requires Good(w, w', rules) && !rules.mayReuse && id in w'.builds && id !in w.builds
    ensures w'.builds[id].reusedFrom.None?
  {
  }

  lemma BuildLater(w: World, w': World, id: Id, rules: Rules)
    requires Good(w, w', rules) && id in w.builds
    ensures id in w'.builds && BuildStep(w.builds[id], w'.builds[id])
  {
  }

  lemma RunLater(w: World, w': World, key: Key, rules: Rules)
    requires Good(w, w', rules) && key in w.runs
    ensures key in w'.runs && w'.runs[key].id == w.runs[key].id
    ensures w.runs[key].status != RunRunning ==> w'.runs[key].status != RunRunning
  {
  }

  lemma AskedLater(w: World, w': World, key: Key, rules: Rules)
    requires Good(w, w', rules) && AskedIdle(w, key)
    ensures AskedIdle(w', key)
  {
    var i :| 0 <= i < |w.asked| && w.asked[i] == Asked(key, false);
    assert w'.asked[i] == w.asked[i];
  }

  lemma ReviewedLater(w: World, w': World, key: Key, comments: seq<Finding>, rules: Rules)
    requires Good(w, w', rules) && ReviewedAs(w, key, comments)
    ensures ReviewedAs(w', key, comments)
  {
    var i :| 0 <= i < |w.reviews| && w.reviews[i].key == key && w.reviews[i].comments == comments;
    assert w'.reviews[i] == w.reviews[i];
  }
}
