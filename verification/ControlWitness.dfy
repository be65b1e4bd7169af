/** A run from the empty store, in which nothing raises, whose replayed review status contradicts the record. */
module ControlWitness {
  import opened Text
  import opened Records
  import opened ControlPlane
  import opened ControlInvariants
  import opened ControlSafety
  import opened ControlRequests
  import opened ControlTheorems
  import opened ControlProgress
  import Attachment
  import ControlReturns
  import ControlStatuses

  // ---------------------------------------------------------------- the environment, and one step of each kind

  const CALM_REPLY := Reply(NoFault, 0, false, None, None, NoResult, "", BrokerReview("", "", []))

  function CalmEnv(): Env {
    Env(t => CALM_REPLY, log => 0, "model", "prompt", true, None)
  }

  lemma NothingRaises()
    ensures Calm(CalmEnv()) && CalmEnv().window.None?
  {
  }

  function PullRequestTrigger(commitSha: string, pullRequest: int): TriggerRequest {
    TriggerRequest(0, commitSha, None, Some(pullRequest))
  }

  /** The first trigger records build 0 and nothing else that matters here. */
  lemma FirstTrigger(repository: string, commitSha: string, pullRequest: int)
    ensures var req := PullRequestTrigger(commitSha, pullRequest);
            var w := TriggerPipeline(CalmEnv(), Start(map[0 := repository]), req).w;
            && w.builds == map[0 := NativeBuild(0, 1, 0, repository, req)]
            && w.runs == map[] && w.accepted == [] && w.deliveries == [] && w.reviews == []
  {
    var req, w := PullRequestTrigger(commitSha, pullRequest), Start(map[0 := repository]);
    NothingRaises();
    StartGood(w.repositories, ANY);
    assert Found(CalmEnv(), w, req).None?;
    assert CalmEnv().replies(ControlStatuses.TriggerCall(w, req)).queueId == 0;
    ControlStatuses.MissStartsOne(CalmEnv(), w, req);
    ControlReturns.TriggerReturns(CalmEnv(), w, req);
    hide TriggerPipeline, CalmEnv, PostedOnly, Inv;
  }

  /** A first completion of a pull request, whose review comes later. */
  lemma FirstCompletion(w: World, c: Completion)
    requires Inv(w, ANY) && c.buildId in w.builds && OfBuild(c, w.builds[c.buildId]) && Terminal(c.result.status)
    requires c.result.pullRequest.Some? && DeliveryId(c) !in w.deliveries
    ensures var r := Callback(CalmEnv(), w, c);
            && r.w.builds == w.builds[c.buildId := CompletedBuild(w.builds[c.buildId], c)]
            && r.w.accepted == w.accepted + [c] && r.w.deliveries == w.deliveries + [DeliveryId(c)]
            && r.w.runs == w.runs && r.w.reviews == w.reviews
  {
    BuildFacts(w, c.buildId, ANY);
    NothingRaises();
    CompletesExactly(CalmEnv(), w, c);
    NotListed(w.deliveries, CalmEnv().window, DeliveryId(c));
    ControlReturns.CallbackReturns(CalmEnv(), w, c);
    hide Inv, CalmEnv, Callback, CompleteBuild, OfBuild, Listed, ProcessAiReview;
  }

  lemma NotListed(deliveries: seq<string>, window: Option<nat>, id: string)
    requires id !in deliveries
    ensures !Listed(deliveries, window, id)
  {
  }

  /** A build is still one of the completion after a review was attached to it, or the completion was saved. */
  lemma StillOfBuild(build: Build, runId: Id, log: AIReviewLog, c: Completion)
    requires OfBuild(c, build)
    ensures OfBuild(c, Attachment.Attached(build, runId, log, false, CalmEnv().logSize))
    ensures OfBuild(c, CompletedBuild(build, c)) && CompletedBuild(build, c).id == build.id
  {
    hide UpToCase, Lower, Attachment.OtherChecks, Attachment.OtherArtifacts, Attachment.OtherRuns;
    SameText(c.result.repository);
    SameText(c.result.commitSha);
    SameText(if c.result.baseSha.None? then "" else c.result.baseSha.value);
  }

  lemma SameText(s: string)
    ensures UpToCase(s, s)
  {
  }

  // ---------------------------------------------------------------- the run

  lemma RunSnoc(env: Env, repositories: map<Id, string>, ops: seq<Op>, op: Op)
    ensures Run(env, repositories, ops + [op]) == Step(env, Run(env, repositories, ops), op).w
  {
    assert (ops + [op])[..|ops|] == ops;
  }

  /** A passed completion of build 0 with the review policy on or off. */
  function Delivery(callbackId: string, repository: string, commitSha: string, pullRequest: int, enabled: bool): Completion {
    Completion(callbackId, 0,
               PipelineResult(repository, commitSha, None, None, Some(0), Some(pullRequest), Passed, [], [], []),
               DEFAULT_POLICY.(enabled := enabled), None)
  }

  lemma DeliveriesDiffer(a: Completion, b: Completion)
    requires |a.callbackId| != |b.callbackId|
    ensures DeliveryId(a) != DeliveryId(b)
  {
  }

  lemma Reviewed(env: Env, w: World, i: nat)
    requires i < |w.accepted| && ProcessAiReview(env, w, w.accepted[i], false).Go?
    ensures Step(env, w, ReviewLater(i)).w == ProcessAiReview(env, w, w.accepted[i], false).w
  {
    ReviewTries(env, w, w.accepted[i]);
    hide ProcessAiReview;
  }

  lemma CompleteStep(env: Env, w: World, c: Completion)
    ensures Step(env, w, Complete(c)).w == Callback(env, w, c).w
  {
    hide Callback;
  }

  /** The trigger, the disabled completion and its review. */
  function SkippingOps(repository: string, commitSha: string, pullRequest: int): seq<Op> {
    [] + [Trigger(PullRequestTrigger(commitSha, pullRequest))]
    + [Complete(Delivery("callback-1", repository, commitSha, pullRequest, false))] + [ReviewLater(0)]
  }

  lemma ReviewedAsDisabled(w: World, first: Completion)
    requires Inv(w, ANY) && w.accepted == [first] && w.reviews == [] && !Live(first) && KeyOf(CalmEnv(), first) !in w.runs
    requires first.buildId in w.builds && w.builds[first.buildId].id == first.buildId && OfBuild(first, w.builds[first.buildId])
    ensures var w', key := Step(CalmEnv(), w, ReviewLater(0)).w, KeyOf(CalmEnv(), first);
            && w'.reviews == [] && w'.accepted == [first] && w'.deliveries == w.deliveries
            && key in w'.runs && w'.runs[key].status == RunSkipped
            && first.buildId in w'.builds && w'.builds[first.buildId].id == first.buildId && OfBuild(first, w'.builds[first.buildId])
  {
    var env, build := CalmEnv(), w.builds[first.buildId];
    var log := LogFor(first, w.nextId, OutcomeSkipped, []);
    NothingRaises();
    FreshSkip(env, w, first, false);
    Reviewed(env, w, 0);
    StillOfBuild(build, w.nextId, log, first);
    AttachedFields(build, w.nextId, log, false, env.logSize);
    hide CalmEnv, ProcessAiReview, KeyOf, OfBuild, Inv, Attachment.Attached, Step, Calm;
  }

  lemma OfItself(repository: string, commitSha: string, pullRequest: int, build: Build, c: Completion)
    requires build == NativeBuild(0, 1, 0, repository, PullRequestTrigger(commitSha, pullRequest))
    requires c == Delivery("callback-1", repository, commitSha, pullRequest, false)
    ensures OfBuild(c, build)
  {
    SameText(repository);
    SameText(commitSha);
    SameText("");
    hide UpToCase;
  }

  /** The trigger and the disabled completion. */
  lemma CompletedAfterTwo(repository: string, commitSha: string, pullRequest: int, first: Completion)
    requires first == Delivery("callback-1", repository, commitSha, pullRequest, false)
    ensures var ops := [] + [Trigger(PullRequestTrigger(commitSha, pullRequest))] + [Complete(first)];
            var w := Run(CalmEnv(), map[0 := repository], ops);
            && w.reviews == [] && w.accepted == [first] && w.deliveries == [DeliveryId(first)] && w.runs == map[]
            && 0 in w.builds && w.builds[0].id == 0 && OfBuild(first, w.builds[0])
  {
    var env, repositories, req := CalmEnv(), map[0 := repository], PullRequestTrigger(commitSha, pullRequest);
    var ops0: seq<Op> := [];
    assert Run(env, repositories, ops0) == Start(repositories);
    RunSnoc(env, repositories, ops0, Trigger(req));
    RunSnoc(env, repositories, ops0 + [Trigger(req)], Complete(first));
    var build := NativeBuild(0, 1, 0, repository, req);
    assert OfBuild(first, build) by { OfItself(repository, commitSha, pullRequest, build, first); }
    assert build.id == 0;
    hide Run, CalmEnv, TriggerPipeline, Callback, OfBuild, DeliveryId, NativeBuild;
    FirstTrigger(repository, commitSha, pullRequest);
    RunKeeps(env, repositories, ops0 + [Trigger(req)], ANY);
    FirstCompletion(Run(env, repositories, ops0 + [Trigger(req)]), first);
    StillOfBuild(build, 0, LogFor(first, 0, OutcomeSkipped, []), first);
  }

  /** They leave a skipped run. */
  lemma SkippedAfterThree(repository: string, commitSha: string, pullRequest: int)
    ensures var first := Delivery("callback-1", repository, commitSha, pullRequest, false);
            var w := Run(CalmEnv(), map[0 := repository], SkippingOps(repository, commitSha, pullRequest));
            && w.reviews == [] && w.accepted == [first] && w.deliveries == [DeliveryId(first)]
            && KeyOf(CalmEnv(), first) in w.runs && w.runs[KeyOf(CalmEnv(), first)].status == RunSkipped
            && 0 in w.builds && w.builds[0].id == 0 && OfBuild(first, w.builds[0])
  {
    var first := Delivery("callback-1", repository, commitSha, pullRequest, false);
    var ops := [] + [Trigger(PullRequestTrigger(commitSha, pullRequest))] + [Complete(first)];
    hide Run, CalmEnv, KeyOf, OfBuild, DeliveryId, Inv, Step;
    CompletedAfterTwo(repository, commitSha, pullRequest, first);
    RunKeeps(CalmEnv(), map[0 := repository], ops, ANY);
    RunSnoc(CalmEnv(), map[0 := repository], ops, ReviewLater(0));
    ReviewedAsDisabled(Run(CalmEnv(), map[0 := repository], ops), first);
  }

  /** Then the pull request is completed again with the review enabled, and reviewed. */
  function DisagreeingOps(repository: string, commitSha: string, pullRequest: int): seq<Op> {
    SkippingOps(repository, commitSha, pullRequest)
    + [Complete(Delivery("callback-02", repository, commitSha, pullRequest, true))] + [ReviewLater(1)]
  }

  lemma SameKey(first: Completion, second: Completion)
    requires second.result == first.result
    ensures KeyOf(CalmEnv(), second) == KeyOf(CalmEnv(), first)
    ensures forall b :: OfBuild(second, b) <==> OfBuild(first, b)
  {
    hide Lower;
  }

  /** A calm state whose run under the key of the second completion was skipped, before that completion comes. */
  ghost predicate Skipped(w: World, first: Completion, second: Completion) {
    && Inv(w, ANY) && w.reviews == [] && w.accepted == [first] && w.deliveries == [DeliveryId(first)]
    && KeyOf(CalmEnv(), second) in w.runs && w.runs[KeyOf(CalmEnv(), second)].status == RunSkipped
    && second.buildId in w.builds && w.builds[second.buildId].id == second.buildId && OfBuild(second, w.builds[second.buildId])
  }

  lemma CompletedWhileSkipped(w: World, first: Completion, second: Completion)
    requires Skipped(w, first, second) && Terminal(second.result.status) && second.result.pullRequest.Some?
    requires DeliveryId(second) != DeliveryId(first)
    ensures var w' := Callback(CalmEnv(), w, second).w;
            && Inv(w', ANY) && w'.reviews == [] && w'.accepted == [first, second] && w'.runs == w.runs
            && second.buildId in w'.builds && w'.builds[second.buildId].id == second.buildId
  {
    hide CalmEnv, Callback, KeyOf, OfBuild, DeliveryId, Inv;
    FirstCompletion(w, second);
    StillOfBuild(w.builds[second.buildId], 0, LogFor(second, 0, OutcomeSkipped, []), second);
    CallbackKeeps(CalmEnv(), w, second, ANY);
    Later(w, Callback(CalmEnv(), w, second).w, ANY);
    hide CompletedBuild;
  }

  lemma ReviewedWhileSkipped(w: World, second: Completion)
    requires Inv(w, ANY) && w.reviews == [] && |w.accepted| == 2 && w.accepted[1] == second && Live(second)
    requires KeyOf(CalmEnv(), second) in w.runs && w.runs[KeyOf(CalmEnv(), second)].status == RunSkipped
    requires second.buildId in w.builds && w.builds[second.buildId].id == second.buildId
    ensures var w', key := Step(CalmEnv(), w, ReviewLater(1)).w, KeyOf(CalmEnv(), second);
            && w'.reviews == [] && key in w'.runs && w'.runs[key].status == RunSkipped && !Agrees(w'.runs[key], Success)
            && w'.statuses == w.statuses + [AiStatus(second, Success)]
  {
    hide CalmEnv, ProcessAiReview, KeyOf, Inv, Recorded, Step;
    NothingRaises();
    SettledReplay(CalmEnv(), w, second, false);
    RunFacts(w, KeyOf(CalmEnv(), second), ANY);
    ReplayedStateAgrees(w.runs[KeyOf(CalmEnv(), second)]);
    NotBlocking(w.runs[KeyOf(CalmEnv(), second)]);
    Reviewed(CalmEnv(), w, 1);
  }

  /** The disagreement is reached from the empty store, for any repository, commit and pull request, although nothing
      raises: the last published status says that the review succeeded, the stored run says that it was skipped, and
      no review was ever asked of GitHub. */
  lemma DisagreementIsReached(repository: string, commitSha: string, pullRequest: int)
    ensures var second := Delivery("callback-02", repository, commitSha, pullRequest, true);
            var w, key := Run(CalmEnv(), map[0 := repository], DisagreeingOps(repository, commitSha, pullRequest)), KeyOf(CalmEnv(), second);
            && w.reviews == [] && key in w.runs && w.runs[key].status == RunSkipped && !Agrees(w.runs[key], Success)
            && w.statuses != [] && w.statuses[|w.statuses| - 1] == AiStatus(second, Success)
  {
    hide Run, CalmEnv, Callback, KeyOf, OfBuild, DeliveryId, Inv, Agrees, SkippingOps, Step;
    var env, repositories := CalmEnv(), map[0 := repository];
    var first := Delivery("callback-1", repository, commitSha, pullRequest, false);
    var second := Delivery("callback-02", repository, commitSha, pullRequest, true);
    var ops3 := SkippingOps(repository, commitSha, pullRequest);
    var ops4 := ops3 + [Complete(second)];
    SkippedAfterThree(repository, commitSha, pullRequest);
    RunSnoc(env, repositories, ops3, Complete(second));
    RunSnoc(env, repositories, ops4, ReviewLater(1));
    DeliveriesDiffer(first, second);
    SameKey(first, second);
    AnyRun(env, repositories, ops3);
    CompletedWhileSkipped(Run(env, repositories, ops3), first, second);
    CompleteStep(env, Run(env, repositories, ops3), second);
    ReviewedWhileSkipped(Run(env, repositories, ops4), second);
  }

  lemma NotBlocking(run: ExtensionRun)
    requires Recorded(run) && run.status == RunSkipped
    ensures Deduplicated(run) == Success
  {
  }
}
