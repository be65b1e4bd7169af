/** What a review key identifies, and what a published AI-review success stands for. */
module ControlIdentity {
  import opened Text
  import opened Records
  import opened ControlPlane
  import opened ControlInvariants
  import opened ControlSafety
  import opened ControlRequests
  import opened ControlTheorems

  // ---------------------------------------------------------------- keys

  /** No base is written as the empty text. */
  function BaseText(c: Completion): string {
    if c.result.baseSha.None? then "" else c.result.baseSha.value
  }

  /** The same pull request, where zero and none are the same. */
  predicate SamePullRequest(a: Option<int>, b: Option<int>) {
    a == b || (a in {None, Some(0)} && b in {None, Some(0)})
  }

  /** Two completions, perhaps under two configurations, are reviewed under one key exactly when their repositories,
      bases and head commits agree up to case, their pull requests agree, and so do model and prompt. */
  lemma KeyExactly(env: Env, c: Completion, env': Env, c': Completion)
    ensures KeyOf(env, c) == KeyOf(env', c') <==>
              && UpToCase(c.result.repository, c'.result.repository)
              && UpToCase(c.result.commitSha, c'.result.commitSha)
              && UpToCase(BaseText(c), BaseText(c'))
              && SamePullRequest(c.result.pullRequest, c'.result.pullRequest)
              && env.model == env'.model && env.prompt == env'.prompt
  {
    LowerExactly(c.result.repository, c'.result.repository);
    LowerExactly(c.result.commitSha, c'.result.commitSha);
    LowerExactly(BaseText(c), BaseText(c'));
    assert Lower("") == "";
    hide Lower, UpToCase;
  }

  // ---------------------------------------------------------------- successes

  /** GitHub was asked to publish a review of this repository and commit. */
  ghost predicate ReviewAsked(w: World, repository: string, commitSha: string) {
    exists i :: 0 <= i < |w.reviews|
      && UpToCase(w.reviews[i].repository, repository) && UpToCase(w.reviews[i].commitSha, commitSha)
  }

  lemma ReviewedIsAsked(w: World, repository: string, commitSha: string)
    requires ReviewedFor(w, repository, commitSha)
    ensures ReviewAsked(w, repository, commitSha)
  {
    var i :| 0 <= i < |w.reviews|
      && Lower(w.reviews[i].repository) == Lower(repository) && Lower(w.reviews[i].commitSha) == Lower(commitSha);
    LowerExactly(w.reviews[i].repository, repository);
    LowerExactly(w.reviews[i].commitSha, commitSha);
    hide Lower, UpToCase;
  }

  /** Only this review happens; under `strict` a success of it stands for a published review. */
  function Reviewing(c: Completion, strict: bool): Rules {
    Rules(false, false, false, false, strict, Some(c))
  }

  predicate FindsSkipped(env: Env, w: World, c: Completion) {
    KeyOf(env, c) in w.runs && w.runs[KeyOf(env, c)].status == RunSkipped
  }

  /** Success means reviewed: whenever the review of an accepted completion publishes a status, it is an AI-review one
      of the completion's own repository, commit and build; and if it is a success, and no skipped run was found, GitHub
      was asked to publish a review of that repository and commit. */
  lemma SuccessIsReviewed(env: Env, repositories: map<Id, string>, ops: seq<Op>, k: nat, troubled: bool, i: nat)
    ensures var w := Run(env, repositories, ops);
            k < |w.accepted| ==>
              var c := w.accepted[k];
              var w' := ProcessAiReview(env, w, c, troubled).w;
              |w.statuses| <= i < |w'.statuses| ==>
                && w'.statuses[i] == StatusPost(c.result.repository, c.result.commitSha, AiReview, w'.statuses[i].state, c.buildId)
                && (w'.statuses[i].state == Success && !FindsSkipped(env, w, c) ==>
                      ReviewAsked(w', c.result.repository, c.result.commitSha))
  {
    var w := Run(env, repositories, ops);
    AnyRun(env, repositories, ops);
    hide Run, Inv, Good, ProcessAiReview, KeyOf, ReviewedFor, ReviewAsked, Addressed;
    if k < |w.accepted| {
      var c := w.accepted[k];
      var w', rules := ProcessAiReview(env, w, c, troubled).w, Reviewing(c, !FindsSkipped(env, w, c));
      AcceptedAddressed(w, k, ANY);
      InvUnder(w, ANY, rules);
      ProcessKeeps(env, w, c, troubled, rules);
      if |w.statuses| <= i < |w'.statuses| {
        NewStatusFacts(w, w', i, rules);
        if rules.strict && w'.statuses[i].state == Success { ReviewedIsAsked(w', c.result.repository, c.result.commitSha); }
      }
    }
  }

  /** What reviews leave alone: a review changes no queue item, delivery or accepted completion, adds no build, and
      changes a build only by attaching a log of that build to it. */
  lemma ReviewsOnlyAttach(env: Env, repositories: map<Id, string>, ops: seq<Op>, k: nat, troubled: bool, id: Id)
    ensures var w := Run(env, repositories, ops);
            k < |w.accepted| ==>
              var w' := ProcessAiReview(env, w, w.accepted[k], troubled).w;
              && w'.queues == w.queues && w'.deliveries == w.deliveries && w'.accepted == w.accepted
              && w'.triggers == w.triggers && w'.builds.Keys == w.builds.Keys
              && (id in w.builds ==> OnlyAttached(w.builds[id], w'.builds[id]))
  {
    var w := Run(env, repositories, ops);
    AnyRun(env, repositories, ops);
    hide Run, Inv, ProcessAiReview, Addressed, OnlyAttached, KeyOf, BuildStep, RunStep, NewStatus;
    if k < |w.accepted| {
      AcceptedAddressed(w, k, ANY);
      InvUnder(w, ANY, Reviewing(w.accepted[k], false));
      ProcessKeeps(env, w, w.accepted[k], troubled, Reviewing(w.accepted[k], false));
    }
  }

  lemma NewStatusFacts(w: World, w': World, i: nat, rules: Rules)
    requires Good(w, w', rules) && |w.statuses| <= i < |w'.statuses|
    ensures NewStatus(w', w'.statuses[i], rules)
  {
    hide Inv, BuildStep, RunStep, ReviewFrame, NewStatus;
  }
}
