/** Reuse of native results: what a hit points to, when there is one, and what it starts. */
module ControlReuse {
  import opened Text
  import opened Records
  import opened Attachment
  import opened ControlPlane
  import opened ControlInvariants
  import opened ControlSafety
  import opened ControlRequests
  import opened ControlTheorems

  // ---------------------------------------------------------------- when there is a hit

  /** The build can stand for this commit on this base: a passed native build of the repository, of the commit and with
      the base as trusted SHA, up to case, that is not itself reused. */
  predicate Serves(build: Build, repositoryId: Id, commitSha: string, base: string) {
    && build.repositoryId == repositoryId
    && UpToCase(build.result.commitSha, commitSha)
    && UpToCase(if build.result.trustedSha.None? then "" else build.result.trustedSha.value, base)
    && build.result.pullRequest.None? && build.result.status == Passed && build.reusedFrom.None?
  }

  lemma ServesExactly(build: Build, repositoryId: Id, commitSha: string, base: string)
    ensures Reusable(build, repositoryId, commitSha, base) <==> Serves(build, repositoryId, commitSha, base)
  {
    LowerExactly(build.result.commitSha, commitSha);
    LowerExactly(if build.result.trustedSha.None? then "" else build.result.trustedSha.value, base);
    assert Lower("") == "";
    hide Lower, UpToCase;
  }

  /** The newest element wins: the found build is reusable and no later one is. */
  lemma {:induction false} NewestExactly(builds: seq<Build>, repositoryId: Id, commitSha: string, base: string) returns (i: int)
    ensures -1 <= i < |builds|
    ensures NewestReusable(builds, repositoryId, commitSha, base) == if i < 0 then None else Some(builds[i])
    ensures i >= 0 ==> Serves(builds[i], repositoryId, commitSha, base)
    ensures forall j :: i < j < |builds| ==> !Serves(builds[j], repositoryId, commitSha, base)
  {
    hide Reusable, Serves;
    if builds == [] {
      i := -1;
    } else {
      var last := |builds| - 1;
      ServesExactly(builds[last], repositoryId, commitSha, base);
      if Reusable(builds[last], repositoryId, commitSha, base) {
        i := last;
      } else {
        i := NewestExactly(builds[..last], repositoryId, commitSha, base);
      }
    }
  }

  /** The stored builds that were created after this one. */
  ghost function Newer(builds: map<Id, Build>, id: Id, below: Id): set<Id> {
    set k | k in builds && id < k < below
  }

  /** Each stored build is listed, after all older ones. */
  lemma {:induction false} StoredListed(builds: map<Id, Build>, below: Id, id: Id) returns (i: nat)
    requires id in builds && id < below
    ensures i < |BuildsBelow(builds, below)| && BuildsBelow(builds, below)[i] == builds[id]
    ensures |Newer(builds, id, below)| == |BuildsBelow(builds, below)| - 1 - i
  {
    if below - 1 == id {
      i := |BuildsBelow(builds, below - 1)|;
      assert Newer(builds, id, below) == {};
    } else {
      i := StoredListed(builds, below - 1, id);
      if below - 1 in builds {
        assert Newer(builds, id, below) == Newer(builds, id, below - 1) + {below - 1};
      } else {
        assert Newer(builds, id, below) == Newer(builds, id, below - 1);
      }
    }
  }

  /** A stored build serves the request, and is not older than the listed window. */
  ghost predicate Usable(env: Env, w: World, req: TriggerRequest, id: Id)
    requires req.baseSha.Some?
  {
    && id in w.builds && Serves(w.builds[id], req.repositoryId, req.commitSha, req.baseSha.value)
    && (env.window.Some? ==> |Newer(w.builds, id, w.nextId)| < env.window.value)
  }

  lemma {:induction false} ListedNewer(builds: map<Id, Build>, below: Id, i: nat) returns (id: Id)
    requires i < |BuildsBelow(builds, below)|
    ensures id in builds && id < below && builds[id] == BuildsBelow(builds, below)[i]
    ensures |Newer(builds, id, below)| == |BuildsBelow(builds, below)| - 1 - i
  {
    if below - 1 in builds && i == |BuildsBelow(builds, below - 1)| {
      id := below - 1;
      assert Newer(builds, id, below) == {};
    } else {
      id := ListedNewer(builds, below - 1, i);
      if below - 1 in builds {
        assert Newer(builds, id, below) == Newer(builds, id, below - 1) + {below - 1};
      } else {
        assert Newer(builds, id, below) == Newer(builds, id, below - 1);
      }
    }
  }

  lemma FewerNewer(builds: map<Id, Build>, a: Id, b: Id, below: Id)
    requires a < b < below && b in builds
    ensures |Newer(builds, b, below)| < |Newer(builds, a, below)|
  {
    var later := Newer(builds, b, below) + {b};
    assert later <= Newer(builds, a, below);
    FewerElements(later, Newer(builds, a, below));
  }

  lemma {:induction false} FewerElements(a: set<Id>, b: set<Id>)
    requires a <= b
    ensures |a| <= |b|
    decreases a
  {
    if a != {} {
      var k :| k in a;
      FewerElements(a - {k}, b - {k});
    }
  }

  /** The listing is the newest part of all builds. */
  lemma ListedPart(env: Env, w: World, i: nat)
    requires i < |ListBuilds(env, w)|
    ensures var all, listed := BuildsBelow(w.builds, w.nextId), ListBuilds(env, w);
            && |listed| <= |all| && (env.window.Some? ==> |listed| <= env.window.value)
            && listed[i] == all[i + |all| - |listed|]
  {
    hide BuildsBelow;
  }

  lemma FoundUsable(env: Env, w: World, req: TriggerRequest, i: nat, rules: Rules)
    requires Inv(w, rules) && req.baseSha.Some? && i < |ListBuilds(env, w)|
    requires Serves(ListBuilds(env, w)[i], req.repositoryId, req.commitSha, req.baseSha.value)
    ensures var b := ListBuilds(env, w)[i];
            && b.id in w.builds && w.builds[b.id] == b && Usable(env, w, req, b.id)
            && |Newer(w.builds, b.id, w.nextId)| == |ListBuilds(env, w)| - 1 - i
  {
    var all, listed := BuildsBelow(w.builds, w.nextId), ListBuilds(env, w);
    ListedPart(env, w, i);
    hide ListBuilds, Serves;
    var id := ListedNewer(w.builds, w.nextId, i + |all| - |listed|);
    BuildFacts(w, id, rules);
    hide Inv, BuildsBelow, Newer;
  }

  lemma UsableListed(env: Env, w: World, req: TriggerRequest, id: Id, rules: Rules) returns (j: nat)
    requires Inv(w, rules) && req.baseSha.Some? && Usable(env, w, req, id)
    ensures j < |ListBuilds(env, w)| && ListBuilds(env, w)[j] == w.builds[id]
    ensures |Newer(w.builds, id, w.nextId)| == |ListBuilds(env, w)| - 1 - j
  {
    BuildFacts(w, id, rules);
    var all, listed := BuildsBelow(w.builds, w.nextId), ListBuilds(env, w);
    var k := StoredListed(w.builds, w.nextId, id);
    hide Inv, BuildsBelow, Newer, Serves;
    j := k - (|all| - |listed|);
  }

  /** A pull request of a registered repository hits exactly when a stored native build of its repository and commit has
      passed with its base as trusted SHA, and is among the newest builds of the listing; what is found is the newest. */
  lemma HitExactly(env: Env, w: World, req: TriggerRequest, rules: Rules)
    requires Inv(w, rules)
    requires req.repositoryId in w.repositories && req.pullRequest.Some? && req.baseSha.Some?
    ensures var found := Found(env, w, req);
            && (found.Some? <==> exists id: Id :: Usable(env, w, req, id))
            && (found.Some? ==>
                  && found.value.id in w.builds && w.builds[found.value.id] == found.value && Usable(env, w, req, found.value.id)
                  && forall id: Id :: Usable(env, w, req, id) ==> id <= found.value.id)
  {
    var listed := ListBuilds(env, w);
    var i := NewestExactly(listed, req.repositoryId, req.commitSha, req.baseSha.value);
    assert Found(env, w, req) == if i < 0 then None else Some(listed[i]);
    hide NewestReusable, Inv, ListBuilds, Found, Newer;
    if i >= 0 {
      FoundUsable(env, w, req, i, rules);
    }
    forall id: Id | Usable(env, w, req, id)
      ensures i >= 0 && id <= listed[i].id
    {
      var j := UsableListed(env, w, req, id, rules);
      assert Serves(listed[j], req.repositoryId, req.commitSha, req.baseSha.value);
      BuildFacts(w, id, rules);
      if listed[i].id < id { FewerNewer(w.builds, listed[i].id, id, w.nextId); }
    }
    hide Usable;
  }

  // ---------------------------------------------------------------- what a trigger starts

  /** A hit starts no Jenkins build, however it ends. */
  lemma HitStartsNothing(env: Env, w: World, req: TriggerRequest, honest: bool)
    requires Inv(w, Rules(honest, false, true, true, false, None)) && Found(env, w, req).Some?
    ensures TriggerPipeline(env, w, req).w.triggers == w.triggers
  {
    TriggerKeeps(env, w, req, Rules(honest, false, true, true, false, None));
    SameTriggers(w, TriggerPipeline(env, w, req).w, honest);
    hide Inv, TriggerPipeline, Found;
  }

  lemma SameTriggers(w: World, w': World, honest: bool)
    requires Good(w, w', Rules(honest, false, true, true, false, None))
    ensures w'.triggers == w.triggers
  {
  }

  // ---------------------------------------------------------------- what a hit leaves

  lemma ReuseStores(env: Env, w: World, repository: string, req: TriggerRequest, source: Build, rules: Rules)
    requires Serial(rules) && rules.mayReuse && Inv(w, rules) && Hits(w, repository, req, source)
    ensures var r := ReuseNativeResult(env, w, repository, req, source);
            r.Go? ==>
              && r.value.buildId == w.nextId && w.nextId in r.w.builds
              && BuildStep(ReusedBuild(w.nextId, w.nextId + 1, req, source), r.w.builds[w.nextId])
  {
    var queue, build := ReusedQueue(w.nextId + 1, w.nextId, req), ReusedBuild(w.nextId, w.nextId + 1, req, source);
    ReusedFields(w.nextId, w.nextId + 1, req, source);
    ReuseUnfolds(env, w, repository, req, source);
    ReuseReturns(env, w, repository, req, source);
    var saved := SavePair(env, Allot(w, 2), queue, build);
    hide *;
    if ReuseNativeResult(env, w, repository, req, source).Go? {
      ReusedSaves(env, w, repository, req, source, rules);
      Later(w, saved.w, rules);
      ReviewReusedKeeps(env, saved.w, repository, req.commitSha, build, rules);
      var r := ReviewReused(env, saved.w, repository, req.commitSha, build);
      BuildLater(saved.w, r.w, w.nextId, rules);
    }
  }

  lemma ReuseReturns(env: Env, w: World, repository: string, req: TriggerRequest, source: Build)
    ensures var r := ReuseNativeResult(env, w, repository, req, source);
            var queue, build := ReusedQueue(w.nextId + 1, w.nextId, req), ReusedBuild(w.nextId, w.nextId + 1, req, source);
            r.Go? ==>
              && r.value.buildId == w.nextId
              && build.reviewPolicy.Some?
              && var saved := SavePair(env, Allot(w, 2), queue, build);
                 saved.Go? && ReviewReused(env, saved.w, repository, req.commitSha, build).Go?
  {
    ReuseUnfolds(env, w, repository, req, source);
    hide ReuseNativeResult, SavePair, ReviewReused, ReusedBuild, Allot;
  }

  /** A hit that returns has recorded a build of the pull request that points to the found build. */
  lemma HitRecordsSource(env: Env, w: World, req: TriggerRequest, rules: Rules)
    requires Serial(rules) && rules.mayReuse && Inv(w, rules) && Found(env, w, req).Some?
    ensures var r, source := TriggerPipeline(env, w, req), Found(env, w, req).value;
            r.Go? ==>
              && r.value.buildId in r.w.builds && r.value.buildId !in w.builds
              && var b := r.w.builds[r.value.buildId];
                 && b.reusedFrom == Some(source.id) && b.repositoryId == req.repositoryId
                 && b.result.pullRequest == req.pullRequest
                 && Lower(b.result.commitSha) == Lower(req.commitSha)
                 && LowerOr(b.result.baseSha) == Lower(req.baseSha.value) == LowerOr(source.result.trustedSha)
  {
    var w2, source := Tick(Tick(w)), Found(env, w, req).value;
    QuietKeeps(env, w, rules);
    QuietKeeps(env, Tick(w), rules);
    HitReturns(env, w, req);
    FoundHits(env, w, req, rules);
    NewIds(w2, w2.nextId, rules);
    hide Inv, TriggerPipeline, ReuseNativeResult, Lower, NewestReusable;
    ReuseStores(env, w2, w.repositories[req.repositoryId], req, source, rules);
    hide Found;
  }

  lemma HitReturns(env: Env, w: World, req: TriggerRequest)
    requires Found(env, w, req).Some?
    ensures TriggerPipeline(env, w, req).Go? ==>
              TriggerPipeline(env, w, req)
              == ReuseNativeResult(env, Tick(Tick(w)), w.repositories[req.repositoryId], req, Found(env, w, req).value)
  {
    hide StartNative, ReuseNativeResult, NewestReusable, BuildsBelow, Recent;
  }

  lemma ReuseAudits(env: Env, w: World, repository: string, req: TriggerRequest, source: Build, rules: Rules)
    requires Serial(rules) && rules.mayReuse && Inv(w, rules) && Hits(w, repository, req, source)
    requires source.reviewPolicy.Some? && !source.reviewPolicy.value.enabled
    ensures var r := ReuseNativeResult(env, w, repository, req, source); r.Go? ==> Audited(r.w, r.value.buildId)
  {
    var queue, build := ReusedQueue(w.nextId + 1, w.nextId, req), ReusedBuild(w.nextId, w.nextId + 1, req, source);
    ReusedFields(w.nextId, w.nextId + 1, req, source);
    ReuseUnfolds(env, w, repository, req, source);
    ReuseReturns(env, w, repository, req, source);
    var saved := SavePair(env, Allot(w, 2), queue, build);
    assert !build.reviewPolicy.value.enabled;
    hide *;
    if ReuseNativeResult(env, w, repository, req, source).Go? {
      ReusedSaves(env, w, repository, req, source, rules);
      Later(w, saved.w, rules);
      ReviewReusedKeeps(env, saved.w, repository, req.commitSha, build, rules);
    }
  }

  /** A reuse that returns although the source's policy disables reviews has left its new build with a log of its own. */
  lemma DisabledReuseIsAudited(env: Env, w: World, req: TriggerRequest, rules: Rules)
    requires Serial(rules) && rules.mayReuse && Inv(w, rules) && Found(env, w, req).Some?
    requires Found(env, w, req).value.reviewPolicy.Some? && !Found(env, w, req).value.reviewPolicy.value.enabled
    ensures var r := TriggerPipeline(env, w, req); r.Go? ==> Audited(r.w, r.value.buildId)
  {
    var w2, source := Tick(Tick(w)), Found(env, w, req).value;
    QuietKeeps(env, w, rules);
    QuietKeeps(env, Tick(w), rules);
    HitReturns(env, w, req);
    FoundHits(env, w, req, rules);
    hide Inv, TriggerPipeline, ReuseNativeResult, Lower, NewestReusable, Audited;
    ReuseAudits(env, w2, w.repositories[req.repositoryId], req, source, rules);
    hide Found;
  }

  // ---------------------------------------------------------------- every new reused build

  /** The stored build that a reused one points to could be reused for it: native, passed, not itself reused,
      of its repository and commit, and with its base as trusted SHA. */
  predicate FromReusable(w: World, b: Build) {
    && b.reusedFrom.Some? && b.reusedFrom.value in w.builds
    && b.result.pullRequest.Some? && Terminal(b.result.status)
    && w.builds[b.reusedFrom.value].id == b.reusedFrom.value
    && Serves(w.builds[b.reusedFrom.value], b.repositoryId, b.result.commitSha, if b.result.baseSha.None? then "" else b.result.baseSha.value)
  }

  lemma SavePairBuilds(env: Env, w: World, q: QueueItem, b: Build)
    ensures var r := SavePair(env, w, q, b);
            (r.w.builds == w.builds && r.Halt?) || r.w.builds == w.builds[b.id := b]
  {
  }

  /** However a reuse ends, the one new build that points anywhere is the one it made of the source. */
  lemma ReuseCreates(env: Env, w: World, repository: string, req: TriggerRequest, source: Build, id: Id, rules: Rules)
    requires Serial(rules) && rules.mayReuse && Inv(w, rules) && Hits(w, repository, req, source)
    ensures var r := ReuseNativeResult(env, w, repository, req, source).w;
            id in r.builds && id !in w.builds && r.builds[id].reusedFrom.Some? ==>
              BuildStep(ReusedBuild(w.nextId, w.nextId + 1, req, source), r.builds[id])
  {
    assert Serial(rules.(mayReuse := false));
    hide *;
    var queue, build := ReusedQueue(w.nextId + 1, w.nextId, req), ReusedBuild(w.nextId, w.nextId + 1, req, source);
    ReusedFields(w.nextId, w.nextId + 1, req, source);
    ReuseUnfolds(env, w, repository, req, source);
    SavePairBuilds(env, Allot(w, 2), queue, build);
    AllotBuilds(w, 2);
    var saved := SavePair(env, Allot(w, 2), queue, build);
    ItselfSteps(build);
    ReusedSaves(env, w, repository, req, source, rules);
    Later(w, saved.w, rules);
    var r := ReuseNativeResult(env, w, repository, req, source).w;
    if saved.Go? && id in r.builds && id !in w.builds && r.builds[id].reusedFrom.Some? {
      var none := rules.(mayReuse := false);
      InvUnder(saved.w, rules, none);
      ReviewReusedKeeps(env, saved.w, repository, req.commitSha, build, none);
      if id !in saved.w.builds {
        NoneReused(saved.w, r, id, none);
      } else {
        BuildLater(saved.w, r, id, none);
      }
    }
  }

  lemma AllotBuilds(w: World, n: nat)
    ensures Allot(w, n).builds == w.builds
  {
  }

  lemma ItselfSteps(b: Build)
    ensures BuildStep(b, b)
  {
  }

  lemma ReusedFromReusable(w: World, id: Id, repository: string, req: TriggerRequest, source: Build, b: Build, rules: Rules)
    requires Inv(w, rules) && Hits(w, repository, req, source)
    requires BuildStep(ReusedBuild(id, id + 1, req, source), b)
    ensures FromReusable(w, b)
  {
    BuildFacts(w, source.id, rules);
    assert Lower("") == "";
    ServesExactly(source, b.repositoryId, b.result.commitSha, if b.result.baseSha.None? then "" else b.result.baseSha.value);
    hide Serves, Inv, Lower, OtherChecks, OtherArtifacts;
  }

  /** Nothing is assumed of the results that come in, and none is reused. */
  const NO_REUSE := Rules(false, true, false, true, false, None)

  /** A request adds no reused build, or only ones made from builds that were reusable before it. */
  ghost predicate CreatesSoundly(w: World, w': World, id: Id) {
    id in w'.builds && id !in w.builds && w'.builds[id].reusedFrom.Some? ==> FromReusable(w, w'.builds[id])
  }

  lemma NothingCreated(w: World, w': World, id: Id, rules: Rules)
    requires w'.builds == w.builds || (Good(w, w', rules) && !rules.mayReuse)
    ensures CreatesSoundly(w, w', id)
  {
    hide Inv, FromReusable;
  }

  lemma HitCreates(env: Env, w: World, repository: string, req: TriggerRequest, source: Build, id: Id)
    requires Inv(w, ANY) && Hits(w, repository, req, source)
    ensures CreatesSoundly(w, ReuseNativeResult(env, w, repository, req, source).w, id)
  {
    hide Inv, ReuseNativeResult, BuildStep, ReusedBuild, FromReusable, Reusable;
    ReuseCreates(env, w, repository, req, source, id, ANY);
    var r := ReuseNativeResult(env, w, repository, req, source).w;
    if id in r.builds && id !in w.builds && r.builds[id].reusedFrom.Some? {
      ReusedFromReusable(w, w.nextId, repository, req, source, r.builds[id], ANY);
    }
  }

  lemma CreatesAlike(w: World, w': World, r: World, id: Id)
    requires w'.builds == w.builds && CreatesSoundly(w', r, id)
    ensures CreatesSoundly(w, r, id)
  {
  }

  /** A trigger, returned or raised, points new builds only to reusable ones. */
  lemma TriggerCreates(env: Env, w: World, req: TriggerRequest, id: Id)
    requires Inv(w, ANY)
    ensures CreatesSoundly(w, TriggerPipeline(env, w, req).w, id)
  {
    var w1, w2, r, found := Tick(w), Tick(Tick(w)), TriggerPipeline(env, w, req), Found(env, w, req);
    TriggerUnfolds(env, w, req);
    QuietKeeps(env, w, ANY);
    QuietKeeps(env, w1, ANY);
    TickBuilds(w);
    TickBuilds(w1);
    if found.None? {
      hide *;
      InvUnder(w, ANY, NO_REUSE);
      TriggerKeeps(env, w, req, NO_REUSE);
      NothingCreated(w, r.w, id, NO_REUSE);
    } else if r.w.builds == w.builds {
      NothingCreated(w, r.w, id, ANY);
    } else {
      FoundHits(env, w, req, ANY);
      hide *;
      HitCreates(env, w2, w.repositories[req.repositoryId], req, found.value, id);
      CreatesAlike(w, w2, r.w, id);
    }
  }

  lemma TickBuilds(w: World)
    ensures Tick(w).builds == w.builds
  {
  }

  lemma RetryUnfolds(env: Env, w: World, id: Id)
    ensures var got := GetBuild(env, w, id);
            && got.w.builds == w.builds
            && (got.Halt? ==> RetryPipeline(env, w, id).w == got.w)
            && (got.Go? ==>
                  var req := TriggerRequest(got.value.repositoryId, got.value.result.commitSha, got.value.result.baseSha, got.value.result.pullRequest);
                  RetryPipeline(env, w, id).w.builds == TriggerPipeline(env, got.w, req).w.builds)
  {
    hide TriggerPipeline;
  }

  lemma RetryCreates(env: Env, w: World, build: Id, id: Id)
    requires Inv(w, ANY)
    ensures CreatesSoundly(w, RetryPipeline(env, w, build).w, id)
  {
    GetBuildKeeps(env, w, build, ANY);
    RetryUnfolds(env, w, build);
    hide Inv, Good, TriggerPipeline, RetryPipeline, GetBuild, FromReusable;
    var got := GetBuild(env, w, build);
    Later(w, got.w, ANY);
    if got.Go? {
      var req := TriggerRequest(got.value.repositoryId, got.value.result.commitSha, got.value.result.baseSha, got.value.result.pullRequest);
      TriggerCreates(env, got.w, req, id);
      CreatesAlike(w, got.w, TriggerPipeline(env, got.w, req).w, id);
    }
  }

  lemma StepCreates(env: Env, w: World, op: Op, id: Id)
    requires Inv(w, ANY)
    ensures CreatesSoundly(w, Step(env, w, op).w, id)
  {
    hide Inv, Good, TriggerPipeline, RetryPipeline, Callback, ProcessWithRetry, Refresh, CancelPipeline, CreatesSoundly;
    match op {
      case Trigger(req) => TriggerCreates(env, w, req, id);
      case Retry(build) => RetryCreates(env, w, build, id);
      case _ =>
        InvUnder(w, ANY, NO_REUSE);
        StepKeeps(env, w, op, NO_REUSE);
        NothingCreated(w, Step(env, w, op).w, id, NO_REUSE);
    }
  }

  // ---------------------------------------------------------------- reused builds over runs

  /** Reuse soundness at creation: whenever a request of a run adds a reused build, returned or raised, the build
      points to one that was stored before the request and reusable for its repository, commit and base. */
  lemma ReusedSoundAtCreation(env: Env, repositories: map<Id, string>, ops: seq<Op>, k: nat, id: Id)
    requires k < |ops|
    ensures var w, w' := Run(env, repositories, ops[..k]), Run(env, repositories, ops[..k + 1]);
            id !in w.builds && id in w'.builds && w'.builds[id].reusedFrom.Some? ==> FromReusable(w, w'.builds[id])
  {
    var w := Run(env, repositories, ops[..k]);
    assert ops[..k + 1][..k] == ops[..k];
    assert Run(env, repositories, ops[..k + 1]) == Step(env, w, ops[k]).w;
    hide Run, Step, FromReusable, Inv;
    AnyRun(env, repositories, ops[..k]);
    StepCreates(env, w, ops[k], id);
  }

  /** The build as it is now was made by the request `k` from a build that could then be reused for it. */
  ghost predicate ReusedAt(env: Env, repositories: map<Id, string>, ops: seq<Op>, k: nat, b: Build) {
    k < |ops| && var w := Run(env, repositories, ops[..k]); b.id !in w.builds && FromReusable(w, b)
  }

  lemma StillFromReusable(w: World, before: Build, after: Build)
    requires FromReusable(w, before) && BuildStep(before, after)
    ensures FromReusable(w, after)
  {
    var source := w.builds[before.reusedFrom.value];
    assert Lower("") == "";
    ServesExactly(source, before.repositoryId, before.result.commitSha, if before.result.baseSha.None? then "" else before.result.baseSha.value);
    ServesExactly(source, after.repositoryId, after.result.commitSha, if after.result.baseSha.None? then "" else after.result.baseSha.value);
    hide Serves, Lower;
  }

  lemma StillReusedAt(env: Env, repositories: map<Id, string>, ops: seq<Op>, n: nat, k: nat, before: Build, after: Build)
    requires n <= |ops| && ReusedAt(env, repositories, ops[..n], k, before) && BuildStep(before, after)
    ensures ReusedAt(env, repositories, ops, k, after)
  {
    assert ops[..n][..k] == ops[..k];
    StillFromReusable(Run(env, repositories, ops[..k]), before, after);
    hide Run, FromReusable;
  }

  ghost predicate SoundlyReused(env: Env, repositories: map<Id, string>, ops: seq<Op>, id: Id) {
    var w := Run(env, repositories, ops);
    id in w.builds && w.builds[id].reusedFrom.Some? ==> exists k :: ReusedAt(env, repositories, ops, k, w.builds[id])
  }

  /** Reuse soundness: in every run each reused build, as it stands, was made by one of the requests from a build
      that was then stored, native, passed, not itself reused, of the same repository and commit, and had the
      reused build's base as its trusted SHA - whatever completions came since. */
  lemma {:induction false} ReuseIsSound(env: Env, repositories: map<Id, string>, ops: seq<Op>, id: Id)
    ensures SoundlyReused(env, repositories, ops, id)
  {
    if ops == [] {
      assert id !in Run(env, repositories, ops).builds;
    } else {
      var n := |ops| - 1;
      hide Run, SoundlyReused;
      ReuseIsSound(env, repositories, ops[..n], id);
      MoreIsSound(env, repositories, ops, n, id);
    }
  }

  lemma MoreIsSound(env: Env, repositories: map<Id, string>, ops: seq<Op>, n: nat, id: Id)
    requires |ops| == n + 1
    ensures SoundlyReused(env, repositories, ops[..n], id) ==> SoundlyReused(env, repositories, ops, id)
  {
    var before, w := Run(env, repositories, ops[..n]), Run(env, repositories, ops);
    assert ops[..n + 1] == ops;
    hide Run, Inv, Good, FromReusable;
    ReusedSoundAtCreation(env, repositories, ops, n, id);
    RunEvolves(env, repositories, ops, n, ANY);
    AnyRun(env, repositories, ops);
    if id in w.builds && w.builds[id].reusedFrom.Some? {
      BuildFacts(w, id, ANY);
      if id in before.builds && SoundlyReused(env, repositories, ops[..n], id) {
        BuildLater(before, w, id, ANY);
        var k :| ReusedAt(env, repositories, ops[..n], k, before.builds[id]);
        StillReusedAt(env, repositories, ops, n, k, before.builds[id], w.builds[id]);
      } else if id !in before.builds {
        assert ReusedAt(env, repositories, ops, n, w.builds[id]);
      }
    }
  }

  /** The build it points to stays what it must be: in every run it is stored, native, not itself reused, and of
      the same repository and commit. */
  lemma ReusedBuildsPointToNative(env: Env, repositories: map<Id, string>, ops: seq<Op>, id: Id)
    ensures var w := Run(env, repositories, ops);
            id in w.builds && w.builds[id].reusedFrom.Some? ==> ReusesNative(w, w.builds[id])
  {
    AnyRun(env, repositories, ops);
    hide Run, Inv, ReusesNative;
    var w := Run(env, repositories, ops);
    if id in w.builds && w.builds[id].reusedFrom.Some? {
      ReusedFacts(w, id);
    }
  }

  lemma ReusedFacts(w: World, id: Id)
    requires Inv(w, ANY) && id in w.builds && w.builds[id].reusedFrom.Some?
    ensures ReusesNative(w, w.builds[id])
  {
  }
}
