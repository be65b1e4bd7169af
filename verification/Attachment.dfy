/** Attaching a review log to a build, and the normal form any sequence of attachments leaves. */
module Attachment {
  import opened Text
  import opened Records

  const REVIEW_CHECK := "ai-review"
  const REVIEW_PATH := "artifacts/ai-review.json"

  function OtherArtifacts(artifacts: seq<Artifact>): (kept: seq<Artifact>)
    ensures forall a :: a in kept <==> a in artifacts && a.path != REVIEW_PATH
  {
    if artifacts == [] then []
    else
      var last := artifacts[|artifacts| - 1];
      var kept := OtherArtifacts(artifacts[..|artifacts| - 1]);
      if last.path == REVIEW_PATH then kept else kept + [last]
  }

  function OtherChecks(checks: seq<CheckResult>): (kept: seq<CheckResult>)
    ensures forall c :: c in kept <==> c in checks && c.id != REVIEW_CHECK
  {
    if checks == [] then []
    else
      var last := checks[|checks| - 1];
      var kept := OtherChecks(checks[..|checks| - 1]);
      if last.id == REVIEW_CHECK then kept else kept + [last]
  }

  function OtherRuns(runs: seq<Id>, id: Id): (kept: seq<Id>)
    ensures forall r :: r in kept <==> r in runs && r != id
  {
    if runs == [] then []
    else
      var last := runs[|runs| - 1];
      var kept := OtherRuns(runs[..|runs| - 1], id);
      if last == id then kept else kept + [last]
  }

  function ReviewArtifact(log: AIReviewLog, size: nat): Artifact {
    Artifact(REVIEW_PATH, DigestOfLog(log), size)
  }

  function ReviewCheck(log: AIReviewLog, required: bool): CheckResult {
    match log.outcome
    case OutcomePassed => CheckResult(REVIEW_CHECK, CheckPassed, required, Some(0), [REVIEW_PATH])
    case OutcomeFailed => CheckResult(REVIEW_CHECK, CheckFailed, required, Some(1), [REVIEW_PATH])
    case OutcomeSkipped => CheckResult(REVIEW_CHECK, CheckSkipped, required, None, [REVIEW_PATH])
  }

  /** `size` is the length of a log's stored bytes. */
  function Attached(build: Build, runId: Id, log: AIReviewLog, required: bool, size: AIReviewLog -> nat): Build {
    build.(reviewLog := Some(log),
           result := build.result.(
             artifacts := OtherArtifacts(build.result.artifacts) + [ReviewArtifact(log, size(log))],
             extensionRuns := OtherRuns(build.result.extensionRuns, runId) + [runId],
             checks := OtherChecks(build.result.checks) + [ReviewCheck(log, required)],
             status := if required && log.outcome == OutcomeFailed then Failed else build.result.status))
  }

  // ---------------------------------------------------------------- sequences of attachments

  datatype Attach = Attach(runId: Id, log: AIReviewLog, required: bool)

  function AttachAll(build: Build, attachments: seq<Attach>, size: AIReviewLog -> nat): Build {
    if attachments == [] then build
    else
      var last := attachments[|attachments| - 1];
      Attached(AttachAll(build, attachments[..|attachments| - 1], size), last.runId, last.log, last.required, size)
  }

  function Latest(attachments: seq<Attach>): Attach
    requires attachments != []
  {
    attachments[|attachments| - 1]
  }

  /** Each run id once, in the order of its last occurrence. */
  function LastOccurrences(ids: seq<Id>): seq<Id> {
    if ids == [] then []
    else OtherRuns(LastOccurrences(ids[..|ids| - 1]), ids[|ids| - 1]) + [ids[|ids| - 1]]
  }

  function RunIds(attachments: seq<Attach>): seq<Id> {
    seq(|attachments|, i requires 0 <= i < |attachments| => attachments[i].runId)
  }

  /** The runs a build had before, less the attached ones, in their order. */
  function Unattached(runs: seq<Id>, attached: seq<Id>): (kept: seq<Id>)
    ensures forall r :: r in kept <==> r in runs && r !in attached
  {
    if runs == [] then []
    else
      var last := runs[|runs| - 1];
      var kept := Unattached(runs[..|runs| - 1], attached);
      if last in attached then kept else kept + [last]
  }

  predicate Distinct(ids: seq<Id>) {
    forall i, j :: 0 <= i < j < |ids| ==> ids[i] != ids[j]
  }

  lemma {:induction false} OthersOfOthers(build: Build)
    ensures OtherArtifacts(OtherArtifacts(build.result.artifacts)) == OtherArtifacts(build.result.artifacts)
    ensures OtherChecks(OtherChecks(build.result.checks)) == OtherChecks(build.result.checks)
  {
    KeepArtifacts(OtherArtifacts(build.result.artifacts));
    KeepChecks(OtherChecks(build.result.checks));
  }

  lemma {:induction false} KeepArtifacts(artifacts: seq<Artifact>)
    requires forall a :: a in artifacts ==> a.path != REVIEW_PATH
    ensures OtherArtifacts(artifacts) == artifacts
  {
    if artifacts != [] {
      KeepArtifacts(artifacts[..|artifacts| - 1]);
      assert artifacts[|artifacts| - 1] in artifacts;
    }
  }

  lemma {:induction false} KeepChecks(checks: seq<CheckResult>)
    requires forall c :: c in checks ==> c.id != REVIEW_CHECK
    ensures OtherChecks(checks) == checks
  {
    if checks != [] {
      KeepChecks(checks[..|checks| - 1]);
      assert checks[|checks| - 1] in checks;
    }
  }

  lemma DropArtifact(artifacts: seq<Artifact>, last: Artifact)
    requires last.path == REVIEW_PATH
    ensures OtherArtifacts(artifacts + [last]) == OtherArtifacts(artifacts)
  {
    assert (artifacts + [last])[..|artifacts|] == artifacts;
  }

  lemma DropCheck(checks: seq<CheckResult>, last: CheckResult)
    requires last.id == REVIEW_CHECK
    ensures OtherChecks(checks + [last]) == OtherChecks(checks)
  {
    assert (checks + [last])[..|checks|] == checks;
  }

  lemma DropRun(runs: seq<Id>, last: Id, id: Id)
    ensures OtherRuns(runs + [last], id) == if last == id then OtherRuns(runs, id) else OtherRuns(runs, id) + [last]
  {
    assert (runs + [last])[..|runs|] == runs;
  }

  lemma {:induction false} DropRunConcat(a: seq<Id>, b: seq<Id>, id: Id)
    ensures OtherRuns(a + b, id) == OtherRuns(a, id) + OtherRuns(b, id)
    decreases |b|
  {
    if b == [] {
      assert a + b == a;
    } else {
      var init, last := b[..|b| - 1], b[|b| - 1];
      DropRunConcat(a, init, id);
      assert a + b == a + init + [last];
      DropRun(a + init, last, id);
    }
  }

  /** One check or artifact is kept as it is, unless it is the review's. */
  lemma OthersOfOne(check: CheckResult, artifact: Artifact)
    ensures OtherChecks([check]) == if check.id == "ai-review" then [] else [check]
    ensures OtherArtifacts([artifact]) == if artifact.path == "artifacts/ai-review.json" then [] else [artifact]
  {
    assert [check][..0] == [] && [artifact][..0] == [];
  }

  /** What is kept of a list is kept piece by piece: the other checks stay in their order. */
  lemma {:induction false} OtherChecksConcat(a: seq<CheckResult>, b: seq<CheckResult>)
    ensures OtherChecks(a + b) == OtherChecks(a) + OtherChecks(b)
    decreases |b|
  {
    if b == [] {
      assert a + b == a;
    } else {
      var init, last := b[..|b| - 1], b[|b| - 1];
      OtherChecksConcat(a, init);
      assert (a + b)[..|a + b| - 1] == a + init;
    }
  }

  /** And so do the other artifacts. */
  lemma {:induction false} OtherArtifactsConcat(a: seq<Artifact>, b: seq<Artifact>)
    ensures OtherArtifacts(a + b) == OtherArtifacts(a) + OtherArtifacts(b)
    decreases |b|
  {
    if b == [] {
      assert a + b == a;
    } else {
      var init, last := b[..|b| - 1], b[|b| - 1];
      OtherArtifactsConcat(a, init);
      assert (a + b)[..|a + b| - 1] == a + init;
    }
  }

  lemma {:induction false} UnattachedOne(runs: seq<Id>, attached: seq<Id>, id: Id)
    ensures OtherRuns(Unattached(runs, attached), id) == Unattached(runs, attached + [id])
  {
    if runs != [] {
      var init, last := runs[..|runs| - 1], runs[|runs| - 1];
      UnattachedOne(init, attached, id);
      hide OtherRuns;
      DropRun(Unattached(init, attached), last, id);
    }
  }

  lemma {:induction false} NothingAttached(runs: seq<Id>)
    ensures Unattached(runs, []) == runs
  {
    if runs != [] {
      NothingAttached(runs[..|runs| - 1]);
      assert runs == runs[..|runs| - 1] + [runs[|runs| - 1]];
    }
  }

  lemma {:induction false} OtherRunsDistinct(runs: seq<Id>, id: Id)
    requires Distinct(runs)
    ensures Distinct(OtherRuns(runs, id))
  {
    if runs != [] {
      var init, last := runs[..|runs| - 1], runs[|runs| - 1];
      OtherRunsDistinct(init, id);
      assert last !in init;
    }
  }

  lemma {:induction false} OccurrencesDistinct(ids: seq<Id>)
    ensures Distinct(LastOccurrences(ids))
    ensures forall r :: r in LastOccurrences(ids) <==> r in ids
  {
    if ids != [] {
      var init, last := ids[..|ids| - 1], ids[|ids| - 1];
      OccurrencesDistinct(init);
      OtherRunsDistinct(LastOccurrences(init), last);
      assert last !in OtherRuns(LastOccurrences(init), last);
      assert ids == init + [last];
      DistinctSnoc(OtherRuns(LastOccurrences(init), last), last);
    }
  }

  lemma DistinctSnoc(ids: seq<Id>, id: Id)
    requires Distinct(ids) && id !in ids
    ensures Distinct(ids + [id])
  {
  }

  lemma {:induction false} AttachedRuns(build: Build, attachments: seq<Attach>, size: AIReviewLog -> nat)
    ensures AttachAll(build, attachments, size).result.extensionRuns
            == Unattached(build.result.extensionRuns, RunIds(attachments)) + LastOccurrences(RunIds(attachments))
  {
    if attachments == [] {
      NothingAttached(build.result.extensionRuns);
    } else {
      var init, last := attachments[..|attachments| - 1], Latest(attachments);
      AttachedRuns(build, init, size);
      RunIdsSnoc(attachments);
      AttachStep(build, attachments, size);
      AttachOneRun(build.result.extensionRuns, RunIds(init), last.runId);
    }
  }

  lemma AttachOneRun(before: seq<Id>, ids: seq<Id>, id: Id)
    ensures OtherRuns(Unattached(before, ids) + LastOccurrences(ids), id) + [id]
            == Unattached(before, ids + [id]) + LastOccurrences(ids + [id])
  {
    DropRunConcat(Unattached(before, ids), LastOccurrences(ids), id);
    UnattachedOne(before, ids, id);
    OccurrencesSnoc(ids, id);
    Associate(Unattached(before, ids + [id]), OtherRuns(LastOccurrences(ids), id), [id]);
  }

  lemma Associate(a: seq<Id>, b: seq<Id>, c: seq<Id>)
    ensures a + b + c == a + (b + c)
  {
  }

  lemma AttachStep(build: Build, attachments: seq<Attach>, size: AIReviewLog -> nat)
    requires attachments != []
    ensures AttachAll(build, attachments, size).result.extensionRuns
            == OtherRuns(AttachAll(build, attachments[..|attachments| - 1], size).result.extensionRuns, Latest(attachments).runId)
               + [Latest(attachments).runId]
  {
  }

  lemma RunIdsSnoc(attachments: seq<Attach>)
    requires attachments != []
    ensures RunIds(attachments) == RunIds(attachments[..|attachments| - 1]) + [Latest(attachments).runId]
  {
  }

  lemma OccurrencesSnoc(ids: seq<Id>, id: Id)
    ensures LastOccurrences(ids + [id]) == OtherRuns(LastOccurrences(ids), id) + [id]
  {
    assert (ids + [id])[..|ids|] == ids;
  }

  lemma {:induction false} AttachedRest(build: Build, attachments: seq<Attach>, size: AIReviewLog -> nat)
    requires attachments != []
    ensures var r, last := AttachAll(build, attachments, size), Latest(attachments);
            && r.reviewLog == Some(last.log)
            && r.result.checks == OtherChecks(build.result.checks) + [ReviewCheck(last.log, last.required)]
            && r.result.artifacts == OtherArtifacts(build.result.artifacts) + [ReviewArtifact(last.log, size(last.log))]
    ensures AttachAll(build, attachments, size).(reviewLog := build.reviewLog, result := build.result) == build
  {
    var init := attachments[..|attachments| - 1];
    if init != [] {
      AttachedRest(build, init, size);
      DropArtifact(OtherArtifacts(build.result.artifacts), ReviewArtifact(Latest(init).log, size(Latest(init).log)));
      DropCheck(OtherChecks(build.result.checks), ReviewCheck(Latest(init).log, Latest(init).required));
      OthersOfOthers(build);
    }
  }

  predicate Blocks(attachments: seq<Attach>) {
    exists i :: 0 <= i < |attachments| && attachments[i].required && attachments[i].log.outcome == OutcomeFailed
  }

  /** A required failed review fails the build for good; nothing else about attaching changes the status. */
  lemma {:induction false} AttachedStatus(build: Build, attachments: seq<Attach>, size: AIReviewLog -> nat)
    ensures AttachAll(build, attachments, size).result.status == if Blocks(attachments) then Failed else build.result.status
  {
    if attachments != [] {
      var init, last := attachments[..|attachments| - 1], Latest(attachments);
      AttachedStatus(build, init, size);
      assert forall i :: 0 <= i < |init| ==> init[i] == attachments[i];
      assert attachments[|init|] == last;
      assert Blocks(attachments) <==> Blocks(init) || (last.required && last.log.outcome == OutcomeFailed) by {
        if Blocks(init) {
          var i :| 0 <= i < |init| && init[i].required && init[i].log.outcome == OutcomeFailed;
          assert attachments[i] == init[i];
        }
      }
    }
  }

  /** Attachment normal form: after any non-empty sequence of attachments there is one review check and it
      is last, one review artifact and it is last with the digest and size of the stored log, every other
      check and artifact is kept in its order, and each attached run id occurs once, after the others. */
  lemma NormalForm(build: Build, attachments: seq<Attach>, size: AIReviewLog -> nat)
    requires attachments != []
    ensures var r, last := AttachAll(build, attachments, size), Latest(attachments);
            && r.reviewLog == Some(last.log)
            && r.result.checks == OtherChecks(build.result.checks) +
                 [match last.log.outcome
                  case OutcomePassed => CheckResult("ai-review", CheckPassed, last.required, Some(0), ["artifacts/ai-review.json"])
                  case OutcomeFailed => CheckResult("ai-review", CheckFailed, last.required, Some(1), ["artifacts/ai-review.json"])
                  case OutcomeSkipped => CheckResult("ai-review", CheckSkipped, last.required, None, ["artifacts/ai-review.json"])]
            && r.result.artifacts == OtherArtifacts(build.result.artifacts) +
                 [Artifact("artifacts/ai-review.json", DigestOfLog(r.reviewLog.value), size(r.reviewLog.value))]
            && r.result.extensionRuns
               == Unattached(build.result.extensionRuns, RunIds(attachments)) + LastOccurrences(RunIds(attachments))
    ensures forall c :: c in OtherChecks(build.result.checks) <==> c in build.result.checks && c.id != "ai-review"
    ensures forall a :: a in OtherArtifacts(build.result.artifacts) <==> a in build.result.artifacts && a.path != "artifacts/ai-review.json"
    ensures Distinct(LastOccurrences(RunIds(attachments)))
    ensures forall r :: r in LastOccurrences(RunIds(attachments)) ==> r !in Unattached(build.result.extensionRuns, RunIds(attachments))
  {
    AttachedRest(build, attachments, size);
    AttachedRuns(build, attachments, size);
    OccurrencesDistinct(RunIds(attachments));
  }

  /** Attaching the latest run and log again changes nothing. */
  lemma AttachAgain(build: Build, a: Attach, size: AIReviewLog -> nat)
    ensures var once := Attached(build, a.runId, a.log, a.required, size);
            Attached(once, a.runId, a.log, a.required, size) == once
  {
    DropArtifact(OtherArtifacts(build.result.artifacts), ReviewArtifact(a.log, size(a.log)));
    DropCheck(OtherChecks(build.result.checks), ReviewCheck(a.log, a.required));
    OthersOfOthers(build);
    OtherRunsTwice(build.result.extensionRuns, a.runId);
    DropRun(OtherRuns(build.result.extensionRuns, a.runId), a.runId, a.runId);
    hide OtherRuns, OtherChecks, OtherArtifacts, ReviewCheck, ReviewArtifact;
  }

  lemma {:induction false} OtherRunsTwice(runs: seq<Id>, id: Id)
    ensures OtherRuns(OtherRuns(runs, id), id) == OtherRuns(runs, id)
  {
    if runs != [] {
      var init, last := runs[..|runs| - 1], runs[|runs| - 1];
      OtherRunsTwice(init, id);
      DropRun(OtherRuns(init, id), last, id);
    }
  }

  /** A build that is failed whenever a required check failed stays so, whatever is attached to it. */
  lemma AttachedStaysHonest(build: Build, a: Attach, size: AIReviewLog -> nat)
    requires RequiredFailure(build.result.checks) ==> build.result.status == Failed || build.result.status == Cancelled
    ensures var r := Attached(build, a.runId, a.log, a.required, size).result;
            RequiredFailure(r.checks) ==> r.status == Failed || r.status == Cancelled
  {
    var r := Attached(build, a.runId, a.log, a.required, size).result;
    if RequiredFailure(r.checks) && r.status != Failed {
      var i :| 0 <= i < |r.checks| && r.checks[i].required && r.checks[i].status == CheckFailed;
      assert r.checks[i] in OtherChecks(build.result.checks);
      var j :| 0 <= j < |build.result.checks| && build.result.checks[j] == r.checks[i];
    }
  }
}
