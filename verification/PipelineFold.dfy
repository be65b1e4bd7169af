/** The required-failure fold of the shared pipeline library: checks are appended stage by stage
    while one flag is updated from the newest of them, and the flag alone decides the result. */
module PipelineFold {
  import opened Text
  import opened Records

  /** `required` is absent from most contracts, and only an explicit `false` waives a step. */
  datatype ContractStep = ContractStep(id: string, required: Option<bool>, reports: seq<string>)

  /** A contract step with the exit code its container returned. */
  datatype StepRun = StepRun(step: ContractStep, exitCode: int)

  datatype ScanExits = ScanExits(gitleaks: int, database: int, report: int, gate: int, sbom: int)

  datatype Contract = Contract(standards: seq<StepRun>, tests: seq<StepRun>, custom: seq<StepRun>)

  // ---------------------------------------------------------------- single checks

  function RunContractStep(run: StepRun): CheckResult {
    CheckResult(run.step.id,
                if run.exitCode == 0 then CheckPassed
                else if run.step.required == Some(false) then CheckWarning else CheckFailed,
                run.step.required != Some(false), Some(run.exitCode), run.step.reports)
  }

  function RunScanner(id: string, exitCode: int, report: string): CheckResult {
    CheckResult(id, if exitCode == 0 then CheckPassed else CheckFailed, true, Some(exitCode), [report])
  }

  function UpdateTrivyDatabase(exitCode: int): CheckResult {
    CheckResult("trivy-db", if exitCode == 0 then CheckPassed else CheckFailed, true, Some(exitCode), [])
  }

  function RunTrivyScan(report: int, gate: int): CheckResult {
    var status := if report == 0 && gate == 0 then 0 else 1;
    CheckResult("trivy", if status == 0 then CheckPassed else CheckFailed, true, Some(status),
                ["artifacts/trivy.sarif", "artifacts/trivy-high-critical.json"])
  }

  function FailedCheck(id: string): CheckResult {
    CheckResult(id, CheckFailed, true, None, [])
  }

  // ---------------------------------------------------------------- what each stage must record

  function StepChecks(runs: seq<StepRun>): seq<CheckResult> {
    seq(|runs|, i requires 0 <= i < |runs| => RunContractStep(runs[i]))
  }

  function TrivyChecks(exits: ScanExits): seq<CheckResult> {
    if exits.database == 0 then
      [UpdateTrivyDatabase(0), RunTrivyScan(exits.report, exits.gate), RunScanner("sbom", exits.sbom, "artifacts/sbom.cdx.json")]
    else
      [UpdateTrivyDatabase(exits.database), FailedCheck("trivy"), FailedCheck("sbom")]
  }

  function AllChecks(contract: Contract, exits: ScanExits): seq<CheckResult> {
    StepChecks(contract.standards) + [RunScanner("gitleaks", exits.gitleaks, "artifacts/gitleaks.sarif")]
    + TrivyChecks(exits) + StepChecks(contract.tests) + StepChecks(contract.custom)
  }

  /** The check says what the step's container returned: passed for zero, else a warning for a step that is explicitly
      not required, and failed for any other. */
  predicate RecordsRun(run: StepRun, check: CheckResult) {
    && check.id == run.step.id && check.reports == run.step.reports && check.exitCode == Some(run.exitCode)
    && (check.required <==> run.step.required != Some(false))
    && (check.status == CheckPassed <==> run.exitCode == 0)
    && (check.status == CheckWarning <==> run.exitCode != 0 && run.step.required == Some(false))
    && (check.status == CheckFailed <==> run.exitCode != 0 && run.step.required != Some(false))
  }

  // ---------------------------------------------------------------- the stages

  lemma AppendFailure(checks: seq<CheckResult>, check: CheckResult)
    ensures RequiredFailure(checks + [check]) <==> RequiredFailure(checks) || (check.required && check.status == CheckFailed)
  {
    if RequiredFailure(checks) {
      var i :| 0 <= i < |checks| && checks[i].required && checks[i].status == CheckFailed;
      assert (checks + [check])[i] == checks[i];
    }
    if check.required && check.status == CheckFailed {
      assert (checks + [check])[|checks|] == check;
    }
  }

  /** A stage of contract steps keeps the flag exact. */
  method StepStage(runs: seq<StepRun>, checks0: seq<CheckResult>, requiredFailure0: bool)
    returns (checks: seq<CheckResult>, requiredFailure: bool)
    requires requiredFailure0 <==> RequiredFailure(checks0)
    ensures checks == checks0 + StepChecks(runs) && |checks| == |checks0| + |runs|
    ensures forall i :: 0 <= i < |runs| ==> RecordsRun(runs[i], checks[|checks0| + i])
    ensures requiredFailure <==> RequiredFailure(checks)
  {
    checks, requiredFailure := checks0, requiredFailure0;
    for i := 0 to |runs|
      invariant checks == checks0 + StepChecks(runs)[..i]
      invariant requiredFailure <==> RequiredFailure(checks)
    {
      var outcome := RunContractStep(runs[i]);
      AppendFailure(checks, outcome);
      checks := checks + [outcome];
      requiredFailure := requiredFailure || (outcome.required && outcome.status == CheckFailed);
    }
  }

  method SecurityStage(exits: ScanExits, checks0: seq<CheckResult>, requiredFailure0: bool)
    returns (checks: seq<CheckResult>, requiredFailure: bool)
    requires requiredFailure0 <==> RequiredFailure(checks0)
    ensures checks == checks0 + [RunScanner("gitleaks", exits.gitleaks, "artifacts/gitleaks.sarif")]
    ensures requiredFailure <==> RequiredFailure(checks)
  {
    AppendFailure(checks0, RunScanner("gitleaks", exits.gitleaks, "artifacts/gitleaks.sarif"));
    checks := checks0 + [RunScanner("gitleaks", exits.gitleaks, "artifacts/gitleaks.sarif")];
    requiredFailure := requiredFailure0 || checks[|checks| - 1].status == CheckFailed;
  }

  /** The database update decides which two checks follow; the flag is then read from the last three. */
  method DependencyStage(exits: ScanExits, checks0: seq<CheckResult>, requiredFailure0: bool)
    returns (checks: seq<CheckResult>, requiredFailure: bool)
    requires requiredFailure0 <==> RequiredFailure(checks0)
    ensures checks == checks0 + TrivyChecks(exits)
    ensures requiredFailure <==> RequiredFailure(checks)
  {
    checks := checks0 + [UpdateTrivyDatabase(exits.database)];
    AppendFailure(checks0, UpdateTrivyDatabase(exits.database));
    ghost var first := checks;
    if checks[|checks| - 1].status == CheckPassed {
      checks := checks + [RunTrivyScan(exits.report, exits.gate)];
      checks := checks + [RunScanner("sbom", exits.sbom, "artifacts/sbom.cdx.json")];
    } else {
      checks := checks + [FailedCheck("trivy")];
      checks := checks + [FailedCheck("sbom")];
    }
    AppendFailure(first, checks[|checks| - 2]);
    AppendFailure(first + [checks[|checks| - 2]], checks[|checks| - 1]);
    requiredFailure := requiredFailure0 || checks[|checks| - 1].status == CheckFailed
      || checks[|checks| - 2].status == CheckFailed || checks[|checks| - 3].status == CheckFailed;
  }

  /** The whole pipeline: the published status is `failed` exactly when a required check failed. */
  method Call(contract: Contract, exits: ScanExits, template: PipelineResult) returns (result: PipelineResult)
    ensures result.checks == AllChecks(contract, exits)
    ensures result.status == if RequiredFailure(result.checks) then Failed else Passed
    ensures FromPipeline(result)
    ensures result == template.(status := result.status, checks := result.checks, extensionRuns := [])
  {
    var checks, requiredFailure := [], false;
    assert !RequiredFailure(checks);
    hide RecordsRun, StepChecks, TrivyChecks, RunScanner, RequiredFailure;
    checks, requiredFailure := StepStage(contract.standards, checks, requiredFailure);
    checks, requiredFailure := SecurityStage(exits, checks, requiredFailure);
    checks, requiredFailure := DependencyStage(exits, checks, requiredFailure);
    checks, requiredFailure := StepStage(contract.tests, checks, requiredFailure);
    checks, requiredFailure := StepStage(contract.custom, checks, requiredFailure);
    result := template.(status := if requiredFailure then Failed else Passed, checks := checks, extensionRuns := []);
  }

  /** The checks of a pipeline, in order: the standards, the secret scan, the database update, the vulnerability scan and
      the bill of materials - both failed without an exit code when the update failed - the tests and the custom steps. */
  lemma ChecksInOrder(contract: Contract, exits: ScanExits, i: nat)
    ensures var all, n, m := AllChecks(contract, exits), |contract.standards|, |contract.tests|;
            && |all| == n + 4 + m + |contract.custom|
            && (i < n ==> RecordsRun(contract.standards[i], all[i]))
            && all[n] == CheckResult("gitleaks", if exits.gitleaks == 0 then CheckPassed else CheckFailed, true,
                                     Some(exits.gitleaks), ["artifacts/gitleaks.sarif"])
            && all[n + 1] == CheckResult("trivy-db", if exits.database == 0 then CheckPassed else CheckFailed, true, Some(exits.database), [])
            && (exits.database == 0 ==>
                  && all[n + 2] == (var clean := exits.report == 0 && exits.gate == 0;
                                    CheckResult("trivy", if clean then CheckPassed else CheckFailed, true, Some(if clean then 0 else 1),
                                                ["artifacts/trivy.sarif", "artifacts/trivy-high-critical.json"]))
                  && all[n + 3] == CheckResult("sbom", if exits.sbom == 0 then CheckPassed else CheckFailed, true,
                                               Some(exits.sbom), ["artifacts/sbom.cdx.json"]))
            && (exits.database != 0 ==>
                  && all[n + 2] == CheckResult("trivy", CheckFailed, true, None, [])
                  && all[n + 3] == CheckResult("sbom", CheckFailed, true, None, []))
            && (i < m ==> RecordsRun(contract.tests[i], all[n + 4 + i]))
            && (i < |contract.custom| ==> RecordsRun(contract.custom[i], all[n + 4 + m + i]))
  {
    StepsRecorded(contract.standards, i);
    StepsRecorded(contract.tests, i);
    StepsRecorded(contract.custom, i);
    hide StepChecks, RecordsRun;
  }

  lemma StepsRecorded(runs: seq<StepRun>, i: nat)
    ensures |StepChecks(runs)| == |runs|
    ensures i < |runs| ==> RecordsRun(runs[i], StepChecks(runs)[i])
  {
  }

  // ---------------------------------------------------------------- what a failed result means

  lemma FailureConcat(a: seq<CheckResult>, b: seq<CheckResult>)
    ensures RequiredFailure(a + b) <==> RequiredFailure(a) || RequiredFailure(b)
  {
    if i :| 0 <= i < |a| && a[i].required && a[i].status == CheckFailed {
      assert (a + b)[i] == a[i];
    }
    if i :| 0 <= i < |b| && b[i].required && b[i].status == CheckFailed {
      assert (a + b)[|a| + i] == b[i];
    }
  }

  /** A step that returned non-zero and was not explicitly waived. */
  predicate Fails(run: StepRun) {
    run.exitCode != 0 && run.step.required != Some(false)
  }

  lemma StepFailure(runs: seq<StepRun>)
    ensures RequiredFailure(StepChecks(runs)) <==> exists run :: run in runs && Fails(run)
  {
    var checks := StepChecks(runs);
    if i :| 0 <= i < |checks| && checks[i].required && checks[i].status == CheckFailed {
      assert runs[i] in runs && Fails(runs[i]);
    }
    if run :| run in runs && Fails(run) {
      var i :| 0 <= i < |runs| && runs[i] == run;
      assert checks[i].required && checks[i].status == CheckFailed;
    }
  }

  lemma ScanFailure(exits: ScanExits)
    ensures RequiredFailure([RunScanner("gitleaks", exits.gitleaks, "artifacts/gitleaks.sarif")]) <==> exits.gitleaks != 0
    ensures RequiredFailure(TrivyChecks(exits)) <==>
            exits.database != 0 || exits.report != 0 || exits.gate != 0 || exits.sbom != 0
  {
    var g, t := [RunScanner("gitleaks", exits.gitleaks, "artifacts/gitleaks.sarif")], TrivyChecks(exits);
    assert exits.gitleaks != 0 ==> g[0].status == CheckFailed;
    assert exits.database != 0 ==> t[0].status == CheckFailed;
    assert exits.database == 0 && (exits.report != 0 || exits.gate != 0) ==> t[1].status == CheckFailed;
    assert exits.database == 0 && exits.sbom != 0 ==> t[2].status == CheckFailed;
  }

  /** The result fails exactly when a scanner returned non-zero or an unwaived step did. */
  lemma FailsExactlyWhen(contract: Contract, exits: ScanExits)
    ensures RequiredFailure(AllChecks(contract, exits)) <==>
            || exits.gitleaks != 0 || exits.database != 0 || exits.report != 0 || exits.gate != 0 || exits.sbom != 0
            || (exists run :: run in contract.standards + contract.tests + contract.custom && Fails(run))
  {
    var s, t, c := StepChecks(contract.standards), StepChecks(contract.tests), StepChecks(contract.custom);
    var g := [RunScanner("gitleaks", exits.gitleaks, "artifacts/gitleaks.sarif")];
    FailureConcat(s, g);
    FailureConcat(s + g, TrivyChecks(exits));
    FailureConcat(s + g + TrivyChecks(exits), t);
    FailureConcat(s + g + TrivyChecks(exits) + t, c);
    StepFailure(contract.standards);
    StepFailure(contract.tests);
    StepFailure(contract.custom);
    ScanFailure(exits);
  }
}
