/** The persisted records of the control plane.  Timestamps, display names, branches and job paths are
    left out: no modelled operation decides anything by them. */
module Records {
  import opened Text

  type Id = nat

  datatype Severity = Critical | High | Medium | Low

  datatype Finding = Finding(severity: Severity, path: string, line: int)

  datatype ReviewPolicy = ReviewPolicy(enabled: bool, criticalSeverities: set<Severity>, maxDiffBytes: nat)

  const DEFAULT_POLICY := ReviewPolicy(true, {Critical}, 200_000)

  datatype Outcome = OutcomePassed | OutcomeFailed | OutcomeSkipped

  datatype AIReviewLog = AIReviewLog(
    buildId: Id,
    reviewRunId: Id,
    repository: string,
    pullRequest: Option<int>,
    baseSha: Option<string>,
    headSha: string,
    outcome: Outcome,
    findings: seq<Finding>)

  datatype CheckStatus = CheckPassed | CheckFailed | CheckWarning | CheckSkipped

  datatype CheckResult = CheckResult(
    id: string,
    status: CheckStatus,
    required: bool,
    exitCode: Option<int>,
    reports: seq<string>)

  /** A content digest: equal digests are digests of equal content. */
  datatype Digest = DigestOfLog(log: AIReviewLog) | DigestOfFile(content: string)

  datatype Artifact = Artifact(path: string, digest: Digest, size: nat)

  datatype Status = Queued | Running | Passed | Failed | Cancelled

  datatype PipelineResult = PipelineResult(
    repository: string,
    commitSha: string,
    trustedSha: Option<string>,
    baseSha: Option<string>,
    buildId: Option<Id>,
    pullRequest: Option<int>,
    status: Status,
    checks: seq<CheckResult>,
    artifacts: seq<Artifact>,
    extensionRuns: seq<Id>)

  datatype Build = Build(
    id: Id,
    repositoryId: Id,
    queueItemId: Option<Id>,
    jenkinsQueueId: Option<int>,
    jenkinsBuildNumber: Option<int>,
    reusedFrom: Option<Id>,
    reviewPolicy: Option<ReviewPolicy>,
    reviewLog: Option<AIReviewLog>,
    result: PipelineResult)

  datatype QueueState = QueueQueued | QueueStarted | QueueReused | QueueCancelled | QueueFailed

  datatype QueueItem = QueueItem(
    id: Id,
    repositoryId: Id,
    buildId: Id,
    jenkinsQueueId: Option<int>,
    state: QueueState,
    commitSha: string,
    baseSha: Option<string>,
    pullRequest: Option<int>)

  datatype RunStatus = RunRunning | RunSucceeded | RunFailed | RunSkipped

  /** `blocking` is the flag of the first recorded GitHub action, absent when none was recorded. */
  datatype ExtensionOutput = ExtensionOutput(
    findings: seq<Finding>,
    blocking: Option<bool>,
    reviewLog: Option<AIReviewLog>)

  /** Idempotency keys: a review key is an injective digest of the reviewed identity, an action key
      is chosen by the caller. */
  datatype Key =
    | ReviewKey(repository: string, pullRequest: Option<int>, baseSha: string, headSha: string, model: string, prompt: string)
    | ActionKey(text: string)

  datatype ExtensionRun = ExtensionRun(id: Id, key: Key, status: RunStatus, output: Option<ExtensionOutput>)

  predicate Terminal(status: Status) {
    status == Passed || status == Failed || status == Cancelled
  }

  /** Some required check of the result failed. */
  predicate RequiredFailure(checks: seq<CheckResult>) {
    exists i :: 0 <= i < |checks| && checks[i].required && checks[i].status == CheckFailed
  }

  /** What every published pipeline result satisfies. */
  predicate FromPipeline(result: PipelineResult) {
    && (result.status == Passed || result.status == Failed)
    && (RequiredFailure(result.checks) ==> result.status == Failed)
  }
}
