/** When a queued job can be applied at all, and a run of an all-or-nothing plan that is applied by half. */
module WriteBackRuns {
  import opened Prelude
  import opened WriteBack
  import opened WriteBackTheorems

  // --- Which jobs can complete --------------------------------------------------------------------------

  /** Enforced jobs were confirmed and come from a plan or a restore; a confirmable plan expects a revision of every file. */
  ghost predicate Prepared(s: State) {
    && (forall j :: j in s.jobs && s.jobs[j].safetyEnforced ==> Ready(s.jobs[j]))
    && (forall p :: p in s.plans && s.plans[p].canConfirm ==> ExpectsRevisions(s.plans[p]))
  }

  predicate Ready(job: Job) {
    job.confirmed && (job.planId.Some? || job.operation == RestoreOperation)
  }

  ghost predicate ExpectsRevisions(plan: Plan) {
    forall i :: 0 <= i < |plan.files| ==> plan.files[i].expectedRevision != 0
  }

  /** Jobs and plans changed only in status and results, or are new and prepared. */
  ghost predicate OnlyPreparedAdded(s: State, s': State) {
    && (forall j :: j in s'.jobs && s'.jobs[j].safetyEnforced ==>
          Ready(s'.jobs[j]) || (j in s.jobs && SameTerms(s.jobs[j], s'.jobs[j])))
    && (forall p :: p in s'.plans && s'.plans[p].canConfirm ==>
          ExpectsRevisions(s'.plans[p]) || (p in s.plans && s.plans[p].canConfirm && s'.plans[p].files == s.plans[p].files))
  }

  predicate SameTerms(job: Job, job': Job) {
    job'.safetyEnforced == job.safetyEnforced && job'.confirmed == job.confirmed && job'.planId == job.planId && job'.operation == job.operation
  }

  lemma PreviewExpectsRevisions(s: State, projectId: Uuid, fileIds: seq<Uuid>, revisions: map<Uuid, int>, hashes: map<Uuid, string>,
                                inPlace: bool, allOrNothing: bool, otherWarnings: bool, newId: Uuid)
    ensures OnlyPreparedAdded(s, CreatePreview(s, projectId, fileIds, revisions, hashes, inPlace, allOrNothing, otherWarnings, newId).0)
  {
    var (s', r) := CreatePreview(s, projectId, fileIds, revisions, hashes, inPlace, allOrNothing, otherWarnings, newId);
    if r.Ok? && s'.plans[newId].canConfirm {
      var files := s'.plans[newId].files;
      forall i | 0 <= i < |files| ensures files[i].expectedRevision != 0 {
        assert files[i] in files && !Doubtful(s, projectId, files[i]);
      }
    }
  }

  lemma {:induction false} CreateJobsPrepares(s: State, planId: Uuid, plan: Plan, newIds: seq<Uuid>, n: nat)
    requires n <= |plan.files| == |newIds|
    ensures var s' := CreateJobs(s, planId, plan, newIds, n).0;
            s'.plans == s.plans && forall j :: j in s'.jobs ==> Ready(s'.jobs[j]) || (j in s.jobs && s'.jobs[j] == s.jobs[j])
  {
    if n == 0 {
    } else {
      CreateJobsPrepares(s, planId, plan, newIds, n - 1);
    }
  }

  lemma ExecutePrepares(s: State, projectId: Uuid, planId: Uuid, confirmed: bool, staleOnDisk: set<Uuid>, newIds: seq<Uuid>)
    requires planId in s.plans ==> |newIds| == |s.plans[planId].files|
    ensures OnlyPreparedAdded(s, Execute(s, projectId, planId, confirmed, staleOnDisk, newIds).0)
  {
    if ExecuteError(s, projectId, planId, confirmed) == None {
      if exists file :: file in s.plans[planId].files && Blocked(s, projectId, file, staleOnDisk) {
        PlanStatusPrepares(s, s, planId, PlanConflict);
      } else {
        QueuePrepares(s, planId, newIds);
      }
    }
  }

  lemma QueuePrepares(s: State, planId: Uuid, newIds: seq<Uuid>)
    requires planId in s.plans && |newIds| == |s.plans[planId].files|
    ensures OnlyPreparedAdded(s, Queue(s, planId, newIds).0)
  {
    var (s', made) := CreateJobs(s, planId, s.plans[planId], newIds, |newIds|);
    CreateJobsPrepares(s, planId, s.plans[planId], newIds, |newIds|);
    if made < |newIds| {
      StoppedJobsPrepared(s, s', Made(newIds, made), JobFailed);
      PlanStatusPrepares(s, Stop(s', Made(newIds, made), JobFailed), planId, PlanFailed);
    } else {
      PlanStatusPrepares(s, s', planId, Queued);
    }
  }

  /** Only the jobs differ, and each is as it was but for status and results, or ready. */
  ghost predicate JobsPrepared(s: State, s': State) {
    forall j :: j in s'.jobs && s'.jobs[j].safetyEnforced ==> Ready(s'.jobs[j]) || (j in s.jobs && SameTerms(s.jobs[j], s'.jobs[j]))
  }

  lemma StoppedJobsPrepared(s: State, s': State, js: set<Uuid>, status: JobStatus)
    requires JobsPrepared(s, s')
    ensures JobsPrepared(s, Stop(s', js, status))
  {
  }

  lemma PlanStatusPrepares(s: State, s': State, planId: Uuid, status: PlanStatus)
    requires planId in s.plans && JobsPrepared(s, s')
    ensures OnlyPreparedAdded(s, s'.(plans := SetPlanStatus(s, planId, status).plans))
  {
  }

  lemma RefreshPrepares(s: State, s': State, planId: Option<Uuid>)
    requires JobsPrepared(s, s') && s'.plans == s.plans
    ensures OnlyPreparedAdded(s, Refresh(s', planId))
  {
  }

  lemma StopPrepares(s: State, js: set<Uuid>, status: JobStatus, planId: Option<Uuid>)
    ensures OnlyPreparedAdded(s, Refresh(Stop(s, js, status), planId))
  {
    StoppedJobsPrepared(s, s, js, status);
    RefreshPrepares(s, Stop(s, js, status), planId);
  }

  lemma AppliedJobsPrepared(s: State, jobId: Uuid, hash: string)
    requires jobId in s.jobs
    ensures JobsPrepared(s, ApplyJob(s, jobId, hash)) && ApplyJob(s, jobId, hash).plans == s.plans
  {
  }

  lemma CompletePrepares(s: State, projectId: Uuid, jobId: Uuid, sourceHash: string, resultHash: string, backup: bool, diskHash: Option<string>)
    ensures OnlyPreparedAdded(s, Complete(s, projectId, jobId, sourceHash, resultHash, backup, diskHash).0)
  {
    if FindJob(s, projectId, jobId).Ok? && s.jobs[jobId].status == JobPending {
      match Obstacle(s, s.jobs[jobId], sourceHash, backup, diskHash)
      case Some(status) => StopPrepares(s, {jobId}, status, s.jobs[jobId].planId);
      case None =>
        AppliedJobsPrepared(s, jobId, resultHash);
        RefreshPrepares(s, ApplyJob(s, jobId, resultHash), s.jobs[jobId].planId);
    }
  }

  lemma StepPrepares(s: State, step: Step)
    requires Enabled(s, step)
    ensures OnlyPreparedAdded(s, Next(s, step))
  {
    match step
    case MakePreview(p, files, revisions, hashes, inPlace, aon, warnings, newId) =>
      PreviewExpectsRevisions(s, p, files, revisions, hashes, inPlace, aon, warnings, newId);
    case ExecutePlan(p, planId, confirmed, stale, newIds) => ExecutePrepares(s, p, planId, confirmed, stale, newIds);
    case CompleteJob(p, j, source, result, backup, disk) => CompletePrepares(s, p, j, source, result, backup, disk);
    case FailJob(p, j) =>
      if FindJob(s, p, j).Ok? && s.jobs[j].status != JobApplied {
        StopPrepares(s, Failing(s, j), JobFailed, s.jobs[j].planId);
      }
    case _ => SimpleStepPrepares(s, step);
  }

  lemma SimpleStepPrepares(s: State, step: Step)
    requires Enabled(s, step) && !step.MakePreview? && !step.CompleteJob? && !step.ExecutePlan? && !step.FailJob?
    ensures OnlyPreparedAdded(s, Next(s, step))
  {
  }

  lemma AddedKeepsPrepared(s: State, s': State)
    requires Prepared(s) && OnlyPreparedAdded(s, s')
    ensures Prepared(s')
  {
  }

  lemma {:induction false} BehaviourIsPrepared(states: seq<State>, steps: seq<Step>, n: nat)
    requires Behaviour(states, steps) && n <= |steps|
    ensures Prepared(states[n])
  {
    if n == 0 {
    } else {
      BehaviourIsPrepared(states, steps, n - 1);
      StepPrepares(states[n - 1], steps[n - 1]);
      AddedKeepsPrepared(states[n - 1], states[n]);
    }
  }

  /** Some worker report would complete the job. */
  ghost predicate Completable(s: State, j: Uuid)
    requires j in s.jobs
  {
    exists source, result, backup, disk :: CompletesWith(s, j, source, result, backup, disk)
  }

  predicate CompletesWith(s: State, j: Uuid, source: string, result: string, backup: bool, disk: Option<string>)
    requires j in s.jobs
  {
    Complete(s, s.jobs[j].projectId, j, source, result, backup, disk).1 == Ok(())
  }

  lemma CompletableWhen(s: State, j: Uuid)
    requires j in s.jobs && s.jobs[j].status == JobPending && (s.jobs[j].safetyEnforced ==> Ready(s.jobs[j]))
    ensures Completable(s, j) <==> (s.jobs[j].safetyEnforced ==> |VersionsOf(s, s.jobs[j].fileId)| == s.jobs[j].expectedRevision)
  {
    var job := s.jobs[j];
    var source := if job.expectedHash.Some? then job.expectedHash.value else "";
    if job.safetyEnforced ==> |VersionsOf(s, job.fileId)| == job.expectedRevision {
      assert Obstacle(s, job, source, true, None) == None;
      assert CompletesWith(s, j, source, "", true, None);
    } else {
      assert forall source, backup, disk :: Obstacle(s, job, source, backup, disk) != None;
    }
  }

  /** In every reachable state some report completes a pending job exactly when it is not enforced or as many versions of its
      file are registered as it expects. */
  lemma CompletableIff(states: seq<State>, steps: seq<Step>, n: nat, j: Uuid)
    requires Behaviour(states, steps) && n <= |steps| && j in states[n].jobs && states[n].jobs[j].status == JobPending
    ensures var s, job := states[n], states[n].jobs[j];
            Completable(s, j) <==> (job.safetyEnforced ==> |VersionsOf(s, job.fileId)| == job.expectedRevision)
  {
    BehaviourIsPrepared(states, steps, n);
    CompletableWhen(states[n], j);
  }

  lemma {:induction false} WithJobsAt(s: State, planId: Uuid, plan: Plan, newIds: seq<Uuid>, n: nat, i: nat)
    requires i < n <= |plan.files| == |newIds| && forall k, l :: 0 <= k < l < |newIds| ==> newIds[k] != newIds[l]
    ensures var s' := WithJobs(s, planId, plan, newIds, n);
            newIds[i] in s'.jobs && s'.jobs[newIds[i]] == PlanJob(planId, plan, i) && s'.versions == s.versions
    decreases n
  {
    if i == n - 1 {
      WithJobsKeepsVersions(s, planId, plan, newIds, n);
    } else {
      WithJobsAt(s, planId, plan, newIds, n - 1, i);
    }
  }

  lemma {:induction false} WithJobsKeepsVersions(s: State, planId: Uuid, plan: Plan, newIds: seq<Uuid>, n: nat)
    requires n <= |plan.files| == |newIds|
    ensures WithJobs(s, planId, plan, newIds, n).versions == s.versions
  {
    if n == 0 {
    } else {
      WithJobsKeepsVersions(s, planId, plan, newIds, n - 1);
    }
  }

  /** The executed plan's jobs are as planned, with the versions as they were. */
  lemma ExecutedJobs(s: State, projectId: Uuid, planId: Uuid, staleOnDisk: set<Uuid>, newIds: seq<Uuid>, i: nat)
    requires Inv(s) && ExecuteError(s, projectId, planId, true) == None
    requires |newIds| == |s.plans[planId].files| && FreshIds(s, newIds) && i < |newIds|
    requires forall file :: file in s.plans[planId].files ==> !Blocked(s, projectId, file, staleOnDisk)
    ensures var s' := Execute(s, projectId, planId, true, staleOnDisk, newIds).0;
            newIds[i] in s'.jobs && s'.jobs[newIds[i]] == PlanJob(planId, s.plans[planId], i) && s'.versions == s.versions
  {
    var plan := s.plans[planId];
    UnblockedIsReady(s, projectId, planId, staleOnDisk, newIds);
    QueueingNeverBlocks(s, planId, plan, newIds, |newIds|);
    WithJobsAt(s, planId, plan, newIds, |newIds|, i);
  }

  /** An unblocked file with registered versions is expected at the number of them; one without, at the import's revision. */
  lemma ExpectedRevisionIs(s: State, projectId: Uuid, file: FilePlan, staleOnDisk: set<Uuid>)
    requires VersionsOk(s) && !Blocked(s, projectId, file, staleOnDisk)
    ensures VersionsOf(s, file.fileId) != [] ==> file.expectedRevision == |VersionsOf(s, file.fileId)|
  {
    var versions := VersionsOf(s, file.fileId);
    if versions != [] {
      assert WellNumbered(s.versions[file.fileId]);
    }
  }

  /** In every reachable state, executing a plan queues each file's job; some report can complete it as things stand exactly
      when a version of the file has been registered. A file known only from an import gets a job that must end in conflict. */
  lemma QueuedJobCompletableIff(states: seq<State>, steps: seq<Step>, n: nat, i: nat)
    requires Behaviour(states, steps) && n < |steps| && steps[n].ExecutePlan? && i < |steps[n].newIds|
    requires ExecuteError(states[n], steps[n].projectId, steps[n].planId, steps[n].confirmed) == None
    requires forall file :: file in states[n].plans[steps[n].planId].files ==> !Blocked(states[n], steps[n].projectId, file, steps[n].staleOnDisk)
    ensures var s', file := states[n + 1], states[n].plans[steps[n].planId].files[i].fileId;
            && steps[n].newIds[i] in s'.jobs && s'.jobs[steps[n].newIds[i]].fileId == file
            && (Completable(s', steps[n].newIds[i]) <==> VersionsOf(s', file) != [])
  {
    var s, step := states[n], steps[n];
    var plan := s.plans[step.planId];
    BehaviourKeepsInv(states, steps, n, n);
    BehaviourIsPrepared(states, steps, n);
    ExecutedJobs(s, step.projectId, step.planId, step.staleOnDisk, step.newIds, i);
    assert plan.files[i] in plan.files;
    ExpectedRevisionIs(s, step.projectId, plan.files[i], step.staleOnDisk);
    CompletableWhen(states[n + 1], step.newIds[i]);
  }

  // --- A plan applied by half -----------------------------------------------------------------------------

  const PLAN_FILES := [FilePlan(1, 1, Some("h1")), FilePlan(2, 1, Some("h2"))]

  /** Two files are registered and planned as all-or-nothing; the first job meets other content and the second is applied. */
  const HALF_RUN := [
    RegisterFile(1, "h1"), RegisterFile(2, "h2"),
    MakePreview(0, [1, 2], map[], map[], true, true, false, 7),
    ExecutePlan(0, 7, true, {}, [11, 12]),
    CompleteJob(0, 11, "changed", "r1", true, None),
    CompleteJob(0, 12, "h2", "r2", true, None)]

  const REGISTERED := EMPTY.(versions := map[1 := [Version(1, "h1")], 2 := [Version(1, "h2")]])

  const PLANNED := Plan(0, Preview, true, true, true, PLAN_FILES)

  lemma RegisteredTwice()
    ensures Next(Next(EMPTY, HALF_RUN[0]), HALF_RUN[1]) == REGISTERED
  {
    FirstVersion(EMPTY, 1, "h1");
    FirstVersion(Next(EMPTY, HALF_RUN[0]), 2, "h2");
  }

  lemma FirstVersion(s: State, f: Uuid, hash: string)
    requires f !in s.versions
    ensures Register(s, f, hash).0 == s.(versions := s.versions[f := [Version(1, hash)]])
  {
    assert VersionsOf(s, f) == [] && FindHash([], hash) == None;
    assert [] + [Version(1, hash)] == [Version(1, hash)];
  }

  lemma PreviewOfTwo()
    ensures Next(REGISTERED, HALF_RUN[2]) == REGISTERED.(plans := map[7 := PLANNED])
  {
    assert Distinct([1, 2][..1]) == [1] && [1, 2][..1] == [1];
    assert Distinct([1, 2]) == [1, 2];
    assert PlanFiles(REGISTERED, 0, [1, 2], map[], map[]) == PLAN_FILES;
    assert !Doubtful(REGISTERED, 0, PLAN_FILES[0]) && !Doubtful(REGISTERED, 0, PLAN_FILES[1]);
  }

  const PREVIEWED := REGISTERED.(plans := map[7 := PLANNED])

  /** The state after the plan is queued. */
  function QueuedHalf(): State {
    Next(PREVIEWED, HALF_RUN[3])
  }

  lemma QueuedTwo()
    requires Inv(PREVIEWED)
    ensures var s := QueuedHalf();
            && s.versions == PREVIEWED.versions
            && 11 in s.jobs && s.jobs[11] == PlanJob(7, PLANNED, 0) && 12 in s.jobs && s.jobs[12] == PlanJob(7, PLANNED, 1)
  {
    forall file | file in PLAN_FILES ensures !Blocked(PREVIEWED, 0, file, {}) {
    }
    ExecutedJobs(PREVIEWED, 0, 7, {}, [11, 12], 0);
    ExecutedJobs(PREVIEWED, 0, 7, {}, [11, 12], 1);
  }

  /** A report of other content stops the job with a conflict, and no other. */
  lemma ConflictingReport(s: State, j: Uuid, source: string, result: string)
    requires j in s.jobs && s.jobs[j].status == JobPending && Ready(s.jobs[j]) && s.jobs[j].safetyEnforced
    requires |VersionsOf(s, s.jobs[j].fileId)| == s.jobs[j].expectedRevision
    requires s.jobs[j].expectedHash.Some? && s.jobs[j].expectedHash.value != source
    ensures var s' := Complete(s, s.jobs[j].projectId, j, source, result, true, None).0;
            s'.jobs == Stop(s, {j}, JobConflict).jobs && s'.versions == s.versions
  {
    RefreshKeepsJobsAndVersions(Stop(s, {j}, JobConflict), s.jobs[j].planId);
  }

  /** A report of the expected content applies the job and leaves every other job alone. */
  lemma MatchingReport(s: State, j: Uuid, other: Uuid, result: string)
    requires j in s.jobs && other in s.jobs && other != j && s.jobs[j].status == JobPending && Ready(s.jobs[j]) && s.jobs[j].safetyEnforced
    requires |VersionsOf(s, s.jobs[j].fileId)| == s.jobs[j].expectedRevision && s.jobs[j].expectedHash.Some?
    ensures var (s', r) := Complete(s, s.jobs[j].projectId, j, s.jobs[j].expectedHash.value, result, true, None);
            r == Ok(()) && j in s'.jobs && s'.jobs[j].status == JobApplied && other in s'.jobs && s'.jobs[other] == s.jobs[other]
  {
    RefreshKeepsJobsAndVersions(ApplyJob(s, j, result), s.jobs[j].planId);
  }

  /** The state after the first job has met other content. */
  function ConflictedHalf(): State {
    Complete(QueuedHalf(), 0, 11, "changed", "r1", true, None).0
  }

  /** And after the second has been applied. */
  function AppliedHalf(): State {
    Complete(ConflictedHalf(), 0, 12, "h2", "r2", true, None).0
  }

  function HalfStates(): seq<State> {
    [EMPTY, Next(EMPTY, HALF_RUN[0]), REGISTERED, PREVIEWED, QueuedHalf(), ConflictedHalf(), AppliedHalf()]
  }

  lemma PreviewedKeepsInv()
    ensures Inv(PREVIEWED)
  {
    assert Inv(EMPTY);
    StepKeepsInv(EMPTY, HALF_RUN[0]);
    StepKeepsInv(Next(EMPTY, HALF_RUN[0]), HALF_RUN[1]);
    RegisteredTwice();
    StepKeepsInv(REGISTERED, HALF_RUN[2]);
    PreviewOfTwo();
  }

  ghost predicate Linked(s: State, step: Step, s': State) {
    Enabled(s, step) && s' == Next(s, step)
  }

  lemma SixLinks(states: seq<State>, steps: seq<Step>)
    requires |states| == 7 && |steps| == 6 && states[0] == EMPTY
    requires Linked(states[0], steps[0], states[1]) && Linked(states[1], steps[1], states[2]) && Linked(states[2], steps[2], states[3])
    requires Linked(states[3], steps[3], states[4]) && Linked(states[4], steps[4], states[5]) && Linked(states[5], steps[5], states[6])
    ensures Behaviour(states, steps)
  {
    assert forall i :: 0 <= i < 6 ==> Linked(states[i], steps[i], states[i + 1]);
  }

  lemma ReportIsStep(s: State, projectId: Uuid, jobId: Uuid, source: string, result: string)
    ensures Linked(s, CompleteJob(projectId, jobId, source, result, true, None), Complete(s, projectId, jobId, source, result, true, None).0)
  {
  }

  lemma ReportsAreSteps()
    ensures Linked(QueuedHalf(), HALF_RUN[4], ConflictedHalf())
    ensures Linked(ConflictedHalf(), HALF_RUN[5], AppliedHalf())
  {
    ReportIsStep(QueuedHalf(), 0, 11, "changed", "r1");
    ReportIsStep(ConflictedHalf(), 0, 12, "h2", "r2");
  }

  lemma HalfRunIsBehaviour()
    ensures Behaviour(HalfStates(), HALF_RUN)
  {
    RegistrationsAreSteps();
    PlanningIsSteps();
    ReportsAreSteps();
    SixLinks(HalfStates(), HALF_RUN);
  }

  lemma RegistrationsAreSteps()
    ensures Linked(EMPTY, HALF_RUN[0], Next(EMPTY, HALF_RUN[0])) && Linked(Next(EMPTY, HALF_RUN[0]), HALF_RUN[1], REGISTERED)
  {
    RegisteredTwice();
  }

  lemma PlanningIsSteps()
    ensures Linked(REGISTERED, HALF_RUN[2], PREVIEWED) && Linked(PREVIEWED, HALF_RUN[3], QueuedHalf())
  {
    PreviewOfTwo();
    ExecutionIsEnabled();
  }

  lemma ExecutionIsEnabled()
    ensures Enabled(PREVIEWED, HALF_RUN[3])
  {
    assert HALF_RUN[3] == ExecutePlan(0, 7, true, {}, [11, 12]);
  }

  lemma ConflictThenPending()
    requires Inv(PREVIEWED)
    ensures var s := ConflictedHalf();
            && 11 in s.jobs && s.jobs[11].status == JobConflict && s.jobs[11].planId == Some(7) && s.jobs[11].allOrNothing
            && 12 in s.jobs && s.jobs[12] == PlanJob(7, PLANNED, 1) && s.versions == REGISTERED.versions
  {
    QueuedTwo();
    ConflictingReport(QueuedHalf(), 11, "changed", "r1");
  }

  lemma AppliedAfterConflict()
    requires Inv(PREVIEWED)
    ensures var s := AppliedHalf();
            && 11 in s.jobs && s.jobs[11].status == JobConflict && s.jobs[11].planId == Some(7) && 12 in s.jobs && s.jobs[12].status == JobApplied
            && |VersionsOf(s, 2)| == 2
  {
    ConflictThenPending();
    KeepsInvToConflict();
    SiblingApplies(ConflictedHalf());
  }

  lemma SiblingApplies(s: State)
    requires Inv(s) && 11 in s.jobs && 12 in s.jobs && s.jobs[12] == PlanJob(7, PLANNED, 1) && s.versions == REGISTERED.versions
    ensures var s' := Complete(s, 0, 12, "h2", "r2", true, None).0;
            && 11 in s'.jobs && s'.jobs[11] == s.jobs[11] && 12 in s'.jobs && s'.jobs[12].status == JobApplied
            && |VersionsOf(s', 2)| == 2
  {
    assert VersionsOf(s, 2) == [Version(1, "h2")];
    MatchingReport(s, 12, 11, "r2");
    NewVersionOfMatch(s, 12, "r2");
  }

  lemma NewVersionOfMatch(s: State, j: Uuid, result: string)
    requires Inv(s) && j in s.jobs && s.jobs[j].status == JobPending && s.jobs[j].expectedHash.Some?
    requires Complete(s, s.jobs[j].projectId, j, s.jobs[j].expectedHash.value, result, true, None).1 == Ok(())
    requires forall i :: 0 <= i < |VersionsOf(s, s.jobs[j].fileId)| ==> VersionsOf(s, s.jobs[j].fileId)[i].hash != result
    ensures var s' := Complete(s, s.jobs[j].projectId, j, s.jobs[j].expectedHash.value, result, true, None).0;
            |VersionsOf(s', s.jobs[j].fileId)| == |VersionsOf(s, s.jobs[j].fileId)| + 1
  {
    CompletionAdvancesOnce(s, s.jobs[j].projectId, j, s.jobs[j].expectedHash.value, result, true, None);
  }

  lemma KeepsInvToConflict()
    requires Inv(PREVIEWED)
    ensures Inv(ConflictedHalf())
  {
    ExecutionIsEnabled();
    StepKeepsInv(PREVIEWED, HALF_RUN[3]);
    CompleteKeepsInv(QueuedHalf(), 0, 11, "changed", "r1", true, None);
  }

  /** A plan with a broken job has failed. */
  lemma BrokenPlanHasFailed(s: State, j: Uuid, p: Uuid)
    requires Inv(s) && j in s.jobs && s.jobs[j].planId == Some(p) && Broken(s.jobs[j])
    ensures p in s.plans && s.plans[p].status == PlanFailed
  {
    assert OfPlan(s, j, p);
    BrokenMeansFailed(s, p, s.plans[p]);
  }

  /** An all-or-nothing plan can be applied by half: in this run one job ends in conflict while its sibling stays pending, and then
      the sibling is applied and its file gets a new version, though the plan has failed. */
  lemma AppliedByHalf()
    ensures Behaviour(HalfStates(), HALF_RUN)
    ensures var between, end := HalfStates()[5], HalfStates()[6];
            && 11 in between.jobs && between.jobs[11].status == JobConflict && 12 in between.jobs && between.jobs[12].status == JobPending
            && between.jobs[11].allOrNothing && between.jobs[11].planId == between.jobs[12].planId == Some(7)
            && 11 in end.jobs && end.jobs[11].status == JobConflict && 12 in end.jobs && end.jobs[12].status == JobApplied
            && 7 in end.plans && end.plans[7].status == PlanFailed
            && |VersionsOf(end, 2)| == 2
  {
    HalfRunIsBehaviour();
    PreviewedKeepsInv();
    ConflictThenPending();
    AppliedAfterConflict();
    KeepsInvToConflict();
    CompleteKeepsInv(ConflictedHalf(), 0, 12, "h2", "r2", true, None);
    BrokenPlanHasFailed(HalfStates()[6], 11, 7);
  }
}
