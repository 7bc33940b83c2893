/** When the ChangeSet of a restore is applied: only with its job, at most once, and whatever was decided about it before. */
module RestoreRuns {
  import opened Prelude
  import opened WriteBack
  import opened WriteBackTheorems
  import opened WriteBackRuns

  // --- Jobs and their ChangeSets ----------------------------------------------------------------------

  /** Every job's ChangeSet exists, and no two jobs share one. */
  ghost predicate ChangesOwned(s: State) {
    && (forall j :: j in s.jobs && s.jobs[j].changesetId.Some? ==> s.jobs[j].changesetId.value in s.changesets)
    && (forall j, k :: j in s.jobs && k in s.jobs && s.jobs[j].changesetId.Some? && s.jobs[j].changesetId == s.jobs[k].changesetId ==> j == k)
  }

  /** An applied ChangeSet is that of an applied job. */
  ghost predicate AppliedWithJob(s: State) {
    forall c :: c in s.changesets && s.changesets[c].status == ChangeApplied ==> SomeAppliedJob(s, c)
  }

  ghost predicate SomeAppliedJob(s: State, c: Uuid) {
    exists j :: j in s.jobs && s.jobs[j].changesetId == Some(c) && s.jobs[j].status == JobApplied
  }

  /** The jobs there were have their ChangeSets, statuses end for good, and new jobs have none. */
  ghost predicate JobsCarryOn(s: State, s': State) {
    && (forall j :: j in s.jobs ==> j in s'.jobs && s'.jobs[j].changesetId == s.jobs[j].changesetId)
    && (forall j :: j in s.jobs && s.jobs[j].status == JobApplied ==> s'.jobs[j].status == JobApplied)
    && (forall j :: j in s'.jobs && j !in s.jobs ==> s'.jobs[j].changesetId == None && s'.jobs[j].status == JobPending)
  }

  /** The step completes the job that carries the ChangeSet. */
  predicate AppliesChange(s: State, step: Step, c: Uuid) {
    && step.CompleteJob? && step.jobId in s.jobs && s.jobs[step.jobId].projectId == step.projectId
    && s.jobs[step.jobId].changesetId == Some(c) && s.jobs[step.jobId].status == JobPending
    && Obstacle(s, s.jobs[step.jobId], step.sourceHash, step.backup, step.diskHash) == None
  }

  lemma {:induction false} CreatedJobsCarryOn(s: State, planId: Uuid, plan: Plan, newIds: seq<Uuid>, n: nat)
    requires n <= |plan.files| == |newIds| && FreshIds(s, newIds)
    ensures var s' := CreateJobs(s, planId, plan, newIds, n).0;
            JobsCarryOn(s, s') && s'.changesets == s.changesets
  {
    if n == 0 {
    } else {
      CreatedJobsCarryOn(s, planId, plan, newIds, n - 1);
    }
  }

  lemma StopCarriesOn(s: State, js: set<Uuid>, status: JobStatus)
    requires forall j :: j in js && j in s.jobs ==> s.jobs[j].status != JobApplied
    ensures JobsCarryOn(s, Stop(s, js, status)) && Stop(s, js, status).changesets == s.changesets
  {
  }

  lemma RefreshCarriesOn(s: State, s': State, planId: Option<Uuid>)
    requires JobsCarryOn(s, s')
    ensures JobsCarryOn(s, Refresh(s', planId)) && Refresh(s', planId).changesets == s'.changesets
  {
    RefreshKeepsJobsAndVersions(s', planId);
  }

  lemma ExecuteCarriesOn(s: State, projectId: Uuid, planId: Uuid, confirmed: bool, staleOnDisk: set<Uuid>, newIds: seq<Uuid>)
    requires Inv(s) && (planId in s.plans ==> |newIds| == |s.plans[planId].files|) && FreshIds(s, newIds)
    ensures var s' := Execute(s, projectId, planId, confirmed, staleOnDisk, newIds).0; JobsCarryOn(s, s') && s'.changesets == s.changesets
  {
    if ExecuteError(s, projectId, planId, confirmed) == None {
      CreatedJobsCarryOn(s, planId, s.plans[planId], newIds, |newIds|);
      if forall file :: file in s.plans[planId].files ==> !Blocked(s, projectId, file, staleOnDisk) {
        ExecuteQueuesAll(s, projectId, planId, staleOnDisk, newIds);
      }
    }
  }

  lemma AppliedCarriesOn(s: State, jobId: Uuid, hash: string)
    requires jobId in s.jobs
    ensures JobsCarryOn(s, ApplyJob(s, jobId, hash)) && ApplyJob(s, jobId, hash).jobs[jobId].status == JobApplied
    ensures ApplyJob(s, jobId, hash).changesets == ApplyChange(s.changesets, s.jobs[jobId].changesetId)
  {
  }

  /** What a report does to jobs and ChangeSets: nothing, a stop, or the job and its ChangeSet applied. */
  lemma ReportCarriesOn(s: State, projectId: Uuid, jobId: Uuid, source: string, result: string, backup: bool, disk: Option<string>)
    ensures var s', step := Complete(s, projectId, jobId, source, result, backup, disk).0, CompleteJob(projectId, jobId, source, result, backup, disk);
            && JobsCarryOn(s, s')
            && (if jobId in s.jobs && s.jobs[jobId].changesetId.Some? && AppliesChange(s, step, s.jobs[jobId].changesetId.value)
                then s'.jobs[jobId].status == JobApplied && s'.changesets == ApplyChange(s.changesets, s.jobs[jobId].changesetId)
                else s'.changesets == s.changesets)
  {
    if FindJob(s, projectId, jobId).Ok? && s.jobs[jobId].status == JobPending {
      var job := s.jobs[jobId];
      match Obstacle(s, job, source, backup, disk)
      case Some(status) =>
        StopCarriesOn(s, {jobId}, status);
        RefreshCarriesOn(s, Stop(s, {jobId}, status), job.planId);
      case None =>
        AppliedCarriesOn(s, jobId, result);
        RefreshCarriesOn(s, ApplyJob(s, jobId, result), job.planId);
        RefreshKeepsJobsAndVersions(ApplyJob(s, jobId, result), job.planId);
    }
  }

  lemma FailCarriesOn(s: State, projectId: Uuid, jobId: Uuid)
    ensures var s' := Fail(s, projectId, jobId).0; JobsCarryOn(s, s') && s'.changesets == s.changesets
  {
    if FindJob(s, projectId, jobId).Ok? && s.jobs[jobId].status != JobApplied {
      StopCarriesOn(s, Failing(s, jobId), JobFailed);
      RefreshCarriesOn(s, Stop(s, Failing(s, jobId), JobFailed), s.jobs[jobId].planId);
    }
  }

  // --- What every step does to the ChangeSets ----------------------------------------------------------

  /** Steps that neither report nor decide nor restore leave the ChangeSets alone. */
  predicate ConcernsChanges(step: Step) {
    step.CompleteJob? || step.RestoreFile? || step.ReviewRestore? || step.ApproveRestore?
  }

  lemma OtherStepsCarryOn(s: State, step: Step)
    requires Inv(s) && Enabled(s, step) && !ConcernsChanges(step)
    ensures JobsCarryOn(s, Next(s, step)) && Next(s, step).changesets == s.changesets
  {
    match step
    case ExecutePlan(p, planId, confirmed, stale, newIds) => ExecuteCarriesOn(s, p, planId, confirmed, stale, newIds);
    case FailJob(p, j) => FailCarriesOn(s, p, j);
    case _ => TableStepCarriesOn(s, step);
  }

  lemma TableStepCarriesOn(s: State, step: Step)
    requires step.MakePreview? || step.DirectJob? || step.RegisterFile? || step.RecordImport?
    requires Enabled(s, step)
    ensures JobsCarryOn(s, Next(s, step)) && Next(s, step).changesets == s.changesets
  {
  }

  lemma CarriedOnKeepsOwned(s: State, s': State)
    requires ChangesOwned(s) && JobsCarryOn(s, s') && s.changesets.Keys <= s'.changesets.Keys
    ensures ChangesOwned(s')
  {
  }

  lemma AppliedJobRemains(s: State, s': State, c: Uuid)
    requires JobsCarryOn(s, s') && SomeAppliedJob(s, c)
    ensures SomeAppliedJob(s', c)
  {
    var j :| j in s.jobs && s.jobs[j].changesetId == Some(c) && s.jobs[j].status == JobApplied;
    assert s'.jobs[j].changesetId == Some(c);
  }

  lemma AppliedWithJobRemains(s: State, s': State)
    requires AppliedWithJob(s) && JobsCarryOn(s, s')
    requires forall c :: c in s'.changesets && s'.changesets[c].status == ChangeApplied ==>
               (c in s.changesets && s.changesets[c].status == ChangeApplied) || SomeAppliedJob(s', c)
    ensures AppliedWithJob(s')
  {
    forall c | c in s'.changesets && s'.changesets[c].status == ChangeApplied ensures SomeAppliedJob(s', c) {
      if c in s.changesets && s.changesets[c].status == ChangeApplied {
        AppliedJobRemains(s, s', c);
      }
    }
  }

  lemma ReportKeepsChanges(s: State, step: Step)
    requires ChangesOwned(s) && AppliedWithJob(s) && step.CompleteJob?
    ensures ChangesOwned(Next(s, step)) && AppliedWithJob(Next(s, step))
  {
    var s' := Next(s, step);
    ReportCarriesOn(s, step.projectId, step.jobId, step.sourceHash, step.resultHash, step.backup, step.diskHash);
    CarriedOnKeepsOwned(s, s');
    if step.jobId in s.jobs && s.jobs[step.jobId].changesetId.Some? && AppliesChange(s, step, s.jobs[step.jobId].changesetId.value) {
      assert SomeAppliedJob(s', s.jobs[step.jobId].changesetId.value);
    }
    AppliedWithJobRemains(s, s');
  }

  lemma RestoreKeepsChanges(s: State, step: Step)
    requires ChangesOwned(s) && AppliedWithJob(s) && step.RestoreFile? && Enabled(s, step)
    ensures ChangesOwned(Next(s, step)) && AppliedWithJob(Next(s, step))
  {
    var s' := Next(s, step);
    RestoreAdds(s, step);
    forall c | c in s'.changesets && s'.changesets[c].status == ChangeApplied ensures SomeAppliedJob(s', c) {
      var j :| j in s.jobs && s.jobs[j].changesetId == Some(c) && s.jobs[j].status == JobApplied;
      assert j in s'.jobs && s'.jobs[j] == s.jobs[j];
    }
  }

  /** A restore adds a job with a ChangeSet of its own, or nothing. */
  lemma RestoreAdds(s: State, step: Step)
    requires ChangesOwned(s) && step.RestoreFile? && Enabled(s, step)
    ensures var s' := Next(s, step);
            && ChangesOwned(s')
            && (forall j :: j in s.jobs ==> j in s'.jobs && s'.jobs[j] == s.jobs[j])
            && (forall c :: c in s'.changesets && s'.changesets[c].status == ChangeApplied ==>
                  c in s.changesets && s.changesets[c].status == ChangeApplied)
  {
  }

  lemma StepKeepsChanges(s: State, step: Step)
    requires Inv(s) && Enabled(s, step) && ChangesOwned(s) && AppliedWithJob(s)
    ensures ChangesOwned(Next(s, step)) && AppliedWithJob(Next(s, step))
  {
    match step
    case CompleteJob(_, _, _, _, _, _) => ReportKeepsChanges(s, step);
    case RestoreFile(_, _, _, _, _, _) => RestoreKeepsChanges(s, step);
    case _ => QuietStepKeepsChanges(s, step);
  }

  lemma QuietStepKeepsChanges(s: State, step: Step)
    requires Inv(s) && Enabled(s, step) && ChangesOwned(s) && AppliedWithJob(s) && !step.CompleteJob? && !step.RestoreFile?
    ensures ChangesOwned(Next(s, step)) && AppliedWithJob(Next(s, step))
  {
    var s' := Next(s, step);
    QuietStepApplies(s, step);
    CarriedOnKeepsOwned(s, s');
    AppliedWithJobRemains(s, s');
  }

  /** A step that neither reports nor restores keeps jobs and ChangeSets, and applies none. */
  lemma QuietStepApplies(s: State, step: Step)
    requires Inv(s) && Enabled(s, step) && !step.CompleteJob? && !step.RestoreFile?
    ensures var s' := Next(s, step);
            && JobsCarryOn(s, s') && s'.changesets.Keys == s.changesets.Keys
            && forall c :: c in s'.changesets && s'.changesets[c].status == ChangeApplied ==> s.changesets[c].status == ChangeApplied
  {
    match step
    case ReviewRestore(p, c) => ReviewApplies(s, p, c);
    case ApproveRestore(p, c) => ApprovalApplies(s, p, c);
    case _ => OtherStepsCarryOn(s, step);
  }

  lemma ReviewApplies(s: State, projectId: Uuid, id: Uuid)
    ensures var s' := ReviewChange(s, projectId, id).0;
            && s'.jobs == s.jobs && s'.changesets.Keys == s.changesets.Keys
            && forall c :: c in s'.changesets && s'.changesets[c].status == ChangeApplied ==> s.changesets[c].status == ChangeApplied
  {
  }

  lemma ApprovalApplies(s: State, projectId: Uuid, id: Uuid)
    ensures var s' := ApproveChange(s, projectId, id).0;
            && s'.jobs == s.jobs && s'.changesets.Keys == s.changesets.Keys
            && forall c :: c in s'.changesets && s'.changesets[c].status == ChangeApplied ==> s.changesets[c].status == ChangeApplied
  {
  }

  /** In every reachable state each restore job has a ChangeSet of its own, and an applied ChangeSet belongs to an applied job. */
  lemma {:induction false} BehaviourKeepsChanges(states: seq<State>, steps: seq<Step>, n: nat)
    requires Behaviour(states, steps) && n <= |steps|
    ensures ChangesOwned(states[n]) && AppliedWithJob(states[n])
  {
    if n == 0 {
    } else {
      BehaviourKeepsChanges(states, steps, n - 1);
      BehaviourKeepsInv(states, steps, n - 1, n - 1);
      StepKeepsChanges(states[n - 1], steps[n - 1]);
    }
  }

  // --- Applied with its job, once ------------------------------------------------------------------------

  /** The step that completes the job applies its ChangeSet, whatever was decided about it; no other step ends with it newly applied. */
  lemma AppliedExactlyByJob(s: State, step: Step, c: Uuid)
    requires Inv(s) && Enabled(s, step) && ChangesOwned(s) && c in s.changesets
    ensures c in Next(s, step).changesets
    ensures AppliesChange(s, step, c) ==> Next(s, step).changesets[c].status == ChangeApplied
    ensures !AppliesChange(s, step, c) && Next(s, step).changesets[c].status == ChangeApplied ==> s.changesets[c].status == ChangeApplied
  {
    match step
    case CompleteJob(p, j, source, result, backup, disk) => ReportCarriesOn(s, p, j, source, result, backup, disk);
    case RestoreFile(_, _, _, _, _, _) =>
    case _ => QuietStepApplies(s, step);
  }

  /** The ChangeSet is applied in exactly the step in which its pending job becomes applied. */
  lemma AppliesWithJob(s: State, step: Step, c: Uuid, j: Uuid)
    requires Inv(s) && Enabled(s, step) && ChangesOwned(s) && j in s.jobs && s.jobs[j].changesetId == Some(c)
    ensures j in Next(s, step).jobs && Next(s, step).jobs[j].changesetId == Some(c)
    ensures AppliesChange(s, step, c) <==> s.jobs[j].status != JobApplied && Next(s, step).jobs[j].status == JobApplied
  {
    match step
    case CompleteJob(p, k, source, result, backup, disk) => ReportOfJob(s, p, k, source, result, backup, disk, j);
    case ExecutePlan(p, planId, confirmed, stale, newIds) => ExecutedOthers(s, p, planId, confirmed, stale, newIds, j);
    case FailJob(p, k) => FailedOthers(s, p, k, j);
    case _ => SimpleStepKeepsJob(s, step, j);
  }

  lemma ReportOfJob(s: State, projectId: Uuid, jobId: Uuid, source: string, result: string, backup: bool, disk: Option<string>, j: Uuid)
    requires ChangesOwned(s) && j in s.jobs && s.jobs[j].changesetId.Some?
    ensures var s', step := Complete(s, projectId, jobId, source, result, backup, disk).0, CompleteJob(projectId, jobId, source, result, backup, disk);
            && j in s'.jobs && s'.jobs[j].changesetId == s.jobs[j].changesetId
            && (AppliesChange(s, step, s.jobs[j].changesetId.value) <==> s.jobs[j].status != JobApplied && s'.jobs[j].status == JobApplied)
  {
    ReportCarriesOn(s, projectId, jobId, source, result, backup, disk);
    if FindJob(s, projectId, jobId).Ok? && s.jobs[jobId].status == JobPending {
      match Obstacle(s, s.jobs[jobId], source, backup, disk)
      case Some(status) => RefreshKeepsJobsAndVersions(Stop(s, {jobId}, status), s.jobs[jobId].planId);
      case None => RefreshKeepsJobsAndVersions(ApplyJob(s, jobId, result), s.jobs[jobId].planId);
    }
  }

  lemma ExecutedOthers(s: State, projectId: Uuid, planId: Uuid, confirmed: bool, staleOnDisk: set<Uuid>, newIds: seq<Uuid>, j: Uuid)
    requires Inv(s) && (planId in s.plans ==> |newIds| == |s.plans[planId].files|) && FreshIds(s, newIds) && j in s.jobs
    ensures var s' := Execute(s, projectId, planId, confirmed, staleOnDisk, newIds).0; j in s'.jobs && s'.jobs[j] == s.jobs[j]
  {
    if ExecuteError(s, projectId, planId, confirmed) == None {
      if forall file :: file in s.plans[planId].files ==> !Blocked(s, projectId, file, staleOnDisk) {
        UnblockedIsReady(s, projectId, planId, staleOnDisk, newIds);
        QueueingNeverBlocks(s, planId, s.plans[planId], newIds, |newIds|);
        AddingKeepsQueueing(s, planId, s.plans[planId], newIds, |newIds|);
      }
    }
  }

  lemma FailedOthers(s: State, projectId: Uuid, jobId: Uuid, j: Uuid)
    requires j in s.jobs
    ensures var s' := Fail(s, projectId, jobId).0;
            j in s'.jobs && s'.jobs[j].changesetId == s.jobs[j].changesetId && (s'.jobs[j].status == JobApplied <==> s.jobs[j].status == JobApplied)
  {
    if FindJob(s, projectId, jobId).Ok? && s.jobs[jobId].status != JobApplied {
      RefreshKeepsJobsAndVersions(Stop(s, Failing(s, jobId), JobFailed), s.jobs[jobId].planId);
    }
  }

  /** How many of the steps from m to n apply the ChangeSet. */
  function TimesApplied(states: seq<State>, steps: seq<Step>, c: Uuid, m: nat, n: nat): nat
    requires |states| == |steps| + 1 && m <= n <= |steps|
  {
    if m == n then 0
    else TimesApplied(states, steps, c, m, n - 1) + (if AppliesChange(states[n - 1], steps[n - 1], c) then 1 else 0)
  }

  /** If the k-th state's job carries the ChangeSet so does the next, and the step applies it exactly by applying the job. */
  predicate AppliesTogether(states: seq<State>, steps: seq<Step>, c: Uuid, j: Uuid, k: nat)
    requires |states| == |steps| + 1 && k < |steps|
  {
    Carries(states[k], j, c) ==>
      && Carries(states[k + 1], j, c) && (IsApplied(states[k], j) ==> IsApplied(states[k + 1], j))
      && (AppliesChange(states[k], steps[k], c) <==> !IsApplied(states[k], j) && IsApplied(states[k + 1], j))
  }

  lemma StepAppliesTogether(states: seq<State>, steps: seq<Step>, c: Uuid, j: Uuid, k: nat)
    requires Behaviour(states, steps) && k < |steps|
    ensures AppliesTogether(states, steps, c, j, k)
  {
    if Carries(states[k], j, c) {
      StepAppliesWithJob(states, steps, k, c, j);
      AppliedJobStays(states, steps, k, k + 1, c, j);
    }
  }

  lemma {:induction false} AppliedAddsUp(states: seq<State>, steps: seq<Step>, m: nat, n: nat, c: Uuid, j: Uuid)
    requires |states| == |steps| + 1 && m <= n <= |steps| && Carries(states[m], j, c)
    requires forall k: nat :: m <= k < n ==> AppliesTogether(states, steps, c, j, k)
    ensures Carries(states[n], j, c) && (IsApplied(states[m], j) ==> IsApplied(states[n], j))
    ensures TimesApplied(states, steps, c, m, n) == if !IsApplied(states[m], j) && IsApplied(states[n], j) then 1 else 0
    decreases n
  {
    if m == n {
    } else {
      AppliedAddsUp(states, steps, m, n - 1, c, j);
      assert AppliesTogether(states, steps, c, j, n - 1);
      OneMoreStep(states, steps, m, n, c, j);
    }
  }

  /** Whatever has been decided about a restore's ChangeSet by then, it is applied later in the run exactly when its job is still to
      be applied and then is, and then once. */
  lemma AppliedLaterIff(states: seq<State>, steps: seq<Step>, m: nat, n: nat, c: Uuid, j: Uuid)
    requires Behaviour(states, steps) && m <= n <= |steps| && Carries(states[m], j, c)
    ensures Carries(states[n], j, c)
    ensures TimesApplied(states, steps, c, m, n) == if !IsApplied(states[m], j) && IsApplied(states[n], j) then 1 else 0
  {
    forall k: nat | m <= k < n ensures AppliesTogether(states, steps, c, j, k) {
      StepAppliesTogether(states, steps, c, j, k);
    }
    AppliedAddsUp(states, steps, m, n, c, j);
  }

  /** The count over one more step, by what that step does to the job. */
  lemma OneMoreStep(states: seq<State>, steps: seq<Step>, m: nat, n: nat, c: Uuid, j: Uuid)
    requires |states| == |steps| + 1 && m < n <= |steps|
    requires TimesApplied(states, steps, c, m, n - 1) == if !IsApplied(states[m], j) && IsApplied(states[n - 1], j) then 1 else 0
    requires AppliesChange(states[n - 1], steps[n - 1], c) <==> !IsApplied(states[n - 1], j) && IsApplied(states[n], j)
    requires (IsApplied(states[m], j) ==> IsApplied(states[n - 1], j)) && (IsApplied(states[n - 1], j) ==> IsApplied(states[n], j))
    ensures TimesApplied(states, steps, c, m, n) == if !IsApplied(states[m], j) && IsApplied(states[n], j) then 1 else 0
  {
  }

  predicate Carries(s: State, j: Uuid, c: Uuid) {
    j in s.jobs && s.jobs[j].changesetId == Some(c)
  }

  predicate IsApplied(s: State, j: Uuid) {
    j in s.jobs && s.jobs[j].status == JobApplied
  }

  lemma AppliedJobStays(states: seq<State>, steps: seq<Step>, m: nat, n: nat, c: Uuid, j: Uuid)
    requires Behaviour(states, steps) && m <= n <= |steps| && Carries(states[m], j, c)
    ensures IsApplied(states[m], j) ==> IsApplied(states[n], j)
  {
    EndsForGood(states, steps, m, n, j, 0);
  }

  lemma StepAppliesWithJob(states: seq<State>, steps: seq<Step>, k: nat, c: Uuid, j: Uuid)
    requires Behaviour(states, steps) && k < |steps| && Carries(states[k], j, c)
    ensures Carries(states[k + 1], j, c)
    ensures AppliesChange(states[k], steps[k], c) <==> !IsApplied(states[k], j) && IsApplied(states[k + 1], j)
  {
    BehaviourKeepsInv(states, steps, k, k);
    BehaviourKeepsChanges(states, steps, k);
    AppliesWithJob(states[k], steps[k], c, j);
  }

  /** No restore's ChangeSet is applied twice in any run. */
  lemma AppliedOnce(states: seq<State>, steps: seq<Step>, k: nat, l: nat, c: Uuid)
    requires Behaviour(states, steps) && k < l < |steps| && AppliesChange(states[k], steps[k], c)
    ensures !AppliesChange(states[l], steps[l], c)
  {
    var j := steps[k].jobId;
    StepAppliesWithJob(states, steps, k, c, j);
    AppliedLaterIff(states, steps, k + 1, l, c, j);
    AppliedJobStays(states, steps, k + 1, l, c, j);
    StepAppliesWithJob(states, steps, l, c, j);
  }

  // --- A ChangeSet applied after its review ---------------------------------------------------------------

  /** A file gets two versions; its first is restored; the restore's ChangeSet is sent to review; the job completes. */
  const REVIEWED_RUN := [
    RegisterFile(1, "h1"), RegisterFile(1, "h2"),
    RestoreFile(0, 1, 1, 2, 21, 11),
    ReviewRestore(0, 21),
    CompleteJob(0, 11, "h2", "h1", true, None)]

  const FIRST := EMPTY.(versions := map[1 := [Version(1, "h1")]])
  const SECOND := EMPTY.(versions := map[1 := [Version(1, "h1"), Version(2, "h2")]])

  const RESTORE_JOB :=
    Job(0, 1, 2, Some("h2"), JobPending, RestoreOperation, None, true, false, true, true, Some(21), 0, "")

  function Restoring(status: ChangeStatus): RestoreChange {
    RestoreChange(0, 1, 2, Version(1, "h1"), status)
  }

  const RESTORING := SECOND.(jobs := map[11 := RESTORE_JOB], locks := map[1 := 11], changesets := map[21 := Restoring(ChangePending)])
  const IN_REVIEW := RESTORING.(changesets := map[21 := Restoring(ChangeInReview)])

  lemma TwoVersionsRegistered()
    ensures Linked(EMPTY, REVIEWED_RUN[0], FIRST) && Linked(FIRST, REVIEWED_RUN[1], SECOND)
  {
    FirstVersion(EMPTY, 1, "h1");
    SecondVersion(FIRST);
  }

  lemma SecondVersion(s: State)
    requires s.versions == map[1 := [Version(1, "h1")]]
    ensures Register(s, 1, "h2").0 == s.(versions := map[1 := [Version(1, "h1"), Version(2, "h2")]])
  {
    var versions := VersionsOf(s, 1);
    assert versions[..0] == [] && FindHash(versions[..0], "h2") == None;
    assert FindHash(versions, "h2") == None;
    assert versions + [Version(2, "h2")] == [Version(1, "h1"), Version(2, "h2")];
  }

  lemma RestoreIsMade()
    ensures Linked(SECOND, REVIEWED_RUN[2], RESTORING)
  {
    var versions := VersionsOf(SECOND, 1);
    assert versions[..1] == [versions[0]] && versions[..1][..0] == [];
    assert FindRevision(versions[..1], 1) == Some(Version(1, "h1")) && |versions| == 2;
    assert CreateRestore(SECOND, 0, 1, 1, 2, 21, 11).0 == RESTORING;
  }

  lemma ReviewIsMade()
    ensures Linked(RESTORING, REVIEWED_RUN[3], IN_REVIEW)
  {
  }

  function Restored(): State {
    Complete(IN_REVIEW, 0, 11, "h2", "h1", true, None).0
  }

  lemma ReviewedIsApplied()
    ensures Restored().changesets == map[21 := Restoring(ChangeApplied)]
  {
    assert Obstacle(IN_REVIEW, RESTORE_JOB, "h2", true, None) == None;
    RefreshedChanges(ApplyJob(IN_REVIEW, 11, "h1"), None);
  }

  lemma RefreshedChanges(s: State, planId: Option<Uuid>)
    ensures Refresh(s, planId).changesets == s.changesets
  {
  }

  lemma FiveLinks(states: seq<State>, steps: seq<Step>)
    requires |states| == 6 && |steps| == 5 && states[0] == EMPTY
    requires Linked(states[0], steps[0], states[1]) && Linked(states[1], steps[1], states[2]) && Linked(states[2], steps[2], states[3])
    requires Linked(states[3], steps[3], states[4]) && Linked(states[4], steps[4], states[5])
    ensures Behaviour(states, steps)
  {
    assert forall i :: 0 <= i < 5 ==> Linked(states[i], steps[i], states[i + 1]);
  }

  /** This run is possible: the ChangeSet is in review, and then applied. */
  lemma AppliedAfterReview() returns (states: seq<State>)
    ensures Behaviour(states, REVIEWED_RUN)
    ensures states[4].changesets == map[21 := Restoring(ChangeInReview)]
    ensures states[5].changesets == map[21 := Restoring(ChangeApplied)]
  {
    states := [EMPTY, FIRST, SECOND, RESTORING, IN_REVIEW, Restored()];
    TwoVersionsRegistered();
    RestoreIsMade();
    ReviewIsMade();
    ReportIsStep(IN_REVIEW, 0, 11, "h2", "h1");
    FiveLinks(states, REVIEWED_RUN);
    ReviewedIsApplied();
  }
}
