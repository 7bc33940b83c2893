/** What a preview plans, what its execution queues, and what a restore writes back. */
module PlanEffects {
  import opened Prelude
  import opened WriteBack
  import opened WriteBackTheorems
  import opened WriteBackRuns
  import opened WriteBackEffects

  // --- What is known of a file ---------------------------------------------------------------------------------

  /** The latest registered version, under the number of versions; without one, what the last import recorded. */
  ghost predicate KnownAt(s: State, projectId: Uuid, fileId: Uuid, revision: int, hash: string) {
    var versions := VersionsOf(s, fileId);
    if versions != [] then revision == |versions| && hash == versions[|versions| - 1].hash
    else (projectId, fileId) in s.importEvidence && s.importEvidence[(projectId, fileId)] == Evidence(revision, hash)
  }

  predicate IsKnown(s: State, projectId: Uuid, fileId: Uuid) {
    VersionsOf(s, fileId) != [] || (projectId, fileId) in s.importEvidence
  }

  lemma EvidenceIsKnown(s: State, projectId: Uuid, fileId: Uuid)
    requires VersionsOk(s)
    ensures IsKnown(s, projectId, fileId) <==> EvidenceOf(s, projectId, fileId).Some?
    ensures forall revision, hash :: KnownAt(s, projectId, fileId, revision, hash) <==> EvidenceOf(s, projectId, fileId) == Some(Evidence(revision, hash))
  {
    if VersionsOf(s, fileId) != [] {
      assert WellNumbered(s.versions[fileId]);
    }
  }

  // --- Previews ----------------------------------------------------------------------------------------------------

  ghost predicate FirstSeen(ids: seq<Uuid>, x: Uuid, k: nat) {
    k < |ids| && ids[k] == x && forall i :: 0 <= i < k ==> ids[i] != x
  }

  ghost predicate InOrderSeen(ids: seq<Uuid>, r: seq<Uuid>) {
    forall i, j, a: nat, b: nat :: 0 <= i < j < |r| && FirstSeen(ids, r[i], a) && FirstSeen(ids, r[j], b) ==> a < b
  }

  /** The distinct ids keep the order in which they were first seen. */
  lemma {:induction false} DistinctInOrder(ids: seq<Uuid>)
    ensures InOrderSeen(ids, Distinct(ids))
  {
    if ids == [] {
    } else {
      var last := |ids| - 1;
      var front, r := ids[..last], Distinct(ids);
      DistinctInOrder(front);
      var rest := Distinct(front);
      forall i, j, a: nat, b: nat | 0 <= i < j < |r| && FirstSeen(ids, r[i], a) && FirstSeen(ids, r[j], b) ensures a < b {
        assert r[i] in rest;
        SeenInFront(ids, r[i], a);
        if j < |rest| {
          SeenInFront(ids, r[j], b);
        } else {
          assert r[j] == ids[last] && r[j] !in front;
        }
      }
    }
  }

  lemma SeenInFront(ids: seq<Uuid>, x: Uuid, k: nat)
    requires ids != [] && FirstSeen(ids, x, k) && x in Distinct(ids[..|ids| - 1])
    ensures FirstSeen(ids[..|ids| - 1], x, k)
  {
    var front := ids[..|ids| - 1];
    assert x in front;
    var i :| 0 <= i < |front| && front[i] == x;
    assert ids[i] == x;
  }

  /** A requested version stands, else the known one is expected, else nothing: revision 0 and no hash. */
  ghost predicate Expects(s: State, projectId: Uuid, file: FilePlan, revisions: map<Uuid, int>, hashes: map<Uuid, string>) {
    && (file.fileId in revisions ==> file.expectedRevision == revisions[file.fileId])
    && (file.fileId in hashes ==> file.expectedHash == Some(hashes[file.fileId]))
    && (forall revision, hash :: KnownAt(s, projectId, file.fileId, revision, hash) ==>
          && (file.fileId !in revisions ==> file.expectedRevision == revision)
          && (file.fileId !in hashes ==> file.expectedHash == Some(hash)))
    && (!IsKnown(s, projectId, file.fileId) ==>
          && (file.fileId !in revisions ==> file.expectedRevision == 0)
          && (file.fileId !in hashes ==> file.expectedHash == None))
  }

  /** The expected version is complete, and is the known one if there is one. */
  ghost predicate Sound(s: State, projectId: Uuid, file: FilePlan) {
    && file.expectedRevision != 0 && file.expectedHash.Some?
    && (IsKnown(s, projectId, file.fileId) ==> KnownAt(s, projectId, file.fileId, file.expectedRevision, file.expectedHash.value))
  }

  lemma ExpectedFileExpects(s: State, projectId: Uuid, fileId: Uuid, revisions: map<Uuid, int>, hashes: map<Uuid, string>)
    requires VersionsOk(s)
    ensures Expects(s, projectId, ExpectedFile(s, projectId, fileId, revisions, hashes), revisions, hashes)
  {
    EvidenceIsKnown(s, projectId, fileId);
  }

  lemma SoundIff(s: State, projectId: Uuid, file: FilePlan)
    requires VersionsOk(s)
    ensures Sound(s, projectId, file) <==> !Doubtful(s, projectId, file)
  {
    EvidenceIsKnown(s, projectId, file.fileId);
  }

  ghost predicate PlansFiles(plan: Plan, fileIds: seq<Uuid>) {
    && (forall f :: f in fileIds <==> exists i :: 0 <= i < |plan.files| && plan.files[i].fileId == f)
    && (forall i, j :: 0 <= i < j < |plan.files| ==> plan.files[i].fileId != plan.files[j].fileId)
    && InOrderSeen(fileIds, seq(|plan.files|, i requires 0 <= i < |plan.files| => plan.files[i].fileId))
  }

  lemma DistinctArePlanned(s: State, projectId: Uuid, fileIds: seq<Uuid>, revisions: map<Uuid, int>, hashes: map<Uuid, string>, plan: Plan)
    requires plan.files == PlanFiles(s, projectId, Distinct(fileIds), revisions, hashes)
    ensures PlansFiles(plan, fileIds)
  {
    var ids := Distinct(fileIds);
    DistinctInOrder(fileIds);
    assert ids == seq(|plan.files|, i requires 0 <= i < |plan.files| => plan.files[i].fileId);
    forall f ensures f in fileIds <==> exists i :: 0 <= i < |plan.files| && plan.files[i].fileId == f {
      if f in fileIds {
        assert f in ids;
        var i :| 0 <= i < |ids| && ids[i] == f;
        assert plan.files[i].fileId == f;
      }
      if i :| 0 <= i < |plan.files| && plan.files[i].fileId == f {
        assert ids[i] in ids;
      }
    }
  }

  /** In every run a preview of some files makes an open plan, as asked for, with each file once in the order first named and with the
      version expected of it; it can be confirmed exactly if nothing else warns and every expected version is sound. */
  lemma PreviewTakesEffect(states: seq<State>, steps: seq<Step>, n: nat, i: nat)
    requires Behaviour(states, steps) && n < |steps| && steps[n].MakePreview? && steps[n].fileIds != []
    ensures var s, s', step := states[n], states[n + 1], steps[n];
            && s' == s.(plans := s'.plans) && s'.plans.Keys == s.plans.Keys + {step.newId}
            && (forall p :: p in s.plans ==> s'.plans[p] == s.plans[p])
            && var plan := s'.plans[step.newId];
               && plan.projectId == step.projectId && plan.status == Preview && plan.inPlace == step.inPlace && plan.allOrNothing == step.allOrNothing
               && PlansFiles(plan, step.fileIds)
               && (i < |plan.files| ==> Expects(s, step.projectId, plan.files[i], step.revisions, step.hashes))
               && (plan.canConfirm <==> !step.otherWarnings && forall file :: file in plan.files ==> Sound(s, step.projectId, file))
  {
    var s, s', step := states[n], states[n + 1], steps[n];
    BehaviourKeepsInv(states, steps, n, n);
    var plan := s'.plans[step.newId];
    DistinctArePlanned(s, step.projectId, step.fileIds, step.revisions, step.hashes, plan);
    if i < |plan.files| {
      ExpectedFileExpects(s, step.projectId, Distinct(step.fileIds)[i], step.revisions, step.hashes);
    }
    forall file ensures Sound(s, step.projectId, file) <==> !Doubtful(s, step.projectId, file) {
      SoundIff(s, step.projectId, file);
    }
  }

  // --- Executions ----------------------------------------------------------------------------------------------------

  /** The job as the plan has it. */
  predicate AsPlanned(job: Job, planId: Uuid, plan: Plan, file: FilePlan) {
    && job.projectId == plan.projectId && job.planId == Some(planId)
    && job.fileId == file.fileId && job.expectedRevision == file.expectedRevision && job.expectedHash == file.expectedHash
    && job.inPlace == plan.inPlace && job.allOrNothing == plan.allOrNothing
    && job.status == JobPending && job.operation == WriteBackOperation && job.confirmed && job.safetyEnforced && job.changesetId == None
    && job.resultRevision == 0 && job.resultHash == ""
  }

  ghost predicate Holds(s: State, f: Uuid, j: Uuid) {
    f in s.locks && s.locks[f] == j
  }

  /** The i-th job of the first n is there with its lock. */
  ghost predicate HasPlanned(s': State, planId: Uuid, plan: Plan, newIds: seq<Uuid>, n: nat)
    requires n <= |plan.files| == |newIds|
  {
    forall i :: 0 <= i < n ==> newIds[i] in s'.jobs && AsPlanned(s'.jobs[newIds[i]], planId, plan, plan.files[i])
                               && Holds(s', plan.files[i].fileId, newIds[i])
  }

  /** What was there before is untouched, and every other job is among the first n. */
  ghost predicate KeepsOld(s: State, s': State, newIds: seq<Uuid>, n: nat)
    requires n <= |newIds|
  {
    && (forall j :: j in s.jobs ==> j in s'.jobs && s'.jobs[j] == s.jobs[j])
    && (forall j :: j in s'.jobs && j !in s.jobs ==> j in newIds[..n])
    && (forall f :: f in s.locks ==> Holds(s', f, s.locks[f]))
  }

  ghost predicate AddsJobs(s: State, s': State, planId: Uuid, plan: Plan, newIds: seq<Uuid>, n: nat)
    requires n <= |plan.files| == |newIds|
  {
    HasPlanned(s', planId, plan, newIds, n) && KeepsOld(s, s', newIds, n)
  }

  /** Each job has an id of its own, and each file one job. */
  ghost predicate OneForOne(plan: Plan, newIds: seq<Uuid>) {
    FilesDistinct(plan) && |plan.files| == |newIds| && forall i, j :: 0 <= i < j < |newIds| ==> newIds[i] != newIds[j]
  }

  lemma HasOneMorePlanned(s': State, planId: Uuid, plan: Plan, newIds: seq<Uuid>, n: nat, s'': State)
    requires OneForOne(plan, newIds) && n < |newIds| && HasPlanned(s', planId, plan, newIds, n)
    requires s'' == WithJob(s', planId, plan, n, newIds[n])
    ensures HasPlanned(s'', planId, plan, newIds, n + 1)
  {
  }

  lemma {:induction false} WithJobsHasPlanned(s: State, planId: Uuid, plan: Plan, newIds: seq<Uuid>, n: nat)
    requires OneForOne(plan, newIds) && n <= |newIds|
    ensures HasPlanned(WithJobs(s, planId, plan, newIds, n), planId, plan, newIds, n)
  {
    if n == 0 {
    } else {
      WithJobsHasPlanned(s, planId, plan, newIds, n - 1);
      HasOneMorePlanned(WithJobs(s, planId, plan, newIds, n - 1), planId, plan, newIds, n - 1, WithJobs(s, planId, plan, newIds, n));
    }
  }

  lemma KeepsOldWithOneMore(s: State, s': State, planId: Uuid, plan: Plan, newIds: seq<Uuid>, n: nat)
    requires n < |plan.files| == |newIds| && NewId(s, newIds[n]) && plan.files[n].fileId !in s.locks && KeepsOld(s, s', newIds, n)
    ensures KeepsOld(s, WithJob(s', planId, plan, n, newIds[n]), newIds, n + 1)
  {
    assert newIds[..n + 1] == newIds[..n] + [newIds[n]];
  }

  lemma {:induction false} WithJobsKeepsOld(s: State, planId: Uuid, plan: Plan, newIds: seq<Uuid>, n: nat)
    requires ReadyToQueue(s, planId, plan, newIds) && n <= |newIds|
    ensures KeepsOld(s, WithJobs(s, planId, plan, newIds, n), newIds, n)
  {
    if n == 0 {
    } else {
      WithJobsKeepsOld(s, planId, plan, newIds, n - 1);
      KeepsOldWithOneMore(s, WithJobs(s, planId, plan, newIds, n - 1), planId, plan, newIds, n - 1);
    }
  }

  /** The plan is open and can be confirmed. */
  predicate Confirmable(s: State, projectId: Uuid, planId: Uuid) {
    planId in s.plans && s.plans[planId].projectId == projectId && s.plans[planId].status == Preview && s.plans[planId].canConfirm
  }

  /** The file is free, is known at the expected version, and is that on disk. */
  ghost predicate Writable(s: State, projectId: Uuid, file: FilePlan, staleOnDisk: set<Uuid>) {
    && file.fileId !in s.locks && file.fileId !in staleOnDisk
    && file.expectedHash.Some? && KnownAt(s, projectId, file.fileId, file.expectedRevision, file.expectedHash.value)
  }

  lemma WritableIff(s: State, projectId: Uuid, file: FilePlan, staleOnDisk: set<Uuid>)
    requires VersionsOk(s)
    ensures Writable(s, projectId, file, staleOnDisk) <==> !Blocked(s, projectId, file, staleOnDisk)
  {
    EvidenceIsKnown(s, projectId, file.fileId);
  }

  ghost predicate OnlyPlanStatus(s: State, s': State, planId: Uuid, status: PlanStatus) {
    && s'.plans.Keys == s.plans.Keys && planId in s.plans && s'.plans[planId] == s.plans[planId].(status := status)
    && (forall p :: p in s.plans && p != planId ==> s'.plans[p] == s.plans[p])
    && s'.versions == s.versions && s'.importEvidence == s.importEvidence && s'.selfWrites == s.selfWrites && s'.changesets == s.changesets
  }

  /** In every run an execution is refused, changing nothing, unless it confirms an open plan that can be confirmed. It then queues
      one job per file, as planned and holding the file's lock, exactly if every file is writable; otherwise the plan alone
      is marked as conflicting. */
  lemma ExecuteTakesEffect(states: seq<State>, steps: seq<Step>, n: nat)
    requires Behaviour(states, steps) && n < |steps| && steps[n].ExecutePlan?
    ensures var s, s', step := states[n], states[n + 1], steps[n];
            && (step.planId in s.plans ==> |step.newIds| == |s.plans[step.planId].files|)
            && if !step.confirmed || !Confirmable(s, step.projectId, step.planId) then s' == s
               else if forall file :: file in s.plans[step.planId].files ==> Writable(s, step.projectId, file, step.staleOnDisk)
               then OnlyPlanStatus(s, s', step.planId, Queued)
                    && AddsJobs(s, s', step.planId, s.plans[step.planId], step.newIds, |step.newIds|)
               else OnlyPlanStatus(s, s', step.planId, PlanConflict) && s'.jobs == s.jobs && s'.locks == s.locks
  {
    var s, step := states[n], steps[n];
    BehaviourKeepsInv(states, steps, n, n);
    if step.confirmed && Confirmable(s, step.projectId, step.planId) {
      forall file ensures Writable(s, step.projectId, file, step.staleOnDisk) <==> !Blocked(s, step.projectId, file, step.staleOnDisk) {
        WritableIff(s, step.projectId, file, step.staleOnDisk);
      }
      if forall file :: file in s.plans[step.planId].files ==> Writable(s, step.projectId, file, step.staleOnDisk) {
        QueuedAsPlanned(s, step.projectId, step.planId, step.staleOnDisk, step.newIds);
      }
    }
  }

  lemma {:induction false} WithJobsKeepsTables(s: State, planId: Uuid, plan: Plan, newIds: seq<Uuid>, n: nat)
    requires n <= |plan.files| == |newIds|
    ensures var made := WithJobs(s, planId, plan, newIds, n); made == s.(jobs := made.jobs, locks := made.locks)
  {
    if n == 0 {
    } else {
      WithJobsKeepsTables(s, planId, plan, newIds, n - 1);
    }
  }

  lemma PlanMarked(s: State, made: State, planId: Uuid, status: PlanStatus)
    requires planId in s.plans && made == s.(jobs := made.jobs, locks := made.locks)
    ensures OnlyPlanStatus(s, made.(plans := SetPlanStatus(s, planId, status).plans), planId, status)
  {
  }

  lemma SameJobsAdded(s: State, made: State, s': State, planId: Uuid, plan: Plan, newIds: seq<Uuid>)
    requires |plan.files| == |newIds| && AddsJobs(s, made, planId, plan, newIds, |newIds|) && s'.jobs == made.jobs && s'.locks == made.locks
    ensures AddsJobs(s, s', planId, plan, newIds, |newIds|)
  {
  }

  lemma QueuedAsPlanned(s: State, projectId: Uuid, planId: Uuid, staleOnDisk: set<Uuid>, newIds: seq<Uuid>)
    requires Inv(s) && Confirmable(s, projectId, planId) && |newIds| == |s.plans[planId].files| && FreshIds(s, newIds)
    requires forall file :: file in s.plans[planId].files ==> !Blocked(s, projectId, file, staleOnDisk)
    ensures var s' := Execute(s, projectId, planId, true, staleOnDisk, newIds).0;
            OnlyPlanStatus(s, s', planId, Queued) && AddsJobs(s, s', planId, s.plans[planId], newIds, |newIds|)
  {
    var plan := s.plans[planId];
    UnblockedIsReady(s, projectId, planId, staleOnDisk, newIds);
    var made, s' := WithJobs(s, planId, plan, newIds, |newIds|), Execute(s, projectId, planId, true, staleOnDisk, newIds).0;
    ExecutedIs(s, projectId, planId, staleOnDisk, newIds);
    WithJobsHasPlanned(s, planId, plan, newIds, |newIds|);
    WithJobsKeepsOld(s, planId, plan, newIds, |newIds|);
    WithJobsKeepsTables(s, planId, plan, newIds, |newIds|);
    PlanMarked(s, made, planId, Queued);
    SameJobsAdded(s, made, s', planId, plan, newIds);
  }

  lemma ExecutedIs(s: State, projectId: Uuid, planId: Uuid, staleOnDisk: set<Uuid>, newIds: seq<Uuid>)
    requires Inv(s) && Confirmable(s, projectId, planId) && |newIds| == |s.plans[planId].files|
    requires ReadyToQueue(s, planId, s.plans[planId], newIds) && forall j :: !OfPlan(s, j, planId)
    requires forall file :: file in s.plans[planId].files ==> !Blocked(s, projectId, file, staleOnDisk)
    ensures Execute(s, projectId, planId, true, staleOnDisk, newIds).0
         == WithJobs(s, planId, s.plans[planId], newIds, |newIds|).(plans := SetPlanStatus(s, planId, Queued).plans)
  {
    QueueingNeverBlocks(s, planId, s.plans[planId], newIds, |newIds|);
  }

  /** A plan made just now, if it can be confirmed and nothing is stale on disk, is queued exactly if each of its files is known and free. */
  lemma FreshPlanIsQueued(states: seq<State>, steps: seq<Step>, n: nat, newIds: seq<Uuid>)
    requires Behaviour(states, steps) && n < |steps| && steps[n].MakePreview? && steps[n].fileIds != []
    requires states[n + 1].plans[steps[n].newId].canConfirm && |newIds| == |states[n + 1].plans[steps[n].newId].files|
    requires FreshIds(states[n + 1], newIds)
    ensures var s', step := states[n + 1], steps[n];
            (Execute(s', step.projectId, step.newId, true, {}, newIds).1 == Ok(()))
            <==> (forall f :: f in step.fileIds ==> f !in s'.locks && IsKnown(s', step.projectId, f))
  {
    var s', step := states[n + 1], steps[n];
    var files := s'.plans[step.newId].files;
    BehaviourKeepsInv(states, steps, n + 1, n + 1);
    PreviewTakesEffect(states, steps, n, 0);
    PlannedWritableIff(states[n], s', step.projectId, s'.plans[step.newId], step.fileIds);
    forall file ensures Writable(s', step.projectId, file, {}) <==> !Blocked(s', step.projectId, file, {}) {
      WritableIff(s', step.projectId, file, {});
    }
    if forall file :: file in files ==> !Blocked(s', step.projectId, file, {}) {
      ExecuteQueuesAll(s', step.projectId, step.newId, {}, newIds);
    }
  }

  lemma PlannedWritableIff(s: State, s': State, projectId: Uuid, plan: Plan, fileIds: seq<Uuid>)
    requires s' == s.(plans := s'.plans) && PlansFiles(plan, fileIds) && forall file :: file in plan.files ==> Sound(s, projectId, file)
    ensures (forall file :: file in plan.files ==> Writable(s', projectId, file, {}))
       <==> forall f :: f in fileIds ==> f !in s'.locks && IsKnown(s', projectId, f)
  {
    forall file | file in plan.files
      ensures Writable(s', projectId, file, {}) <==> file.fileId !in s'.locks && IsKnown(s', projectId, file.fileId)
    {
      assert Sound(s, projectId, file);
    }
    forall f | f in fileIds ensures exists file :: file in plan.files && file.fileId == f {
      var i :| 0 <= i < |plan.files| && plan.files[i].fileId == f;
      assert plan.files[i] in plan.files;
    }
    forall file | file in plan.files ensures file.fileId in fileIds {
      var i :| 0 <= i < |plan.files| && plan.files[i] == file;
    }
  }

  // --- Restores and single jobs ------------------------------------------------------------------------------------------

  /** A job outside a plan is made unless it is enforced and unconfirmed or its file is locked; only an enforced one takes the lock. */
  lemma SingleJobTakesEffect(s: State, job: Job, newId: Uuid)
    requires NewId(s, newId)
    ensures var (s', r) := CreateJob(s, job, newId);
            && (r == Ok(newId) <==> (job.safetyEnforced ==> job.confirmed && job.fileId !in s.locks))
            && (r.Err? ==> s' == s)
            && (r.Ok? ==> && s' == s.(jobs := s'.jobs, locks := s'.locks) && newId in s'.jobs && s'.jobs[newId] == job
                          && (forall j :: j != newId ==> SameJob(s, s', j))
                          && (forall f :: if job.safetyEnforced && f == job.fileId then Holds(s', f, newId) else SameLock(s, s', f)))
  {
  }

  lemma RevisionIsPosition(versions: seq<Version>, target: nat)
    requires WellNumbered(versions)
    ensures FindRevision(versions, target).Some? <==> 1 <= target <= |versions|
    ensures 1 <= target <= |versions| ==> FindRevision(versions, target) == Some(versions[target - 1])
  {
    if 1 <= target <= |versions| {
      assert versions[target - 1].revision == target;
      var i :| 0 <= i < |versions| && versions[i] == FindRevision(versions, target).value;
    }
  }

  /** A job that puts the file, as it now is, back to the target version, with a lock and a ChangeSet that says so. */
  ghost predicate Restores(s: State, s': State, projectId: Uuid, fileId: Uuid, target: nat, changeId: Uuid, newId: Uuid)
    requires 1 <= target <= |VersionsOf(s, fileId)|
  {
    var versions := VersionsOf(s, fileId);
    && newId in s'.jobs && Holds(s', fileId, newId) && changeId in s'.changesets
    && (var job := s'.jobs[newId];
        && job.projectId == projectId && job.fileId == fileId && job.status == JobPending && job.operation == RestoreOperation
        && job.expectedRevision == |versions| && job.expectedHash == Some(versions[|versions| - 1].hash)
        && job.planId == None && job.inPlace && !job.allOrNothing && job.confirmed && job.safetyEnforced && job.changesetId == Some(changeId)
        && job.resultRevision == 0 && job.resultHash == "")
    && s'.changesets[changeId] == RestoreChange(projectId, fileId, |versions|, versions[target - 1], ChangePending)
  }

  /** In every run a restore is made exactly for a version the file has, of a file that is as expected and not locked. */
  lemma RestoreTakesEffect(states: seq<State>, steps: seq<Step>, n: nat, projectId: Uuid, fileId: Uuid, target: nat, expected: int, changeId: Uuid, newId: Uuid)
    requires Behaviour(states, steps) && n < |steps| && steps[n] == RestoreFile(projectId, fileId, target, expected, changeId, newId)
    ensures var s, s' := states[n], states[n + 1];
            if 1 <= target <= |VersionsOf(s, fileId)| == expected && fileId !in s.locks
            then && Restores(s, s', projectId, fileId, target, changeId, newId)
                 && s' == s.(jobs := s'.jobs, locks := s'.locks, changesets := s'.changesets)
                 && (forall j :: j != newId ==> SameJob(s, s', j)) && (forall f :: f != fileId ==> SameLock(s, s', f))
                 && forall c :: c in s.changesets ==> c in s'.changesets && s'.changesets[c] == s.changesets[c]
            else s' == s
  {
    BehaviourKeepsInv(states, steps, n, n);
    RevisionIsPosition(VersionsOf(states[n], fileId), target);
  }

  /** Completed at once, with the target version's content written over the current one and a backup kept, the restore is applied: the
      file gets no new version, the job answers the target version, and the ChangeSet is applied. */
  lemma RestoreReturnsToVersion(states: seq<State>, steps: seq<Step>, n: nat, projectId: Uuid, fileId: Uuid, target: nat, expected: int, changeId: Uuid, newId: Uuid)
    requires Behaviour(states, steps) && n < |steps| && steps[n] == RestoreFile(projectId, fileId, target, expected, changeId, newId)
    requires 1 <= target <= |VersionsOf(states[n], fileId)| == expected && fileId !in states[n].locks
    ensures var s, versions := states[n + 1], VersionsOf(states[n], fileId);
            var (s', r) := Complete(s, projectId, newId, versions[|versions| - 1].hash, versions[target - 1].hash, true, None);
            && r == Ok(()) && VersionsOf(s', fileId) == versions && fileId !in s'.locks
            && newId in s'.jobs && s'.jobs[newId].status == JobApplied && s'.jobs[newId].resultRevision == target
            && changeId in s'.changesets && s'.changesets[changeId].status == ChangeApplied
  {
    var s, versions := states[n + 1], VersionsOf(states[n], fileId);
    var source, result := versions[|versions| - 1].hash, versions[target - 1].hash;
    RestoreTakesEffect(states, steps, n, projectId, fileId, target, expected, changeId, newId);
    BehaviourKeepsInv(states, steps, n + 1, n + 1);
    ReportTakesEffect(states, steps, n + 1, projectId, newId, source, result, true, None, newId, fileId);
    CompletionAdvancesOnce(s, projectId, newId, source, result, true, None);
    CompletionAnswers(s, projectId, newId, source, result, target);
    ReportRecords(s, projectId, newId, source, result, true, None, fileId, changeId);
  }

  /** A completion with the hash of a version answers that version. */
  lemma CompletionAnswers(s: State, projectId: Uuid, jobId: Uuid, source: string, result: string, target: nat)
    requires Inv(s) && Named(s, projectId, jobId) && s.jobs[jobId].status == JobPending
    requires Complete(s, projectId, jobId, source, result, true, None).1 == Ok(())
    requires 1 <= target <= |VersionsOf(s, s.jobs[jobId].fileId)| && VersionsOf(s, s.jobs[jobId].fileId)[target - 1].hash == result
    ensures var s' := Complete(s, projectId, jobId, source, result, true, None).0;
            && jobId in s'.jobs && s'.jobs[jobId].resultRevision == target && VersionsOf(s', s.jobs[jobId].fileId) == VersionsOf(s, s.jobs[jobId].fileId)
  {
    CompletedIsApplied(s, projectId, jobId, source, result, true, None);
    AppliedJob(s, jobId, result);
    RefreshKeepsJobsAndVersions(ApplyJob(s, jobId, result), s.jobs[jobId].planId);
    RegisterEffect(s, s.jobs[jobId].fileId, result);
    CompletionAdvancesOnce(s, projectId, jobId, source, result, true, None);
  }

  /** A restore's ChangeSet of the project is sent to review from any status; approving an open one marks it as conflicting. */
  lemma DecisionsTakeEffect(s: State, projectId: Uuid, c: Uuid)
    ensures var (s', r) := ReviewChange(s, projectId, c);
            && (r.Ok? <==> c in s.changesets && s.changesets[c].projectId == projectId)
            && (if r.Ok? then s' == s.(changesets := s.changesets[c := s.changesets[c].(status := ChangeInReview)]) else s' == s)
    ensures var (s', r) := ApproveChange(s, projectId, c);
            && r.Err?
            && (if c in s.changesets && s.changesets[c].projectId == projectId && s.changesets[c].status == ChangePending
                then s' == s.(changesets := s.changesets[c := s.changesets[c].(status := ChangeConflict)]) else s' == s)
  {
  }
}
