/** Write-back as the store performs it: job and plan records updated in place, loops over files, jobs and versions. */
module WriteBackStore {
  import opened Prelude
  import opened WriteBack

  class FileWriteJob {
    const id: Uuid
    const projectId: Uuid
    const fileId: Uuid
    const expectedRevision: int
    const expectedHash: Option<string>
    const operation: Operation
    const planId: Option<Uuid>
    const inPlace: bool
    const allOrNothing: bool
    const confirmed: bool
    const safetyEnforced: bool
    const changesetId: Option<Uuid>
    var status: JobStatus
    var resultRevision: nat
    var resultHash: string

    constructor (id: Uuid, job: Job)
      ensures this.id == id && View() == job
    {
      this.id, projectId, fileId := id, job.projectId, job.fileId;
      expectedRevision, expectedHash, operation, planId := job.expectedRevision, job.expectedHash, job.operation, job.planId;
      inPlace, allOrNothing, confirmed, safetyEnforced := job.inPlace, job.allOrNothing, job.confirmed, job.safetyEnforced;
      changesetId := job.changesetId;
      status, resultRevision, resultHash := job.status, job.resultRevision, job.resultHash;
    }

    function View(): Job
      reads this
    {
      Job(projectId, fileId, expectedRevision, expectedHash, status, operation, planId, inPlace, allOrNothing, confirmed,
          safetyEnforced, changesetId, resultRevision, resultHash)
    }
  }

  class WriteBackPlan {
    const id: Uuid
    const projectId: Uuid
    const canConfirm: bool
    const inPlace: bool
    const allOrNothing: bool
    const files: seq<FilePlan>
    var status: PlanStatus

    constructor (id: Uuid, plan: Plan)
      ensures this.id == id && View() == plan
    {
      this.id, projectId, canConfirm, inPlace, allOrNothing := id, plan.projectId, plan.canConfirm, plan.inPlace, plan.allOrNothing;
      files, status := plan.files, plan.status;
    }

    function View(): Plan
      reads this
    {
      Plan(projectId, status, canConfirm, inPlace, allOrNothing, files)
    }
  }

  /** Stopping jobs one group after another is stopping them together. */
  lemma StopTwice(s: State, js: set<Uuid>, ks: set<Uuid>, status: JobStatus)
    ensures Stop(Stop(s, js, status), ks, status) == Stop(s, js + ks, status)
  {
    StopTwiceLocks(s, js, ks, status);
    assert Stop(Stop(s, js, status), ks, status).jobs == Stop(s, js + ks, status).jobs;
  }

  lemma StopTwiceLocks(s: State, js: set<Uuid>, ks: set<Uuid>, status: JobStatus)
    ensures Stop(Stop(s, js, status), ks, status).locks == Stop(s, js + ks, status).locks
  {
    var once := Stop(s, js, status);
    assert forall f :: f in once.locks ==> (HeldBy(once, f, ks) <==> HeldBy(s, f, ks));
  }

  function Released(s: State, id: Uuid, fileId: Uuid): map<Uuid, Uuid> {
    if fileId in s.locks && s.locks[fileId] == id then s.locks - {fileId} else s.locks
  }

  /** Stopping a single job, as two map updates. */
  lemma StopOne(s: State, id: Uuid, status: JobStatus)
    requires id in s.jobs
    ensures Stop(s, {id}, status).jobs == s.jobs[id := s.jobs[id].(status := status)]
    ensures Stop(s, {id}, status).locks == Released(s, id, s.jobs[id].fileId)
  {
  }

  /** Once a job could not be made, no later one is. */
  lemma {:induction false} ShortOf(s: State, planId: Uuid, plan: Plan, newIds: seq<Uuid>, n: nat, m: nat)
    requires n < m <= |plan.files| == |newIds| && CreateJobs(s, planId, plan, newIds, n).1 == n
    requires CreateJobs(s, planId, plan, newIds, n + 1).1 == n
    ensures CreateJobs(s, planId, plan, newIds, m) == CreateJobs(s, planId, plan, newIds, n)
    decreases m
  {
    if m == n + 1 {
    } else {
      ShortOf(s, planId, plan, newIds, n, m - 1);
    }
  }

  /** One more of the listed jobs stopped. */
  lemma StopNextMade(s: State, ids: seq<Uuid>, n: nat)
    requires n < |ids|
    ensures Stop(Stop(s, Made(ids, n), JobFailed), {ids[n]}, JobFailed) == Stop(s, Made(ids, n + 1), JobFailed)
  {
    StopTwice(s, Made(ids, n), {ids[n]}, JobFailed);
    assert Made(ids, n + 1) == Made(ids, n) + {ids[n]};
  }

  /** The jobs stopped once the sibling loop has only `rest` to visit. */
  ghost function Visited(s: State, planId: Uuid, jobId: Uuid, rest: set<Uuid>): set<Uuid> {
    {jobId} + (PendingOf(s, planId) - rest)
  }

  /** Visiting a sibling stops it exactly when it is a pending job of the plan. */
  lemma VisitSibling(s: State, planId: Uuid, jobId: Uuid, rest: set<Uuid>, j: Uuid)
    requires j in rest && j in s.jobs
    ensures var visited := Stop(s, Visited(s, planId, jobId, rest), JobFailed);
            j in visited.jobs &&
            Stop(s, Visited(s, planId, jobId, rest - {j}), JobFailed)
            == if visited.jobs[j].planId == Some(planId) && visited.jobs[j].status == JobPending then Stop(visited, {j}, JobFailed) else visited
  {
    var before, after := Visited(s, planId, jobId, rest), Visited(s, planId, jobId, rest - {j});
    StopTwice(s, before, {j}, JobFailed);
    if j in PendingOf(s, planId) && j != jobId {
      assert after == before + {j};
    } else {
      assert after == before;
    }
  }

  function WithResult(s: State, jobId: Uuid, revision: nat, resultHash: string): State
    requires jobId in s.jobs
  {
    s.(jobs := s.jobs[jobId := s.jobs[jobId].(status := JobApplied, resultRevision := revision, resultHash := resultHash)])
  }

  /** An application, as the sequence of its updates. */
  lemma ApplyJobUpdates(s: State, jobId: Uuid, resultHash: string)
    requires jobId in s.jobs
    ensures var fileId, (registered, revision) := s.jobs[jobId].fileId, Register(s, s.jobs[jobId].fileId, resultHash);
            var recorded := WithResult(registered, jobId, revision, resultHash);
            var marked := recorded.(selfWrites := recorded.selfWrites + {(fileId, resultHash)});
            ApplyJob(s, jobId, resultHash) == marked.(locks := Released(marked, jobId, fileId),
                                                      changesets := ApplyChange(s.changesets, s.jobs[jobId].changesetId))
  {
    StopOne(s, jobId, JobApplied);
  }

  /** The jobs made are there. */
  lemma {:induction false} MadeJobsExist(s: State, planId: Uuid, plan: Plan, newIds: seq<Uuid>, n: nat)
    requires n <= |plan.files| == |newIds|
    ensures var (s', made) := CreateJobs(s, planId, plan, newIds, n); made <= n && forall i :: 0 <= i < made ==> newIds[i] in s'.jobs
  {
    if n == 0 {
    } else {
      MadeJobsExist(s, planId, plan, newIds, n - 1);
    }
  }

  lemma StopNone(s: State, ids: seq<Uuid>)
    ensures Stop(s, Made(ids, 0), JobFailed) == s
  {
    assert Stop(s, Made(ids, 0), JobFailed).jobs == s.jobs;
    assert Stop(s, Made(ids, 0), JobFailed).locks == s.locks;
  }

  /** The first version with the hash decides, whatever follows it. */
  lemma {:induction false} FoundEarly(versions: seq<Version>, hash: string, n: nat)
    requires n <= |versions| && FindHash(versions[..n], hash).Some?
    ensures FindHash(versions, hash) == FindHash(versions[..n], hash)
  {
    if n < |versions| {
      var last := |versions| - 1;
      assert versions[..last][..n] == versions[..n];
      FoundEarly(versions[..last], hash, n);
    } else {
      assert versions[..n] == versions;
    }
  }

  /** Likewise the first with the revision. */
  lemma {:induction false} RevisionFoundEarly(versions: seq<Version>, revision: nat, n: nat)
    requires n <= |versions| && FindRevision(versions[..n], revision).Some?
    ensures FindRevision(versions, revision) == FindRevision(versions[..n], revision)
  {
    if n == |versions| {
      assert versions[..n] == versions;
    } else {
      var last := |versions| - 1;
      assert versions[..last][..n] == versions[..n];
      RevisionFoundEarly(versions[..last], revision, n);
    }
  }

  class Store {
    var writeJobs: map<Uuid, FileWriteJob>
    var plans: map<Uuid, WriteBackPlan>
    var fileLocks: map<Uuid, Uuid>
    var fileVersions: map<Uuid, seq<Version>>
    var importEvidence: map<(Uuid, Uuid), Evidence>
    var selfWrites: set<(Uuid, string)>
    var changesets: map<Uuid, RestoreChange>

    ghost predicate Valid()
      reads this`writeJobs, this`plans, writeJobs.Values, plans.Values
    {
      && (forall j :: j in writeJobs ==> writeJobs[j].id == j)
      && (forall p :: p in plans ==> plans[p].id == p)
    }

    ghost function Jobs(): map<Uuid, Job>
      reads this`writeJobs, writeJobs.Values
    {
      map j | j in writeJobs :: writeJobs[j].View()
    }

    ghost function Plans(): map<Uuid, Plan>
      reads this`plans, plans.Values
    {
      map p | p in plans :: plans[p].View()
    }

    ghost function View(): State
      reads this, writeJobs.Values, plans.Values
    {
      State(Jobs(), Plans(), fileLocks, fileVersions, importEvidence, selfWrites, changesets)
    }

    // --- Record updates ------------------------------------------------------------------------------

    method ReleaseLock(job: FileWriteJob)
      modifies this`fileLocks
      ensures View() == old(View()).(locks := Released(old(View()), job.id, job.fileId))
    {
      if job.fileId in fileLocks && fileLocks[job.fileId] == job.id {
        fileLocks := fileLocks - {job.fileId};
      }
    }

    method SetJobStatus(id: Uuid, status: JobStatus)
      requires Valid() && id in writeJobs
      modifies writeJobs[id]
      ensures Valid()
      ensures View() == old(View()).(jobs := old(Jobs())[id := old(Jobs())[id].(status := status)])
    {
      var job := writeJobs[id];
      job.status := status;
      assert forall other :: other in writeJobs && other != id ==> writeJobs[other] != job;
      assert Jobs() == old(Jobs())[id := job.View()];
    }

    method SetStatusOfPlan(id: Uuid, status: PlanStatus)
      requires Valid() && id in plans
      modifies plans[id]
      ensures Valid()
      ensures View() == SetPlanStatus(old(View()), id, status)
    {
      var plan := plans[id];
      plan.status := status;
      assert forall other :: other in plans && other != id ==> plans[other] != plan;
      assert Plans() == old(Plans())[id := plan.View()];
    }

    /** Ends one job and releases its lock. */
    method StopJob(id: Uuid, status: JobStatus)
      requires Valid() && id in writeJobs
      modifies this`fileLocks, writeJobs[id]
      ensures Valid()
      ensures View() == Stop(old(View()), {id}, status)
    {
      StopOne(View(), id, status);
      SetJobStatus(id, status);
      ReleaseLock(writeJobs[id]);
      assert old(Jobs())[id] == old(writeJobs[id].View());
    }

    // --- Evidence and preview ------------------------------------------------------------------------

    method FileEvidence(projectId: Uuid, fileId: Uuid) returns (evidence: Option<Evidence>)
      ensures evidence == EvidenceOf(View(), projectId, fileId)
    {
      var versions := if fileId in fileVersions then fileVersions[fileId] else [];
      if versions != [] {
        var latest := versions[|versions| - 1];
        return Some(Evidence(latest.revision, latest.hash));
      }
      evidence := if (projectId, fileId) in importEvidence then Some(importEvidence[(projectId, fileId)]) else None;
    }

    /** The file loop of a preview: what each file is expected to be, and whether any is in doubt. */
    method PreviewFiles(projectId: Uuid, ids: seq<Uuid>, revisions: map<Uuid, int>, hashes: map<Uuid, string>)
      returns (files: seq<FilePlan>, warned: bool)
      ensures files == PlanFiles(View(), projectId, ids, revisions, hashes)
      ensures warned <==> exists f :: f in files && Doubtful(View(), projectId, f)
    {
      files, warned := [], false;
      for i := 0 to |ids|
        invariant |files| == i && forall k :: 0 <= k < i ==> files[k] == ExpectedFile(View(), projectId, ids[k], revisions, hashes)
        invariant warned <==> exists k :: 0 <= k < i && Doubtful(View(), projectId, files[k])
      {
        var known := FileEvidence(projectId, ids[i]);
        var revision := if ids[i] in revisions then revisions[ids[i]] else if known.Some? then known.value.revision else 0;
        var hash := if ids[i] in hashes then Some(hashes[ids[i]]) else if known.Some? then Some(known.value.hash) else None;
        var file := FilePlan(ids[i], revision, hash);
        var doubtful := revision == 0 || hash == None
          || (known.Some? && (known.value.revision != revision || Some(known.value.hash) != hash));
        assert doubtful <==> Doubtful(View(), projectId, file);
        files, warned := files + [file], warned || doubtful;
        assert files[i] == file;
      }
    }

    method PutPlan(id: Uuid, plan: Plan)
      requires Valid()
      modifies this`plans
      ensures Valid() && View() == old(View()).(plans := old(Plans())[id := plan])
    {
      var record := new WriteBackPlan(id, plan);
      plans := plans[id := record];
      assert Plans() == old(Plans())[id := record.View()];
    }

    method CreatePreview(projectId: Uuid, fileIds: seq<Uuid>, revisions: map<Uuid, int>, hashes: map<Uuid, string>,
                         inPlace: bool, allOrNothing: bool, otherWarnings: bool, newId: Uuid) returns (r: Result<Uuid, WriteError>)
      requires Valid()
      modifies this`plans
      ensures Valid()
      ensures View() == WriteBack.CreatePreview(old(View()), projectId, fileIds, revisions, hashes, inPlace, allOrNothing, otherWarnings, newId).0
      ensures r == WriteBack.CreatePreview(old(View()), projectId, fileIds, revisions, hashes, inPlace, allOrNothing, otherWarnings, newId).1
    {
      if fileIds == [] {
        return Err(NotConfirmed);
      }
      var files, warned := PreviewFiles(projectId, Distinct(fileIds), revisions, hashes);
      PutPlan(newId, Plan(projectId, Preview, !otherWarnings && !warned, inPlace, allOrNothing, files));
      r := Ok(newId);
    }

    // --- Creating jobs -------------------------------------------------------------------------------

    method PutJob(id: Uuid, job: Job)
      requires Valid()
      modifies this`writeJobs
      ensures Valid() && View() == old(View()).(jobs := old(Jobs())[id := job])
      ensures forall j :: j in writeJobs ==> fresh(writeJobs[j]) || writeJobs[j] in old(writeJobs.Values)
    {
      var record := new FileWriteJob(id, job);
      writeJobs := writeJobs[id := record];
      assert Jobs() == old(Jobs())[id := record.View()];
    }

    method TakeLock(fileId: Uuid, id: Uuid)
      modifies this`fileLocks
      ensures View() == old(View()).(locks := old(fileLocks)[fileId := id])
    {
      fileLocks := fileLocks[fileId := id];
    }

    method CreateWriteJob(job: Job, newId: Uuid) returns (r: Result<Uuid, WriteError>)
      requires Valid()
      modifies this`writeJobs, this`fileLocks
      ensures Valid()
      ensures View() == CreateJob(old(View()), job, newId).0 && r == CreateJob(old(View()), job, newId).1
      ensures forall j :: j in writeJobs ==> fresh(writeJobs[j]) || writeJobs[j] in old(writeJobs.Values)
    {
      if job.safetyEnforced {
        if !job.confirmed {
          return Err(NotConfirmed);
        }
        if job.fileId in fileLocks {
          return Err(WriteConflict);
        }
        TakeLock(job.fileId, newId);
      }
      PutJob(newId, job);
      r := Ok(newId);
    }

    method CreateRestoreJob(projectId: Uuid, fileId: Uuid, target: nat, expectedRevision: int, changeId: Uuid, newId: Uuid)
      returns (r: Result<Uuid, WriteError>)
      requires Valid()
      modifies this`writeJobs, this`fileLocks, this`changesets
      ensures Valid()
      ensures View() == CreateRestore(old(View()), projectId, fileId, target, expectedRevision, changeId, newId).0
      ensures r == CreateRestore(old(View()), projectId, fileId, target, expectedRevision, changeId, newId).1
    {
      var versions := if fileId in fileVersions then fileVersions[fileId] else [];
      var version := FindVersionOf(versions, target);
      if version == None {
        return Err(NotFound);
      }
      if |versions| != expectedRevision || fileId in fileLocks {
        return Err(WriteConflict);
      }
      PutChangeSet(changeId, RestoreChange(projectId, fileId, expectedRevision, version.value, ChangePending));
      PutJob(newId, Job(projectId, fileId, expectedRevision, Some(versions[|versions| - 1].hash), JobPending, RestoreOperation,
                        None, true, false, true, true, Some(changeId), 0, ""));
      TakeLock(fileId, newId);
      r := Ok(newId);
    }

    method PutChangeSet(id: Uuid, change: RestoreChange)
      modifies this`changesets
      ensures View() == old(View()).(changesets := old(changesets)[id := change])
    {
      changesets := changesets[id := change];
    }

    static method FindVersionOf(versions: seq<Version>, target: nat) returns (version: Option<Version>)
      ensures version == FindRevision(versions, target)
    {
      for i := 0 to |versions|
        invariant FindRevision(versions[..i], target) == None
      {
        assert versions[..i + 1][..i] == versions[..i];
        if versions[i].revision == target {
          RevisionFoundEarly(versions, target, i + 1);
          return Some(versions[i]);
        }
      }
      assert versions[..|versions|] == versions;
      version := None;
    }

    // --- Executing a plan ----------------------------------------------------------------------------

    /** The check loop before anything is queued; whether each file's content on disk is stale is an input. */
    method AnyBlocked(projectId: Uuid, files: seq<FilePlan>, staleOnDisk: set<Uuid>) returns (blocked: bool)
      ensures blocked <==> exists f :: f in files && Blocked(View(), projectId, f, staleOnDisk)
    {
      blocked := false;
      for i := 0 to |files|
        invariant blocked <==> exists k :: 0 <= k < i && Blocked(View(), projectId, files[k], staleOnDisk)
      {
        var known := FileEvidence(projectId, files[i].fileId);
        var stale := known == None || known.value.revision != files[i].expectedRevision || Some(known.value.hash) != files[i].expectedHash;
        blocked := blocked || files[i].fileId in fileLocks || stale || files[i].fileId in staleOnDisk;
      }
    }

    /** The queueing loop: one job per file until a lock cannot be taken. */
    method QueueJobs(planId: Uuid, plan: Plan, newIds: seq<Uuid>) returns (made: nat)
      requires Valid() && |newIds| == |plan.files|
      modifies this`writeJobs, this`fileLocks
      ensures Valid() && made <= |newIds|
      ensures (View(), made) == CreateJobs(old(View()), planId, plan, newIds, |newIds|)
      ensures forall j :: j in writeJobs ==> fresh(writeJobs[j]) || writeJobs[j] in old(writeJobs.Values)
    {
      made := 0;
      while made < |newIds|
        invariant Valid() && made <= |newIds|
        invariant (View(), made) == CreateJobs(old(View()), planId, plan, newIds, made)
        invariant forall j :: j in writeJobs ==> fresh(writeJobs[j]) || writeJobs[j] in old(writeJobs.Values)
      {
        var job := NewJob(plan.projectId, plan.files[made], Some(planId), plan.inPlace, plan.allOrNothing, true, true);
        var r := CreateWriteJob(job, newIds[made]);
        if r.Err? {
          ShortOf(old(View()), planId, plan, newIds, made, |newIds|);
          return;
        }
        made := made + 1;
      }
    }

    /** The rollback: the jobs made so far are failed and their locks released. */
    method FailJobs(ids: seq<Uuid>, n: nat)
      requires Valid() && n <= |ids| && forall i :: 0 <= i < n ==> ids[i] in Jobs()
      modifies this`fileLocks, writeJobs.Values
      ensures Valid()
      ensures View() == Stop(old(View()), Made(ids, n), JobFailed)
    {
      ghost var before := View();
      StopNone(before, ids);
      for i := 0 to n
        invariant Valid() && View() == Stop(before, Made(ids, i), JobFailed)
      {
        StopNextMade(before, ids, i);
        assert ids[i] in before.jobs && ids[i] in Jobs();
        StopJob(ids[i], JobFailed);
      }
    }

    method ExecuteOrganizeWriteback(projectId: Uuid, planId: Uuid, confirmed: bool, staleOnDisk: set<Uuid>, newIds: seq<Uuid>)
      returns (r: Result<(), WriteError>)
      requires Valid() && (planId in Plans() ==> |newIds| == |Plans()[planId].files|)
      modifies this`writeJobs, this`fileLocks, writeJobs.Values, plans.Values
      ensures Valid()
      ensures View() == Execute(old(View()), projectId, planId, confirmed, staleOnDisk, newIds).0
      ensures r == Execute(old(View()), projectId, planId, confirmed, staleOnDisk, newIds).1
    {
      var error := CheckExecute(projectId, planId, confirmed);
      if error.Some? {
        return Err(error.value);
      }
      r := BlockOrQueue(projectId, planId, staleOnDisk, newIds);
    }

    method BlockOrQueue(projectId: Uuid, planId: Uuid, staleOnDisk: set<Uuid>, newIds: seq<Uuid>) returns (r: Result<(), WriteError>)
      requires Valid() && ExecuteError(View(), projectId, planId, true) == None && |newIds| == |Plans()[planId].files|
      modifies this`writeJobs, this`fileLocks, writeJobs.Values, plans.Values
      ensures Valid()
      ensures View() == Execute(old(View()), projectId, planId, true, staleOnDisk, newIds).0
      ensures r == Execute(old(View()), projectId, planId, true, staleOnDisk, newIds).1
    {
      assert Plans()[planId] == plans[planId].View();
      var blocked := AnyBlocked(projectId, plans[planId].files, staleOnDisk);
      if blocked {
        SetStatusOfPlan(planId, PlanConflict);
        return Err(WriteConflict);
      }
      r := QueueOrRollBack(planId, newIds);
    }

    method CheckExecute(projectId: Uuid, planId: Uuid, confirmed: bool) returns (error: Option<WriteError>)
      ensures error == ExecuteError(View(), projectId, planId, confirmed)
    {
      assert planId in plans ==> Plans()[planId] == plans[planId].View();
      if planId !in plans || plans[planId].projectId != projectId {
        return Some(NotFound);
      }
      if !confirmed {
        return Some(NotConfirmed);
      }
      var plan := plans[planId];
      if plan.status != Preview {
        return Some(WrongState);
      }
      error := if !plan.canConfirm then Some(WriteConflict) else None;
    }

    method QueueOrRollBack(planId: Uuid, newIds: seq<Uuid>) returns (r: Result<(), WriteError>)
      requires Valid() && planId in Plans() && |newIds| == |Plans()[planId].files|
      modifies this`writeJobs, this`fileLocks, writeJobs.Values, plans[planId]
      ensures Valid()
      ensures View() == Queue(old(View()), planId, newIds).0 && r == Queue(old(View()), planId, newIds).1
    {
      var made := QueueJobs(planId, plans[planId].View(), newIds);
      if made < |newIds| {
        MadeJobsExist(old(View()), planId, old(plans[planId].View()), newIds, |newIds|);
        RollBack(planId, newIds, made);
        return Err(WriteConflict);
      }
      SetStatusOfPlan(planId, Queued);
      r := Ok(());
    }

    /** Fails the jobs made so far, and their plan. */
    method RollBack(planId: Uuid, newIds: seq<Uuid>, made: nat)
      requires Valid() && planId in Plans() && made <= |newIds| && forall i :: 0 <= i < made ==> newIds[i] in Jobs()
      modifies this`fileLocks, writeJobs.Values, plans[planId]
      ensures Valid()
      ensures View() == SetPlanStatus(Stop(old(View()), Made(newIds, made), JobFailed), planId, PlanFailed)
    {
      FailJobs(newIds, made);
      SetStatusOfPlan(planId, PlanFailed);
    }

    // --- Versions and completion ---------------------------------------------------------------------

    method RegisterFileVersion(fileId: Uuid, hash: string) returns (revision: nat)
      modifies this`fileVersions
      ensures View() == Register(old(View()), fileId, hash).0 && revision == Register(old(View()), fileId, hash).1
    {
      var versions := if fileId in fileVersions then fileVersions[fileId] else [];
      var known := FindVersion(versions, hash);
      if known.Some? {
        SetVersions(fileId, versions);
        return known.value;
      }
      revision := |versions| + 1;
      SetVersions(fileId, versions + [Version(revision, hash)]);
    }

    method SetVersions(fileId: Uuid, versions: seq<Version>)
      modifies this`fileVersions
      ensures View() == old(View()).(versions := old(fileVersions)[fileId := versions])
    {
      fileVersions := fileVersions[fileId := versions];
    }

    static method FindVersion(versions: seq<Version>, hash: string) returns (revision: Option<nat>)
      ensures revision == FindHash(versions, hash)
    {
      for i := 0 to |versions|
        invariant FindHash(versions[..i], hash) == None
      {
        assert versions[..i + 1][..i] == versions[..i];
        if versions[i].hash == hash {
          FoundEarly(versions, hash, i + 1);
          return Some(versions[i].revision);
        }
      }
      assert versions[..|versions|] == versions;
      revision := None;
    }

    /** The plan's status recomputed by a pass over all jobs. */
    method RefreshPlanStatus(planId: Option<Uuid>)
      requires Valid()
      modifies plans.Values
      ensures Valid()
      ensures View() == Refresh(old(View()), planId)
    {
      if planId == None || planId.value !in plans {
        return;
      }
      var anyBroken, anyJob, allApplied := Tally(planId.value);
      assert Plans()[planId.value] == plans[planId.value].View();
      var status := plans[planId.value].status;
      if anyBroken {
        status := PlanFailed;
      } else if anyJob && allApplied {
        status := PlanApplied;
      }
      SetStatusOfPlan(planId.value, status);
    }

    method Tally(planId: Uuid) returns (anyBroken: bool, anyJob: bool, allApplied: bool)
      ensures anyBroken == SomeBroken(View(), planId) && anyJob == SomeJob(View(), planId) && allApplied == AllApplied(View(), planId)
    {
      var rest := writeJobs.Keys;
      anyBroken, anyJob, allApplied := false, false, true;
      while rest != {}
        invariant rest <= writeJobs.Keys
        invariant anyBroken <==> exists j :: j in Jobs() && j !in rest && OfPlan(View(), j, planId) && Broken(Jobs()[j])
        invariant anyJob <==> exists j :: j in Jobs() && j !in rest && OfPlan(View(), j, planId)
        invariant allApplied <==> forall j :: j in Jobs() && j !in rest && OfPlan(View(), j, planId) ==> Jobs()[j].status == JobApplied
        decreases |rest|
      {
        var j :| j in rest;
        rest := rest - {j};
        var job := writeJobs[j];
        assert Jobs()[j] == job.View();
        if job.planId == Some(planId) {
          anyBroken := anyBroken || job.status == JobFailed || job.status == JobConflict;
          anyJob := true;
          allApplied := allApplied && job.status == JobApplied;
        }
      }
    }

    method FindWriteJob(projectId: Uuid, jobId: Uuid) returns (r: Result<FileWriteJob, WriteError>)
      ensures match FindJob(View(), projectId, jobId)
              case Ok(job) => jobId in writeJobs && r == Ok(writeJobs[jobId]) && writeJobs[jobId].View() == job
              case Err(e) => r == Err(e)
    {
      if jobId !in writeJobs || writeJobs[jobId].projectId != projectId {
        return Err(NotFound);
      }
      r := Ok(writeJobs[jobId]);
    }

    /** The checks before a completion, in the order they are made. */
    method FindObstacle(job: FileWriteJob, sourceHash: string, backup: bool, diskHash: Option<string>) returns (r: Option<JobStatus>)
      ensures r == Obstacle(View(), job.View(), sourceHash, backup, diskHash)
    {
      if job.safetyEnforced {
        if !job.confirmed || (job.planId == None && job.operation != RestoreOperation) {
          return Some(JobFailed);
        }
        var current := if job.fileId in fileVersions then |fileVersions[job.fileId]| else 0;
        if current != job.expectedRevision {
          return Some(JobConflict);
        }
        if diskHash.Some? && diskHash.value != sourceHash {
          return Some(JobConflict);
        }
        if job.inPlace && !backup {
          return Some(JobFailed);
        }
      }
      if job.expectedHash.Some? && job.expectedHash.value != sourceHash {
        return Some(JobConflict);
      }
      r := None;
    }

    /** The version registered, the job's result recorded, its lock released. */
    method RecordResult(jobId: Uuid, resultHash: string)
      requires Valid() && jobId in writeJobs
      modifies this`fileVersions, this`selfWrites, this`fileLocks, this`changesets, writeJobs[jobId]
      ensures Valid()
      ensures View() == ApplyJob(old(View()), jobId, resultHash)
    {
      var job := writeJobs[jobId];
      ApplyJobUpdates(View(), jobId, resultHash);
      assert Jobs()[jobId] == job.View();
      var revision := RegisterFileVersion(job.fileId, resultHash);
      RecordOnJob(jobId, revision, resultHash);
      CloseJob(job, resultHash);
    }

    /** Marks the content as the program's own, and gives up the lock and the ChangeSet. */
    method CloseJob(job: FileWriteJob, resultHash: string)
      modifies this`selfWrites, this`fileLocks, this`changesets
      ensures View() == old(View()).(selfWrites := old(selfWrites) + {(job.fileId, resultHash)},
                                     locks := Released(old(View()), job.id, job.fileId),
                                     changesets := ApplyChange(old(changesets), job.changesetId))
    {
      MarkSelfWrite(job.fileId, resultHash);
      ReleaseLock(job);
      ApplyChangeSet(job.changesetId);
    }

    method ApplyChangeSet(id: Option<Uuid>)
      modifies this`changesets
      ensures View() == old(View()).(changesets := ApplyChange(old(changesets), id))
    {
      if id.Some? && id.value in changesets {
        changesets := changesets[id.value := changesets[id.value].(status := ChangeApplied)];
      }
    }

    method RecordOnJob(jobId: Uuid, revision: nat, resultHash: string)
      requires Valid() && jobId in writeJobs
      modifies writeJobs[jobId]
      ensures Valid() && View() == WithResult(old(View()), jobId, revision, resultHash)
    {
      SetResult(jobId, revision, resultHash);
    }

    method MarkSelfWrite(fileId: Uuid, hash: string)
      modifies this`selfWrites
      ensures View() == old(View()).(selfWrites := old(selfWrites) + {(fileId, hash)})
    {
      selfWrites := selfWrites + {(fileId, hash)};
    }

    method SetResult(jobId: Uuid, revision: nat, resultHash: string)
      requires Valid() && jobId in writeJobs
      modifies writeJobs[jobId]
      ensures Valid()
      ensures Jobs() == WithResult(old(View()), jobId, revision, resultHash).jobs
    {
      var job := writeJobs[jobId];
      ghost var before := job.View();
      assert Jobs()[jobId] == before;
      job.status, job.resultRevision, job.resultHash := JobApplied, revision, resultHash;
      assert forall other :: other in writeJobs && other != jobId ==> writeJobs[other] != job;
      assert Jobs() == old(Jobs())[jobId := job.View()];
      assert job.View() == before.(status := JobApplied, resultRevision := revision, resultHash := resultHash);
    }

    method CompleteWriteJob(projectId: Uuid, jobId: Uuid, sourceHash: string, resultHash: string, backup: bool, diskHash: Option<string>)
      returns (r: Result<(), WriteError>)
      requires Valid()
      modifies this, writeJobs.Values, plans.Values
      ensures Valid()
      ensures View() == Complete(old(View()), projectId, jobId, sourceHash, resultHash, backup, diskHash).0
      ensures r == Complete(old(View()), projectId, jobId, sourceHash, resultHash, backup, diskHash).1
    {
      var found := FindWriteJob(projectId, jobId);
      if found.Err? {
        return Err(found.error);
      }
      var job := found.value;
      if job.status == JobApplied {
        return Ok(());
      }
      if job.status != JobPending {
        return Err(WrongState);
      }
      r := FinishWriteJob(jobId, sourceHash, resultHash, backup, diskHash);
    }

    method FinishWriteJob(jobId: Uuid, sourceHash: string, resultHash: string, backup: bool, diskHash: Option<string>)
      returns (r: Result<(), WriteError>)
      requires Valid() && jobId in Jobs()
      modifies this, writeJobs[jobId], plans.Values
      ensures Valid()
      ensures View() == Finish(old(View()), jobId, sourceHash, resultHash, backup, diskHash).0
      ensures r == Finish(old(View()), jobId, sourceHash, resultHash, backup, diskHash).1
    {
      var job := writeJobs[jobId];
      var obstacle := FindObstacle(job, sourceHash, backup, diskHash);
      if obstacle.Some? {
        StopJob(jobId, obstacle.value);
        RefreshPlanStatus(job.planId);
        return Err(WriteConflict);
      }
      RecordResult(jobId, resultHash);
      RefreshPlanStatus(job.planId);
      r := Ok(());
    }

    /** The sibling loop of a failure: every other pending job of the plan is failed too. */
    method FailSiblings(planId: Uuid, ghost before: State, ghost jobId: Uuid)
      requires Valid() && jobId in before.jobs && View() == Stop(before, {jobId}, JobFailed)
      modifies this`fileLocks, writeJobs.Values
      ensures Valid()
      ensures View() == Stop(before, {jobId} + PendingOf(before, planId), JobFailed)
    {
      var rest := writeJobs.Keys;
      assert forall k :: k in before.jobs <==> k in Jobs();
      assert Visited(before, planId, jobId, rest) == {jobId};
      while rest != {}
        invariant Valid() && rest <= writeJobs.Keys
        invariant View() == Stop(before, Visited(before, planId, jobId, rest), JobFailed)
        decreases |rest|
      {
        var j :| j in rest;
        VisitSibling(before, planId, jobId, rest, j);
        var sibling := writeJobs[j];
        assert Jobs()[j] == sibling.View();
        if sibling.planId == Some(planId) && sibling.status == JobPending {
          StopJob(j, JobFailed);
        }
        rest := rest - {j};
      }
      assert Visited(before, planId, jobId, {}) == {jobId} + PendingOf(before, planId);
    }

    method FailWriteJob(projectId: Uuid, jobId: Uuid) returns (r: Result<(), WriteError>)
      requires Valid()
      modifies this`fileLocks, writeJobs.Values, plans.Values
      ensures Valid()
      ensures View() == Fail(old(View()), projectId, jobId).0 && r == Fail(old(View()), projectId, jobId).1
    {
      var found := FindWriteJob(projectId, jobId);
      if found.Err? {
        return Err(found.error);
      }
      var job := found.value;
      if job.status == JobApplied {
        return Err(WrongState);
      }
      ghost var before := View();
      StopJob(jobId, JobFailed);
      if job.allOrNothing && job.planId.Some? {
        FailSiblings(job.planId.value, before, jobId);
      }
      RefreshPlanStatus(job.planId);
      r := Ok(());
    }
  }
}
