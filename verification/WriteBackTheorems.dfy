/** Locks agree with jobs, plan statuses with their jobs, and results with the version history, in every run. */
module WriteBackTheorems {
  import opened Prelude
  import opened WriteBack

  // --- Locks ----------------------------------------------------------------------------------------

  /** j is a job that must hold the lock of f. */
  predicate Owns(s: State, f: Uuid, j: Uuid) {
    j in s.jobs && s.jobs[j].safetyEnforced && s.jobs[j].status == JobPending && s.jobs[j].fileId == f
  }

  ghost predicate LocksAgree(s: State) {
    forall f, j :: (f in s.locks && s.locks[f] == j) <==> Owns(s, f, j)
  }

  /** At most one enforced pending job per file. */
  lemma OneWriterPerFile(s: State, j: Uuid, k: Uuid, f: Uuid)
    requires LocksAgree(s) && Owns(s, f, j) && Owns(s, f, k)
    ensures j == k
  {
    assert f in s.locks && s.locks[f] == j && s.locks[f] == k;
  }

  lemma StopKeepsLocks(s: State, js: set<Uuid>, status: JobStatus)
    requires LocksAgree(s) && status != JobPending
    ensures LocksAgree(Stop(s, js, status))
  {
    var s' := Stop(s, js, status);
    forall f, j ensures (f in s'.locks && s'.locks[f] == j) <==> Owns(s', f, j) {
      assert (f in s.locks && s.locks[f] == j) <==> Owns(s, f, j);
    }
  }

  // --- Versions -------------------------------------------------------------------------------------

  /** Numbered 1..n, no hash twice. */
  ghost predicate WellNumbered(versions: seq<Version>) {
    && (forall i :: 0 <= i < |versions| ==> versions[i].revision == i + 1)
    && (forall i, j :: 0 <= i < j < |versions| ==> versions[i].hash != versions[j].hash)
  }

  ghost predicate VersionsOk(s: State) {
    forall f :: f in s.versions ==> WellNumbered(s.versions[f])
  }

  /** The applied job's result revision carries its result hash. */
  ghost predicate ResultStands(s: State, job: Job) {
    var versions := VersionsOf(s, job.fileId);
    1 <= job.resultRevision <= |versions| && versions[job.resultRevision - 1].hash == job.resultHash
  }

  ghost predicate ResultsStand(s: State) {
    forall j :: j in s.jobs && s.jobs[j].status == JobApplied ==> ResultStands(s, s.jobs[j])
  }

  ghost predicate VersionsExtend(s: State, s': State) {
    forall f :: VersionsOf(s, f) <= VersionsOf(s', f)
  }

  /** Registering keeps the numbering, answers the revision with the hash, and appends one version exactly for a new hash. */
  lemma RegisterEffect(s: State, f: Uuid, hash: string)
    requires VersionsOk(s)
    ensures var (s', r) := Register(s, f, hash);
            && VersionsOk(s') && VersionsExtend(s, s')
            && 1 <= r <= |VersionsOf(s', f)| && VersionsOf(s', f)[r - 1].hash == hash
            && (if exists i :: 0 <= i < |VersionsOf(s, f)| && VersionsOf(s, f)[i].hash == hash
                then VersionsOf(s', f) == VersionsOf(s, f)
                else r == |VersionsOf(s, f)| + 1 && |VersionsOf(s', f)| == r)
            && s'.jobs == s.jobs && s'.plans == s.plans && s'.locks == s.locks
  {
    var versions := VersionsOf(s, f);
    assert WellNumbered(versions);
    match FindHash(versions, hash)
    case Some(revision) => assert versions[revision - 1].hash == hash;
    case None => NewVersionIsNumbered(versions, hash);
  }

  lemma NewVersionIsNumbered(versions: seq<Version>, hash: string)
    requires WellNumbered(versions) && forall i :: 0 <= i < |versions| ==> versions[i].hash != hash
    ensures WellNumbered(versions + [Version(|versions| + 1, hash)])
  {
  }

  // --- Plans ----------------------------------------------------------------------------------------

  /** The plan's files are distinct and there is one at least. */
  ghost predicate FilesDistinct(plan: Plan) {
    plan.files != [] && forall i, j :: 0 <= i < j < |plan.files| ==> plan.files[i].fileId != plan.files[j].fileId
  }

  predicate Covers(s: State, planId: Uuid, f: Uuid, j: Uuid) {
    OfPlan(s, j, planId) && s.jobs[j].fileId == f
  }

  /** One job per file of the plan, and none for any other file. */
  ghost predicate OneJobPerFile(s: State, planId: Uuid, plan: Plan) {
    FilesCovered(s, planId, plan.files) && OneEach(s, planId) && JobsOfFiles(s, planId, plan.files)
  }

  ghost predicate FilesCovered(s: State, planId: Uuid, files: seq<FilePlan>) {
    forall i :: 0 <= i < |files| ==> Covered(s, planId, files[i].fileId)
  }

  ghost predicate Covered(s: State, planId: Uuid, f: Uuid) {
    exists j :: Covers(s, planId, f, j)
  }

  ghost predicate OneEach(s: State, planId: Uuid) {
    forall f, j, k :: Covers(s, planId, f, j) && Covers(s, planId, f, k) ==> j == k
  }

  ghost predicate JobsOfFiles(s: State, planId: Uuid, files: seq<FilePlan>) {
    forall j :: OfPlan(s, j, planId) ==> exists i :: 0 <= i < |files| && files[i].fileId == s.jobs[j].fileId
  }

  ghost predicate HasPending(s: State, planId: Uuid) {
    exists j :: OfPlan(s, j, planId) && s.jobs[j].status == JobPending
  }

  ghost predicate HasBroken(s: State, planId: Uuid) {
    exists j :: OfPlan(s, j, planId) && Broken(s.jobs[j])
  }

  ghost predicate PlanAgrees(s: State, planId: Uuid, plan: Plan) {
    && FilesDistinct(plan)
    && (forall j :: OfPlan(s, j, planId) ==> s.jobs[j].safetyEnforced && s.jobs[j].allOrNothing == plan.allOrNothing)
    && match plan.status
       case Preview => forall j :: !OfPlan(s, j, planId)
       case PlanConflict => forall j :: !OfPlan(s, j, planId)
       case Queued => OneJobPerFile(s, planId, plan) && HasPending(s, planId) && !HasBroken(s, planId)
       case PlanApplied => OneJobPerFile(s, planId, plan) && forall j :: OfPlan(s, j, planId) ==> s.jobs[j].status == JobApplied
       case PlanFailed => OneJobPerFile(s, planId, plan) && HasBroken(s, planId)
  }

  ghost predicate PlansAgree(s: State) {
    && (forall p :: p in s.plans ==> PlanAgrees(s, p, s.plans[p]))
    && (forall j :: j in s.jobs && s.jobs[j].planId.Some? ==> s.jobs[j].planId.value in s.plans)
  }

  ghost predicate Inv(s: State) {
    LocksAgree(s) && VersionsOk(s) && ResultsStand(s) && PlansAgree(s)
  }

  /** The two states have the same jobs apart from statuses and results, which changed only in plan `planId`. */
  ghost predicate JobsKept(s: State, s': State, planId: Option<Uuid>) {
    && s'.jobs.Keys == s.jobs.Keys
    && forall j :: j in s.jobs ==>
         && s'.jobs[j].planId == s.jobs[j].planId && s'.jobs[j].fileId == s.jobs[j].fileId
         && s'.jobs[j].safetyEnforced == s.jobs[j].safetyEnforced && s'.jobs[j].allOrNothing == s.jobs[j].allOrNothing
         && (s'.jobs[j].status != s.jobs[j].status ==> s.jobs[j].planId == planId && s'.jobs[j].status != JobPending)
         && (Broken(s.jobs[j]) ==> Broken(s'.jobs[j]))
         && (s.jobs[j].status == JobApplied ==> s'.jobs[j].status == JobApplied)
  }

  lemma CoverageKept(s: State, s': State, planId: Option<Uuid>, p: Uuid, plan: Plan)
    requires JobsKept(s, s', planId) && OneJobPerFile(s, p, plan)
    ensures OneJobPerFile(s', p, plan)
  {
    assert forall j :: OfPlan(s', j, p) <==> OfPlan(s, j, p);
    SameCoverage(s, s', p);
  }

  lemma SameCoverage(s: State, s': State, p: Uuid)
    requires forall j :: OfPlan(s', j, p) <==> OfPlan(s, j, p)
    requires forall j :: OfPlan(s, j, p) ==> j in s'.jobs && s'.jobs[j].fileId == s.jobs[j].fileId
    ensures forall f :: Covered(s', p, f) <==> Covered(s, p, f)
    ensures OneEach(s, p) ==> OneEach(s', p)
  {
    assert forall f, j :: Covers(s', p, f, j) <==> Covers(s, p, f, j);
  }

  lemma SamePlanJobs(s: State, s': State, planId: Option<Uuid>, p: Uuid)
    requires JobsKept(s, s', planId)
    ensures forall j :: OfPlan(s', j, p) <==> OfPlan(s, j, p)
    ensures HasBroken(s, p) ==> HasBroken(s', p)
    ensures planId != Some(p) ==> (HasPending(s, p) ==> HasPending(s', p)) && (HasBroken(s', p) ==> HasBroken(s, p))
  {
    if HasBroken(s, p) {
      var j :| OfPlan(s, j, p) && Broken(s.jobs[j]);
      assert OfPlan(s', j, p) && Broken(s'.jobs[j]);
    }
    if planId != Some(p) && HasPending(s, p) {
      var j :| OfPlan(s, j, p) && s.jobs[j].status == JobPending;
      assert OfPlan(s', j, p) && s'.jobs[j].status == JobPending;
    }
    if planId != Some(p) && HasBroken(s', p) {
      var j :| OfPlan(s', j, p) && Broken(s'.jobs[j]);
      assert OfPlan(s, j, p) && Broken(s.jobs[j]);
    }
  }

  /** Plans whose jobs are untouched still agree. */
  lemma OtherPlansAgree(s: State, s': State, planId: Option<Uuid>, p: Uuid, plan: Plan)
    requires JobsKept(s, s', planId) && PlanAgrees(s, p, plan) && planId != Some(p)
    ensures PlanAgrees(s', p, plan)
  {
    SamePlanJobs(s, s', planId, p);
    if plan.status != Preview && plan.status != PlanConflict {
      CoverageKept(s, s', planId, p, plan);
    }
  }

  /** With neither a broken job nor all applied, some job is pending. */
  lemma SomeStillPending(s: State, p: Uuid, j: Uuid)
    requires OfPlan(s, j, p) && s.jobs[j].status != JobApplied && !HasBroken(s, p)
    ensures HasPending(s, p)
  {
    assert s.jobs[j].status == JobPending;
  }

  lemma RefreshedStatusAgrees(s: State, p: Uuid, plan: Plan)
    requires FilesDistinct(plan) && OneJobPerFile(s, p, plan)
    requires plan.status == Queued || (plan.status == PlanFailed && HasBroken(s, p))
          || (plan.status == PlanApplied && forall j :: OfPlan(s, j, p) ==> s.jobs[j].status == JobApplied)
    ensures match RefreshedStatus(s, p, plan.status)
            case Queued => HasPending(s, p) && !HasBroken(s, p)
            case PlanApplied => forall j :: OfPlan(s, j, p) ==> s.jobs[j].status == JobApplied
            case PlanFailed => HasBroken(s, p)
            case _ => false
  {
    assert Covered(s, p, plan.files[0].fileId);
    var k :| Covers(s, p, plan.files[0].fileId, k);
    assert k in s.jobs && OfPlan(s, k, p);
    if !HasBroken(s, p) {
      if j :| j in s.jobs && OfPlan(s, j, p) && s.jobs[j].status != JobApplied {
        SomeStillPending(s, p, j);
      }
    }
  }

  /** After jobs of the plan have ended, the refreshed status agrees with them. */
  lemma RefreshedPlanAgrees(s: State, s': State, p: Uuid, plan: Plan)
    requires JobsKept(s, s', Some(p)) && PlanAgrees(s, p, plan)
    ensures PlanAgrees(s', p, plan.(status := RefreshedStatus(s', p, plan.status)))
  {
    SamePlanJobs(s, s', Some(p), p);
    if plan.status != Preview && plan.status != PlanConflict {
      CoverageKept(s, s', Some(p), p, plan);
      RefreshedStatusAgrees(s', p, plan);
      CoverageKept(s', s', None, p, plan.(status := RefreshedStatus(s', p, plan.status)));
    }
  }

  lemma RefreshKeepsPlans(s: State, s': State, planId: Option<Uuid>)
    requires PlansAgree(s) && JobsKept(s, s', planId) && s'.plans == s.plans
    ensures PlansAgree(Refresh(s', planId))
  {
    var s'' := Refresh(s', planId);
    forall p | p in s''.plans ensures PlanAgrees(s'', p, s''.plans[p]) {
      RefreshKeepsPlan(s, s', planId, p);
    }
  }

  lemma RefreshKeepsPlan(s: State, s': State, planId: Option<Uuid>, p: Uuid)
    requires PlansAgree(s) && JobsKept(s, s', planId) && s'.plans == s.plans && p in s.plans
    ensures var s'' := Refresh(s', planId); p in s''.plans && PlanAgrees(s'', p, s''.plans[p])
  {
    var plan := s.plans[p];
    PlanAfterRefresh(s', planId, p);
    if planId == Some(p) {
      RefreshedPlanAgrees(s, s', p, plan);
      SameJobsSameAgreement(s', Refresh(s', planId), p, plan.(status := RefreshedStatus(s', p, plan.status)));
    } else {
      OtherPlansAgree(s, s', planId, p, plan);
      SameJobsSameAgreement(s', Refresh(s', planId), p, plan);
    }
  }

  lemma PlanAfterRefresh(s: State, planId: Option<Uuid>, p: Uuid)
    requires p in s.plans
    ensures var s', plan := Refresh(s, planId), s.plans[p];
            && s'.jobs == s.jobs && p in s'.plans
            && s'.plans[p] == if planId == Some(p) then plan.(status := RefreshedStatus(s, p, plan.status)) else plan
  {
  }

  lemma SameJobsSameAgreement(s: State, s': State, p: Uuid, plan: Plan)
    requires s'.jobs == s.jobs && PlanAgrees(s, p, plan)
    ensures PlanAgrees(s', p, plan)
  {
    assert forall j :: OfPlan(s', j, p) <==> OfPlan(s, j, p);
    assert forall f, j :: Covers(s', p, f, j) <==> Covers(s, p, f, j);
  }

  // --- Ending jobs ----------------------------------------------------------------------------------

  lemma StopKeepsJobs(s: State, js: set<Uuid>, status: JobStatus, planId: Option<Uuid>)
    requires status == JobFailed || status == JobConflict
    requires forall j :: j in js && j in s.jobs ==> s.jobs[j].planId == planId && s.jobs[j].status != JobApplied
    ensures JobsKept(s, Stop(s, js, status), planId)
  {
  }

  lemma StopKeepsInv(s: State, js: set<Uuid>, status: JobStatus, planId: Option<Uuid>)
    requires Inv(s) && (status == JobFailed || status == JobConflict)
    requires forall j :: j in js && j in s.jobs ==> s.jobs[j].planId == planId && s.jobs[j].status != JobApplied
    ensures Inv(Refresh(Stop(s, js, status), planId))
  {
    var s' := Stop(s, js, status);
    StopKeepsJobs(s, js, status, planId);
    StopKeepsLocks(s, js, status);
    RefreshKeepsPlans(s, s', planId);
    RefreshKeepsTheRest(s', planId);
  }

  lemma RefreshKeepsTheRest(s: State, planId: Option<Uuid>)
    requires LocksAgree(s) && VersionsOk(s)
    ensures LocksAgree(Refresh(s, planId)) && VersionsOk(Refresh(s, planId))
    ensures ResultsStand(s) ==> ResultsStand(Refresh(s, planId))
  {
    var s' := Refresh(s, planId);
    assert forall f, j :: Owns(s', f, j) <==> Owns(s, f, j);
    assert forall f :: VersionsOf(s', f) == VersionsOf(s, f);
  }

  lemma ResultsSurvive(s: State, s': State)
    requires ResultsStand(s) && VersionsExtend(s, s')
    ensures forall j :: j in s.jobs && s.jobs[j].status == JobApplied ==> ResultStands(s', s.jobs[j])
  {
    forall j | j in s.jobs && s.jobs[j].status == JobApplied ensures ResultStands(s', s.jobs[j]) {
      assert ResultStands(s, s.jobs[j]);
      assert VersionsOf(s, s.jobs[j].fileId) <= VersionsOf(s', s.jobs[j].fileId);
    }
  }

  lemma ApplyKeepsLocks(s: State, jobId: Uuid, hash: string)
    requires LocksAgree(s) && jobId in s.jobs && s.jobs[jobId].status == JobPending
    ensures LocksAgree(ApplyJob(s, jobId, hash))
  {
    var s' := ApplyJob(s, jobId, hash);
    forall f, j ensures (f in s'.locks && s'.locks[f] == j) <==> Owns(s', f, j) {
      assert (f in s.locks && s.locks[f] == j) <==> Owns(s, f, j);
    }
  }

  lemma ApplyKeepsJobs(s: State, jobId: Uuid, hash: string)
    requires jobId in s.jobs && s.jobs[jobId].status == JobPending
    ensures JobsKept(s, ApplyJob(s, jobId, hash), s.jobs[jobId].planId)
  {
  }

  lemma ApplyKeepsResults(s: State, jobId: Uuid, hash: string)
    requires VersionsOk(s) && ResultsStand(s) && jobId in s.jobs
    ensures var s' := ApplyJob(s, jobId, hash); VersionsOk(s') && ResultsStand(s') && VersionsExtend(s, s') && s'.plans == s.plans
  {
    var s' := ApplyJob(s, jobId, hash);
    RegisterEffect(s, s.jobs[jobId].fileId, hash);
    var registered := Register(s, s.jobs[jobId].fileId, hash).0;
    assert forall f :: VersionsOf(s', f) == VersionsOf(registered, f);
    ResultsSurvive(s, s');
  }

  lemma ApplyKeepsInv(s: State, jobId: Uuid, hash: string)
    requires Inv(s) && jobId in s.jobs && s.jobs[jobId].status == JobPending
    ensures var s' := Refresh(ApplyJob(s, jobId, hash), s.jobs[jobId].planId); Inv(s') && VersionsExtend(s, s')
  {
    var job, s' := s.jobs[jobId], ApplyJob(s, jobId, hash);
    ApplyKeepsLocks(s, jobId, hash);
    ApplyKeepsResults(s, jobId, hash);
    ApplyKeepsJobs(s, jobId, hash);
    RefreshKeepsPlans(s, s', job.planId);
    RefreshKeepsTheRest(s', job.planId);
  }

  lemma CompleteKeepsInv(s: State, projectId: Uuid, jobId: Uuid, sourceHash: string, resultHash: string, backup: bool, diskHash: Option<string>)
    requires Inv(s)
    ensures var s' := Complete(s, projectId, jobId, sourceHash, resultHash, backup, diskHash).0; Inv(s') && VersionsExtend(s, s')
  {
    if FindJob(s, projectId, jobId).Ok? && s.jobs[jobId].status == JobPending {
      var job := s.jobs[jobId];
      match Obstacle(s, job, sourceHash, backup, diskHash)
      case Some(status) => StopKeepsInv(s, {jobId}, status, job.planId);
      case None => ApplyKeepsInv(s, jobId, resultHash);
    }
  }

  /** What applying a job records of it, and what it leaves of its lock. */
  lemma AppliedJob(s: State, jobId: Uuid, hash: string)
    requires VersionsOk(s) && jobId in s.jobs
    ensures var s' := ApplyJob(s, jobId, hash);
            && jobId in s'.jobs && s'.jobs[jobId].status == JobApplied && s'.jobs[jobId].resultHash == hash
            && s'.jobs[jobId].resultRevision == Register(s, s.jobs[jobId].fileId, hash).1
            && s'.versions == Register(s, s.jobs[jobId].fileId, hash).0.versions
  {
  }

  lemma RefreshKeepsJobsAndVersions(s: State, planId: Option<Uuid>)
    ensures Refresh(s, planId).jobs == s.jobs && Refresh(s, planId).versions == s.versions
  {
  }

  /** A job that completes met no obstacle and was applied. */
  lemma CompletedIsApplied(s: State, projectId: Uuid, jobId: Uuid, sourceHash: string, resultHash: string, backup: bool, diskHash: Option<string>)
    requires FindJob(s, projectId, jobId).Ok? && s.jobs[jobId].status == JobPending
    requires Complete(s, projectId, jobId, sourceHash, resultHash, backup, diskHash).1 == Ok(())
    ensures Complete(s, projectId, jobId, sourceHash, resultHash, backup, diskHash).0
         == Refresh(ApplyJob(s, jobId, resultHash), s.jobs[jobId].planId)
    ensures s.jobs[jobId].safetyEnforced ==> |VersionsOf(s, s.jobs[jobId].fileId)| == s.jobs[jobId].expectedRevision
  {
  }

  /** Applying an enforced job with a new hash moves its file from exactly the expected revision to the next. */
  lemma CompletionAdvancesOnce(s: State, projectId: Uuid, jobId: Uuid, sourceHash: string, resultHash: string, backup: bool, diskHash: Option<string>)
    requires Inv(s) && FindJob(s, projectId, jobId).Ok? && s.jobs[jobId].status == JobPending
    requires Complete(s, projectId, jobId, sourceHash, resultHash, backup, diskHash).1 == Ok(())
    ensures var job, s' := s.jobs[jobId], Complete(s, projectId, jobId, sourceHash, resultHash, backup, diskHash).0;
            var before, after := VersionsOf(s, job.fileId), VersionsOf(s', job.fileId);
            && jobId in s'.jobs && s'.jobs[jobId].status == JobApplied && !Owns(s', job.fileId, jobId)
            && s'.jobs[jobId].resultHash == resultHash
            && (job.safetyEnforced ==> |before| == job.expectedRevision)
            && (if exists i :: 0 <= i < |before| && before[i].hash == resultHash
                then after == before else |after| == |before| + 1 && s'.jobs[jobId].resultRevision == |after|)
  {
    var job, applied := s.jobs[jobId], ApplyJob(s, jobId, resultHash);
    CompletedIsApplied(s, projectId, jobId, sourceHash, resultHash, backup, diskHash);
    AppliedJob(s, jobId, resultHash);
    RefreshKeepsJobsAndVersions(applied, job.planId);
    RegisterEffect(s, job.fileId, resultHash);
    SameVersionsOf(Register(s, job.fileId, resultHash).0, Refresh(applied, job.planId), job.fileId);
  }

  lemma SameVersionsOf(s: State, s': State, f: Uuid)
    requires s'.versions == s.versions
    ensures VersionsOf(s', f) == VersionsOf(s, f)
  {
  }

  lemma FailKeepsInv(s: State, projectId: Uuid, jobId: Uuid)
    requires Inv(s)
    ensures var s' := Fail(s, projectId, jobId).0; Inv(s') && VersionsExtend(s, s')
  {
    if FindJob(s, projectId, jobId).Ok? && s.jobs[jobId].status != JobApplied {
      StopKeepsInv(s, Failing(s, jobId), JobFailed, s.jobs[jobId].planId);
    }
  }

  /** After a failure in an all-or-nothing plan, no job of the plan is pending and none holds a lock. */
  lemma FailStopsWholePlan(s: State, projectId: Uuid, jobId: Uuid)
    requires Inv(s) && Fail(s, projectId, jobId).1 == Ok(())
    requires s.jobs[jobId].allOrNothing && s.jobs[jobId].planId.Some?
    ensures var s', p := Fail(s, projectId, jobId).0, s.jobs[jobId].planId.value;
            && (forall j :: OfPlan(s', j, p) ==> s'.jobs[j].status != JobPending)
            && (forall f :: f in s'.locks ==> !OfPlan(s', s'.locks[f], p))
            && p in s'.plans && s'.plans[p].status == PlanFailed
  {
    var s', p := Fail(s, projectId, jobId).0, s.jobs[jobId].planId.value;
    FailKeepsInv(s, projectId, jobId);
    assert OfPlan(s', jobId, p) && Broken(s'.jobs[jobId]);
    forall f | f in s'.locks ensures !OfPlan(s', s'.locks[f], p) {
      assert Owns(s', f, s'.locks[f]);
    }
  }

  lemma StoppingOneLeavesSiblings(s: State, s': State, jobId: Uuid, p: Uuid)
    requires JobsKept(s, s', Some(p)) && OfPlan(s, jobId, p) && s'.jobs[jobId].status != JobPending
    requires forall j :: j in s.jobs && j != jobId ==> s'.jobs[j].status == s.jobs[j].status
    ensures !HasPending(s', p) <==> forall j :: OfPlan(s, j, p) && s.jobs[j].status == JobPending ==> j == jobId
  {
    if j :| OfPlan(s, j, p) && s.jobs[j].status == JobPending && j != jobId {
      assert OfPlan(s', j, p) && s'.jobs[j].status == JobPending;
    }
    if HasPending(s', p) {
      var j :| OfPlan(s', j, p) && s'.jobs[j].status == JobPending;
      assert OfPlan(s, j, p) && s.jobs[j].status == JobPending && j != jobId;
    }
  }

  /** Completion exits do not stop siblings: afterwards the plan has no pending job exactly when this was its last one. */
  lemma ConflictLeavesSiblings(s: State, projectId: Uuid, jobId: Uuid, sourceHash: string, resultHash: string, backup: bool, diskHash: Option<string>)
    requires Inv(s) && FindJob(s, projectId, jobId).Ok? && s.jobs[jobId].status == JobPending && s.jobs[jobId].planId.Some?
    requires Complete(s, projectId, jobId, sourceHash, resultHash, backup, diskHash).1 == Err(WriteConflict)
    ensures var s', p := Complete(s, projectId, jobId, sourceHash, resultHash, backup, diskHash).0, s.jobs[jobId].planId.value;
            !HasPending(s', p) <==> forall j :: OfPlan(s, j, p) && s.jobs[j].status == JobPending ==> j == jobId
  {
    var p, status := s.jobs[jobId].planId.value, Obstacle(s, s.jobs[jobId], sourceHash, backup, diskHash).value;
    ConflictStops(s, projectId, jobId, sourceHash, resultHash, backup, diskHash);
    StopKeepsJobs(s, {jobId}, status, Some(p));
    StoppingOneLeavesSiblings(s, Stop(s, {jobId}, status), jobId, p);
    SamePending(Stop(s, {jobId}, status), Complete(s, projectId, jobId, sourceHash, resultHash, backup, diskHash).0, p);
  }

  lemma ConflictStops(s: State, projectId: Uuid, jobId: Uuid, sourceHash: string, resultHash: string, backup: bool, diskHash: Option<string>)
    requires FindJob(s, projectId, jobId).Ok? && s.jobs[jobId].status == JobPending
    requires Complete(s, projectId, jobId, sourceHash, resultHash, backup, diskHash).1 == Err(WriteConflict)
    ensures var obstacle := Obstacle(s, s.jobs[jobId], sourceHash, backup, diskHash);
            obstacle.Some? && (obstacle.value == JobFailed || obstacle.value == JobConflict)
            && Complete(s, projectId, jobId, sourceHash, resultHash, backup, diskHash).0.jobs == Stop(s, {jobId}, obstacle.value).jobs
  {
  }

  lemma SamePending(s: State, s': State, p: Uuid)
    requires s'.jobs == s.jobs
    ensures HasPending(s', p) <==> HasPending(s, p)
  {
    assert forall j :: OfPlan(s', j, p) <==> OfPlan(s, j, p);
  }

  // --- Creating jobs ----------------------------------------------------------------------------------

  /** An id no job has. */
  predicate NewId(s: State, id: Uuid) {
    id !in s.jobs
  }

  /** A planless job, enforced or not, keeps the invariant. */
  lemma PlanlessJobKeepsInv(s: State, job: Job, newId: Uuid, s': State)
    requires Inv(s) && NewId(s, newId) && job.planId == None && job.status == JobPending
    requires s' == s.(jobs := s.jobs[newId := job], locks := if job.safetyEnforced then s.locks[job.fileId := newId] else s.locks,
                      changesets := s'.changesets)
    requires job.safetyEnforced ==> job.fileId !in s.locks
    ensures Inv(s') && VersionsExtend(s, s')
  {
    forall f, j ensures (f in s'.locks && s'.locks[f] == j) <==> Owns(s', f, j) {
      assert (f in s.locks && s.locks[f] == j) <==> Owns(s, f, j);
    }
    forall p | p in s'.plans ensures PlanAgrees(s', p, s'.plans[p]) {
      PlanWithoutNewJob(s, s', p, s.plans[p], newId);
    }
    ResultsSurvive(s, s');
  }

  /** A plan is not affected by jobs that are not its own. */
  lemma PlanWithoutNewJob(s: State, s': State, p: Uuid, plan: Plan, newId: Uuid)
    requires PlanAgrees(s, p, plan) && NewId(s, newId)
    requires s'.jobs.Keys == s.jobs.Keys + {newId} && s'.jobs[newId].planId != Some(p)
    requires forall j :: j in s.jobs ==> s'.jobs[j] == s.jobs[j]
    ensures PlanAgrees(s', p, plan)
  {
    assert forall j :: OfPlan(s', j, p) <==> OfPlan(s, j, p);
    assert forall f, j :: Covers(s', p, f, j) <==> Covers(s, p, f, j);
  }

  // --- Executing a plan ---------------------------------------------------------------------------------

  /** The plan is ready to queue: fresh distinct ids, one per file, and no file locked. */
  ghost predicate ReadyToQueue(s: State, planId: Uuid, plan: Plan, newIds: seq<Uuid>) {
    && FilesDistinct(plan) && |newIds| == |plan.files|
    && (forall i :: 0 <= i < |newIds| ==> NewId(s, newIds[i]))
    && (forall i, j :: 0 <= i < j < |newIds| ==> newIds[i] != newIds[j])
    && (forall i :: 0 <= i < |plan.files| ==> plan.files[i].fileId !in s.locks)
  }

  function FirstFiles(plan: Plan, n: nat): Plan
    requires n <= |plan.files|
  {
    plan.(files := plan.files[..n])
  }

  /** The jobs of the plan are pending, enforced, and of the plan's strategy. */
  ghost predicate AllQueued(s: State, planId: Uuid, plan: Plan) {
    forall j :: OfPlan(s, j, planId) ==> s.jobs[j].status == JobPending && s.jobs[j].safetyEnforced && s.jobs[j].allOrNothing == plan.allOrNothing
  }

  /** The ids and files from n on are still unused and free. */
  ghost predicate RestIsFree(s: State, plan: Plan, newIds: seq<Uuid>, n: nat) {
    && (forall i :: n <= i < |newIds| ==> NewId(s, newIds[i]))
    && (forall i :: n <= i < |plan.files| ==> plan.files[i].fileId !in s.locks)
  }

  /** Only jobs and locks differ, no old job changed, and the new ones are the plan's. */
  ghost predicate OnlyAdds(s: State, s': State, planId: Uuid) {
    && s' == s.(jobs := s'.jobs, locks := s'.locks)
    && (forall j :: j in s.jobs ==> j in s'.jobs && s'.jobs[j] == s.jobs[j])
    && (forall j :: j in s'.jobs && j !in s.jobs ==> s'.jobs[j].planId == Some(planId) && s'.jobs[j].status == JobPending)
  }

  function PlanJob(planId: Uuid, plan: Plan, i: nat): Job
    requires i < |plan.files|
  {
    NewJob(plan.projectId, plan.files[i], Some(planId), plan.inPlace, plan.allOrNothing, true, true)
  }

  lemma EnforcedJobKeepsLocks(s: State, job: Job, newId: Uuid)
    requires LocksAgree(s) && NewId(s, newId) && job.safetyEnforced && job.status == JobPending && job.fileId !in s.locks
    ensures LocksAgree(s.(jobs := s.jobs[newId := job], locks := s.locks[job.fileId := newId]))
  {
    var s' := s.(jobs := s.jobs[newId := job], locks := s.locks[job.fileId := newId]);
    forall f, j ensures (f in s'.locks && s'.locks[f] == j) <==> Owns(s', f, j) {
      assert (f in s.locks && s.locks[f] == j) <==> Owns(s, f, j);
    }
  }

  lemma CoveredStays(s: State, planId: Uuid, f: Uuid, newId: Uuid, job: Job, s': State)
    requires NewId(s, newId) && s'.jobs == s.jobs[newId := job] && Covered(s, planId, f)
    ensures Covered(s', planId, f)
  {
    var j :| Covers(s, planId, f, j);
    assert Covers(s', planId, f, j);
  }

  /** The state with the plan's n-th job and its lock added. */
  function WithJob(s: State, planId: Uuid, plan: Plan, n: nat, newId: Uuid): State
    requires n < |plan.files|
  {
    s.(jobs := s.jobs[newId := PlanJob(planId, plan, n)], locks := s.locks[plan.files[n].fileId := newId])
  }

  lemma FilesStayCovered(s: State, planId: Uuid, plan: Plan, n: nat, newId: Uuid, s': State)
    requires n < |plan.files| && NewId(s, newId) && s'.jobs == s.jobs[newId := PlanJob(planId, plan, n)]
    requires FilesCovered(s, planId, plan.files[..n])
    ensures FilesCovered(s', planId, plan.files[..n + 1])
  {
    forall i | 0 <= i < n + 1 ensures Covered(s', planId, plan.files[i].fileId) {
      if i < n {
        assert plan.files[..n][i] == plan.files[i];
        CoveredStays(s, planId, plan.files[i].fileId, newId, PlanJob(planId, plan, n), s');
      } else {
        assert Covers(s', planId, plan.files[n].fileId, newId);
      }
    }
  }

  lemma JobsStayOfFiles(s: State, planId: Uuid, plan: Plan, n: nat, newId: Uuid, s': State)
    requires n < |plan.files| && NewId(s, newId) && s'.jobs == s.jobs[newId := PlanJob(planId, plan, n)]
    requires JobsOfFiles(s, planId, plan.files[..n])
    ensures JobsOfFiles(s', planId, plan.files[..n + 1])
  {
    var after := plan.files[..n + 1];
    forall j | OfPlan(s', j, planId) ensures exists i :: 0 <= i < |after| && after[i].fileId == s'.jobs[j].fileId {
      if j == newId {
        assert after[n].fileId == s'.jobs[j].fileId;
      } else {
        assert OfPlan(s, j, planId);
        var i :| 0 <= i < n && plan.files[..n][i].fileId == s.jobs[j].fileId;
        assert after[i].fileId == s'.jobs[j].fileId;
      }
    }
  }

  lemma StillOneEach(s: State, planId: Uuid, plan: Plan, n: nat, newId: Uuid, s': State)
    requires n < |plan.files| && FilesDistinct(plan) && NewId(s, newId) && s'.jobs == s.jobs[newId := PlanJob(planId, plan, n)]
    requires JobsOfFiles(s, planId, plan.files[..n]) && OneEach(s, planId)
    ensures OneEach(s', planId)
  {
    forall f, j, k | Covers(s', planId, f, j) && Covers(s', planId, f, k) ensures j == k {
      if j != newId {
        assert Covers(s, planId, f, j);
      }
      if k != newId {
        assert Covers(s, planId, f, k);
      }
    }
  }

  lemma OneMoreFileCovered(s: State, planId: Uuid, plan: Plan, n: nat, newId: Uuid, s': State)
    requires n < |plan.files| && FilesDistinct(plan) && NewId(s, newId)
    requires OneJobPerFile(s, planId, FirstFiles(plan, n)) && s'.jobs == s.jobs[newId := PlanJob(planId, plan, n)]
    ensures OneJobPerFile(s', planId, FirstFiles(plan, n + 1))
  {
    FilesStayCovered(s, planId, plan, n, newId, s');
    JobsStayOfFiles(s, planId, plan, n, newId, s');
    StillOneEach(s, planId, plan, n, newId, s');
  }

  /** Adding the n-th job keeps the rest free, adds only jobs of the plan, and leaves them all queued. */
  lemma OneMoreAdded(s: State, planId: Uuid, plan: Plan, newIds: seq<Uuid>, n: nat, before: State)
    requires ReadyToQueue(s, planId, plan, newIds) && n < |plan.files|
    requires RestIsFree(before, plan, newIds, n) && OnlyAdds(s, before, planId) && AllQueued(before, planId, plan)
    ensures var after := WithJob(before, planId, plan, n, newIds[n]);
            RestIsFree(after, plan, newIds, n + 1) && OnlyAdds(s, after, planId) && AllQueued(after, planId, plan)
  {
  }

  ghost predicate Queueing(s: State, planId: Uuid, plan: Plan, newIds: seq<Uuid>, n: nat, s': State)
    requires n <= |plan.files|
  {
    && LocksAgree(s') && RestIsFree(s', plan, newIds, n) && OnlyAdds(s, s', planId)
    && OneJobPerFile(s', planId, FirstFiles(plan, n)) && AllQueued(s', planId, plan)
  }

  lemma QueueingStart(s: State, planId: Uuid, plan: Plan, newIds: seq<Uuid>)
    requires ReadyToQueue(s, planId, plan, newIds) && LocksAgree(s) && forall j :: !OfPlan(s, j, planId)
    ensures Queueing(s, planId, plan, newIds, 0, s)
  {
  }

  lemma QueueingStep(s: State, planId: Uuid, plan: Plan, newIds: seq<Uuid>, n: nat, before: State, after: State)
    requires ReadyToQueue(s, planId, plan, newIds) && 0 < n <= |plan.files| && Queueing(s, planId, plan, newIds, n - 1, before)
    requires after == WithJob(before, planId, plan, n - 1, newIds[n - 1])
    ensures Queueing(s, planId, plan, newIds, n, after)
  {
    EnforcedJobKeepsLocks(before, PlanJob(planId, plan, n - 1), newIds[n - 1]);
    OneMoreFileCovered(before, planId, plan, n - 1, newIds[n - 1], after);
    OneMoreAdded(s, planId, plan, newIds, n - 1, before);
  }

  lemma NextFileIsFree(s: State, planId: Uuid, plan: Plan, newIds: seq<Uuid>, n: nat, before: State)
    requires n < |plan.files| && Queueing(s, planId, plan, newIds, n, before)
    ensures plan.files[n].fileId !in before.locks
  {
  }

  /** The jobs of the plan's first n files and their locks, added without looking. */
  function WithJobs(s: State, planId: Uuid, plan: Plan, newIds: seq<Uuid>, n: nat): State
    requires n <= |plan.files| == |newIds|
  {
    if n == 0 then s else WithJob(WithJobs(s, planId, plan, newIds, n - 1), planId, plan, n - 1, newIds[n - 1])
  }

  lemma {:induction false} AddingKeepsQueueing(s: State, planId: Uuid, plan: Plan, newIds: seq<Uuid>, n: nat)
    requires ReadyToQueue(s, planId, plan, newIds) && n <= |plan.files|
    requires LocksAgree(s) && forall j :: !OfPlan(s, j, planId)
    ensures Queueing(s, planId, plan, newIds, n, WithJobs(s, planId, plan, newIds, n))
  {
    if n == 0 {
      QueueingStart(s, planId, plan, newIds);
    } else {
      AddingKeepsQueueing(s, planId, plan, newIds, n - 1);
      QueueingStep(s, planId, plan, newIds, n, WithJobs(s, planId, plan, newIds, n - 1), WithJobs(s, planId, plan, newIds, n));
    }
  }

  /** Queueing never meets a lock: the files are distinct and were all free. So the rollback is never taken. */
  lemma {:induction false} QueueingNeverBlocks(s: State, planId: Uuid, plan: Plan, newIds: seq<Uuid>, n: nat)
    requires ReadyToQueue(s, planId, plan, newIds) && n <= |plan.files|
    requires LocksAgree(s) && forall j :: !OfPlan(s, j, planId)
    ensures CreateJobs(s, planId, plan, newIds, n) == (WithJobs(s, planId, plan, newIds, n), n)
  {
    if n == 0 {
    } else {
      QueueingNeverBlocks(s, planId, plan, newIds, n - 1);
      NextAddedFileIsFree(s, planId, plan, newIds, n - 1);
      OneMoreJob(s, planId, plan, newIds, n);
    }
  }

  /** One more job is created when its file is free. */
  lemma OneMoreJob(s: State, planId: Uuid, plan: Plan, newIds: seq<Uuid>, n: nat)
    requires 0 < n <= |plan.files| == |newIds|
    requires CreateJobs(s, planId, plan, newIds, n - 1) == (WithJobs(s, planId, plan, newIds, n - 1), n - 1)
    requires plan.files[n - 1].fileId !in WithJobs(s, planId, plan, newIds, n - 1).locks
    ensures CreateJobs(s, planId, plan, newIds, n) == (WithJobs(s, planId, plan, newIds, n), n)
  {
  }

  lemma NextAddedFileIsFree(s: State, planId: Uuid, plan: Plan, newIds: seq<Uuid>, n: nat)
    requires ReadyToQueue(s, planId, plan, newIds) && n < |plan.files|
    requires LocksAgree(s) && forall j :: !OfPlan(s, j, planId)
    ensures plan.files[n].fileId !in WithJobs(s, planId, plan, newIds, n).locks
  {
    AddingKeepsQueueing(s, planId, plan, newIds, n);
    NextFileIsFree(s, planId, plan, newIds, n, WithJobs(s, planId, plan, newIds, n));
  }

  lemma OtherPlanUnqueued(s: State, s': State, planId: Uuid, p: Uuid, other: Plan)
    requires OnlyAdds(s, s', planId) && PlanAgrees(s, p, other) && p != planId
    ensures PlanAgrees(s', p, other)
  {
    assert forall j :: OfPlan(s', j, p) <==> OfPlan(s, j, p);
    assert forall f, j :: Covers(s', p, f, j) <==> Covers(s, p, f, j);
  }

  lemma QueuedPlanAgrees(s: State, planId: Uuid, plan: Plan)
    requires FilesDistinct(plan) && OneJobPerFile(s, planId, plan) && AllQueued(s, planId, plan)
    ensures PlanAgrees(s, planId, plan.(status := Queued))
  {
    assert Covered(s, planId, plan.files[0].fileId);
    var j :| Covers(s, planId, plan.files[0].fileId, j);
    assert OfPlan(s, j, planId) && s.jobs[j].status == JobPending;
    assert OneJobPerFile(s, planId, plan.(status := Queued));
  }

  /** The ids drawn for the jobs are fresh and distinct. */
  ghost predicate FreshIds(s: State, newIds: seq<Uuid>) {
    && (forall i :: 0 <= i < |newIds| ==> NewId(s, newIds[i]))
    && (forall i, j :: 0 <= i < j < |newIds| ==> newIds[i] != newIds[j])
  }

  /** Past its checks a plan is always queued in full; the rollback branch is unreachable. */
  lemma ExecuteQueuesAll(s: State, projectId: Uuid, planId: Uuid, staleOnDisk: set<Uuid>, newIds: seq<Uuid>)
    requires Inv(s) && ExecuteError(s, projectId, planId, true) == None
    requires |newIds| == |s.plans[planId].files| && FreshIds(s, newIds)
    requires forall file :: file in s.plans[planId].files ==> !Blocked(s, projectId, file, staleOnDisk)
    ensures var (s', r) := Execute(s, projectId, planId, true, staleOnDisk, newIds);
            r == Ok(()) && s'.plans[planId].status == Queued && Inv(s') && s'.versions == s.versions
  {
    var plan := s.plans[planId];
    UnblockedIsReady(s, projectId, planId, staleOnDisk, newIds);
    QueueingNeverBlocks(s, planId, plan, newIds, |plan.files|);
    AddingKeepsQueueing(s, planId, plan, newIds, |plan.files|);
    assert FirstFiles(plan, |plan.files|) == plan;
    QueuedKeepsInv(s, WithJobs(s, planId, plan, newIds, |plan.files|), planId);
  }

  lemma UnblockedIsReady(s: State, projectId: Uuid, planId: Uuid, staleOnDisk: set<Uuid>, newIds: seq<Uuid>)
    requires Inv(s) && planId in s.plans && s.plans[planId].status == Preview
    requires |newIds| == |s.plans[planId].files| && FreshIds(s, newIds)
    requires forall file :: file in s.plans[planId].files ==> !Blocked(s, projectId, file, staleOnDisk)
    ensures ReadyToQueue(s, planId, s.plans[planId], newIds)
    ensures forall j :: !OfPlan(s, j, planId)
  {
    var plan := s.plans[planId];
    assert PlanAgrees(s, planId, plan);
    assert forall i :: 0 <= i < |plan.files| ==> plan.files[i] in plan.files;
  }

  lemma QueuedKeepsInv(s: State, made: State, planId: Uuid)
    requires Inv(s) && planId in s.plans && OnlyAdds(s, made, planId) && LocksAgree(made)
    requires OneJobPerFile(made, planId, s.plans[planId]) && AllQueued(made, planId, s.plans[planId])
    ensures Inv(made.(plans := SetPlanStatus(s, planId, Queued).plans))
  {
    var s' := made.(plans := SetPlanStatus(s, planId, Queued).plans);
    forall p | p in s'.plans ensures PlanAgrees(s', p, s'.plans[p]) {
      if p == planId {
        QueuedPlanAgrees(made, planId, s.plans[planId]);
      } else {
        OtherPlanUnqueued(s, made, planId, p, s.plans[p]);
      }
      SameJobsSameAgreement(made, s', p, s'.plans[p]);
    }
    assert forall f, j :: Owns(s', f, j) <==> Owns(made, f, j);
    ResultsSurvive(s, s');
  }

  lemma BlockedKeepsInv(s: State, planId: Uuid)
    requires Inv(s) && planId in s.plans && s.plans[planId].status == Preview
    ensures Inv(SetPlanStatus(s, planId, PlanConflict))
  {
    var s' := SetPlanStatus(s, planId, PlanConflict);
    forall p | p in s'.plans ensures PlanAgrees(s', p, s'.plans[p]) {
      assert forall j :: OfPlan(s', j, p) <==> OfPlan(s, j, p);
      if p != planId {
        SameJobsSameAgreement(s, s', p, s.plans[p]);
      }
    }
    assert forall f, j :: Owns(s', f, j) <==> Owns(s, f, j);
    ResultsSurvive(s, s');
  }

  lemma ExecuteKeepsInv(s: State, projectId: Uuid, planId: Uuid, confirmed: bool, staleOnDisk: set<Uuid>, newIds: seq<Uuid>)
    requires Inv(s) && (planId in s.plans ==> |newIds| == |s.plans[planId].files|) && FreshIds(s, newIds)
    ensures var s' := Execute(s, projectId, planId, confirmed, staleOnDisk, newIds).0; Inv(s') && s'.versions == s.versions
  {
    if ExecuteError(s, projectId, planId, confirmed) == None {
      if exists file :: file in s.plans[planId].files && Blocked(s, projectId, file, staleOnDisk) {
        BlockedKeepsInv(s, planId);
      } else {
        ExecuteQueuesAll(s, projectId, planId, staleOnDisk, newIds);
      }
    }
  }

  lemma PreviewKeepsInv(s: State, projectId: Uuid, fileIds: seq<Uuid>, revisions: map<Uuid, int>, hashes: map<Uuid, string>,
                        inPlace: bool, allOrNothing: bool, otherWarnings: bool, newId: Uuid)
    requires Inv(s) && newId !in s.plans
    ensures Inv(CreatePreview(s, projectId, fileIds, revisions, hashes, inPlace, allOrNothing, otherWarnings, newId).0)
  {
    var (s', r) := CreatePreview(s, projectId, fileIds, revisions, hashes, inPlace, allOrNothing, otherWarnings, newId);
    if r.Ok? {
      assert fileIds[0] in Distinct(fileIds);
      forall p | p in s.plans ensures PlanAgrees(s', p, s.plans[p]) {
        SameJobsSameAgreement(s, s', p, s.plans[p]);
      }
      assert forall j :: !OfPlan(s', j, newId);
      assert forall f, j :: Owns(s', f, j) <==> Owns(s, f, j);
      ResultsSurvive(s, s');
    }
  }

  lemma RegisterKeepsInv(s: State, f: Uuid, hash: string)
    requires Inv(s)
    ensures var s' := Register(s, f, hash).0; Inv(s') && VersionsExtend(s, s')
  {
    var s' := Register(s, f, hash).0;
    RegisterEffect(s, f, hash);
    forall p | p in s.plans ensures PlanAgrees(s', p, s.plans[p]) {
      SameJobsSameAgreement(s, s', p, s.plans[p]);
    }
    assert forall f, j :: Owns(s', f, j) <==> Owns(s, f, j);
    ResultsSurvive(s, s');
  }

  // --- Runs -----------------------------------------------------------------------------------------------

  datatype Step =
    | MakePreview(projectId: Uuid, fileIds: seq<Uuid>, revisions: map<Uuid, int>, hashes: map<Uuid, string>,
                  inPlace: bool, allOrNothing: bool, otherWarnings: bool, newId: Uuid)
    | ExecutePlan(projectId: Uuid, planId: Uuid, confirmed: bool, staleOnDisk: set<Uuid>, newIds: seq<Uuid>)
    | DirectJob(projectId: Uuid, file: FilePlan, newId: Uuid)
    | RestoreFile(projectId: Uuid, fileId: Uuid, target: nat, expected: int, changeId: Uuid, newId: Uuid)
    | CompleteJob(projectId: Uuid, jobId: Uuid, sourceHash: string, resultHash: string, backup: bool, diskHash: Option<string>)
    | FailJob(projectId: Uuid, jobId: Uuid)
    | RegisterFile(fileId: Uuid, hash: string)
    | RecordImport(projectId: Uuid, fileId: Uuid, evidence: Evidence)
    | ReviewRestore(projectId: Uuid, changeId: Uuid)
    | ApproveRestore(projectId: Uuid, changeId: Uuid)

  ghost predicate Enabled(s: State, step: Step) {
    match step
    case MakePreview(_, _, _, _, _, _, _, newId) => newId !in s.plans
    case ExecutePlan(_, planId, _, _, newIds) => FreshIds(s, newIds) && (planId in s.plans ==> |newIds| == |s.plans[planId].files|)
    case DirectJob(_, _, newId) => NewId(s, newId)
    case RestoreFile(_, _, _, _, changeId, newId) => NewId(s, newId) && changeId !in s.changesets
    case _ => true
  }

  function Next(s: State, step: Step): State
    requires step.ExecutePlan? && step.planId in s.plans ==> |step.newIds| == |s.plans[step.planId].files|
  {
    match step
    case MakePreview(p, files, revisions, hashes, inPlace, aon, warnings, newId) =>
      CreatePreview(s, p, files, revisions, hashes, inPlace, aon, warnings, newId).0
    case ExecutePlan(p, planId, confirmed, stale, newIds) => Execute(s, p, planId, confirmed, stale, newIds).0
    case DirectJob(p, file, newId) => CreateJob(s, NewJob(p, file, None, true, false, false, false), newId).0
    case RestoreFile(p, f, target, expected, changeId, newId) => CreateRestore(s, p, f, target, expected, changeId, newId).0
    case CompleteJob(p, j, source, result, backup, disk) => Complete(s, p, j, source, result, backup, disk).0
    case FailJob(p, j) => Fail(s, p, j).0
    case RegisterFile(f, hash) => Register(s, f, hash).0
    case ReviewRestore(p, c) => ReviewChange(s, p, c).0
    case ApproveRestore(p, c) => ApproveChange(s, p, c).0
    case RecordImport(p, f, evidence) => s.(importEvidence := s.importEvidence[(p, f) := evidence])
  }

  /** What other tables record does not matter to jobs, plans, locks and versions. */
  lemma OtherTablesKeepInv(s: State, s': State)
    requires Inv(s) && s' == s.(importEvidence := s'.importEvidence, changesets := s'.changesets)
    ensures Inv(s') && VersionsExtend(s, s')
  {
    forall p | p in s.plans ensures PlanAgrees(s', p, s.plans[p]) {
      SameJobsSameAgreement(s, s', p, s.plans[p]);
    }
    assert forall f, j :: Owns(s', f, j) <==> Owns(s, f, j);
    ResultsSurvive(s, s');
  }

  lemma RestoreKeepsInv(s: State, projectId: Uuid, fileId: Uuid, target: nat, expected: int, changeId: Uuid, newId: Uuid)
    requires Inv(s) && NewId(s, newId)
    ensures var s' := CreateRestore(s, projectId, fileId, target, expected, changeId, newId).0; Inv(s') && VersionsExtend(s, s')
  {
    var (s', r) := CreateRestore(s, projectId, fileId, target, expected, changeId, newId);
    if r.Ok? {
      PlanlessJobKeepsInv(s, s'.jobs[newId], newId, s');
    }
  }

  lemma StepKeepsInv(s: State, step: Step)
    requires Inv(s) && Enabled(s, step)
    ensures Inv(Next(s, step)) && VersionsExtend(s, Next(s, step))
  {
    match step
    case MakePreview(p, files, revisions, hashes, inPlace, aon, warnings, newId) =>
      PreviewKeepsInv(s, p, files, revisions, hashes, inPlace, aon, warnings, newId);
    case ExecutePlan(p, planId, confirmed, stale, newIds) => ExecuteKeepsInv(s, p, planId, confirmed, stale, newIds);
    case DirectJob(p, file, newId) => PlanlessJobKeepsInv(s, NewJob(p, file, None, true, false, false, false), newId, Next(s, step));
    case RestoreFile(p, f, target, expected, changeId, newId) => RestoreKeepsInv(s, p, f, target, expected, changeId, newId);
    case CompleteJob(p, j, source, result, backup, disk) => CompleteKeepsInv(s, p, j, source, result, backup, disk);
    case FailJob(p, j) => FailKeepsInv(s, p, j);
    case RegisterFile(f, hash) => RegisterKeepsInv(s, f, hash);
    case RecordImport(_, _, _) => OtherTablesKeepInv(s, Next(s, step));
    case ReviewRestore(_, _) => OtherTablesKeepInv(s, Next(s, step));
    case ApproveRestore(_, _) => OtherTablesKeepInv(s, Next(s, step));
  }

  ghost predicate Behaviour(states: seq<State>, steps: seq<Step>) {
    && |states| == |steps| + 1
    && states[0] == EMPTY
    && forall i :: 0 <= i < |steps| ==> Enabled(states[i], steps[i]) && states[i + 1] == Next(states[i], steps[i])
  }

  /** In every reachable state locks, plans and results agree with the jobs, and file histories only grow. */
  lemma {:induction false} BehaviourKeepsInv(states: seq<State>, steps: seq<Step>, m: nat, n: nat)
    requires Behaviour(states, steps) && m <= n <= |steps|
    ensures Inv(states[n]) && VersionsExtend(states[m], states[n])
    decreases n
  {
    if n == 0 {
    } else {
      BehaviourKeepsInv(states, steps, if m < n then m else n - 1, n - 1);
      StepKeepsInv(states[n - 1], steps[n - 1]);
      if m < n {
        forall f ensures VersionsOf(states[m], f) <= VersionsOf(states[n], f) {
          assert VersionsOf(states[m], f) <= VersionsOf(states[n - 1], f) <= VersionsOf(states[n], f);
        }
      }
    }
  }

  // --- What is final -----------------------------------------------------------------------------------------

  /** The job is still there; if applied it is as it was, and if broken it still is. */
  predicate JobStands(s: State, s': State, j: Uuid)
    requires j in s.jobs
  {
    && j in s'.jobs
    && (s.jobs[j].status == JobApplied ==> s'.jobs[j] == s.jobs[j])
    && (Broken(s.jobs[j]) ==> Broken(s'.jobs[j]) && s'.jobs[j].planId == s.jobs[j].planId)
  }

  lemma StandsWhenExecuting(s: State, projectId: Uuid, planId: Uuid, confirmed: bool, staleOnDisk: set<Uuid>, newIds: seq<Uuid>, j: Uuid)
    requires Inv(s) && (planId in s.plans ==> |newIds| == |s.plans[planId].files|) && FreshIds(s, newIds) && j in s.jobs
    ensures JobStands(s, Execute(s, projectId, planId, confirmed, staleOnDisk, newIds).0, j)
  {
    if ExecuteError(s, projectId, planId, confirmed) == None {
      if forall file :: file in s.plans[planId].files ==> !Blocked(s, projectId, file, staleOnDisk) {
        UnblockedIsReady(s, projectId, planId, staleOnDisk, newIds);
        QueueingNeverBlocks(s, planId, s.plans[planId], newIds, |newIds|);
        AddingKeepsQueueing(s, planId, s.plans[planId], newIds, |newIds|);
      }
    }
  }

  lemma StandsWhenStopping(s: State, js: set<Uuid>, status: JobStatus, planId: Option<Uuid>, j: Uuid)
    requires j in s.jobs && (status == JobFailed || status == JobConflict)
    requires forall k :: k in js && k in s.jobs ==> s.jobs[k].status != JobApplied
    ensures JobStands(s, Refresh(Stop(s, js, status), planId), j)
  {
  }

  lemma StandsWhenCompleting(s: State, projectId: Uuid, jobId: Uuid, sourceHash: string, resultHash: string, backup: bool, diskHash: Option<string>, j: Uuid)
    requires j in s.jobs
    ensures JobStands(s, Complete(s, projectId, jobId, sourceHash, resultHash, backup, diskHash).0, j)
  {
    if FindJob(s, projectId, jobId).Ok? && s.jobs[jobId].status == JobPending {
      match Obstacle(s, s.jobs[jobId], sourceHash, backup, diskHash)
      case Some(status) => StandsWhenStopping(s, {jobId}, status, s.jobs[jobId].planId, j);
      case None =>
    }
  }

  /** An applied job never changes again, and a failed or conflicting one never recovers. */
  lemma JobsEndForGood(s: State, step: Step, j: Uuid)
    requires Inv(s) && Enabled(s, step) && j in s.jobs
    ensures JobStands(s, Next(s, step), j)
  {
    match step
    case ExecutePlan(p, planId, confirmed, stale, newIds) => StandsWhenExecuting(s, p, planId, confirmed, stale, newIds, j);
    case CompleteJob(p, jobId, source, result, backup, disk) => StandsWhenCompleting(s, p, jobId, source, result, backup, disk, j);
    case FailJob(p, jobId) =>
      if FindJob(s, p, jobId).Ok? && s.jobs[jobId].status != JobApplied {
        StandsWhenStopping(s, Failing(s, jobId), JobFailed, s.jobs[jobId].planId, j);
      }
    case _ => SimpleStepKeepsJob(s, step, j);
  }

  /** The other steps leave every job as it was. */
  lemma SimpleStepKeepsJob(s: State, step: Step, j: Uuid)
    requires Enabled(s, step) && j in s.jobs && !step.CompleteJob? && !step.ExecutePlan? && !step.FailJob?
    ensures j in Next(s, step).jobs && Next(s, step).jobs[j] == s.jobs[j]
  {
  }

  lemma BrokenStays(s: State, s': State, p: Uuid)
    requires HasBroken(s, p) && forall j :: j in s.jobs ==> JobStands(s, s', j)
    ensures HasBroken(s', p)
  {
    var j :| OfPlan(s, j, p) && Broken(s.jobs[j]);
    assert JobStands(s, s', j);
    assert OfPlan(s', j, p) && Broken(s'.jobs[j]);
  }

  lemma BrokenMeansFailed(s: State, p: Uuid, plan: Plan)
    requires PlanAgrees(s, p, plan) && HasBroken(s, p)
    ensures plan.status == PlanFailed
  {
    var j :| OfPlan(s, j, p) && Broken(s.jobs[j]);
  }

  lemma PlansRemainWhenExecuting(s: State, projectId: Uuid, planId: Uuid, confirmed: bool, staleOnDisk: set<Uuid>, newIds: seq<Uuid>)
    requires planId in s.plans ==> |newIds| == |s.plans[planId].files|
    ensures Execute(s, projectId, planId, confirmed, staleOnDisk, newIds).0.plans.Keys == s.plans.Keys
  {
  }

  lemma PlansRemainWhenCompleting(s: State, projectId: Uuid, jobId: Uuid, sourceHash: string, resultHash: string, backup: bool, diskHash: Option<string>)
    ensures Complete(s, projectId, jobId, sourceHash, resultHash, backup, diskHash).0.plans.Keys == s.plans.Keys
  {
    if FindJob(s, projectId, jobId).Ok? && s.jobs[jobId].status == JobPending {
      var job := s.jobs[jobId];
      match Obstacle(s, job, sourceHash, backup, diskHash)
      case Some(status) => RefreshKeepsPlanIds(Stop(s, {jobId}, status), job.planId);
      case None => RefreshKeepsPlanIds(ApplyJob(s, jobId, resultHash), job.planId);
    }
  }

  lemma RefreshKeepsPlanIds(s: State, planId: Option<Uuid>)
    ensures Refresh(s, planId).plans.Keys == s.plans.Keys
  {
  }

  lemma PlansRemainWhenFailing(s: State, projectId: Uuid, jobId: Uuid)
    ensures Fail(s, projectId, jobId).0.plans.Keys == s.plans.Keys
  {
  }

  lemma PlansRemain(s: State, step: Step)
    requires Enabled(s, step)
    ensures s.plans.Keys <= Next(s, step).plans.Keys
  {
    match step
    case ExecutePlan(p, planId, confirmed, stale, newIds) => PlansRemainWhenExecuting(s, p, planId, confirmed, stale, newIds);
    case CompleteJob(p, j, source, result, backup, disk) => PlansRemainWhenCompleting(s, p, j, source, result, backup, disk);
    case FailJob(p, j) => PlansRemainWhenFailing(s, p, j);
    case _ =>
  }

  /** A failed plan stays failed. */
  lemma FailedPlanIsFinal(s: State, step: Step, p: Uuid)
    requires Inv(s) && Enabled(s, step) && p in s.plans && s.plans[p].status == PlanFailed
    ensures p in Next(s, step).plans && Next(s, step).plans[p].status == PlanFailed
  {
    StepKeepsInv(s, step);
    PlansRemain(s, step);
    forall j | j in s.jobs ensures JobStands(s, Next(s, step), j) {
      JobsEndForGood(s, step, j);
    }
    BrokenStays(s, Next(s, step), p);
    BrokenMeansFailed(Next(s, step), p, Next(s, step).plans[p]);
  }

  /** Over any run: what has been applied, failed or in conflict stays so, and so does a failed plan. */
  lemma {:induction false} EndsForGood(states: seq<State>, steps: seq<Step>, m: nat, n: nat, j: Uuid, p: Uuid)
    requires Behaviour(states, steps) && m <= n <= |steps|
    ensures j in states[m].jobs ==> JobStands(states[m], states[n], j)
    ensures p in states[m].plans && states[m].plans[p].status == PlanFailed ==>
              p in states[n].plans && states[n].plans[p].status == PlanFailed
    decreases n
  {
    if m == n {
    } else {
      EndsForGood(states, steps, m, n - 1, j, p);
      BehaviourKeepsInv(states, steps, n - 1, n - 1);
      OneStepEndsForGood(states[n - 1], steps[n - 1], j, p);
      if j in states[m].jobs {
        StandsThrough(states[m], states[n - 1], states[n], j);
      }
    }
  }

  lemma OneStepEndsForGood(s: State, step: Step, j: Uuid, p: Uuid)
    requires Inv(s) && Enabled(s, step)
    ensures j in s.jobs ==> JobStands(s, Next(s, step), j)
    ensures p in s.plans && s.plans[p].status == PlanFailed ==>
              p in Next(s, step).plans && Next(s, step).plans[p].status == PlanFailed
  {
    if j in s.jobs {
      JobsEndForGood(s, step, j);
    }
    if p in s.plans && s.plans[p].status == PlanFailed {
      FailedPlanIsFinal(s, step, p);
    }
  }

  lemma StandsThrough(s: State, s': State, s'': State, j: Uuid)
    requires j in s.jobs && JobStands(s, s', j) && JobStands(s', s'', j)
    ensures JobStands(s, s'', j)
  {
  }
}
