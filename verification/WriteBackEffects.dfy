/** What each request to the write-back does to jobs, locks, plans and versions, told from what was there before it. */
module WriteBackEffects {
  import opened Prelude
  import opened WriteBack
  import opened WriteBackTheorems
  import opened WriteBackRuns

  // --- Failing a job ---------------------------------------------------------------------------------------

  predicate SameJob(s: State, s': State, j: Uuid) {
    (j in s'.jobs <==> j in s.jobs) && (j in s.jobs ==> s'.jobs[j] == s.jobs[j])
  }

  predicate SameLock(s: State, s': State, f: Uuid) {
    (f in s'.locks <==> f in s.locks) && (f in s.locks ==> s'.locks[f] == s.locks[f])
  }

  /** Everything but jobs, locks and the named plan's status is as before. */
  ghost predicate SameElsewhere(s: State, s': State, planId: Option<Uuid>) {
    && s'.versions == s.versions && s'.importEvidence == s.importEvidence && s'.selfWrites == s.selfWrites && s'.changesets == s.changesets
    && s'.plans.Keys == s.plans.Keys && forall p :: p in s.plans && Some(p) != planId ==> s'.plans[p] == s.plans[p]
  }

  predicate Named(s: State, projectId: Uuid, jobId: Uuid) {
    jobId in s.jobs && s.jobs[jobId].projectId == projectId
  }

  /** A pending job of the same plan. */
  predicate PendingSibling(s: State, jobId: Uuid, j: Uuid) {
    && jobId in s.jobs && j in s.jobs && j != jobId && s.jobs[j].status == JobPending
    && s.jobs[jobId].planId.Some? && s.jobs[j].planId == s.jobs[jobId].planId
  }

  lemma RefreshElsewhere(s: State, s': State, planId: Option<Uuid>)
    requires s' == s.(jobs := s'.jobs, locks := s'.locks)
    ensures var s'' := Refresh(s', planId); SameElsewhere(s, s'', planId) && s''.jobs == s'.jobs && s''.locks == s'.locks
  {
  }

  /** A failure is accepted exactly for a job of the project that is not applied, and otherwise changes nothing. */
  lemma FailAcceptedIff(s: State, projectId: Uuid, jobId: Uuid)
    ensures var (s', r) := Fail(s, projectId, jobId);
            && (r.Ok? <==> Named(s, projectId, jobId) && s.jobs[jobId].status != JobApplied)
            && (r == Err(NotFound) <==> !Named(s, projectId, jobId))
            && (r.Err? ==> s' == s)
  {
  }

  /** An accepted failure fails the named job. Another job differs from before exactly if the named job is all-or-nothing and the
      other was pending in the same plan; it has then failed too. */
  lemma FailTakesEffect(s: State, projectId: Uuid, jobId: Uuid, j: Uuid)
    requires Fail(s, projectId, jobId).1 == Ok(())
    ensures var s' := Fail(s, projectId, jobId).0;
            && jobId in s.jobs && SameElsewhere(s, s', s.jobs[jobId].planId)
            && jobId in s'.jobs && s'.jobs[jobId] == s.jobs[jobId].(status := JobFailed)
            && (j != jobId ==> (!SameJob(s, s', j) <==> s.jobs[jobId].allOrNothing && PendingSibling(s, jobId, j)))
            && (j != jobId && !SameJob(s, s', j) ==> j in s'.jobs && s'.jobs[j] == s.jobs[j].(status := JobFailed))
  {
    RefreshElsewhere(s, Stop(s, Failing(s, jobId), JobFailed), s.jobs[jobId].planId);
  }

  /** In every reachable state it releases exactly the locks of the jobs that have failed with it. */
  lemma FailReleases(states: seq<State>, steps: seq<Step>, n: nat, projectId: Uuid, jobId: Uuid, f: Uuid)
    requires Behaviour(states, steps) && n <= |steps| && Fail(states[n], projectId, jobId).1 == Ok(()) && f in states[n].locks
    ensures var s, s' := states[n], Fail(states[n], projectId, jobId).0;
            SameLock(s, s', f) <==> s.locks[f] != jobId && SameJob(s, s', s.locks[f])
  {
    var s, s' := states[n], Fail(states[n], projectId, jobId).0;
    BehaviourKeepsInv(states, steps, n, n);
    assert Owns(s, f, s.locks[f]);
    FailTakesEffect(s, projectId, jobId, s.locks[f]);
    RefreshElsewhere(s, Stop(s, Failing(s, jobId), JobFailed), s.jobs[jobId].planId);
  }

  /** In a plan that runs file by file a failure leaves every other job and every lock of another job. */
  lemma PerFileFailureIsAlone(s: State, projectId: Uuid, jobId: Uuid, j: Uuid, f: Uuid)
    requires Fail(s, projectId, jobId).1 == Ok(()) && !s.jobs[jobId].allOrNothing
    ensures var s' := Fail(s, projectId, jobId).0;
            && (j != jobId ==> SameJob(s, s', j))
            && (f in s.locks && s.locks[f] != jobId ==> SameLock(s, s', f))
            && (f !in s.locks ==> f !in s'.locks)
  {
    FailTakesEffect(s, projectId, jobId, j);
    RefreshElsewhere(s, Stop(s, Failing(s, jobId), JobFailed), s.jobs[jobId].planId);
  }

  /** ... so in every reachable state each pending sibling can be completed afterwards exactly if it could be before. */
  lemma SiblingsStayCompletable(states: seq<State>, steps: seq<Step>, n: nat, projectId: Uuid, jobId: Uuid, j: Uuid)
    requires Behaviour(states, steps) && n <= |steps| && Fail(states[n], projectId, jobId).1 == Ok(())
    requires !states[n].jobs[jobId].allOrNothing && PendingSibling(states[n], jobId, j)
    ensures var s' := Fail(states[n], projectId, jobId).0;
            j in s'.jobs && s'.jobs[j].status == JobPending && (Completable(s', j) <==> Completable(states[n], j))
  {
    var s, s' := states[n], Fail(states[n], projectId, jobId).0;
    BehaviourIsPrepared(states, steps, n);
    FailTakesEffect(s, projectId, jobId, j);
    SameVersionsOf(s, s', s.jobs[j].fileId);
    CompletableWhen(s, j);
    CompletableWhen(s', j);
  }

  // --- Reporting a job ---------------------------------------------------------------------------------------

  /** The file has moved on, or its content is not what the worker read. */
  predicate OutOfDate(s: State, job: Job, sourceHash: string, diskHash: Option<string>) {
    job.safetyEnforced && (|VersionsOf(s, job.fileId)| != job.expectedRevision || (diskHash.Some? && diskHash != Some(sourceHash)))
  }

  /** An enforced job that writes in place was reported without a backup. */
  predicate LacksBackup(job: Job, backup: bool) {
    job.safetyEnforced && job.inPlace && !backup
  }

  predicate OtherContent(job: Job, sourceHash: string) {
    job.expectedHash.Some? && job.expectedHash != Some(sourceHash)
  }

  /** How a pending job ends. */
  function Ending(s: State, job: Job, sourceHash: string, backup: bool, diskHash: Option<string>): JobStatus {
    if OutOfDate(s, job, sourceHash, diskHash) then JobConflict
    else if LacksBackup(job, backup) then JobFailed
    else if OtherContent(job, sourceHash) then JobConflict
    else JobApplied
  }

  /** In every reachable state a report on a pending job applies it, if nothing is amiss; a file that moved on or other content is a
      conflict, a missing backup a failure. No other job changes, and the job's lock alone is released. */
  lemma ReportTakesEffect(states: seq<State>, steps: seq<Step>, n: nat, projectId: Uuid, jobId: Uuid, sourceHash: string,
                          resultHash: string, backup: bool, diskHash: Option<string>, j: Uuid, f: Uuid)
    requires Behaviour(states, steps) && n <= |steps| && Named(states[n], projectId, jobId) && states[n].jobs[jobId].status == JobPending
    ensures var s, job := states[n], states[n].jobs[jobId];
            var (s', r) := Complete(s, projectId, jobId, sourceHash, resultHash, backup, diskHash);
            && EndedAs(s, s', jobId, Ending(s, job, sourceHash, backup, diskHash), j, f)
            && r == if Ending(s, job, sourceHash, backup, diskHash) == JobApplied then Ok(()) else Err(WriteConflict)
  {
    BehaviourKeepsInv(states, steps, n, n);
    BehaviourIsPrepared(states, steps, n);
    assert f in states[n].locks ==> Owns(states[n], f, states[n].locks[f]);
    ReportIsFinish(states[n], projectId, jobId, sourceHash, resultHash, backup, diskHash);
    FinishEnds(states[n], jobId, sourceHash, resultHash, backup, diskHash, j, f);
  }

  lemma ObstacleIsEnding(s: State, job: Job, sourceHash: string, backup: bool, diskHash: Option<string>)
    requires job.safetyEnforced ==> Ready(job)
    ensures Ending(s, job, sourceHash, backup, diskHash)
         == if Obstacle(s, job, sourceHash, backup, diskHash).Some? then Obstacle(s, job, sourceHash, backup, diskHash).value else JobApplied
    ensures Obstacle(s, job, sourceHash, backup, diskHash) != Some(JobApplied)
  {
  }

  /** The job has the status, the other job stays, and exactly the job's lock is released. */
  ghost predicate EndedAs(s: State, s': State, jobId: Uuid, status: JobStatus, j: Uuid, f: Uuid) {
    && jobId in s'.jobs && s'.jobs[jobId].status == status
    && (j != jobId ==> SameJob(s, s', j))
    && (if f in s.locks && s.locks[f] == jobId then f !in s'.locks else SameLock(s, s', f))
  }

  lemma StoppedEnds(s: State, jobId: Uuid, status: JobStatus, planId: Option<Uuid>, j: Uuid, f: Uuid)
    requires jobId in s.jobs && (f in s.locks ==> Owns(s, f, s.locks[f]))
    ensures EndedAs(s, Refresh(Stop(s, {jobId}, status), planId), jobId, status, j, f)
  {
    RefreshElsewhere(s, Stop(s, {jobId}, status), planId);
  }

  lemma AppliedEnds(s: State, jobId: Uuid, hash: string, planId: Option<Uuid>, j: Uuid, f: Uuid)
    requires jobId in s.jobs && (f in s.locks ==> Owns(s, f, s.locks[f]))
    ensures EndedAs(s, Refresh(ApplyJob(s, jobId, hash), planId), jobId, JobApplied, j, f)
  {
    RefreshElsewhere(ApplyJob(s, jobId, hash), ApplyJob(s, jobId, hash), planId);
  }

  lemma ReportIsFinish(s: State, projectId: Uuid, jobId: Uuid, sourceHash: string, resultHash: string, backup: bool, diskHash: Option<string>)
    requires Named(s, projectId, jobId) && s.jobs[jobId].status == JobPending
    ensures Complete(s, projectId, jobId, sourceHash, resultHash, backup, diskHash)
         == Finish(s, jobId, sourceHash, resultHash, backup, diskHash)
  {
  }

  lemma FinishEnds(s: State, jobId: Uuid, sourceHash: string, resultHash: string, backup: bool, diskHash: Option<string>, j: Uuid, f: Uuid)
    requires jobId in s.jobs && (s.jobs[jobId].safetyEnforced ==> Ready(s.jobs[jobId])) && (f in s.locks ==> Owns(s, f, s.locks[f]))
    ensures var ending, (s', r) := Ending(s, s.jobs[jobId], sourceHash, backup, diskHash), Finish(s, jobId, sourceHash, resultHash, backup, diskHash);
            EndedAs(s, s', jobId, ending, j, f) && r == if ending == JobApplied then Ok(()) else Err(WriteConflict)
  {
    var job := s.jobs[jobId];
    ObstacleIsEnding(s, job, sourceHash, backup, diskHash);
    match Obstacle(s, job, sourceHash, backup, diskHash)
    case Some(status) => StoppedEnds(s, jobId, status, job.planId, j, f);
    case None => AppliedEnds(s, jobId, resultHash, job.planId, j, f);
  }

  /** A report that ends in a conflict or a failure leaves versions, results and ChangeSets; one that applies the job records the
      result as the system's own write, a version of the job's file alone, and settles the job's ChangeSet alone. */
  lemma ReportRecords(s: State, projectId: Uuid, jobId: Uuid, sourceHash: string, resultHash: string, backup: bool, diskHash: Option<string>,
                      f: Uuid, c: Uuid)
    requires Named(s, projectId, jobId) && s.jobs[jobId].status == JobPending
    ensures var job := s.jobs[jobId];
            var (s', r) := Complete(s, projectId, jobId, sourceHash, resultHash, backup, diskHash);
            if r.Err? then SameElsewhere(s, s', job.planId)
            else && s'.selfWrites == s.selfWrites + {(job.fileId, resultHash)} && s'.importEvidence == s.importEvidence
                 && (f != job.fileId ==> VersionsOf(s', f) == VersionsOf(s, f))
                 && (exists v :: v in VersionsOf(s', job.fileId) && v.hash == resultHash)
                 && s'.changesets.Keys == s.changesets.Keys
                 && (c in s.changesets ==> s'.changesets[c] == if job.changesetId == Some(c) then s.changesets[c].(status := ChangeApplied) else s.changesets[c])
                 && s'.plans.Keys == s.plans.Keys && forall p :: p in s.plans && Some(p) != job.planId ==> s'.plans[p] == s.plans[p]
  {
    var job := s.jobs[jobId];
    match Obstacle(s, job, sourceHash, backup, diskHash)
    case Some(status) => RefreshElsewhere(s, Stop(s, {jobId}, status), job.planId);
    case None => AppliedRecords(s, jobId, resultHash, f, c);
  }

  lemma AppliedRecords(s: State, jobId: Uuid, resultHash: string, f: Uuid, c: Uuid)
    requires jobId in s.jobs
    ensures var job, s' := s.jobs[jobId], Refresh(ApplyJob(s, jobId, resultHash), s.jobs[jobId].planId);
            && s'.selfWrites == s.selfWrites + {(job.fileId, resultHash)} && s'.importEvidence == s.importEvidence
            && (f != job.fileId ==> VersionsOf(s', f) == VersionsOf(s, f))
            && (exists v :: v in VersionsOf(s', job.fileId) && v.hash == resultHash)
            && s'.changesets.Keys == s.changesets.Keys
            && (c in s.changesets ==> s'.changesets[c] == if job.changesetId == Some(c) then s.changesets[c].(status := ChangeApplied) else s.changesets[c])
            && s'.plans.Keys == s.plans.Keys && forall p :: p in s.plans && Some(p) != job.planId ==> s'.plans[p] == s.plans[p]
  {
    var job, applied := s.jobs[jobId], ApplyJob(s, jobId, resultHash);
    var s' := Refresh(applied, job.planId);
    RefreshedTables(applied, job.planId);
    RegisteredFile(s, job.fileId, resultHash, f);
    SameVersionsOf(Register(s, job.fileId, resultHash).0, s', f);
    SameVersionsOf(Register(s, job.fileId, resultHash).0, s', job.fileId);
  }

  lemma RefreshedTables(s: State, planId: Option<Uuid>)
    ensures var s' := Refresh(s, planId);
            && s'.selfWrites == s.selfWrites && s'.importEvidence == s.importEvidence && s'.changesets == s.changesets && s'.versions == s.versions
            && s'.plans.Keys == s.plans.Keys && forall p :: p in s.plans && Some(p) != planId ==> s'.plans[p] == s.plans[p]
  {
  }

  /** Registering a hash leaves other files alone, and the file then has a version with it. */
  lemma RegisteredFile(s: State, file: Uuid, hash: string, f: Uuid)
    ensures var s' := Register(s, file, hash).0;
            && (f != file ==> VersionsOf(s', f) == VersionsOf(s, f))
            && (exists v :: v in VersionsOf(s', file) && v.hash == hash)
  {
    var versions := VersionsOf(s, file);
    match FindHash(versions, hash)
    case Some(_) =>
      var i :| 0 <= i < |versions| && versions[i].hash == hash;
      assert versions[i] in VersionsOf(Register(s, file, hash).0, file);
    case None =>
      assert (versions + [Version(|versions| + 1, hash)])[|versions|] in VersionsOf(Register(s, file, hash).0, file);
  }

  /** A report on a job that is applied already is answered and changes nothing; one on a job that has ended otherwise, or is none of
      the project's, is refused and changes nothing. */
  lemma LateReportsChangeNothing(s: State, projectId: Uuid, jobId: Uuid, sourceHash: string, resultHash: string, backup: bool, diskHash: Option<string>)
    requires !(Named(s, projectId, jobId) && s.jobs[jobId].status == JobPending)
    ensures var (s', r) := Complete(s, projectId, jobId, sourceHash, resultHash, backup, diskHash);
            && s' == s
            && (r.Ok? <==> Named(s, projectId, jobId) && s.jobs[jobId].status == JobApplied)
            && (r == Err(NotFound) <==> !Named(s, projectId, jobId))
  {
  }
}
