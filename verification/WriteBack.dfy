/** Write-back of files: preview plans, jobs, per-file locks and file versions, as functions of the state. */
module WriteBack {
  import opened Prelude

  datatype JobStatus = JobPending | JobApplied | JobFailed | JobConflict

  datatype Operation = WriteBackOperation | RestoreOperation

  datatype Job = Job(
    projectId: Uuid, fileId: Uuid, expectedRevision: int, expectedHash: Option<string>, status: JobStatus,
    operation: Operation, planId: Option<Uuid>, inPlace: bool, allOrNothing: bool, confirmed: bool, safetyEnforced: bool,
    changesetId: Option<Uuid>, resultRevision: nat, resultHash: string)

  datatype ChangeStatus = ChangePending | ChangeApplied | ChangeConflict | ChangeInReview

  /** The ChangeSet that a restore makes beside its job: of a file at its base revision back to the target version. */
  datatype RestoreChange = RestoreChange(projectId: Uuid, fileId: Uuid, baseRevision: int, target: Version, status: ChangeStatus)

  datatype FilePlan = FilePlan(fileId: Uuid, expectedRevision: int, expectedHash: Option<string>)

  datatype PlanStatus = Preview | PlanConflict | Queued | PlanApplied | PlanFailed

  datatype Plan = Plan(projectId: Uuid, status: PlanStatus, canConfirm: bool, inPlace: bool, allOrNothing: bool, files: seq<FilePlan>)

  datatype Version = Version(revision: nat, hash: string)

  /** What the system knows of a file: its revision and hash. */
  datatype Evidence = Evidence(revision: int, hash: string)

  datatype State = State(
    jobs: map<Uuid, Job>,
    plans: map<Uuid, Plan>,
    locks: map<Uuid, Uuid>,
    versions: map<Uuid, seq<Version>>,
    importEvidence: map<(Uuid, Uuid), Evidence>,
    selfWrites: set<(Uuid, string)>,
    changesets: map<Uuid, RestoreChange>)

  const EMPTY := State(map[], map[], map[], map[], map[], {}, map[])

  datatype WriteError = NotFound | WrongState | WriteConflict | NotConfirmed

  function VersionsOf(s: State, fileId: Uuid): seq<Version> {
    if fileId in s.versions then s.versions[fileId] else []
  }

  /** The latest registered version, or else what the last import of the file recorded. */
  function EvidenceOf(s: State, projectId: Uuid, fileId: Uuid): Option<Evidence> {
    var versions := VersionsOf(s, fileId);
    if versions != [] then Some(Evidence(versions[|versions| - 1].revision, versions[|versions| - 1].hash))
    else if (projectId, fileId) in s.importEvidence then Some(s.importEvidence[(projectId, fileId)])
    else None
  }

  // --- Preview ---------------------------------------------------------------------------------

  /** The ids in order of first occurrence, each once. */
  function Distinct(ids: seq<Uuid>): (r: seq<Uuid>)
    ensures forall x :: x in r <==> x in ids
    ensures forall i, j :: 0 <= i < j < |r| ==> r[i] != r[j]
  {
    if ids == [] then []
    else
      var last := |ids| - 1;
      var rest := Distinct(ids[..last]);
      assert ids == ids[..last] + [ids[last]];
      if ids[last] in rest then rest else rest + [ids[last]]
  }

  /** The version a plan expects of a file: as requested, or the known one; 0 and no hash when neither exists. */
  function ExpectedFile(s: State, projectId: Uuid, fileId: Uuid, revisions: map<Uuid, int>, hashes: map<Uuid, string>): FilePlan {
    var known := EvidenceOf(s, projectId, fileId);
    FilePlan(fileId,
             if fileId in revisions then revisions[fileId] else if known.Some? then known.value.revision else 0,
             if fileId in hashes then Some(hashes[fileId]) else if known.Some? then Some(known.value.hash) else None)
  }

  /** The file's expected version is missing or differs from the known one. */
  predicate Doubtful(s: State, projectId: Uuid, file: FilePlan) {
    var known := EvidenceOf(s, projectId, file.fileId);
    || file.expectedRevision == 0
    || file.expectedHash == None
    || (known.Some? && (known.value.revision != file.expectedRevision || Some(known.value.hash) != file.expectedHash))
  }

  function PlanFiles(s: State, projectId: Uuid, ids: seq<Uuid>, revisions: map<Uuid, int>, hashes: map<Uuid, string>): (r: seq<FilePlan>)
    ensures |r| == |ids| && forall i :: 0 <= i < |ids| ==> r[i].fileId == ids[i]
  {
    seq(|ids|, i requires 0 <= i < |ids| => ExpectedFile(s, projectId, ids[i], revisions, hashes))
  }

  /** A preview; other safety warnings (paths, formats, mappings) are an input. */
  function CreatePreview(s: State, projectId: Uuid, fileIds: seq<Uuid>, revisions: map<Uuid, int>, hashes: map<Uuid, string>,
                         inPlace: bool, allOrNothing: bool, otherWarnings: bool, newId: Uuid): (State, Result<Uuid, WriteError>)
  {
    if fileIds == [] then (s, Err(NotConfirmed))
    else
      var files := PlanFiles(s, projectId, Distinct(fileIds), revisions, hashes);
      var canConfirm := !otherWarnings && forall f :: f in files ==> !Doubtful(s, projectId, f);
      (s.(plans := s.plans[newId := Plan(projectId, Preview, canConfirm, inPlace, allOrNothing, files)]), Ok(newId))
  }

  // --- Creating jobs ---------------------------------------------------------------------------

  function NewJob(projectId: Uuid, file: FilePlan, planId: Option<Uuid>, inPlace: bool, allOrNothing: bool,
                  confirmed: bool, safetyEnforced: bool): Job
  {
    Job(projectId, file.fileId, file.expectedRevision, file.expectedHash, JobPending, WriteBackOperation, planId,
        inPlace, allOrNothing, confirmed, safetyEnforced, None, 0, "")
  }

  /** Adds the job; a safety-enforced one must be confirmed and takes the file's lock. */
  function CreateJob(s: State, job: Job, newId: Uuid): (State, Result<Uuid, WriteError>) {
    if job.safetyEnforced && !job.confirmed then (s, Err(NotConfirmed))
    else if job.safetyEnforced && job.fileId in s.locks then (s, Err(WriteConflict))
    else
      (s.(jobs := s.jobs[newId := job], locks := if job.safetyEnforced then s.locks[job.fileId := newId] else s.locks), Ok(newId))
  }

  /** The jobs of the first n files of a plan; stops at the first lock it cannot take, and says how many it made. */
  function CreateJobs(s: State, planId: Uuid, plan: Plan, newIds: seq<Uuid>, n: nat): (State, nat)
    requires n <= |plan.files| == |newIds|
  {
    if n == 0 then (s, 0)
    else
      var (s', made) := CreateJobs(s, planId, plan, newIds, n - 1);
      if made < n - 1 then (s', made)
      else
        var (s'', r) := CreateJob(s', NewJob(plan.projectId, plan.files[n - 1], Some(planId), plan.inPlace, plan.allOrNothing, true, true), newIds[n - 1]);
        if r.Ok? then (s'', n) else (s', made)
  }

  // --- Ending jobs -----------------------------------------------------------------------------

  /** The lock on f is held by one of the jobs, for that very file. */
  predicate HeldBy(s: State, f: Uuid, js: set<Uuid>) {
    f in s.locks && s.locks[f] in js && s.locks[f] in s.jobs && s.jobs[s.locks[f]].fileId == f
  }

  /** Gives the jobs a status and releases the locks they hold. */
  function Stop(s: State, js: set<Uuid>, status: JobStatus): State {
    s.(jobs := map j | j in s.jobs :: if j in js then s.jobs[j].(status := status) else s.jobs[j],
       locks := map f | f in s.locks && !HeldBy(s, f, js) :: s.locks[f])
  }

  predicate OfPlan(s: State, j: Uuid, planId: Uuid) {
    j in s.jobs && s.jobs[j].planId == Some(planId)
  }

  predicate Broken(job: Job) {
    job.status == JobFailed || job.status == JobConflict
  }

  predicate SomeBroken(s: State, planId: Uuid) {
    exists j :: j in s.jobs && OfPlan(s, j, planId) && Broken(s.jobs[j])
  }

  predicate SomeJob(s: State, planId: Uuid) {
    exists j :: j in s.jobs && OfPlan(s, j, planId)
  }

  predicate AllApplied(s: State, planId: Uuid) {
    forall j :: j in s.jobs && OfPlan(s, j, planId) ==> s.jobs[j].status == JobApplied
  }

  function RefreshedStatus(s: State, planId: Uuid, status: PlanStatus): PlanStatus {
    if SomeBroken(s, planId) then PlanFailed
    else if SomeJob(s, planId) && AllApplied(s, planId) then PlanApplied
    else status
  }

  /** Recomputes the plan's status from its jobs. */
  function Refresh(s: State, planId: Option<Uuid>): State {
    if planId == None || planId.value !in s.plans then s
    else
      var plan := s.plans[planId.value];
      s.(plans := s.plans[planId.value := plan.(status := RefreshedStatus(s, planId.value, plan.status))])
  }

  // --- Executing a plan --------------------------------------------------------------------------

  /** The file is locked, or its known version or its content on disk is not the expected one. */
  predicate Blocked(s: State, projectId: Uuid, file: FilePlan, staleOnDisk: set<Uuid>) {
    var known := EvidenceOf(s, projectId, file.fileId);
    || file.fileId in s.locks
    || known == None || known.value.revision != file.expectedRevision || Some(known.value.hash) != file.expectedHash
    || file.fileId in staleOnDisk
  }

  function SetPlanStatus(s: State, planId: Uuid, status: PlanStatus): State
    requires planId in s.plans
  {
    s.(plans := s.plans[planId := s.plans[planId].(status := status)])
  }

  function Made(newIds: seq<Uuid>, n: nat): set<Uuid>
    requires n <= |newIds|
  {
    set i | 0 <= i < n :: newIds[i]
  }

  function ExecuteError(s: State, projectId: Uuid, planId: Uuid, confirmed: bool): Option<WriteError> {
    if planId !in s.plans || s.plans[planId].projectId != projectId then Some(NotFound)
    else if !confirmed then Some(NotConfirmed)
    else if s.plans[planId].status != Preview then Some(WrongState)
    else if !s.plans[planId].canConfirm then Some(WriteConflict)
    else None
  }

  /** Queues one job per file; should a lock be lost on the way, the jobs made so far are failed again. */
  function Queue(s: State, planId: Uuid, newIds: seq<Uuid>): (State, Result<(), WriteError>)
    requires planId in s.plans && |newIds| == |s.plans[planId].files|
  {
    var (s', made) := CreateJobs(s, planId, s.plans[planId], newIds, |newIds|);
    if made < |newIds| then
      var stopped := Stop(s', Made(newIds, made), JobFailed);
      (stopped.(plans := SetPlanStatus(s, planId, PlanFailed).plans), Err(WriteConflict))
    else (s'.(plans := SetPlanStatus(s, planId, Queued).plans), Ok(()))
  }

  /** Confirms a preview: refused, blocked by a locked or stale file, or queued. */
  function Execute(s: State, projectId: Uuid, planId: Uuid, confirmed: bool, staleOnDisk: set<Uuid>, newIds: seq<Uuid>)
    : (State, Result<(), WriteError>)
    requires planId in s.plans ==> |newIds| == |s.plans[planId].files|
  {
    match ExecuteError(s, projectId, planId, confirmed)
    case Some(e) => (s, Err(e))
    case None =>
      var plan := s.plans[planId];
      if exists file :: file in plan.files && Blocked(s, projectId, file, staleOnDisk) then
        (SetPlanStatus(s, planId, PlanConflict), Err(WriteConflict))
      else Queue(s, planId, newIds)
  }

  // --- Versions and completion ---------------------------------------------------------------------

  /** The revision that carries the hash. */
  function FindHash(versions: seq<Version>, hash: string): (r: Option<nat>)
    ensures r.Some? ==> exists i :: 0 <= i < |versions| && versions[i] == Version(r.value, hash)
    ensures r == None ==> forall i :: 0 <= i < |versions| ==> versions[i].hash != hash
  {
    if versions == [] then None
    else
      var last := |versions| - 1;
      var earlier := FindHash(versions[..last], hash);
      if earlier.Some? then earlier
      else if versions[last].hash == hash then Some(versions[last].revision) else None
  }

  /** Appends a version unless the file already has one with this hash; returns the revision carrying it. */
  function Register(s: State, fileId: Uuid, hash: string): (State, nat) {
    var versions := VersionsOf(s, fileId);
    match FindHash(versions, hash)
    case Some(revision) => (s.(versions := s.versions[fileId := versions]), revision)
    case None => (s.(versions := s.versions[fileId := versions + [Version(|versions| + 1, hash)]]), |versions| + 1)
  }

  function FindJob(s: State, projectId: Uuid, jobId: Uuid): Result<Job, WriteError> {
    if jobId !in s.jobs || s.jobs[jobId].projectId != projectId then Err(NotFound) else Ok(s.jobs[jobId])
  }

  /** What stops a pending job from completing, as the status it ends with; `diskHash` is the source's hash if it is on disk. */
  function Obstacle(s: State, job: Job, sourceHash: string, backup: bool, diskHash: Option<string>): Option<JobStatus> {
    if job.safetyEnforced && (!job.confirmed || (job.planId == None && job.operation != RestoreOperation)) then Some(JobFailed)
    else if job.safetyEnforced && |VersionsOf(s, job.fileId)| != job.expectedRevision then Some(JobConflict)
    else if job.safetyEnforced && diskHash.Some? && diskHash.value != sourceHash then Some(JobConflict)
    else if job.safetyEnforced && job.inPlace && !backup then Some(JobFailed)
    else if job.expectedHash.Some? && job.expectedHash.value != sourceHash then Some(JobConflict)
    else None
  }

  /** The job's result recorded: the version registered, the job applied, its lock released. */
  function ApplyJob(s: State, jobId: Uuid, resultHash: string): State
    requires jobId in s.jobs
  {
    var job := s.jobs[jobId];
    var (s', revision) := Register(s, job.fileId, resultHash);
    s'.(jobs := s.jobs[jobId := job.(status := JobApplied, resultRevision := revision, resultHash := resultHash)],
        locks := Stop(s, {jobId}, JobApplied).locks,
        selfWrites := s.selfWrites + {(job.fileId, resultHash)},
        changesets := ApplyChange(s.changesets, job.changesetId))
  }

  /** The ChangeSet, if there is one, applied, whatever its status was. */
  function ApplyChange(changesets: map<Uuid, RestoreChange>, id: Option<Uuid>): map<Uuid, RestoreChange> {
    if id.Some? && id.value in changesets
    then changesets[id.value := changesets[id.value].(status := ChangeApplied)]
    else changesets
  }

  /** Ends a pending job: stopped by an obstacle, or applied. */
  function Finish(s: State, jobId: Uuid, sourceHash: string, resultHash: string, backup: bool, diskHash: Option<string>)
    : (State, Result<(), WriteError>)
    requires jobId in s.jobs
  {
    var job := s.jobs[jobId];
    match Obstacle(s, job, sourceHash, backup, diskHash)
    case Some(status) => (Refresh(Stop(s, {jobId}, status), job.planId), Err(WriteConflict))
    case None => (Refresh(ApplyJob(s, jobId, resultHash), job.planId), Ok(()))
  }

  function Complete(s: State, projectId: Uuid, jobId: Uuid, sourceHash: string, resultHash: string, backup: bool, diskHash: Option<string>)
    : (State, Result<(), WriteError>)
  {
    match FindJob(s, projectId, jobId)
    case Err(e) => (s, Err(e))
    case Ok(job) =>
      if job.status == JobApplied then (s, Ok(()))
      else if job.status != JobPending then (s, Err(WrongState))
      else Finish(s, jobId, sourceHash, resultHash, backup, diskHash)
  }

  function PendingOf(s: State, planId: Uuid): set<Uuid> {
    set j | j in s.jobs && OfPlan(s, j, planId) && s.jobs[j].status == JobPending
  }

  /** The jobs a failure stops: the job, and in an all-or-nothing plan its pending siblings. */
  function Failing(s: State, jobId: Uuid): set<Uuid>
    requires jobId in s.jobs
  {
    var job := s.jobs[jobId];
    if job.allOrNothing && job.planId.Some?
    then {jobId} + PendingOf(s, job.planId.value)
    else {jobId}
  }

  function Fail(s: State, projectId: Uuid, jobId: Uuid): (State, Result<(), WriteError>) {
    match FindJob(s, projectId, jobId)
    case Err(e) => (s, Err(e))
    case Ok(job) =>
      if job.status == JobApplied then (s, Err(WrongState))
      else (Refresh(Stop(s, Failing(s, jobId), JobFailed), job.planId), Ok(()))
  }

  /** The first version with the revision. */
  function FindRevision(versions: seq<Version>, revision: nat): (r: Option<Version>)
    ensures r.Some? ==> r.value in versions && r.value.revision == revision
    ensures r == None ==> forall i :: 0 <= i < |versions| ==> versions[i].revision != revision
  {
    if versions == [] then None
    else
      var last := |versions| - 1;
      var earlier := FindRevision(versions[..last], revision);
      if earlier.Some? then earlier
      else if versions[last].revision == revision then Some(versions[last]) else None
  }

  /** A job that writes an old version back, planless but confirmed and safety-enforced, and its ChangeSet. */
  function CreateRestore(s: State, projectId: Uuid, fileId: Uuid, target: nat, expectedRevision: int, changeId: Uuid, newId: Uuid)
    : (State, Result<Uuid, WriteError>)
  {
    var versions := VersionsOf(s, fileId);
    match FindRevision(versions, target)
    case None => (s, Err(NotFound))
    case Some(version) =>
      if |versions| != expectedRevision || fileId in s.locks then (s, Err(WriteConflict))
      else
        var job := Job(projectId, fileId, expectedRevision, Some(versions[|versions| - 1].hash), JobPending, RestoreOperation,
                       None, true, false, true, true, Some(changeId), 0, "");
        (s.(jobs := s.jobs[newId := job], locks := s.locks[fileId := newId],
            changesets := s.changesets[changeId := RestoreChange(projectId, fileId, expectedRevision, version, ChangePending)]), Ok(newId))
  }

  // --- A restore's ChangeSet -------------------------------------------------------------------------

  function SetChange(s: State, id: Uuid, status: ChangeStatus): State
    requires id in s.changesets
  {
    s.(changesets := s.changesets[id := s.changesets[id].(status := status)])
  }

  /** Sends the ChangeSet to review from whatever status it has. */
  function ReviewChange(s: State, projectId: Uuid, id: Uuid): (State, Result<(), WriteError>) {
    if id !in s.changesets || s.changesets[id].projectId != projectId then (s, Err(NotFound))
    else (SetChange(s, id, ChangeInReview), Ok(()))
  }

  /** Approving it meets a conflict: the entity it names is new, and so has no revision. */
  function ApproveChange(s: State, projectId: Uuid, id: Uuid): (State, Result<(), WriteError>) {
    if id !in s.changesets || s.changesets[id].projectId != projectId then (s, Err(NotFound))
    else if s.changesets[id].status != ChangePending then (s, Err(WrongState))
    else (SetChange(s, id, ChangeConflict), Err(WriteConflict))
  }
}
