/** The desktop's job queue: two tables as maps, each queue operation as one atomic step. */
module JobQueue {
  import opened Prelude

  datatype Status = Pending | Processing | Retry | Done | Failed | Cancelled

  datatype Row = Row(key: string, createdAt: string, payload: string, status: Status, progress: int, phase: string, cancelRequested: bool)

  datatype Attempt = Attempt(attempts: int, nextRetryAt: int, lastError: Option<string>)

  datatype State = State(jobs: map<string, Row>, attempts: map<string, Attempt>)

  const EMPTY := State(map[], map[])

  /** A unique or foreign key was violated. */
  datatype QueueError = ConstraintFailed

  // --- The order rows are claimed in ------------------------------------------------------------

  /** The order of text, character by character. */
  predicate TextLess(a: string, b: string) {
    b != "" && (a == "" || a[0] < b[0] || (a[0] == b[0] && TextLess(a[1..], b[1..])))
  }

  lemma {:induction false} TextLessIsTotal(a: string, b: string)
    ensures a == b || TextLess(a, b) || TextLess(b, a)
    ensures !(TextLess(a, b) && TextLess(b, a))
    ensures a == b ==> !TextLess(a, b)
  {
    if a == "" || b == "" || a[0] != b[0] {
    } else {
      TextLessIsTotal(a[1..], b[1..]);
      assert a == [a[0]] + a[1..] && b == [b[0]] + b[1..];
    }
  }

  lemma {:induction false} TextLessIsTransitive(a: string, b: string, c: string)
    requires TextLess(a, b) && TextLess(b, c)
    ensures TextLess(a, c)
  {
    if a == "" || a[0] != b[0] || b[0] != c[0] {
    } else {
      TextLessIsTransitive(a[1..], b[1..], c[1..]);
    }
  }

  /** They agree up to k, where b goes on with a later character or a has ended. */
  predicate DiffersAt(a: string, b: string, k: nat) {
    k <= |a| && k < |b| && a[..k] == b[..k] && (k == |a| || a[k] < b[k])
  }

  /** Text is less exactly if it is a shorter beginning or has the smaller character where they first differ. */
  lemma {:induction false} TextLessIff(a: string, b: string)
    ensures TextLess(a, b) <==> exists k: nat :: DiffersAt(a, b, k)
  {
    if b == "" {
    } else if a == "" || a[0] < b[0] {
      assert DiffersAt(a, b, 0);
    } else if a[0] > b[0] {
      forall k: nat ensures !DiffersAt(a, b, k) {
        if 0 < k <= |a| && k < |b| {
          assert a[..k][0] != b[..k][0];
        }
      }
    } else {
      TextLessIff(a[1..], b[1..]);
      if k: nat :| DiffersAt(a[1..], b[1..], k) {
        LaterDiffers(a, b, k);
      }
      if k: nat :| DiffersAt(a, b, k) {
        SoonerDiffers(a, b, k);
      }
    }
  }

  lemma LaterDiffers(a: string, b: string, k: nat)
    requires a != "" && b != "" && a[0] == b[0] && DiffersAt(a[1..], b[1..], k)
    ensures DiffersAt(a, b, k + 1)
  {
    assert a[..k + 1] == [a[0]] + a[1..][..k] && b[..k + 1] == [b[0]] + b[1..][..k];
  }

  lemma SoonerDiffers(a: string, b: string, k: nat)
    requires a != "" && b != "" && a[0] == b[0] && DiffersAt(a, b, k)
    ensures k > 0 && DiffersAt(a[1..], b[1..], k - 1)
  {
    assert a[1..][..k - 1] == a[..k][1..] && b[1..][..k - 1] == b[..k][1..];
  }

  /** By creation time, then by id. */
  predicate Earlier(s: State, j: string, k: string)
    requires j in s.jobs && k in s.jobs
  {
    TextLess(s.jobs[j].createdAt, s.jobs[k].createdAt) || (s.jobs[j].createdAt == s.jobs[k].createdAt && TextLess(j, k))
  }

  lemma EarlierIsTotal(s: State, j: string, k: string)
    requires j in s.jobs && k in s.jobs
    ensures j == k || Earlier(s, j, k) || Earlier(s, k, j)
    ensures !(Earlier(s, j, k) && Earlier(s, k, j))
  {
    TextLessIsTotal(s.jobs[j].createdAt, s.jobs[k].createdAt);
    TextLessIsTotal(j, k);
  }

  lemma EarlierIsTransitive(s: State, j: string, k: string, l: string)
    requires j in s.jobs && k in s.jobs && l in s.jobs && Earlier(s, j, k) && Earlier(s, k, l)
    ensures Earlier(s, j, l)
  {
    var a, b, c := s.jobs[j].createdAt, s.jobs[k].createdAt, s.jobs[l].createdAt;
    if TextLess(a, b) && TextLess(b, c) {
      TextLessIsTransitive(a, b, c);
    }
    if TextLess(j, k) && TextLess(k, l) {
      TextLessIsTransitive(j, k, l);
    }
  }

  predicate IsFirst(s: State, ids: set<string>, j: string)
    requires ids <= s.jobs.Keys
  {
    j in ids && forall k :: k in ids && k != j ==> Earlier(s, j, k)
  }

  lemma {:induction false} FirstExists(s: State, ids: set<string>)
    requires ids <= s.jobs.Keys && ids != {}
    ensures exists j :: IsFirst(s, ids, j)
    decreases |ids|
  {
    var k :| k in ids;
    var rest := ids - {k};
    if rest == {} {
      assert ids == {k};
      assert IsFirst(s, ids, k);
    } else {
      FirstExists(s, rest);
      var j :| IsFirst(s, rest, j);
      EarlierIsTotal(s, j, k);
      if Earlier(s, j, k) {
        assert IsFirst(s, ids, j);
      } else {
        forall l | l in rest && l != j ensures Earlier(s, k, l) {
          EarlierIsTransitive(s, k, j, l);
        }
        assert IsFirst(s, ids, k);
      }
    }
  }

  lemma FirstIsUnique(s: State, ids: set<string>, j: string, k: string)
    requires ids <= s.jobs.Keys && IsFirst(s, ids, j) && IsFirst(s, ids, k)
    ensures j == k
  {
    EarlierIsTotal(s, j, k);
  }

  ghost function First(s: State, ids: set<string>): (j: string)
    requires ids <= s.jobs.Keys && ids != {}
    ensures IsFirst(s, ids, j)
  {
    FirstExists(s, ids);
    var j :| IsFirst(s, ids, j);
    j
  }

  /** The ids in the order they are claimed. */
  ghost function Sorted(s: State, ids: set<string>): seq<string>
    requires ids <= s.jobs.Keys
    decreases |ids|
  {
    if ids == {} then [] else [First(s, ids)] + Sorted(s, ids - {First(s, ids)})
  }

  lemma {:induction false} SortedHasTheIds(s: State, ids: set<string>)
    requires ids <= s.jobs.Keys
    ensures |Sorted(s, ids)| == |ids| && forall x :: x in Sorted(s, ids) <==> x in ids
    decreases |ids|
  {
    if ids == {} {
    } else {
      SortedHasTheIds(s, ids - {First(s, ids)});
    }
  }

  lemma {:induction false} SortedIsOrdered(s: State, ids: set<string>, m: nat, n: nat)
    requires ids <= s.jobs.Keys && m < n < |Sorted(s, ids)|
    ensures var j, k := Sorted(s, ids)[m], Sorted(s, ids)[n];
            && j in s.jobs && k in s.jobs
            && (TextLess(s.jobs[j].createdAt, s.jobs[k].createdAt) || (s.jobs[j].createdAt == s.jobs[k].createdAt && TextLess(j, k)))
    decreases |ids|
  {
    var rest := ids - {First(s, ids)};
    SortedHasTheIds(s, rest);
    if m == 0 {
      assert Sorted(s, ids)[n] == Sorted(s, rest)[n - 1];
      assert Sorted(s, ids)[n] in rest;
    } else {
      SortedIsOrdered(s, rest, m - 1, n - 1);
    }
  }

  // --- Reading ------------------------------------------------------------------------------------

  function AttemptsOf(s: State, id: string): int {
    if id in s.attempts then s.attempts[id].attempts else 0
  }

  function NextRetryAt(s: State, id: string): int {
    if id in s.attempts then s.attempts[id].nextRetryAt else 0
  }

  predicate Claimable(status: Status) {
    status == Pending || status == Retry
  }

  function Eligible(s: State, now: int): set<string> {
    set j | j in s.jobs && Claimable(s.jobs[j].status) && NextRetryAt(s, j) <= now
  }

  predicate HasKey(s: State, key: string) {
    exists j :: j in s.jobs && s.jobs[j].key == key
  }

  // --- Steps --------------------------------------------------------------------------------------

  function NewRow(key: string, createdAt: string, payload: string): Row {
    Row(key, createdAt, payload, Pending, 0, "QUEUED", false)
  }

  /** Inserts a row unless its id or key is taken; says whether it did. */
  ghost function Insert(s: State, id: string, key: string, createdAt: string, payload: string): (State, bool) {
    if id in s.jobs || HasKey(s, key) then (s, false)
    else (s.(jobs := s.jobs[id := NewRow(key, createdAt, payload)]), true)
  }

  function ClaimedRow(row: Row): Row {
    row.(status := Processing, phase := if row.progress > 0 then row.phase else "CLAIMED")
  }

  function SetRow(s: State, id: string, row: Row): State {
    s.(jobs := s.jobs[id := row])
  }

  ghost function ClaimNext(s: State, now: int): (State, Option<string>) {
    if Eligible(s, now) == {} then (s, None)
    else
      var id := First(s, Eligible(s, now));
      (SetRow(s, id, ClaimedRow(s.jobs[id])), Some(id))
  }

  /** At most n claims, stopping when nothing is left to claim. */
  ghost function ClaimMany(s: State, now: int, n: nat): (State, seq<string>) {
    if n == 0 then (s, [])
    else
      var (s', ids) := ClaimMany(s, now, n - 1);
      if |ids| < n - 1 then (s', ids)
      else
        var (s'', id) := ClaimNext(s', now);
        if id.Some? then (s'', ids + [id.value]) else (s', ids)
  }

  function Complete(s: State, id: string): (State, bool) {
    if id in s.jobs && s.jobs[id].status == Processing
    then (SetRow(s, id, s.jobs[id].(status := Done, progress := 100, phase := "DONE")), true)
    else (s, false)
  }

  /** Counts a failure of the job, whatever its status; it may be retried until `maxAttempts` failures are counted. */
  function RecordFailure(s: State, id: string, error: string, nextRetryAt: int, maxAttempts: int): (State, Result<bool, QueueError>) {
    if id !in s.jobs then (s, Err(ConstraintFailed))
    else
      var attempts := AttemptsOf(s, id) + 1;
      var again := attempts < maxAttempts;
      (State(s.jobs[id := s.jobs[id].(status := if again then Retry else Failed, phase := if again then "RETRY" else "FAILED")],
             s.attempts[id := Attempt(attempts, nextRetryAt, Some(error))]), Ok(again))
  }

  predicate Active(status: Status) {
    Claimable(status) || status == Processing
  }

  function Cancel(s: State, id: string): (State, bool) {
    if id in s.jobs && Active(s.jobs[id].status) then
      var row := s.jobs[id];
      (SetRow(s, id, row.(cancelRequested := true, status := if Claimable(row.status) then Cancelled else row.status, phase := "CANCELLED")), true)
    else (s, false)
  }

  function ResolveFailure(s: State, id: string): (State, bool) {
    if id in s.jobs && Active(s.jobs[id].status)
    then (SetRow(s, id, s.jobs[id].(status := Cancelled, phase := "RESOLVED", cancelRequested := true)), true)
    else (s, false)
  }

  function Clamp(progress: int): int {
    if progress < 0 then 0 else if progress > 100 then 100 else progress
  }

  function UpdateProgress(s: State, id: string, progress: int, phase: string): (State, bool) {
    if id in s.jobs then (SetRow(s, id, s.jobs[id].(progress := Clamp(progress), phase := phase)), true) else (s, false)
  }

  /** Queues a scan, resolving an earlier failure of the same path; nothing for a file the program wrote itself. */
  ghost function EnqueueScan(s: State, id: string, failureId: string, createdAt: string, payload: string, selfWrite: bool): (State, bool) {
    if selfWrite then (s, false) else Insert(ResolveFailure(s, failureId).0, id, id, createdAt, payload)
  }

  /** Records a failure of a path under its own job, made on the first one; three failures are allowed. */
  ghost function EnqueueFailure(s: State, id: string, createdAt: string, payload: string, error: string): (State, Result<bool, QueueError>) {
    var (s', inserted) := Insert(s, id, id, createdAt, payload);
    var (s'', r) := RecordFailure(s', id, error, 0, 3);
    (s'', if r.Ok? then Ok(inserted) else Err(ConstraintFailed))
  }

  ghost function IdOfKey(s: State, key: string): (id: string)
    requires HasKey(s, key)
    ensures id in s.jobs && s.jobs[id].key == key
  {
    var j :| j in s.jobs && s.jobs[j].key == key;
    j
  }

  function Requeued(s: State, id: string, createdAt: string, payload: string): State
    requires id in s.jobs
  {
    State(s.jobs[id := s.jobs[id].(payload := payload, status := Pending, phase := "QUEUED", progress := 0, cancelRequested := false, createdAt := createdAt)],
          if id in s.attempts then s.attempts[id := Attempt(0, 0, None)] else s.attempts)
  }

  /** Queues a scan afresh: the row with the key starts over, or a new one is made. */
  ghost function Requeue(s: State, key: string, createdAt: string, payload: string, selfWrite: bool): (State, Result<bool, QueueError>) {
    if selfWrite then (s, Ok(false))
    else if HasKey(s, key) then (Requeued(s, IdOfKey(s, key), createdAt, payload), Ok(true))
    else
      var (s', inserted) := Insert(s, key, key, createdAt, payload);
      (s', if inserted then Ok(true) else Err(ConstraintFailed))
  }

  datatype Step =
    | EnqueueJob(id: string, key: string, createdAt: string, payload: string)
    | EnqueueFileScan(id: string, failureId: string, createdAt: string, payload: string, selfWrite: bool)
    | EnqueueFileFailure(id: string, createdAt: string, payload: string, error: string)
    | Claim(now: int)
    | CompleteJob(id: string)
    | FailJob(id: string, error: string, nextRetryAt: int, maxAttempts: int)
    | CancelJob(id: string)
    | ResolveFileFailure(id: string)
    | Progress(id: string, progress: int, phase: string)
    | RequeueScan(key: string, createdAt: string, payload: string, selfWrite: bool)

  ghost function Next(s: State, step: Step): State {
    match step
    case EnqueueJob(id, key, createdAt, payload) => Insert(s, id, key, createdAt, payload).0
    case EnqueueFileScan(id, failureId, createdAt, payload, selfWrite) => EnqueueScan(s, id, failureId, createdAt, payload, selfWrite).0
    case EnqueueFileFailure(id, createdAt, payload, error) => EnqueueFailure(s, id, createdAt, payload, error).0
    case Claim(now) => ClaimNext(s, now).0
    case CompleteJob(id) => Complete(s, id).0
    case FailJob(id, error, nextRetryAt, maxAttempts) => RecordFailure(s, id, error, nextRetryAt, maxAttempts).0
    case CancelJob(id) => Cancel(s, id).0
    case ResolveFileFailure(id) => ResolveFailure(s, id).0
    case Progress(id, progress, phase) => UpdateProgress(s, id, progress, phase).0
    case RequeueScan(key, createdAt, payload, selfWrite) => Requeue(s, key, createdAt, payload, selfWrite).0
  }

  // --- What every step keeps ------------------------------------------------------------------------

  /** Keys are unique, attempts belong to jobs, and a pending job has a clean record. */
  ghost predicate Inv(s: State) {
    && (forall j, k :: j in s.jobs && k in s.jobs && s.jobs[j].key == s.jobs[k].key ==> j == k)
    && s.attempts.Keys <= s.jobs.Keys
    && (forall j :: j in s.attempts ==> s.attempts[j].attempts >= 0)
    && (forall j :: j in s.jobs && s.jobs[j].status == Pending ==> AttemptsOf(s, j) == 0 && NextRetryAt(s, j) == 0)
    && (forall j :: j in s.jobs ==> 0 <= s.jobs[j].progress <= 100)
  }

  lemma SetRowKeepsInv(s: State, id: string, row: Row)
    requires Inv(s) && id in s.jobs && row.key == s.jobs[id].key && 0 <= row.progress <= 100
    requires row.status == Pending ==> s.jobs[id].status == Pending
    ensures Inv(SetRow(s, id, row))
  {
  }

  lemma InsertKeepsInv(s: State, id: string, key: string, createdAt: string, payload: string)
    requires Inv(s)
    ensures Inv(Insert(s, id, key, createdAt, payload).0)
  {
  }

  lemma FailureKeepsInv(s: State, id: string, error: string, nextRetryAt: int, maxAttempts: int)
    requires Inv(s)
    ensures Inv(RecordFailure(s, id, error, nextRetryAt, maxAttempts).0)
  {
  }

  lemma RequeueKeepsInv(s: State, key: string, createdAt: string, payload: string, selfWrite: bool)
    requires Inv(s)
    ensures Inv(Requeue(s, key, createdAt, payload, selfWrite).0)
  {
    InsertKeepsInv(s, key, key, createdAt, payload);
  }

  lemma StepKeepsInv(s: State, step: Step)
    requires Inv(s)
    ensures Inv(Next(s, step))
  {
    match step
    case EnqueueJob(id, key, createdAt, payload) => InsertKeepsInv(s, id, key, createdAt, payload);
    case EnqueueFileScan(id, failureId, createdAt, payload, _) =>
      if failureId in s.jobs && Active(s.jobs[failureId].status) {
        SetRowKeepsInv(s, failureId, ResolveFailure(s, failureId).0.jobs[failureId]);
      }
      InsertKeepsInv(ResolveFailure(s, failureId).0, id, id, createdAt, payload);
    case EnqueueFileFailure(id, createdAt, payload, error) =>
      InsertKeepsInv(s, id, id, createdAt, payload);
      FailureKeepsInv(Insert(s, id, id, createdAt, payload).0, id, error, 0, 3);
    case Claim(now) =>
      if Eligible(s, now) != {} {
        var id := First(s, Eligible(s, now));
        SetRowKeepsInv(s, id, ClaimedRow(s.jobs[id]));
      }
    case FailJob(id, error, nextRetryAt, maxAttempts) => FailureKeepsInv(s, id, error, nextRetryAt, maxAttempts);
    case RequeueScan(key, createdAt, payload, selfWrite) => RequeueKeepsInv(s, key, createdAt, payload, selfWrite);
    case CompleteJob(id) =>
      if id in s.jobs {
        SetRowKeepsInv(s, id, s.jobs[id].(status := Done, progress := 100, phase := "DONE"));
      }
    case CancelJob(id) =>
      if id in s.jobs && Active(s.jobs[id].status) {
        SetRowKeepsInv(s, id, Cancel(s, id).0.jobs[id]);
      }
    case ResolveFileFailure(id) =>
      if id in s.jobs && Active(s.jobs[id].status) {
        SetRowKeepsInv(s, id, ResolveFailure(s, id).0.jobs[id]);
      }
    case Progress(id, progress, phase) =>
      if id in s.jobs {
        SetRowKeepsInv(s, id, s.jobs[id].(progress := Clamp(progress), phase := phase));
      }
  }

  ghost predicate Behaviour(states: seq<State>, steps: seq<Step>) {
    && |states| == |steps| + 1
    && states[0] == EMPTY
    && forall i :: 0 <= i < |steps| ==> states[i + 1] == Next(states[i], steps[i])
  }

  lemma StepKeepsJobs(s: State, step: Step)
    ensures s.jobs.Keys <= Next(s, step).jobs.Keys
  {
  }

  /** In every reachable state the tables are sound, and no job is ever lost. */
  lemma {:induction false} BehaviourKeepsInv(states: seq<State>, steps: seq<Step>, m: nat, n: nat)
    requires Behaviour(states, steps) && m <= n <= |steps|
    ensures Inv(states[n]) && states[m].jobs.Keys <= states[n].jobs.Keys
    decreases n
  {
    if n == 0 {
    } else {
      BehaviourKeepsInv(states, steps, if m < n then m else n - 1, n - 1);
      StepKeepsInv(states[n - 1], steps[n - 1]);
      StepKeepsJobs(states[n - 1], steps[n - 1]);
    }
  }

  // --- Claims are first come, first served -------------------------------------------------------------

  /** s' is s with exactly the given jobs claimed. */
  ghost predicate OnlyClaims(s: State, s': State, ids: seq<string>) {
    && s'.attempts == s.attempts && s'.jobs.Keys == s.jobs.Keys
    && forall j :: j in s.jobs ==> s'.jobs[j] == if j in ids then ClaimedRow(s.jobs[j]) else s.jobs[j]
  }

  lemma SortedNext(s: State, ids: set<string>, m: nat)
    requires ids <= s.jobs.Keys && m < |Sorted(s, ids)|
    ensures IsFirst(s, ids - Elements(Sorted(s, ids)[..m]), Sorted(s, ids)[m])
  {
    var sorted := Sorted(s, ids);
    var rest := ids - Elements(sorted[..m]);
    SortedHasTheIds(s, ids);
    assert sorted[m] in ids && sorted[m] !in sorted[..m] by {
      forall i | 0 <= i < m ensures sorted[i] != sorted[m] {
        SortedIsOrdered(s, ids, i, m);
        EarlierIsTotal(s, sorted[i], sorted[m]);
      }
    }
    forall i | 0 <= i < m ensures sorted[i] in sorted[..m] {
      assert sorted[..m][i] == sorted[i];
    }
    forall k | k in rest && k != sorted[m] ensures Earlier(s, sorted[m], k) {
      var i :| 0 <= i < |sorted| && sorted[i] == k;
      SortedIsOrdered(s, ids, m, i);
    }
  }

  function Elements(ids: seq<string>): set<string> {
    set x | x in ids
  }

  lemma EligibleAfterClaims(s: State, s': State, ids: seq<string>, now: int)
    requires OnlyClaims(s, s', ids)
    ensures Eligible(s', now) == Eligible(s, now) - Elements(ids)
  {
    assert forall j :: NextRetryAt(s', j) == NextRetryAt(s, j);
  }

  lemma SameOrder(s: State, s': State, claimed: seq<string>, ids: set<string>, j: string)
    requires OnlyClaims(s, s', claimed) && ids <= s.jobs.Keys && IsFirst(s, ids, j)
    ensures IsFirst(s', ids, j)
  {
    forall k | k in ids && k != j ensures Earlier(s', j, k) {
      assert Earlier(s, j, k);
    }
  }

  lemma OneMoreClaim(s: State, s': State, ids: seq<string>, id: string, s'': State)
    requires OnlyClaims(s, s', ids) && id in s.jobs && id !in ids && s'' == SetRow(s', id, ClaimedRow(s'.jobs[id]))
    ensures OnlyClaims(s, s'', ids + [id])
  {
  }

  function UpTo(ids: seq<string>, n: nat): seq<string> {
    if n < |ids| then ids[..n] else ids
  }

  lemma UpToNext(ids: seq<string>, n: nat)
    ensures UpTo(ids, n + 1) == if n < |ids| then UpTo(ids, n) + [ids[n]] else UpTo(ids, n)
  {
  }

  /** With the first m of the order claimed, the next claim takes the one after, if there is one. */
  lemma NextInOrder(s: State, s': State, now: int, sorted: seq<string>, m: nat)
    requires sorted == Sorted(s, Eligible(s, now)) && OnlyClaims(s, s', UpTo(sorted, m))
    ensures var (s'', id) := ClaimNext(s', now);
            if m < |sorted| then id == Some(sorted[m]) && OnlyClaims(s, s'', UpTo(sorted, m + 1)) else id == None
  {
    var eligible, left := Eligible(s, now), Eligible(s', now);
    EligibleAfterClaims(s, s', UpTo(sorted, m), now);
    SortedHasTheIds(s, eligible);
    if m < |sorted| {
      SortedNext(s, eligible, m);
      SameOrder(s, s', sorted[..m], left, sorted[m]);
      FirstIsUnique(s', left, First(s', left), sorted[m]);
      OneMoreClaim(s, s', sorted[..m], sorted[m], ClaimNext(s', now).0);
      UpToNext(sorted, m);
    } else {
      assert left == {};
    }
  }

  lemma ManyThenOne(s: State, now: int, n: nat)
    requires n > 0
    ensures var (s', ids) := ClaimMany(s, now, n - 1);
            var (s'', id) := ClaimNext(s', now);
            ClaimMany(s, now, n) == if |ids| == n - 1 && id.Some? then (s'', ids + [id.value]) else (s', ids)
  {
    AtMostAsAsked(s, now, n - 1);
  }

  lemma {:induction false} AtMostAsAsked(s: State, now: int, n: nat)
    ensures |ClaimMany(s, now, n).1| <= n
  {
    if n == 0 {
    } else {
      AtMostAsAsked(s, now, n - 1);
    }
  }

  lemma OneMoreInOrder(s: State, now: int, sorted: seq<string>, n: nat)
    requires n > 0 && sorted == Sorted(s, Eligible(s, now)) && ClaimMany(s, now, n - 1).1 == UpTo(sorted, n - 1)
    requires OnlyClaims(s, ClaimMany(s, now, n - 1).0, UpTo(sorted, n - 1))
    ensures ClaimMany(s, now, n).1 == UpTo(sorted, n) && OnlyClaims(s, ClaimMany(s, now, n).0, UpTo(sorted, n))
  {
    ManyThenOne(s, now, n);
    UpToNext(sorted, n - 1);
    NextInOrder(s, ClaimMany(s, now, n - 1).0, now, sorted, n - 1);
  }

  /** Claiming n times takes the first n eligible jobs in order of creation and id, or all of them, and changes nothing else. */
  lemma {:induction false} ClaimsInOrder(s: State, now: int, sorted: seq<string>, n: nat)
    requires sorted == Sorted(s, Eligible(s, now))
    ensures ClaimMany(s, now, n).1 == UpTo(sorted, n)
    ensures OnlyClaims(s, ClaimMany(s, now, n).0, UpTo(sorted, n))
  {
    if n == 0 {
    } else {
      ClaimsInOrder(s, now, sorted, n - 1);
      OneMoreInOrder(s, now, sorted, n);
    }
  }

  // --- Claims of one job ----------------------------------------------------------------------------------

  ghost function Claimed(s: State, step: Step): Option<string> {
    if step.Claim? then ClaimNext(s, step.now).1 else None
  }

  predicate Fails(step: Step, j: string) {
    (step.FailJob? || step.EnqueueFileFailure?) && step.id == j
  }

  function AllowedAttempts(step: Step): int
    requires step.FailJob? || step.EnqueueFileFailure?
  {
    if step.FailJob? then step.maxAttempts else 3
  }

  ghost predicate Requeues(s: State, step: Step, j: string) {
    step.RequeueScan? && !step.selfWrite && HasKey(s, step.key) && IdOfKey(s, step.key) == j
  }

  /** A job that cannot be claimed becomes claimable by a failure short of its limit or by a requeue, and by nothing else:
      so also a finished, failed or cancelled one. */
  lemma RevivedIff(s: State, step: Step, j: string)
    requires j in s.jobs && !Claimable(s.jobs[j].status)
    ensures j in Next(s, step).jobs
    ensures Claimable(Next(s, step).jobs[j].status)
       <==> (Fails(step, j) && AttemptsOf(s, j) + 1 < AllowedAttempts(step)) || Requeues(s, step, j)
  {
  }

  lemma {:induction false} StaysUnclaimable(states: seq<State>, steps: seq<Step>, j: string, m: nat, n: nat)
    requires Behaviour(states, steps) && m <= n <= |steps|
    requires j in states[m].jobs && !Claimable(states[m].jobs[j].status)
    requires forall i :: m <= i < n ==> !Fails(steps[i], j) && !Requeues(states[i], steps[i], j)
    ensures j in states[n].jobs && !Claimable(states[n].jobs[j].status)
    decreases n
  {
    if m == n {
    } else {
      StaysUnclaimable(states, steps, j, m, n - 1);
      RevivedIff(states[n - 1], steps[n - 1], j);
    }
  }

  /** Two claims of one job are separated by a recorded failure or a requeue of it. */
  lemma ClaimsAreSeparated(states: seq<State>, steps: seq<Step>, j: string, m: nat, n: nat)
    requires Behaviour(states, steps) && m < n < |steps|
    requires Claimed(states[m], steps[m]) == Some(j) && Claimed(states[n], steps[n]) == Some(j)
    ensures exists i :: m < i < n && (Fails(steps[i], j) || Requeues(states[i], steps[i], j))
  {
    if forall i :: m < i < n ==> !Fails(steps[i], j) && !Requeues(states[i], steps[i], j) {
      StaysUnclaimable(states, steps, j, m + 1, n);
    }
  }

  ghost function Claims(states: seq<State>, steps: seq<Step>, j: string, n: nat): nat
    requires Behaviour(states, steps) && n <= |steps|
  {
    if n == 0 then 0
    else Claims(states, steps, j, n - 1) + if Claimed(states[n - 1], steps[n - 1]) == Some(j) then 1 else 0
  }

  /** No requeue of j, and every failure of it recorded against a limit of at most `limit`. */
  ghost predicate Limited(s: State, step: Step, j: string, limit: int) {
    !Requeues(s, step, j) && (Fails(step, j) ==> AllowedAttempts(step) <= limit)
  }

  /** How many claims the state of j still accounts for. */
  ghost predicate ClaimsFit(s: State, j: string, claims: nat, limit: int) {
    && claims <= limit
    && (j !in s.jobs ==> claims == 0)
    && (j in s.jobs ==> claims <= AttemptsOf(s, j) + (if Claimable(s.jobs[j].status) then 0 else 1))
    && (j in s.jobs && s.jobs[j].status == Retry ==> AttemptsOf(s, j) < limit)
  }

  lemma StepKeepsClaimsFit(s: State, step: Step, j: string, claims: nat, limit: int)
    requires Inv(s) && limit >= 1 && Limited(s, step, j, limit) && ClaimsFit(s, j, claims, limit)
    ensures ClaimsFit(Next(s, step), j, claims + if Claimed(s, step) == Some(j) then 1 else 0, limit)
  {
    if step.Claim? {
      ClaimKeepsClaimsFit(s, step.now, j, claims, limit);
    } else if Fails(step, j) {
      FailureKeepsClaimsFit(s, step, j, claims, limit);
    } else {
      OtherStepUndisturbs(s, step, j);
    }
  }

  /** The job's attempts are the same, and it is claimable only as it was, or as new. */
  predicate Undisturbed(s: State, s': State, j: string) {
    && AttemptsOf(s', j) == AttemptsOf(s, j)
    && (j in s.jobs ==> j in s'.jobs && (Claimable(s'.jobs[j].status) ==> s'.jobs[j].status == s.jobs[j].status))
    && (j !in s.jobs && j in s'.jobs ==> s'.jobs[j].status == Pending)
  }

  lemma InsertUndisturbs(s: State, id: string, key: string, createdAt: string, payload: string, j: string)
    ensures Undisturbed(s, Insert(s, id, key, createdAt, payload).0, j)
  {
  }

  lemma SetRowUndisturbs(s: State, id: string, row: Row, j: string)
    requires id in s.jobs && (Claimable(row.status) ==> row.status == s.jobs[id].status)
    ensures Undisturbed(s, SetRow(s, id, row), j)
  {
  }

  lemma ResolveUndisturbs(s: State, id: string, j: string)
    ensures Undisturbed(s, ResolveFailure(s, id).0, j)
  {
    if id in s.jobs && Active(s.jobs[id].status) {
      SetRowUndisturbs(s, id, ResolveFailure(s, id).0.jobs[id], j);
    }
  }

  lemma FailureUndisturbsOthers(s: State, id: string, error: string, nextRetryAt: int, maxAttempts: int, j: string)
    requires id != j
    ensures Undisturbed(s, RecordFailure(s, id, error, nextRetryAt, maxAttempts).0, j)
  {
  }

  /** Any step but a claim, or a failure or requeue of the job itself. */
  lemma OtherStepUndisturbs(s: State, step: Step, j: string)
    requires !step.Claim? && !Fails(step, j) && !Requeues(s, step, j)
    ensures Undisturbed(s, Next(s, step), j)
  {
    match step
    case EnqueueJob(id, key, createdAt, payload) => InsertUndisturbs(s, id, key, createdAt, payload, j);
    case EnqueueFileScan(id, failureId, createdAt, payload, _) =>
      ResolveUndisturbs(s, failureId, j);
      InsertUndisturbs(ResolveFailure(s, failureId).0, id, id, createdAt, payload, j);
    case EnqueueFileFailure(id, createdAt, payload, error) =>
      InsertUndisturbs(s, id, id, createdAt, payload, j);
      FailureUndisturbsOthers(Insert(s, id, id, createdAt, payload).0, id, error, 0, 3, j);
    case FailJob(id, error, nextRetryAt, maxAttempts) => FailureUndisturbsOthers(s, id, error, nextRetryAt, maxAttempts, j);
    case RequeueScan(key, createdAt, payload, _) => InsertUndisturbs(s, key, key, createdAt, payload, j);
    case ResolveFileFailure(id) => ResolveUndisturbs(s, id, j);
    case _ =>
  }

  lemma ClaimKeepsClaimsFit(s: State, now: int, j: string, claims: nat, limit: int)
    requires Inv(s) && limit >= 1 && ClaimsFit(s, j, claims, limit)
    ensures ClaimsFit(ClaimNext(s, now).0, j, claims + if ClaimNext(s, now).1 == Some(j) then 1 else 0, limit)
  {
  }

  lemma FailureKeepsClaimsFit(s: State, step: Step, j: string, claims: nat, limit: int)
    requires Inv(s) && limit >= 1 && Fails(step, j) && AllowedAttempts(step) <= limit && ClaimsFit(s, j, claims, limit)
    ensures ClaimsFit(Next(s, step), j, claims, limit)
  {
  }

  lemma {:induction false} ClaimsAlwaysFit(states: seq<State>, steps: seq<Step>, j: string, limit: int, n: nat)
    requires Behaviour(states, steps) && n <= |steps| && limit >= 1
    requires forall i :: 0 <= i < n ==> Limited(states[i], steps[i], j, limit)
    ensures ClaimsFit(states[n], j, Claims(states, steps, j, n), limit)
  {
    if n == 0 {
    } else {
      ClaimsAlwaysFit(states, steps, j, limit, n - 1);
      BehaviourKeepsInv(states, steps, n - 1, n - 1);
      StepKeepsClaimsFit(states[n - 1], steps[n - 1], j, Claims(states, steps, j, n - 1), limit);
    }
  }

  /** Without a requeue a job is claimed at most as often as its failures are allowed. */
  lemma ClaimsAreBounded(states: seq<State>, steps: seq<Step>, j: string, limit: int, n: nat)
    requires Behaviour(states, steps) && n <= |steps| && limit >= 1
    requires forall i :: 0 <= i < n ==> Limited(states[i], steps[i], j, limit)
    ensures Claims(states, steps, j, n) <= limit
  {
    ClaimsAlwaysFit(states, steps, j, limit, n);
  }

  // --- What a finished job says ----------------------------------------------------------------------------

  predicate TakenUp(status: Status) {
    status == Processing || status == Done
  }

  lemma TakenUpByClaim(s: State, step: Step, j: string)
    requires j in Next(s, step).jobs && TakenUp(Next(s, step).jobs[j].status)
    ensures Claimed(s, step) == Some(j) || (j in s.jobs && TakenUp(s.jobs[j].status) && !Fails(step, j) && !Requeues(s, step, j))
  {
  }

  /** The k-th step claimed the job, and since then it has neither failed nor been queued again. */
  ghost predicate StandingClaim(states: seq<State>, steps: seq<Step>, j: string, k: nat, n: nat)
    requires Behaviour(states, steps) && k < n <= |steps|
  {
    && Claimed(states[k], steps[k]) == Some(j)
    && forall i :: k < i < n ==> !Fails(steps[i], j) && !Requeues(states[i], steps[i], j)
  }

  lemma ClaimStillStands(states: seq<State>, steps: seq<Step>, j: string, k: nat, n: nat)
    requires Behaviour(states, steps) && k < n - 1 < |steps| && StandingClaim(states, steps, j, k, n - 1)
    requires !Fails(steps[n - 1], j) && !Requeues(states[n - 1], steps[n - 1], j)
    ensures StandingClaim(states, steps, j, k, n)
  {
  }

  /** In every run a job that is processing or done has a claim that still stands. */
  lemma {:induction false} DoneWasClaimed(states: seq<State>, steps: seq<Step>, j: string, n: nat)
    requires Behaviour(states, steps) && n <= |steps|
    requires j in states[n].jobs && TakenUp(states[n].jobs[j].status)
    ensures exists k: nat :: k < n && StandingClaim(states, steps, j, k, n)
  {
    if n == 0 {
      assert false;
    } else {
      TakenUpByClaim(states[n - 1], steps[n - 1], j);
      if Claimed(states[n - 1], steps[n - 1]) == Some(j) {
        assert StandingClaim(states, steps, j, n - 1, n);
      } else {
        DoneWasClaimed(states, steps, j, n - 1);
        var k: nat :| k < n - 1 && StandingClaim(states, steps, j, k, n - 1);
        ClaimStillStands(states, steps, j, k, n);
      }
    }
  }

  // --- A finished job that comes back --------------------------------------------------------------------------

  /** Queued, claimed, completed; then a late failure report, and the next claim. */
  const REVIVED_RUN := [
    EnqueueJob("job", "key", "2024", ""),
    Claim(0),
    CompleteJob("job"),
    FailJob("job", "late", 0, 3),
    Claim(0)
  ]

  function OneJob(status: Status, progress: int, phase: string, attempts: map<string, Attempt>): State {
    State(map["job" := Row("key", "2024", "", status, progress, phase, false)], attempts)
  }

  lemma OnlyJobIsClaimed(s: State)
    requires s.jobs.Keys == {"job"} && Claimable(s.jobs["job"].status) && NextRetryAt(s, "job") <= 0
    ensures ClaimNext(s, 0) == (SetRow(s, "job", ClaimedRow(s.jobs["job"])), Some("job"))
  {
    assert Eligible(s, 0) == {"job"};
    assert First(s, Eligible(s, 0)) in {"job"};
  }

  const QUEUED := OneJob(Pending, 0, "QUEUED", map[])
  const CLAIMED := OneJob(Processing, 0, "CLAIMED", map[])
  const DONE := OneJob(Done, 100, "DONE", map[])
  const REVIVED := OneJob(Retry, 100, "RETRY", map["job" := Attempt(1, 0, Some("late"))])

  lemma WorkIsDone()
    ensures Next(EMPTY, REVIVED_RUN[0]) == QUEUED && Next(QUEUED, REVIVED_RUN[1]) == CLAIMED && Next(CLAIMED, REVIVED_RUN[2]) == DONE
    ensures Claimed(QUEUED, REVIVED_RUN[1]) == Some("job")
  {
    OnlyJobIsClaimed(QUEUED);
  }

  lemma WorkIsRevived()
    ensures Next(DONE, REVIVED_RUN[3]) == REVIVED && Claimed(REVIVED, REVIVED_RUN[4]) == Some("job")
  {
    OnlyJobIsClaimed(REVIVED);
  }

  /** This run is possible: the job is done after the third step, and claimed again by the fifth. */
  lemma RevivedRun() returns (states: seq<State>)
    ensures Behaviour(states, REVIVED_RUN)
    ensures "job" in states[3].jobs && states[3].jobs["job"].status == Done
    ensures Claimed(states[1], REVIVED_RUN[1]) == Claimed(states[4], REVIVED_RUN[4]) == Some("job")
  {
    WorkIsDone();
    WorkIsRevived();
    states := [EMPTY, QUEUED, CLAIMED, DONE, REVIVED, Next(REVIVED, REVIVED_RUN[4])];
  }
}
