/** When a job of the queue can be claimed, told from the steps alone: the failures recorded of it, the claims, and what was queued,
    withdrawn or queued again. */
module JobRetries {
  import opened Prelude
  import opened JobQueue

  // --- The record of failures ------------------------------------------------------------------------------

  /** The time before which a job is not to be tried again after the failure; a scan that failed may be tried at once. */
  function RetryTime(step: Step): int
    requires step.FailJob? || step.EnqueueFileFailure?
  {
    if step.FailJob? then step.nextRetryAt else 0
  }

  /** The n-th step records a failure of the job, which is one of the queue's. */
  ghost predicate FailsAt(states: seq<State>, steps: seq<Step>, j: string, n: nat)
    requires |states| == |steps| + 1 && n < |steps|
  {
    Fails(steps[n], j) && j in states[n + 1].jobs
  }

  ghost predicate RequeuedAt(states: seq<State>, steps: seq<Step>, j: string, n: nat)
    requires |states| == |steps| + 1 && n < |steps|
  {
    Requeues(states[n], steps[n], j)
  }

  /** How often the job has failed since it was last queued again, after n steps. */
  ghost function Failures(states: seq<State>, steps: seq<Step>, j: string, n: nat): nat
    requires |states| == |steps| + 1 && n <= |steps|
  {
    if n == 0 || RequeuedAt(states, steps, j, n - 1) then 0
    else Failures(states, steps, j, n - 1) + if FailsAt(states, steps, j, n - 1) then 1 else 0
  }

  /** The retry time of the last of these failures, 0 without one. */
  ghost function LastRetryTime(states: seq<State>, steps: seq<Step>, j: string, n: nat): int
    requires |states| == |steps| + 1 && n <= |steps|
  {
    if n == 0 || RequeuedAt(states, steps, j, n - 1) then 0
    else if FailsAt(states, steps, j, n - 1) then RetryTime(steps[n - 1])
    else LastRetryTime(states, steps, j, n - 1)
  }

  lemma FailureIsRecorded(s: State, step: Step, j: string)
    requires Inv(s) && Fails(step, j) && j in Next(s, step).jobs
    ensures AttemptsOf(Next(s, step), j) == AttemptsOf(s, j) + 1 && NextRetryAt(Next(s, step), j) == RetryTime(step)
    ensures Claimable(Next(s, step).jobs[j].status) <==> AttemptsOf(s, j) + 1 < AllowedAttempts(step)
  {
  }

  lemma RequeueClears(s: State, step: Step, j: string)
    requires Inv(s) && Requeues(s, step, j)
    ensures AttemptsOf(Next(s, step), j) == 0 && NextRetryAt(Next(s, step), j) == 0
    ensures j in Next(s, step).jobs && Next(s, step).jobs[j].status == Pending
  {
  }

  predicate SameRecord(s: State, s': State, j: string) {
    (j in s'.attempts <==> j in s.attempts) && (j in s.attempts ==> s'.attempts[j] == s.attempts[j])
  }

  lemma OtherStepKeepsRecord(s: State, step: Step, j: string)
    requires Inv(s) && !Requeues(s, step, j) && !(Fails(step, j) && j in Next(s, step).jobs)
    ensures SameRecord(s, Next(s, step), j)
  {
  }

  /** The n-th step changes the job's record as it tells. */
  ghost predicate RecordMoves(states: seq<State>, steps: seq<Step>, j: string, n: nat)
    requires |states| == |steps| + 1 && n < |steps|
  {
    if RequeuedAt(states, steps, j, n) then AttemptsOf(states[n + 1], j) == 0 && NextRetryAt(states[n + 1], j) == 0
    else if FailsAt(states, steps, j, n)
    then AttemptsOf(states[n + 1], j) == AttemptsOf(states[n], j) + 1 && NextRetryAt(states[n + 1], j) == RetryTime(steps[n])
    else AttemptsOf(states[n + 1], j) == AttemptsOf(states[n], j) && NextRetryAt(states[n + 1], j) == NextRetryAt(states[n], j)
  }

  lemma StepMovesRecord(states: seq<State>, steps: seq<Step>, j: string, n: nat)
    requires Behaviour(states, steps) && n < |steps|
    ensures RecordMoves(states, steps, j, n)
  {
    BehaviourKeepsInv(states, steps, n, n);
    if RequeuedAt(states, steps, j, n) {
      RequeueClears(states[n], steps[n], j);
    } else if FailsAt(states, steps, j, n) {
      FailureIsRecorded(states[n], steps[n], j);
    } else {
      OtherStepKeepsRecord(states[n], steps[n], j);
    }
  }

  lemma {:induction false} RecordAddsUp(states: seq<State>, steps: seq<Step>, j: string, n: nat)
    requires |states| == |steps| + 1 && n <= |steps| && states[0] == EMPTY
    requires forall i: nat :: i < n ==> RecordMoves(states, steps, j, i)
    ensures AttemptsOf(states[n], j) == Failures(states, steps, j, n) && NextRetryAt(states[n], j) == LastRetryTime(states, steps, j, n)
  {
    if n == 0 {
    } else {
      RecordAddsUp(states, steps, j, n - 1);
      assert RecordMoves(states, steps, j, n - 1);
    }
  }

  /** In every run the queue counts the failures, and keeps the retry time, that the steps tell. */
  lemma RecordFollowsSteps(states: seq<State>, steps: seq<Step>, j: string, n: nat)
    requires Behaviour(states, steps) && n <= |steps|
    ensures AttemptsOf(states[n], j) == Failures(states, steps, j, n) && NextRetryAt(states[n], j) == LastRetryTime(states, steps, j, n)
  {
    forall i: nat | i < n ensures RecordMoves(states, steps, j, i) {
      StepMovesRecord(states, steps, j, i);
    }
    RecordAddsUp(states, steps, j, n);
  }

  // --- Waiting to be claimed -----------------------------------------------------------------------------------

  /** The step cancels the job, or resolves it as a failure that is over, by itself or with a new scan. */
  predicate Withdraws(step: Step, j: string) {
    || (step.CancelJob? && step.id == j)
    || (step.ResolveFileFailure? && step.id == j)
    || (step.EnqueueFileScan? && !step.selfWrite && step.failureId == j)
  }

  /** The job waits after n steps: it was queued, queued again, or failed short of the limit, and has neither been claimed nor
      withdrawn since. */
  ghost predicate Waits(states: seq<State>, steps: seq<Step>, j: string, n: nat)
    requires |states| == |steps| + 1 && n <= |steps|
  {
    if n == 0 then false
    else if FailsAt(states, steps, j, n - 1) then Failures(states, steps, j, n) < AllowedAttempts(steps[n - 1])
    else if RequeuedAt(states, steps, j, n - 1) then true
    else if j !in states[n - 1].jobs then j in states[n].jobs
    else Waits(states, steps, j, n - 1) && Claimed(states[n - 1], steps[n - 1]) != Some(j) && !Withdraws(steps[n - 1], j)
  }

  lemma NewJobWaits(s: State, step: Step, j: string)
    requires j !in s.jobs && j in Next(s, step).jobs && !Fails(step, j)
    ensures Next(s, step).jobs[j].status == Pending
  {
  }

  /** Any other step leaves a job waiting unless it claims or withdraws it, and makes none wait that did not. */
  lemma OtherStepKeepsWaiting(s: State, step: Step, j: string)
    requires j in s.jobs && !Fails(step, j) && !Requeues(s, step, j)
    ensures j in Next(s, step).jobs
    ensures Claimable(Next(s, step).jobs[j].status)
       <==> Claimable(s.jobs[j].status) && Claimed(s, step) != Some(j) && !Withdraws(step, j)
  {
  }

  predicate Waiting(s: State, j: string) {
    j in s.jobs && Claimable(s.jobs[j].status)
  }

  /** The n-th step makes the job wait, or no longer wait, as it tells. */
  ghost predicate WaitingMoves(states: seq<State>, steps: seq<Step>, j: string, n: nat)
    requires |states| == |steps| + 1 && n < |steps|
  {
    Waiting(states[n + 1], j)
    <==> if FailsAt(states, steps, j, n) then Failures(states, steps, j, n + 1) < AllowedAttempts(steps[n])
         else if RequeuedAt(states, steps, j, n) then true
         else if j !in states[n].jobs then j in states[n + 1].jobs
         else Waiting(states[n], j) && Claimed(states[n], steps[n]) != Some(j) && !Withdraws(steps[n], j)
  }

  lemma FailureMovesWaiting(states: seq<State>, steps: seq<Step>, j: string, n: nat)
    requires Behaviour(states, steps) && n < |steps| && FailsAt(states, steps, j, n)
    ensures WaitingMoves(states, steps, j, n)
  {
    BehaviourKeepsInv(states, steps, n, n);
    FailureIsRecorded(states[n], steps[n], j);
    RecordFollowsSteps(states, steps, j, n + 1);
  }

  lemma OtherStepMovesWaiting(s: State, step: Step, j: string)
    requires Inv(s) && !(Fails(step, j) && j in Next(s, step).jobs)
    ensures Waiting(Next(s, step), j)
       <==> if Requeues(s, step, j) then true
            else if j !in s.jobs then j in Next(s, step).jobs
            else Waiting(s, j) && Claimed(s, step) != Some(j) && !Withdraws(step, j)
  {
    StepKeepsJobs(s, step);
    if Requeues(s, step, j) {
      RequeueClears(s, step, j);
    } else if j in s.jobs {
      OtherStepKeepsWaiting(s, step, j);
    } else if j in Next(s, step).jobs {
      NewJobWaits(s, step, j);
    }
  }

  lemma OtherMovesWaiting(states: seq<State>, steps: seq<Step>, j: string, n: nat)
    requires Behaviour(states, steps) && n < |steps| && !FailsAt(states, steps, j, n)
    ensures WaitingMoves(states, steps, j, n)
  {
    BehaviourKeepsInv(states, steps, n, n);
    OtherStepMovesWaiting(states[n], steps[n], j);
  }

  lemma {:induction false} WaitingAddsUp(states: seq<State>, steps: seq<Step>, j: string, n: nat)
    requires |states| == |steps| + 1 && n <= |steps| && states[0] == EMPTY
    requires forall i: nat :: i < n ==> WaitingMoves(states, steps, j, i)
    ensures Waiting(states[n], j) <==> Waits(states, steps, j, n)
  {
    if n == 0 {
    } else {
      WaitingAddsUp(states, steps, j, n - 1);
      assert WaitingMoves(states, steps, j, n - 1);
    }
  }

  /** In every run the claimable jobs are those that wait. */
  lemma WaitingFollowsSteps(states: seq<State>, steps: seq<Step>, j: string, n: nat)
    requires Behaviour(states, steps) && n <= |steps|
    ensures Waiting(states[n], j) <==> Waits(states, steps, j, n)
  {
    forall i: nat | i < n ensures WaitingMoves(states, steps, j, i) {
      if FailsAt(states, steps, j, i) {
        FailureMovesWaiting(states, steps, j, i);
      } else {
        OtherMovesWaiting(states, steps, j, i);
      }
    }
    WaitingAddsUp(states, steps, j, n);
  }

  // --- Claims -------------------------------------------------------------------------------------------------------

  lemma EnoughTakeAll(s: State, now: int, k: nat)
    requires |s.jobs| <= k
    ensures forall j :: j in ClaimMany(s, now, k).1 <==> j in Eligible(s, now)
  {
    var sorted := Sorted(s, Eligible(s, now));
    ClaimsInOrder(s, now, sorted, k);
    SortedHasTheIds(s, Eligible(s, now));
    EligibleAreJobs(s, now);
    assert UpTo(sorted, k) == sorted;
  }

  lemma EligibleAreJobs(s: State, now: int)
    ensures |Eligible(s, now)| <= |s.jobs|
  {
    assert Eligible(s, now) <= s.jobs.Keys;
    SmallerSet(Eligible(s, now), s.jobs.Keys);
  }

  lemma {:induction false} SmallerSet(a: set<string>, b: set<string>)
    requires a <= b
    ensures |a| <= |b|
  {
    if a == {} {
    } else {
      var x :| x in a;
      SmallerSet(a - {x}, b - {x});
    }
  }

  /** In every run enough claims at some time take exactly the jobs that wait and whose last retry time has come. */
  lemma TakenIff(states: seq<State>, steps: seq<Step>, n: nat, now: int, k: nat, j: string)
    requires Behaviour(states, steps) && n <= |steps| && |states[n].jobs| <= k
    ensures j in ClaimMany(states[n], now, k).1 <==> Waits(states, steps, j, n) && LastRetryTime(states, steps, j, n) <= now
  {
    EnoughTakeAll(states[n], now, k);
    WaitingFollowsSteps(states, steps, j, n);
    RecordFollowsSteps(states, steps, j, n);
  }

  /** Since the m-th step the job has not failed or been queued again. */
  ghost predicate NoFailureSince(states: seq<State>, steps: seq<Step>, j: string, m: nat, n: nat)
    requires |states| == |steps| + 1 && m < n <= |steps|
  {
    forall i :: m < i < n ==> !Fails(steps[i], j) && !Requeues(states[i], steps[i], j)
  }

  lemma {:induction false} RetryTimeStands(states: seq<State>, steps: seq<Step>, j: string, m: nat, n: nat)
    requires Behaviour(states, steps) && m < n <= |steps| && FailsAt(states, steps, j, m) && NoFailureSince(states, steps, j, m, n)
    ensures LastRetryTime(states, steps, j, n) == RetryTime(steps[m])
    decreases n
  {
    if n == m + 1 {
    } else {
      RetryTimeStands(states, steps, j, m, n - 1);
    }
  }

  /** A job is claimed no earlier than its last recorded failure allows. */
  lemma ClaimsWaitForRetry(states: seq<State>, steps: seq<Step>, j: string, m: nat, n: nat)
    requires Behaviour(states, steps) && m < n < |steps| && FailsAt(states, steps, j, m) && NoFailureSince(states, steps, j, m, n)
    requires Claimed(states[n], steps[n]) == Some(j)
    ensures RetryTime(steps[m]) <= steps[n].now
  {
    RetryTimeStands(states, steps, j, m, n);
    RecordFollowsSteps(states, steps, j, n);
  }

  /** Since the m-th step no claim has taken the job and no step has withdrawn it. */
  ghost predicate LeftAloneSince(states: seq<State>, steps: seq<Step>, j: string, m: nat, n: nat)
    requires |states| == |steps| + 1 && m < n <= |steps|
  {
    forall i :: m < i < n ==> Claimed(states[i], steps[i]) != Some(j) && !Withdraws(steps[i], j)
  }

  lemma {:induction false} RetryKeepsWaiting(states: seq<State>, steps: seq<Step>, j: string, m: nat, n: nat)
    requires |states| == |steps| + 1 && m < n <= |steps| && FailsAt(states, steps, j, m) && NoFailureSince(states, steps, j, m, n)
    requires Failures(states, steps, j, m + 1) < AllowedAttempts(steps[m]) && LeftAloneSince(states, steps, j, m, n)
    requires forall i :: m < i < n ==> j in states[i].jobs
    ensures Waits(states, steps, j, n)
    decreases n
  {
    if n == m + 1 {
    } else {
      RetryKeepsWaiting(states, steps, j, m, n - 1);
    }
  }

  lemma JobsRemain(states: seq<State>, steps: seq<Step>, j: string, m: nat, n: nat)
    requires Behaviour(states, steps) && m < n <= |steps| && FailsAt(states, steps, j, m)
    ensures forall i :: m < i < n ==> j in states[i].jobs
  {
    forall i | m < i < n ensures j in states[i].jobs {
      BehaviourKeepsInv(states, steps, m + 1, i);
    }
  }

  /** A job that failed short of its limit, and since then neither failed nor was queued again, claimed or withdrawn, is taken by
      enough claims exactly from its retry time on. */
  lemma RetriedInTime(states: seq<State>, steps: seq<Step>, j: string, m: nat, n: nat, now: int, k: nat)
    requires Behaviour(states, steps) && m < n <= |steps| && FailsAt(states, steps, j, m) && NoFailureSince(states, steps, j, m, n)
    requires Failures(states, steps, j, m + 1) < AllowedAttempts(steps[m]) && LeftAloneSince(states, steps, j, m, n)
    requires |states[n].jobs| <= k
    ensures j in ClaimMany(states[n], now, k).1 <==> RetryTime(steps[m]) <= now
  {
    JobsRemain(states, steps, j, m, n);
    RetryKeepsWaiting(states, steps, j, m, n);
    RetryTimeStands(states, steps, j, m, n);
    TakenIff(states, steps, n, now, k, j);
  }

  // --- What the steps write --------------------------------------------------------------------------------------------

  predicate Unused(s: State, id: string, key: string) {
    id !in s.jobs && forall j :: j in s.jobs ==> s.jobs[j].key != key
  }

  /** A step changes a job of the queue only by claiming, failing, requeueing or withdrawing it, or by completing or reporting on it. */
  lemma OnlyNamedJobsChange(s: State, step: Step, j: string)
    requires Inv(s) && j in s.jobs && Claimed(s, step) != Some(j) && !Fails(step, j) && !Requeues(s, step, j) && !Withdraws(step, j)
    requires !((step.CompleteJob? || step.Progress?) && step.id == j)
    ensures j in Next(s, step).jobs && Next(s, step).jobs[j] == s.jobs[j] && SameRecord(s, Next(s, step), j)
  {
    OtherStepKeepsRecord(s, step, j);
  }

  /** A new job is queued as asked for exactly if its id and its key are unused; otherwise nothing changes. */
  lemma EnqueueTakesEffect(s: State, id: string, key: string, createdAt: string, payload: string)
    ensures var s', inserted := Next(s, EnqueueJob(id, key, createdAt, payload)), Insert(s, id, key, createdAt, payload).1;
            && (inserted <==> Unused(s, id, key))
            && s' == if inserted then s.(jobs := s.jobs[id := Row(key, createdAt, payload, Pending, 0, "QUEUED", false)]) else s
  {
  }

  /** A scan of a file the program wrote itself changes nothing; any other withdraws the earlier failure and is queued if its id is unused. */
  lemma ScanTakesEffect(s: State, id: string, failureId: string, createdAt: string, payload: string, selfWrite: bool)
    requires id != failureId
    ensures var s' := Next(s, EnqueueFileScan(id, failureId, createdAt, payload, selfWrite));
            && (selfWrite ==> s' == s)
            && (!selfWrite && Unused(s, id, id) ==> id in s'.jobs && s'.jobs[id] == Row(id, createdAt, payload, Pending, 0, "QUEUED", false))
            && (id in s.jobs ==> s'.jobs[id] == s.jobs[id])
            && (!selfWrite && failureId in s.jobs ==> failureId in s'.jobs && s'.jobs[failureId] == Withdrawn(s.jobs[failureId]))
  {
  }

  /** The row of a failure that is over: an ended job keeps what it was. */
  function Withdrawn(row: Row): Row {
    if row.status == Pending || row.status == Retry || row.status == Processing
    then row.(status := Cancelled, phase := "RESOLVED", cancelRequested := true) else row
  }

  /** Queueing a scan afresh starts the job with that key over, with a clean record if it had one, or queues a new one. */
  lemma RequeueTakesEffect(s: State, key: string, createdAt: string, payload: string, j: string)
    requires Inv(s) && j in s.jobs && s.jobs[j].key == key
    ensures var s' := Next(s, RequeueScan(key, createdAt, payload, false));
            && s'.jobs == s.jobs[j := Row(key, createdAt, payload, Pending, 0, "QUEUED", false)]
            && Requeue(s, key, createdAt, payload, false).1 == Ok(true)
            && (if j in s.attempts then s'.attempts == s.attempts[j := Attempt(0, 0, None)] else s'.attempts == s.attempts)
  {
  }

  lemma RequeueOfNewKey(s: State, key: string, createdAt: string, payload: string)
    requires forall j :: j in s.jobs ==> s.jobs[j].key != key
    ensures var s', r := Next(s, RequeueScan(key, createdAt, payload, false)), Requeue(s, key, createdAt, payload, false).1;
            if key in s.jobs then s' == s && r == Err(ConstraintFailed)
            else s' == s.(jobs := s.jobs[key := Row(key, createdAt, payload, Pending, 0, "QUEUED", false)]) && r == Ok(true)
  {
  }

  /** A claimed job is being processed, under the phase it had reached if it had made progress; it keeps all else. */
  lemma ClaimTakesEffect(s: State, now: int, j: string)
    requires ClaimNext(s, now).1 == Some(j)
    ensures j in s.jobs && var row := s.jobs[j];
            ClaimNext(s, now).0 == s.(jobs := s.jobs[j := row.(status := Processing, phase := if 0 < row.progress then row.phase else "CLAIMED")])
  {
  }

  /** A failure keeps its error and its retry time with the job, which is to be retried below the limit and has failed for good at it. */
  lemma FailureTakesEffect(s: State, j: string, error: string, nextRetryAt: int, maxAttempts: int)
    ensures var s', r := Next(s, FailJob(j, error, nextRetryAt, maxAttempts)), RecordFailure(s, j, error, nextRetryAt, maxAttempts).1;
            if j !in s.jobs then s' == s && r == Err(ConstraintFailed)
            else && s'.attempts == s.attempts[j := Attempt(AttemptsOf(s, j) + 1, nextRetryAt, Some(error))]
                 && r == Ok(AttemptsOf(s, j) + 1 < maxAttempts)
                 && s'.jobs == s.jobs[j := if AttemptsOf(s, j) + 1 < maxAttempts then s.jobs[j].(status := Retry, phase := "RETRY")
                                           else s.jobs[j].(status := Failed, phase := "FAILED")]
  {
  }

  /** A failed scan gets a job of its own if it has none, and the failure with it: at once to be retried, three times at most. */
  lemma ScanFailureTakesEffect(s: State, id: string, createdAt: string, payload: string, error: string)
    requires Inv(s)
    ensures var s', r := Next(s, EnqueueFileFailure(id, createdAt, payload, error)), EnqueueFailure(s, id, createdAt, payload, error).1;
            if id !in s.jobs && !Unused(s, id, id) then s' == s && r == Err(ConstraintFailed)
            else && r == Ok(id !in s.jobs) && id in s'.jobs && id in s'.attempts
                 && s'.attempts[id] == Attempt(AttemptsOf(s, id) + 1, 0, Some(error))
                 && s'.jobs[id].status == (if AttemptsOf(s, id) < 2 then Retry else Failed)
                 && (id !in s.jobs ==> s'.jobs[id].key == id && s'.jobs[id].createdAt == createdAt && s'.jobs[id].payload == payload)
  {
  }

  /** Cancelling takes back a waiting job and asks a running one to stop; an ended one stays. */
  lemma CancelTakesEffect(s: State, j: string)
    ensures var s', row := Next(s, CancelJob(j)), if j in s.jobs then s.jobs[j] else Row("", "", "", Done, 0, "", false);
            && (Cancel(s, j).1 <==> row.status != Done && row.status != Failed && row.status != Cancelled)
            && (if Cancel(s, j).1
                then s' == s.(jobs := s.jobs[j := row.(cancelRequested := true, phase := "CANCELLED",
                                                       status := if row.status == Processing then Processing else Cancelled)])
                else s' == s)
  {
  }

  lemma ResolveTakesEffect(s: State, j: string)
    ensures Next(s, ResolveFileFailure(j)) == if j in s.jobs then s.(jobs := s.jobs[j := Withdrawn(s.jobs[j])]) else s
    ensures ResolveFailure(s, j).1 <==> j in s.jobs && Withdrawn(s.jobs[j]).status != s.jobs[j].status
  {
    assert j in s.jobs ==> s.jobs[j := s.jobs[j]] == s.jobs;
  }

  /** Exactly a running job can be completed; progress is stored as reported if it is a percentage, else as the nearest one. */
  lemma WorkTakesEffect(s: State, j: string, progress: int, phase: string)
    ensures (Complete(s, j).1 <==> j in s.jobs && s.jobs[j].status == Processing)
            && Next(s, CompleteJob(j)) == if Complete(s, j).1 then s.(jobs := s.jobs[j := s.jobs[j].(status := Done, progress := 100, phase := "DONE")]) else s
    ensures j !in s.jobs ==> Next(s, Progress(j, progress, phase)) == s
    ensures j in s.jobs ==>
              var s' := Next(s, Progress(j, progress, phase));
              && j in s'.jobs && s' == s.(jobs := s.jobs[j := s.jobs[j].(progress := s'.jobs[j].progress, phase := phase)])
              && 0 <= s'.jobs[j].progress <= 100
              && forall p: nat :: p <= 100 ==> Distance(s'.jobs[j].progress, progress) <= Distance(p, progress)
  {
  }

  function Distance(a: int, b: int): nat {
    if a < b then b - a else a - b
  }
}
