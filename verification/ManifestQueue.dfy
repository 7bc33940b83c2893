/** The manifest database's queue methods: rows of the two tables updated in place. */
module ManifestQueue {
  import opened Prelude
  import opened JobQueue

  /** A row as it is read, joined with its attempts. */
  datatype PendingJob = PendingJob(id: string, row: Row, attempts: int, nextRetryAt: int, lastError: Option<string>)

  function ReadJob(s: State, id: string): PendingJob
    requires id in s.jobs
  {
    PendingJob(id, s.jobs[id], AttemptsOf(s, id), NextRetryAt(s, id), if id in s.attempts then s.attempts[id].lastError else None)
  }

  function Ids(jobs: seq<PendingJob>): (ids: seq<string>)
    ensures |ids| == |jobs| && forall i :: 0 <= i < |jobs| ==> ids[i] == jobs[i].id
  {
    seq(|jobs|, i requires 0 <= i < |jobs| => jobs[i].id)
  }

  class ManifestDb {
    var pendingJobs: map<string, Row>
    var jobAttempts: map<string, Attempt>

    function View(): State
      reads this
    {
      State(pendingJobs, jobAttempts)
    }

    constructor ()
      ensures View() == EMPTY
    {
      pendingJobs, jobAttempts := map[], map[];
    }

    method InsertOrIgnore(id: string, key: string, createdAt: string, payload: string) returns (inserted: bool)
      modifies this`pendingJobs
      ensures View() == Insert(old(View()), id, key, createdAt, payload).0 && inserted == Insert(old(View()), id, key, createdAt, payload).1
    {
      inserted := id !in pendingJobs && !HasKey(View(), key);
      if inserted {
        pendingJobs := pendingJobs[id := NewRow(key, createdAt, payload)];
      }
    }

    method EnqueueJob(id: string, key: string, createdAt: string, payload: string) returns (r: Result<(), QueueError>)
      modifies this`pendingJobs
      ensures View() == Insert(old(View()), id, key, createdAt, payload).0
      ensures r.Ok? <==> id !in old(pendingJobs) && !HasKey(old(View()), key)
    {
      var inserted := InsertOrIgnore(id, key, createdAt, payload);
      r := if inserted then Ok(()) else Err(ConstraintFailed);
    }

    /** The scan's own id and the id its path's failure would have. */
    method EnqueueFileScan(id: string, failureId: string, createdAt: string, payload: string, selfWrite: bool) returns (inserted: bool)
      modifies this`pendingJobs
      ensures View() == EnqueueScan(old(View()), id, failureId, createdAt, payload, selfWrite).0
      ensures inserted == EnqueueScan(old(View()), id, failureId, createdAt, payload, selfWrite).1
    {
      if selfWrite {
        return false;
      }
      var _ := ResolveFileFailure(failureId);
      inserted := InsertOrIgnore(id, id, createdAt, payload);
    }

    method EnqueueFileFailure(id: string, createdAt: string, payload: string, error: string) returns (r: Result<bool, QueueError>)
      modifies this
      ensures View() == EnqueueFailure(old(View()), id, createdAt, payload, error).0
      ensures r == EnqueueFailure(old(View()), id, createdAt, payload, error).1
    {
      var inserted := InsertOrIgnore(id, id, createdAt, payload);
      var recorded := RecordJobFailure(id, error, 0, 3);
      r := if recorded.Ok? then Ok(inserted) else Err(ConstraintFailed);
    }

    method RecordJobFailure(id: string, error: string, nextRetryAt: int, maxAttempts: int) returns (r: Result<bool, QueueError>)
      modifies this
      ensures View() == RecordFailure(old(View()), id, error, nextRetryAt, maxAttempts).0
      ensures r == RecordFailure(old(View()), id, error, nextRetryAt, maxAttempts).1
    {
      if id !in pendingJobs {
        return Err(ConstraintFailed);
      }
      var attempts := if id in jobAttempts then jobAttempts[id].attempts + 1 else 1;
      jobAttempts := jobAttempts[id := Attempt(attempts, nextRetryAt, Some(error))];
      var status := if attempts >= maxAttempts then Failed else Retry;
      pendingJobs := pendingJobs[id := pendingJobs[id].(status := status, phase := if status == Failed then "FAILED" else "RETRY")];
      r := Ok(status == Retry);
    }

    method ResolveFileFailure(id: string) returns (resolved: bool)
      modifies this`pendingJobs
      ensures View() == ResolveFailure(old(View()), id).0 && resolved == ResolveFailure(old(View()), id).1
    {
      resolved := id in pendingJobs && Active(pendingJobs[id].status);
      if resolved {
        pendingJobs := pendingJobs[id := pendingJobs[id].(status := Cancelled, phase := "RESOLVED", cancelRequested := true)];
      }
    }

    method UpdateJobProgress(id: string, progress: int, phase: string) returns (updated: bool)
      modifies this`pendingJobs
      ensures View() == UpdateProgress(old(View()), id, progress, phase).0 && updated == UpdateProgress(old(View()), id, progress, phase).1
    {
      updated := id in pendingJobs;
      if updated {
        pendingJobs := pendingJobs[id := pendingJobs[id].(progress := Clamp(progress), phase := phase)];
      }
    }

    method RequestJobCancellation(id: string) returns (updated: bool)
      modifies this`pendingJobs
      ensures View() == Cancel(old(View()), id).0 && updated == Cancel(old(View()), id).1
    {
      updated := id in pendingJobs && Active(pendingJobs[id].status);
      if updated {
        var row := pendingJobs[id];
        if Claimable(row.status) {
          row := row.(status := Cancelled);
        }
        pendingJobs := pendingJobs[id := row.(cancelRequested := true, phase := "CANCELLED")];
      }
    }

    method CompleteJob(id: string) returns (completed: bool)
      modifies this`pendingJobs
      ensures View() == Complete(old(View()), id).0 && completed == Complete(old(View()), id).1
    {
      completed := id in pendingJobs && pendingJobs[id].status == Processing;
      if completed {
        pendingJobs := pendingJobs[id := pendingJobs[id].(status := Done, progress := 100, phase := "DONE")];
      }
    }

    method RequeueFileScan(key: string, createdAt: string, payload: string, selfWrite: bool) returns (r: Result<bool, QueueError>)
      requires Inv(View())
      modifies this
      ensures View() == Requeue(old(View()), key, createdAt, payload, selfWrite).0
      ensures r == Requeue(old(View()), key, createdAt, payload, selfWrite).1
    {
      if selfWrite {
        return Ok(false);
      }
      if HasKey(View(), key) {
        var id :| id in pendingJobs && pendingJobs[id].key == key;
        assert id == IdOfKey(View(), key);
        pendingJobs := pendingJobs[id := pendingJobs[id].(payload := payload, status := Pending, phase := "QUEUED", progress := 0,
                                                          cancelRequested := false, createdAt := createdAt)];
        if id in jobAttempts {
          jobAttempts := jobAttempts[id := Attempt(0, 0, None)];
        }
        return Ok(true);
      }
      var inserted := InsertOrIgnore(key, key, createdAt, payload);
      r := if inserted then Ok(true) else Err(ConstraintFailed);
    }

    /** Takes the first eligible row, in one transaction. */
    method ClaimNextJob(now: int) returns (job: Option<PendingJob>)
      modifies this`pendingJobs
      ensures View() == ClaimNext(old(View()), now).0
      ensures job.Some? == ClaimNext(old(View()), now).1.Some?
      ensures job.Some? ==> job.value.id in View().jobs && job.value == ReadJob(View(), job.value.id) && ClaimNext(old(View()), now).1 == Some(job.value.id)
    {
      var eligible := Eligible(View(), now);
      if eligible == {} {
        return None;
      }
      FirstExists(View(), eligible);
      var id :| id in eligible && IsFirst(View(), eligible, id);
      FirstIsUnique(View(), eligible, id, First(View(), eligible));
      var row := pendingJobs[id];
      pendingJobs := pendingJobs[id := row.(status := Processing, phase := if row.progress > 0 then row.phase else "CLAIMED")];
      job := Some(ReadJob(View(), id));
    }

    /** Claims up to `maxJobs` jobs: the first ones in order, each once, and no other row changes. */
    method ClaimPendingJobs(now: int, maxJobs: nat) returns (jobs: seq<PendingJob>)
      modifies this`pendingJobs
      ensures (View(), Ids(jobs)) == ClaimMany(old(View()), now, maxJobs)
      ensures Ids(jobs) == UpTo(Sorted(old(View()), Eligible(old(View()), now)), maxJobs)
      ensures OnlyClaims(old(View()), View(), Ids(jobs))
    {
      jobs := [];
      while |jobs| < maxJobs
        invariant |jobs| <= maxJobs && (View(), Ids(jobs)) == ClaimMany(old(View()), now, |jobs|)
      {
        var job := ClaimNextJob(now);
        if job == None {
          NothingLeft(old(View()), now, |jobs|, maxJobs);
          break;
        }
        ghost var before := Ids(jobs);
        jobs := jobs + [job.value];
        assert Ids(jobs) == before + [job.value.id];
      }
      ClaimsInOrder(old(View()), now, Sorted(old(View()), Eligible(old(View()), now)), maxJobs);
    }
  }

  /** Once a claim finds nothing, no further one finds anything. */
  lemma {:induction false} NothingLeft(s: State, now: int, m: nat, n: nat)
    requires m < n && |ClaimMany(s, now, m).1| == m && ClaimNext(ClaimMany(s, now, m).0, now).1 == None
    ensures ClaimMany(s, now, n) == ClaimMany(s, now, m)
    decreases n
  {
    if n == m + 1 {
    } else {
      NothingLeft(s, now, m, n - 1);
    }
  }
}
