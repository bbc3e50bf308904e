// The job queue as one process uses it: reads, changes and writes back records.
module JobQueue {
  import opened Common
  import opened JobModel

  class JobQueue {
    var jobs: map<JobId, Record>
    /** The order index: ids sorted by their time of arrival. */
    var order: seq<JobId>
    var nextId: JobId

    ghost predicate Valid()
      reads this
    {
      && (forall j :: j in jobs <==> j in order)
      && (forall j :: j in jobs ==> j < nextId)
    }

    constructor ()
      ensures Valid() && jobs == map[]
    {
      jobs, order, nextId := map[], [], 0;
    }

    method Enqueue(request: string, now: int) returns (id: JobId)
      requires Valid()
      modifies this
      ensures Valid() && id !in old(jobs)
      ensures OnlyChanges(old(jobs), jobs, id,
        Job(status := Queued, request := request, createdAt := now, updatedAt := now, checkpoint := None))
      ensures order == old(order) + [id]
    {
      id := nextId;
      nextId := nextId + 1;
      jobs := jobs[id := NewJob(request, now)];
      order := order + [id];
    }

    /** A job that is missing or unreadable is left alone. */
    method UpdateStatus(id: JobId, status: Status, now: int)
      requires Valid()
      modifies this`jobs
      ensures Valid()
      ensures id in old(jobs) && old(jobs)[id].Stored? ==>
        OnlyChanges(old(jobs), jobs, id, old(jobs)[id].job.(status := status, updatedAt := now))
      ensures !(id in old(jobs) && old(jobs)[id].Stored?) ==> jobs == old(jobs)
    {
      if id in jobs {
        var data := jobs[id];
        if data.Stored? {
          jobs := jobs[id := WithStatus(data.job, status, now)];
        }
      }
    }

    method SetCheckpoint(id: JobId, doc: DocId, now: int)
      requires Valid()
      modifies this`jobs
      ensures Valid()
      ensures id in old(jobs) && old(jobs)[id].Stored? ==>
        OnlyChanges(old(jobs), jobs, id, old(jobs)[id].job.(checkpoint := Some(doc), updatedAt := now))
      ensures !(id in old(jobs) && old(jobs)[id].Stored?) ==> jobs == old(jobs)
    {
      if id in jobs {
        var data := jobs[id];
        if data.Stored? {
          jobs := jobs[id := WithCheckpoint(data.job, doc, now)];
        }
      }
    }

    /** One write transaction: finds the first queued job and blanks its record. */
    method ClaimNextJob() returns (claimed: Option<(JobId, Record)>)
      requires Valid()
      modifies this`jobs
      ensures Valid()
      ensures claimed.Some? ==>
        var j := claimed.value.0;
        && IsNext(order, old(jobs), j) && j in old(jobs) && claimed.value.1 == old(jobs)[j]
        && jobs == old(jobs)[j := Blank]
      ensures claimed.None? ==> jobs == old(jobs) && forall j :: j in order ==> !HasStatus(old(jobs), j, Queued)
    {
      FirstQueuedIsNext(order, jobs);
      claimed := None;
      var k := 0;
      while k < |order| && claimed.None?
        invariant 0 <= k <= |order|
        invariant claimed.None? ==> FirstQueued(order[k..], jobs) == FirstQueued(order, jobs)
        invariant claimed.Some? ==> FirstQueued(order, jobs) == Some(claimed.value.0)
        invariant claimed.Some? ==> claimed.value.0 in jobs && claimed.value.1 == jobs[claimed.value.0]
      {
        assert order[k..][0] == order[k] && order[k..][1..] == order[k + 1..];
        if order[k] in jobs && IsQueued(jobs[order[k]]) {
          claimed := Some((order[k], jobs[order[k]]));
        }
        k := k + 1;
      }
      if claimed.Some? {
        jobs := jobs[claimed.value.0 := Blank];
      }
    }

    /** Two writes: the record is blank in between. */
    method ClaimNextQueued(now: int) returns (claimed: Option<(JobId, Job)>)
      requires Valid()
      modifies this`jobs
      ensures Valid()
      ensures claimed.Some? ==>
        var j := claimed.value.0;
        && IsNext(order, old(jobs), j) && HasStatus(old(jobs), j, Queued)
        && claimed.value.1 == old(jobs)[j].job.(status := Processing, updatedAt := now)
        && OnlyChanges(old(jobs), jobs, j, claimed.value.1)
      ensures claimed.None? ==> jobs == old(jobs) && forall j :: j in order ==> !HasStatus(old(jobs), j, Queued)
    {
      var found := ClaimNextJob();
      if found.None? {
        return None;
      }
      var id, data := found.value.0, found.value.1;
      jobs := jobs[id := WithStatus(data.job, Processing, now)];
      return Some((id, jobs[id].job));
    }

    /** Queues interrupted jobs again; returns how many jobs wait. */
    method ResumeIncompleteJobs(now: int) returns (recovered: nat)
      requires Valid()
      modifies this`jobs
      ensures Valid()
      ensures IsRecovered(old(jobs), jobs, now) && NoneProcessing(jobs)
      ensures recovered == |set j | j in jobs && HasStatus(jobs, j, Queued)|
    {
      recovered := 0;
      var snapshot := jobs;
      var left := snapshot.Keys;
      ghost var counted: set<JobId> := {};
      while left != {}
        invariant left <= snapshot.Keys
        invariant jobs == PartlyRecovered(snapshot, left, now)
        invariant counted == QueuedBut(PartlyRecovered(snapshot, left, now), left)
        invariant recovered == |counted|
        decreases |left|
      {
        var id :| id in left;
        RecoveredOneMore(snapshot, left, id, now);
        left := left - {id};
        if IsProcessing(snapshot[id]) {
          jobs := jobs[id := WithStatus(snapshot[id].job, Queued, now)];
          recovered := recovered + 1;
          counted := counted + {id};
        } else if IsQueued(snapshot[id]) {
          recovered := recovered + 1;
          counted := counted + {id};
        }
      }
      AllRecovered(snapshot, now);
    }

    /** Reads the jobs once and lists those that are finished and expired. */
    method ExpiredJobs(now: int) returns (toDelete: seq<JobId>)
      requires Valid()
      ensures forall j :: j in toDelete <==> j in jobs && IsExpired(jobs[j], now)
      ensures NoRepeats(toDelete)
    {
      toDelete := [];
      var left := jobs.Keys;
      while left != {}
        invariant left <= jobs.Keys && NoRepeats(toDelete)
        invariant forall j :: j in toDelete <==> j in jobs && j !in left && IsExpired(jobs[j], now)
        decreases |left|
      {
        var id :| id in left;
        left := left - {id};
        if IsExpired(jobs[id], now) {
          toDelete := toDelete + [id];
        }
      }
    }

    /** One write transaction over both tables. */
    method DeleteJobs(ids: seq<JobId>) returns (deleted: nat)
      requires Valid()
      modifies this`jobs, this`order
      ensures Valid() && jobs == Without(old(jobs), ids)
      ensures order == Filter(j => j !in ids, old(order))
      ensures deleted == |old(jobs)| - |jobs|
    {
      deleted := 0;
      ghost var was := jobs;
      for k := 0 to |ids|
        invariant jobs == Without(was, ids[..k]) && order == old(order)
        invariant deleted == |was| - |jobs|
      {
        WithoutOneMore(was, ids, k);
        var one := DeleteRecord(ids[k]);
        deleted := deleted + one;
      }
      assert ids[..|ids|] == ids;
      WithoutKeeps(was, ids);
      order := Filter(j => j !in ids, order);
    }

    method DeleteRecord(id: JobId) returns (deleted: nat)
      modifies this`jobs
      ensures jobs == old(jobs) - {id} && deleted == |old(jobs)| - |jobs|
    {
      RemoveOne(jobs, id);
      deleted := if id in jobs then 1 else 0;
      jobs := jobs - {id};
    }

    /** Deletes what was finished and expired when the jobs were read, and nothing else. */
    method CleanupExpiredJobs(now: int) returns (deleted: nat)
      requires Valid()
      modifies this`jobs, this`order
      ensures Valid()
      ensures jobs == map j | j in old(jobs) && !IsOld(old(jobs), j, now) :: old(jobs)[j]
      ensures deleted == |old(jobs)| - |jobs|
    {
      var toDelete := ExpiredJobs(now);
      forall j | j in jobs ensures IsExpired(jobs[j], now) <==> IsOld(jobs, j, now) { ExpiredIsOld(jobs, j, now); }
      if toDelete == [] {
        return 0;
      }
      WithoutKeeps(jobs, toDelete);
      deleted := DeleteJobs(toDelete);
    }
  }

  /** The records while those of `left` are still as they were read. */
  function PartlyRecovered(snapshot: map<JobId, Record>, left: set<JobId>, now: int): map<JobId, Record> {
    map j | j in snapshot :: if j in left then snapshot[j] else Recovered(snapshot[j], now)
  }

  function QueuedBut(jobs: map<JobId, Record>, left: set<JobId>): set<JobId> {
    set j | j in jobs && j !in left && IsQueued(jobs[j])
  }

  lemma {:induction false} RecoveredOneMore(snapshot: map<JobId, Record>, left: set<JobId>, id: JobId, now: int)
    requires left <= snapshot.Keys && id in left
    ensures PartlyRecovered(snapshot, left - {id}, now)
      == PartlyRecovered(snapshot, left, now)[id := Recovered(snapshot[id], now)]
    ensures PartlyRecovered(snapshot, left, now)[id] == snapshot[id]
    ensures QueuedBut(PartlyRecovered(snapshot, left - {id}, now), left - {id})
      == QueuedBut(PartlyRecovered(snapshot, left, now), left)
         + if IsQueued(Recovered(snapshot[id], now)) then {id} else {}
    ensures id !in QueuedBut(PartlyRecovered(snapshot, left, now), left)
  {
  }

  lemma {:induction false} AllRecovered(snapshot: map<JobId, Record>, now: int)
    ensures var after := PartlyRecovered(snapshot, {}, now);
      && IsRecovered(snapshot, after, now) && NoneProcessing(after)
      && QueuedBut(after, {}) == set j | j in after && HasStatus(after, j, Queued)
  {
    RecoveredIsRecovered(snapshot, PartlyRecovered(snapshot, {}, now), now);
  }

  ghost predicate NoRepeats(ids: seq<JobId>) { forall i, k :: 0 <= i < k < |ids| ==> ids[i] != ids[k] }

  function Without(jobs: map<JobId, Record>, ids: seq<JobId>): map<JobId, Record> {
    if ids == [] then jobs else Without(jobs, ids[..|ids| - 1]) - {ids[|ids| - 1]}
  }

  lemma {:induction false} WithoutKeeps(jobs: map<JobId, Record>, ids: seq<JobId>)
    ensures Without(jobs, ids) == map j | j in jobs && j !in ids :: jobs[j]
  {
    if ids != [] {
      WithoutKeeps(jobs, ids[..|ids| - 1]);
      assert ids == ids[..|ids| - 1] + [ids[|ids| - 1]];
    }
  }

  lemma {:induction false} RemoveOne(jobs: map<JobId, Record>, id: JobId)
    ensures |jobs - {id}| == if id in jobs then |jobs| - 1 else |jobs|
  {
    if id in jobs {
      assert jobs.Keys == (jobs - {id}).Keys + {id};
    } else {
      assert jobs - {id} == jobs;
    }
  }

  lemma {:induction false} WithoutOneMore(jobs: map<JobId, Record>, ids: seq<JobId>, k: nat)
    requires k < |ids|
    ensures Without(jobs, ids[..k + 1]) == Without(jobs, ids[..k]) - {ids[k]}
  {
    assert ids[..k + 1][..k] == ids[..k];
  }
}
