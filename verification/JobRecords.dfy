// What the records of the queue say along every run.
module JobRecords {
  import opened Common
  import opened JobModel
  import opened JobRuns
  import opened JobTheorems
  import opened JobSafety

  // ---- When a record was written ----------------------------------------

  /** The clock of the process at a step, when the step reads it. */
  ghost predicate IsClockOf(a: Action, now: int) {
    (a.Enqueue? || a.Move? || a.RecoverOne?) && a.now == now
  }

  lemma {:induction false} MoveIsDated(s: System, a: Action, j: JobId)
    requires Inv(s) && a.Move? && Do(s, a).Some? && j in Do(s, a).value.jobs && Do(s, a).value.jobs[j].Stored?
    ensures (j in s.jobs && s.jobs[j] == Do(s, a).value.jobs[j]) || Do(s, a).value.jobs[j].job.updatedAt == a.now
  {
    assert WorkerOk(s.workers[a.w], s.jobs, s.docs, s.indexed);
  }

  /** Whatever step writes a readable record dates it by its own clock. */
  lemma {:induction false} WritesAreDated(s: System, a: Action, j: JobId)
    requires Reachable(s) && Do(s, a).Some? && j in Do(s, a).value.jobs && Do(s, a).value.jobs[j].Stored?
    requires j !in s.jobs || s.jobs[j] != Do(s, a).value.jobs[j]
    ensures IsClockOf(a, Do(s, a).value.jobs[j].job.updatedAt)
  {
    ReachableIsOk(s);
    if a.Move? { MoveIsDated(s, a, j); }
  }

  // ---- What was asked for -----------------------------------------------

  /** Wherever the job is recorded, or copied by its claimant, it asks for the same, created at the same time. */
  ghost predicate AsksFor(s: System, j: JobId, request: string, createdAt: int) {
    && j < s.nextId
    && (j in s.jobs && s.jobs[j].Stored? ==> IsFor(s.jobs[j].job, request, createdAt))
    && (forall k :: 0 <= k < |s.workers| && Holds(s.workers[k], j) && s.workers[k].phase.Claim? ==>
          IsFor(s.workers[k].phase.copy, request, createdAt))
  }

  predicate IsFor(job: Job, request: string, createdAt: int) { job.request == request && job.createdAt == createdAt }

  /** An action writes what was asked for, as it is in the record or in the copy. */
  lemma {:induction false} ActAsksFor(
      w: Worker, jobs: map<JobId, Record>, docs: seq<JobId>, indexed: seq<DocId>, outcome: Outcome, now: int)
    requires w.Busy? && w.job in jobs && Ready(w, jobs[w.job], docs, indexed)
    ensures var e := Act(w, jobs, |docs|, outcome, now);
      && (e.write.Some? ==> e.write.value.Stored?)
      && (e.write.Some? && w.phase.Claim? ==>
            IsFor(e.write.value.job, w.phase.copy.request, w.phase.copy.createdAt))
      && (e.write.Some? && !w.phase.Claim? ==> jobs[w.job].Stored?)
      && (e.write.Some? && !w.phase.Claim? ==>
            IsFor(e.write.value.job, jobs[w.job].job.request, jobs[w.job].job.createdAt))
      && (e.worker.Busy? ==> !e.worker.phase.Claim?)
  {
  }

  lemma {:induction false} MoveAsksFor(s: System, a: Action, j: JobId, request: string, createdAt: int)
    requires Inv(s) && AsksFor(s, j, request, createdAt) && a.Move? && Do(s, a).Some?
    ensures AsksFor(Do(s, a).value, j, request, createdAt)
  {
    var s', w := Do(s, a).value, s.workers[a.w];
    assert WorkerOk(w, s.jobs, s.docs, s.indexed);
    ActAsksFor(w, s.jobs, s.docs, s.indexed, a.outcome, a.now);
    forall k | 0 <= k < |s'.workers| && Holds(s'.workers[k], j) && s'.workers[k].phase.Claim?
      ensures IsFor(s'.workers[k].phase.copy, request, createdAt)
    {
      assert s'.workers[k] == s.workers[k];
    }
  }

  lemma {:induction false} StepAsksFor(s: System, a: Action, j: JobId, request: string, createdAt: int)
    requires Inv(s) && AsksFor(s, j, request, createdAt) && Do(s, a).Some?
    ensures AsksFor(Do(s, a).value, j, request, createdAt)
  {
    if a.Move? {
      MoveAsksFor(s, a, j, request, createdAt);
    } else {
      if a.ClaimNext? { var first := FirstQueuedIsFirst(s.order, s.jobs); }
      if a.RecoverOne? { assert s.boot.todo[0] in s.boot.todo; }
    }
  }

  lemma {:induction false} RunAsksFor(s: System, actions: seq<Action>, j: JobId, request: string, createdAt: int)
    requires Inv(s) && AsksFor(s, j, request, createdAt) && Run(s, actions).Some?
    ensures AsksFor(Run(s, actions).value, j, request, createdAt)
    decreases |actions|
  {
    if actions != [] {
      StepAsksFor(s, actions[0], j, request, createdAt);
      DoKeeps(s, actions[0]);
      RunAsksFor(Do(s, actions[0]).value, actions[1..], j, request, createdAt);
    }
  }

  /**
   * From its enqueueing on, over every run, through claims, crashes and
   * recoveries, a readable record of the job says what it was enqueued for, and
   * when.
   */
  lemma {:induction false} RequestIsKept(
      s: System, request: string, at: nat, now: int, actions: seq<Action>, j: JobId)
    requires Reachable(s) && Do(s, Enqueue(request, at, now)).Some? && j == s.nextId
    requires Run(Do(s, Enqueue(request, at, now)).value, actions).Some?
    ensures var s' := Run(Do(s, Enqueue(request, at, now)).value, actions).value;
      j in s'.jobs && s'.jobs[j].Stored? ==> s'.jobs[j].job.request == request && s'.jobs[j].job.createdAt == now
  {
    ReachableIsOk(s);
    DoKeeps(s, Enqueue(request, at, now));
    var s1 := Do(s, Enqueue(request, at, now)).value;
    assert forall k :: 0 <= k < |s.workers| ==> WorkerOk(s.workers[k], s.jobs, s.docs, s.indexed);
    RunAsksFor(s1, actions, j, request, now);
  }

  // ---- When a record may go ---------------------------------------------

  /** Cleanup lists exactly the jobs that finished at least 3601 seconds ago. */
  lemma {:induction false} CleanupListsOld(s: System, ids: seq<JobId>, now: int, j: JobId)
    requires DoCleanupRead(s, ids, now).Some?
    ensures j in ids <==> IsOld(s.jobs, j, now)
    ensures DoCleanupRead(s, ids, now).value.cleaning == Some(ids)
  {
    if j in s.jobs { ExpiredIsOld(s.jobs, j, now); }
  }

  /**
   * Cleanup, when nothing comes between its two transactions: the records of
   * those jobs go, with their entries in the order index, and nothing else; if
   * the second transaction fails, nothing goes.
   */
  lemma {:induction false} CleanupDeletesOld(s: System, ids: seq<JobId>, fine: bool, now: int)
    requires DoCleanupRead(s, ids, now).Some?
    ensures var deleted := DoCleanupDelete(DoCleanupRead(s, ids, now).value, fine);
      && deleted.Some? && deleted.value.cleaning == None
      && (!fine ==> deleted.value.jobs == s.jobs && deleted.value.order == s.order)
      && (fine ==> deleted.value.jobs == map j | j in s.jobs && !IsOld(s.jobs, j, now) :: s.jobs[j])
      && (fine ==> IsFiltered(j => !IsOld(s.jobs, j, now), s.order, deleted.value.order))
  {
    forall j ensures j in ids <==> IsOld(s.jobs, j, now) { CleanupListsOld(s, ids, now, j); }
    FilterIsFiltered(j => j !in ids, j => !IsOld(s.jobs, j, now), s.order);
  }

  // ---- What has been recovered when the workers start -------------------

  /** While jobs are recovered, those in Processing are still to do. */
  ghost predicate InterruptedAreListed(s: System) {
    s.boot.Recovering? && forall j :: HasStatus(s.jobs, j, Processing) ==> j in s.boot.todo
  }

  /** A step other than a crash, in which a recovery write does not fail. */
  predicate RecoversWell(a: Action) { !a.Crash? && (a.RecoverOne? ==> a.fine) }

  lemma {:induction false} RecoveryListsOn(s: System, a: Action)
    requires Inv(s) && InterruptedAreListed(s) && Do(s, a).Some? && RecoversWell(a) && !a.StartWorkers?
    ensures InterruptedAreListed(Do(s, a).value)
  {
    var s' := Do(s, a).value;
    if a.RecoverOne? {
      var id := s.boot.todo[0];
      assert id in s.boot.todo;
      forall j | HasStatus(s'.jobs, j, Processing) ensures j in s'.boot.todo {
        assert j != id && HasStatus(s.jobs, j, Processing) && j in s.boot.todo;
      }
    }
  }

  lemma {:induction false} RecoveryGoesOn(s: System, actions: seq<Action>)
    requires Inv(s) && InterruptedAreListed(s) && Run(s, actions).Some?
    requires forall i :: 0 <= i < |actions| ==> RecoversWell(actions[i]) && !actions[i].StartWorkers?
    ensures InterruptedAreListed(Run(s, actions).value)
    decreases |actions|
  {
    if actions != [] {
      RecoveryListsOn(s, actions[0]);
      DoKeeps(s, actions[0]);
      RecoveryGoesOn(Do(s, actions[0]).value, actions[1..]);
    }
  }

  /**
   * After a restart from any reachable state, whatever is done meanwhile: when
   * the workers may start and no recovery write has failed, no job is left in
   * Processing.
   */
  lemma {:induction false} WorkersStartRecovered(s: System, ids: seq<JobId>, actions: seq<Action>, j: JobId)
    requires Reachable(s) && Do(s, Snapshot(ids)).Some? && Run(Do(s, Snapshot(ids)).value, actions).Some?
    requires forall i :: 0 <= i < |actions| ==> RecoversWell(actions[i]) && !actions[i].StartWorkers?
    requires Do(Run(Do(s, Snapshot(ids)).value, actions).value, StartWorkers).Some?
    ensures !HasStatus(Do(Run(Do(s, Snapshot(ids)).value, actions).value, StartWorkers).value.jobs, j, Processing)
  {
    ReachableIsOk(s);
    DoKeeps(s, Snapshot(ids));
    RecoveryGoesOn(Do(s, Snapshot(ids)).value, actions);
  }
}
