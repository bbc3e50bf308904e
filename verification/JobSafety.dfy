// What the queue guarantees over every run of every number of workers.
module JobSafety {
  import opened Common
  import opened JobModel
  import opened JobRuns
  import opened JobTheorems

  ghost predicate Reachable(s: System) {
    exists n: nat, actions: seq<Action> :: Run(Initial(n), actions) == Some(s)
  }

  lemma {:induction false} ReachableIsOk(s: System)
    requires Reachable(s)
    ensures Inv(s)
  {
    var n: nat, actions :| Run(Initial(n), actions) == Some(s);
    RunKeeps(Initial(n), actions);
  }

  /** No two workers hold the same job, and a job that is held is not queued and not finished. */
  lemma {:induction false} NoJobIsHeldTwice(s: System, i: nat, k: nat)
    requires Reachable(s) && i < |s.workers| && k < |s.workers| && s.workers[i].Busy?
    ensures s.workers[i].job in s.jobs
    ensures !IsQueued(s.jobs[s.workers[i].job]) && !IsTerminal(s.jobs[s.workers[i].job])
    ensures i != k && s.workers[k].Busy? ==> s.workers[i].job != s.workers[k].job
  {
    ReachableIsOk(s);
    assert WorkerOk(s.workers[i], s.jobs, s.docs, s.indexed);
  }

  // ---- Finished jobs ----------------------------------------------------

  /** `j` has the record `r`, or has been deleted. */
  ghost predicate Settled(s: System, j: JobId, r: Record) {
    j < s.nextId && (j in s.jobs ==> s.jobs[j] == r)
  }

  lemma {:induction false} StepSettles(s: System, a: Action, j: JobId, r: Record)
    requires Inv(s) && Settled(s, j, r) && IsTerminal(r) && Do(s, a).Some?
    ensures Settled(Do(s, a).value, j, r)
  {
    if a.Move? { assert WorkerOk(s.workers[a.w], s.jobs, s.docs, s.indexed); }
    if a.ClaimNext? { var k := FirstQueuedIsFirst(s.order, s.jobs); }
    if a.RecoverOne? { assert s.boot.todo[0] in s.boot.todo; }
  }

  lemma {:induction false} RunSettles(s: System, actions: seq<Action>, j: JobId, r: Record)
    requires Inv(s) && Settled(s, j, r) && IsTerminal(r) && Run(s, actions).Some?
    ensures Settled(Run(s, actions).value, j, r)
    decreases |actions|
  {
    if actions != [] {
      StepSettles(s, actions[0], j, r);
      DoKeeps(s, actions[0]);
      RunSettles(Do(s, actions[0]).value, actions[1..], j, r);
    }
  }

  /** A finished job keeps its whole record until it is deleted, and a deleted id never comes back. */
  lemma {:induction false} FinishedStaysFinished(s: System, actions: seq<Action>, j: JobId)
    requires Reachable(s) && j in s.jobs && IsTerminal(s.jobs[j]) && Run(s, actions).Some?
    ensures j in Run(s, actions).value.jobs ==> Run(s, actions).value.jobs[j] == s.jobs[j]
  {
    ReachableIsOk(s);
    RunSettles(s, actions, j, s.jobs[j]);
  }

  ghost predicate Deletes(s: System, a: Action, j: JobId) {
    a.CleanupDelete? && a.fine && s.cleaning.Some? && j in s.cleaning.value
  }

  /** Only cleanup deletes, and only finished jobs, although it deletes by an old snapshot. */
  lemma {:induction false} OnlyFinishedJobsAreDeleted(s: System, a: Action, j: JobId)
    requires Reachable(s) && Do(s, a).Some? && j in s.jobs && j !in Do(s, a).value.jobs
    ensures Deletes(s, a, j) && IsTerminal(s.jobs[j])
  {
    ReachableIsOk(s);
  }

  // ---- Checkpoints ------------------------------------------------------

  /** A worker has blanked the record of `j` and not yet written it back. */
  ghost predicate InClaimWindow(s: System, j: JobId) {
    exists k :: 0 <= k < |s.workers| && Holds(s.workers[k], j) && s.workers[k].phase.Claim?
  }

  /** The checkpoint is in the record, or in the copy of the worker that is claiming the job. */
  ghost predicate HasCheckpoint(s: System, j: JobId, doc: DocId) {
    || (j in s.jobs && s.jobs[j].Stored? && s.jobs[j].job.checkpoint == Some(doc))
    || CopyHasCheckpoint(s.workers, j, doc)
  }

  ghost predicate CopyHasCheckpoint(workers: seq<Worker>, j: JobId, doc: DocId) {
    exists k :: 0 <= k < |workers| && Holds(workers[k], j) && workers[k].phase.Claim?
      && workers[k].phase.copy.checkpoint == Some(doc)
  }

  /** The second write of a claim of `j` fails. */
  ghost predicate ClaimWriteFails(s: System, a: Action, j: JobId) {
    a.Move? && a.w < |s.workers| && Holds(s.workers[a.w], j) && s.workers[a.w].phase.Claim? && !a.outcome.Fine?
  }

  lemma {:induction false} OtherMoveKeepsCheckpoint(s: System, a: Action, j: JobId, doc: DocId)
    requires Inv(s) && HasCheckpoint(s, j, doc) && Do(s, a).Some? && a.Move? && s.workers[a.w].job != j
    ensures HasCheckpoint(Do(s, a).value, j, doc)
  {
    var s', w := Do(s, a).value, s.workers[a.w];
    if CopyHasCheckpoint(s.workers, j, doc) {
      var k :| 0 <= k < |s.workers| && Holds(s.workers[k], j) && s.workers[k].phase.Claim?
        && s.workers[k].phase.copy.checkpoint == Some(doc);
      assert s'.workers[k] == s.workers[k];
    }
  }

  lemma {:induction false} ClaimantHasCopy(s: System, k: nat, doc: DocId)
    requires Inv(s) && k < |s.workers| && s.workers[k].Busy? && HasCheckpoint(s, s.workers[k].job, doc)
    ensures if s.workers[k].phase.Claim? then s.workers[k].phase.copy.checkpoint == Some(doc)
      else s.jobs[s.workers[k].job].Stored? && s.jobs[s.workers[k].job].job.checkpoint == Some(doc)
  {
    var j := s.workers[k].job;
    assert WorkerOk(s.workers[k], s.jobs, s.docs, s.indexed);
    if CopyHasCheckpoint(s.workers, j, doc) {
      var i :| 0 <= i < |s.workers| && Holds(s.workers[i], j) && s.workers[i].phase.Claim?
        && s.workers[i].phase.copy.checkpoint == Some(doc);
      assert i == k;
    }
  }

  lemma {:induction false} OwnMoveAndCheckpoint(s: System, a: Action, doc: DocId)
    requires Inv(s) && Do(s, a).Some? && a.Move? && HasCheckpoint(s, s.workers[a.w].job, doc)
    ensures var j := s.workers[a.w].job;
      HasCheckpoint(Do(s, a).value, j, doc) <==> !ClaimWriteFails(s, a, j)
  {
    var s', w := Do(s, a).value, s.workers[a.w];
    assert WorkerOk(w, s.jobs, s.docs, s.indexed);
    ClaimantHasCopy(s, a.w, doc);
    ActKeepsCheckpoint(w, s.jobs, s.docs, s.indexed, a.outcome, a.now);
    ActOk(w, s.jobs, s.docs, s.indexed, a.outcome, a.now);
    if ClaimWriteFails(s, a, w.job) { CopyIsGone(s, a, doc); }
  }

  lemma {:induction false} CopyIsGone(s: System, a: Action, doc: DocId)
    requires Inv(s) && Do(s, a).Some? && a.Move? && s.workers[a.w].phase.Claim? && !a.outcome.Fine?
    ensures !HasCheckpoint(Do(s, a).value, s.workers[a.w].job, doc)
  {
    var s', j := Do(s, a).value, s.workers[a.w].job;
    assert WorkerOk(s.workers[a.w], s.jobs, s.docs, s.indexed);
    forall k | 0 <= k < |s'.workers| && Holds(s'.workers[k], j) ensures k == a.w { }
  }

  /** A claim writes its copy's checkpoint back; every other write keeps the one that is there. */
  lemma {:induction false} ActKeepsCheckpoint(
      w: Worker, jobs: map<JobId, Record>, docs: seq<JobId>, indexed: seq<DocId>, outcome: Outcome, now: int)
    requires w.Busy? && w.job in jobs && Ready(w, jobs[w.job], docs, indexed)
    ensures var e := Act(w, jobs, |docs|, outcome, now);
      && (w.phase.Claim? ==> (e.write.Some? <==> outcome.Fine?))
      && (w.phase.Claim? && outcome.Fine? ==>
            e.write.value.Stored? && e.write.value.job.checkpoint == w.phase.copy.checkpoint)
      && (e.write.Some? && jobs[w.job].Stored? && jobs[w.job].job.checkpoint.Some? ==>
            e.write.value.Stored? && e.write.value.job.checkpoint == jobs[w.job].job.checkpoint)
  {
  }

  lemma {:induction false} ClaimKeepsCheckpoint(s: System, a: Action, j: JobId, doc: DocId)
    requires Inv(s) && HasCheckpoint(s, j, doc) && Do(s, a).Some? && a.ClaimNext?
    ensures HasCheckpoint(Do(s, a).value, j, doc)
  {
    var s' := Do(s, a).value;
    var first := FirstQueuedIsFirst(s.order, s.jobs);
    if CopyHasCheckpoint(s.workers, j, doc) {
      var k :| 0 <= k < |s.workers| && Holds(s.workers[k], j) && s.workers[k].phase.Claim?
        && s.workers[k].phase.copy.checkpoint == Some(doc);
      assert s'.workers[k] == s.workers[k];
    } else if FirstQueued(s.order, s.jobs).value == j {
      assert Holds(s'.workers[a.w], j) && s'.workers[a.w].phase.copy.checkpoint == Some(doc);
    }
  }

  lemma {:induction false} CrashAndCheckpoint(s: System, j: JobId, doc: DocId)
    requires Inv(s) && HasCheckpoint(s, j, doc)
    ensures HasCheckpoint(DoCrash(s).value, j, doc) <==> !InClaimWindow(s, j)
  {
    if InClaimWindow(s, j) {
      var k :| 0 <= k < |s.workers| && Holds(s.workers[k], j) && s.workers[k].phase.Claim?;
      assert WorkerOk(s.workers[k], s.jobs, s.docs, s.indexed);
    }
  }

  lemma {:induction false} OthersKeepCheckpoint(s: System, a: Action, j: JobId, doc: DocId)
    requires Inv(s) && HasCheckpoint(s, j, doc) && Do(s, a).Some?
    requires a.Enqueue? || a.CleanupRead? || a.Snapshot? || a.RecoverOne? || a.StartWorkers?
    ensures HasCheckpoint(Do(s, a).value, j, doc)
  {
    if a.RecoverOne? { assert s.boot.todo[0] in s.boot.todo; }
  }

  lemma {:induction false} DeleteAndCheckpoint(s: System, fine: bool, j: JobId, doc: DocId)
    requires Inv(s) && HasCheckpoint(s, j, doc) && s.cleaning.Some?
    ensures HasCheckpoint(DoCleanupDelete(s, fine).value, j, doc) <==> !fine || j !in s.cleaning.value
  {
    if CopyHasCheckpoint(s.workers, j, doc) {
      var k :| 0 <= k < |s.workers| && Holds(s.workers[k], j) && s.workers[k].phase.Claim?
        && s.workers[k].phase.copy.checkpoint == Some(doc);
      assert WorkerOk(s.workers[k], s.jobs, s.docs, s.indexed);
      assert j !in s.cleaning.value;
    } else if j in s.cleaning.value {
      assert IsTerminal(s.jobs[j]);
    }
  }

  /**
   * A recorded checkpoint is lost in exactly three ways: cleanup deletes the
   * finished job, or the process dies between the two writes of a claim, or the
   * second of them fails.
   */
  lemma {:induction false} CheckpointIsLostIff(s: System, a: Action, j: JobId, doc: DocId)
    requires Reachable(s) && HasCheckpoint(s, j, doc) && Do(s, a).Some?
    ensures HasCheckpoint(Do(s, a).value, j, doc)
      <==> !Deletes(s, a, j) && !(a.Crash? && InClaimWindow(s, j)) && !ClaimWriteFails(s, a, j)
  {
    ReachableIsOk(s);
    match a
    case Move(k, _, _) =>
      if s.workers[k].job == j { OwnMoveAndCheckpoint(s, a, doc); } else { OtherMoveKeepsCheckpoint(s, a, j, doc); }
    case ClaimNext(_) => ClaimKeepsCheckpoint(s, a, j, doc);
    case Crash => CrashAndCheckpoint(s, j, doc);
    case CleanupDelete(fine) => DeleteAndCheckpoint(s, fine, j, doc);
    case Enqueue(_, _, _) => OthersKeepCheckpoint(s, a, j, doc);
    case CleanupRead(_, _) => OthersKeepCheckpoint(s, a, j, doc);
    case Snapshot(_) => OthersKeepCheckpoint(s, a, j, doc);
    case RecoverOne(_, _) => OthersKeepCheckpoint(s, a, j, doc);
    case StartWorkers => OthersKeepCheckpoint(s, a, j, doc);
  }

  // ---- Blank records ----------------------------------------------------

  /** The record is unreadable, and no claim is about to write it back. */
  ghost predicate Stranded(s: System, j: JobId) {
    j in s.jobs && s.jobs[j] == Blank && !InClaimWindow(s, j)
  }

  lemma {:induction false} CrashStrands(s: System, j: JobId)
    requires Inv(s) && InClaimWindow(s, j)
    ensures Stranded(DoCrash(s).value, j)
  {
    var k :| 0 <= k < |s.workers| && Holds(s.workers[k], j) && s.workers[k].phase.Claim?;
    assert WorkerOk(s.workers[k], s.jobs, s.docs, s.indexed);
  }

  lemma {:induction false} FailedClaimStrands(s: System, a: Action, j: JobId)
    requires Inv(s) && ClaimWriteFails(s, a, j) && Do(s, a).Some?
    ensures Stranded(Do(s, a).value, j)
  {
    var s' := Do(s, a).value;
    assert WorkerOk(s.workers[a.w], s.jobs, s.docs, s.indexed);
    forall k | 0 <= k < |s'.workers| && Holds(s'.workers[k], j) ensures k == a.w { }
  }

  /** A worker that holds a job with a blank record, past the claim, never writes it. */
  lemma {:induction false} BlankIsNotWritten(
      w: Worker, jobs: map<JobId, Record>, docs: seq<JobId>, indexed: seq<DocId>, outcome: Outcome, now: int)
    requires w.Busy? && w.job in jobs && Ready(w, jobs[w.job], docs, indexed) && jobs[w.job].Blank? && !w.phase.Claim?
    ensures var e := Act(w, jobs, |docs|, outcome, now);
      e.write.None? && e.completes.None? && (e.worker.Busy? ==> !e.worker.phase.Claim?)
  {
  }

  lemma {:induction false} MoveStrands(s: System, a: Action, j: JobId)
    requires Inv(s) && Stranded(s, j) && Do(s, a).Some? && a.Move?
    ensures Stranded(Do(s, a).value, j)
  {
    var s', w := Do(s, a).value, s.workers[a.w];
    assert WorkerOk(w, s.jobs, s.docs, s.indexed);
    ActOk(w, s.jobs, s.docs, s.indexed, a.outcome, a.now);
    if w.job == j { BlankIsNotWritten(w, s.jobs, s.docs, s.indexed, a.outcome, a.now); }
    forall k | 0 <= k < |s'.workers| && Holds(s'.workers[k], j) ensures !s'.workers[k].phase.Claim? {
      if k != a.w { assert s'.workers[k] == s.workers[k]; }
    }
  }

  lemma {:induction false} StepStrands(s: System, a: Action, j: JobId)
    requires Inv(s) && Stranded(s, j) && Do(s, a).Some?
    ensures Stranded(Do(s, a).value, j)
  {
    var s' := Do(s, a).value;
    if a.Move? {
      MoveStrands(s, a, j);
    } else {
      if a.ClaimNext? { var first := FirstQueuedIsFirst(s.order, s.jobs); }
      if a.RecoverOne? { assert s.boot.todo[0] in s.boot.todo; }
      forall k | 0 <= k < |s'.workers| && Holds(s'.workers[k], j) ensures !s'.workers[k].phase.Claim? {
        assert s'.workers[k] == s.workers[k];
      }
    }
  }

  lemma {:induction false} RunStrands(s: System, actions: seq<Action>, j: JobId)
    requires Inv(s) && Stranded(s, j) && Run(s, actions).Some?
    ensures Stranded(Run(s, actions).value, j)
    decreases |actions|
  {
    if actions != [] {
      StepStrands(s, actions[0], j);
      DoKeeps(s, actions[0]);
      RunStrands(Do(s, actions[0]).value, actions[1..], j);
    }
  }

  /**
   * A crash between the two writes of a claim, or a second write that fails, is
   * final: the record is never readable again, so the job is never claimed,
   * recovered, finished or cleaned up.
   */
  lemma {:induction false} InterruptedClaimIsFinal(s: System, a: Action, actions: seq<Action>, j: JobId)
    requires Reachable(s) && Do(s, a).Some?
    requires (a.Crash? && InClaimWindow(s, j)) || ClaimWriteFails(s, a, j)
    requires Run(Do(s, a).value, actions).Some?
    ensures Stranded(Run(Do(s, a).value, actions).value, j)
  {
    ReachableIsOk(s);
    DoKeeps(s, a);
    if a.Crash? { CrashStrands(s, j); } else { FailedClaimStrands(s, a, j); }
    RunStrands(Do(s, a).value, actions, j);
  }

  /** A worker's action touches the record of its own job, and no other worker. */
  lemma {:induction false} MoveIsLocal(s: System, k: nat, outcome: Outcome, now: int, j: JobId, i: nat)
    requires Reachable(s) && DoMove(s, k, outcome, now).Some? && j != s.workers[k].job && i < |s.workers| && i != k
    ensures var s' := DoMove(s, k, outcome, now).value;
      && (j in s'.jobs <==> j in s.jobs) && (j in s.jobs ==> s'.jobs[j] == s.jobs[j])
      && |s'.workers| == |s.workers| && s'.workers[i] == s.workers[i]
      && s'.order == s.order && s'.nextId == s.nextId && s'.boot == s.boot && s'.cleaning == s.cleaning
  {
  }

  // ---- The machine and the queue's methods ------------------------------

  /** The two writes of a claim amount to what `ClaimNextQueued` promises. */
  lemma {:induction false} ClaimIsTwoWrites(s: System, k: nat, now: int)
    requires Inv(s) && DoClaim(s, k).Some?
    ensures var j := FirstQueued(s.order, s.jobs).value;
      && IsNext(s.order, s.jobs, j) && HasStatus(s.jobs, j, Queued)
      && DoClaim(s, k).value.jobs == s.jobs[j := Blank]
      && DoMove(DoClaim(s, k).value, k, Fine, now).Some?
      && OnlyChanges(s.jobs, DoMove(DoClaim(s, k).value, k, Fine, now).value.jobs, j,
           s.jobs[j].job.(status := Processing, updatedAt := now))
  {
    FirstQueuedIsNext(s.order, s.jobs);
  }

  /** Recovery, one job at a time, until nothing is left to do. */
  function RecoverAll(s: System, now: int): System
    requires s.boot.Recovering?
    decreases |s.boot.todo|
  {
    if s.boot.todo == [] then s else RecoverAll(DoRecoverOne(s, true, now).value, now)
  }

  /** The interrupted ones among `todo` wait again; all other records are as before. */
  ghost predicate IsRequeued(before: map<JobId, Record>, after: map<JobId, Record>, todo: seq<JobId>, now: int) {
    && after.Keys == before.Keys
    && forall j :: j in before ==>
         after[j] == if j in todo && HasStatus(before, j, Processing)
           then Stored(before[j].job.(status := Queued, updatedAt := now)) else before[j]
  }

  /** Recovery from a snapshot amounts to what `ResumeIncompleteJobs` promises for the jobs that are left to do. */
  lemma {:induction false} RecoveryIsResume(s: System, now: int)
    requires Inv(s) && s.boot.Recovering?
    ensures IsRequeued(s.jobs, RecoverAll(s, now).jobs, s.boot.todo, now)
    ensures RecoverAll(s, now).boot.Recovering? && RecoverAll(s, now).boot.todo == []
    ensures RecoverAll(s, now).order == s.order
    decreases |s.boot.todo|
  {
    if s.boot.todo != [] {
      var id, s' := s.boot.todo[0], DoRecoverOne(s, true, now).value;
      assert id in s.boot.todo && s.jobs[id] == RecordOf(s.boot.snapshot, id);
      assert s.boot.todo == [id] + s'.boot.todo;
      OneIsRequeued(s, now);
      RecoverKeeps(s, true, now);
      RecoveryIsResume(s', now);
      RequeuedFirst(s.jobs, s'.jobs, RecoverAll(s', now).jobs, id, s'.boot.todo, now);
    }
  }

  lemma {:induction false} OneIsRequeued(s: System, now: int)
    requires Inv(s) && s.boot.Recovering? && s.boot.todo != []
    ensures IsRequeued(s.jobs, DoRecoverOne(s, true, now).value.jobs, [s.boot.todo[0]], now)
    ensures s.boot.todo[0] !in s.boot.todo[1..]
  {
    var id := s.boot.todo[0];
    assert id in s.boot.todo && s.jobs[id] == RecordOf(s.boot.snapshot, id);
  }

  lemma {:induction false} RequeuedFirst(
      before: map<JobId, Record>, between: map<JobId, Record>, after: map<JobId, Record>, id: JobId, rest: seq<JobId>,
      now: int)
    requires IsRequeued(before, between, [id], now) && IsRequeued(between, after, rest, now) && id !in rest
    ensures IsRequeued(before, after, [id] + rest, now)
  {
  }

  /**
   * After a restart in which every write is fine no record is left in
   * Processing: each interrupted job waits again, as it is otherwise, and
   * workers may start and claim.
   */
  lemma {:induction false} RestartRequeuesAll(s: System, ids: seq<JobId>, now: int)
    requires Reachable(s) && DoSnapshot(s, ids).Some?
    ensures var s' := RecoverAll(DoSnapshot(s, ids).value, now);
      && IsRecovered(s.jobs, s'.jobs, now) && NoneProcessing(s'.jobs)
      && s'.order == s.order && DoStartWorkers(s').Some?
      && (forall j :: j in s.order && HasStatus(s.jobs, j, Processing) ==> FirstQueued(s'.order, s'.jobs).Some?)
  {
    var s1 := DoSnapshot(s, ids).value;
    ReachableIsOk(s);
    DoKeeps(s, Snapshot(ids));
    RecoveryIsResume(s1, now);
    FirstQueuedIsNext(s.order, RecoverAll(s1, now).jobs);
  }
}
