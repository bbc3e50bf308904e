// Safety of the job queue over every run.
module JobTheorems {
  import opened Common
  import opened JobModel
  import opened JobRuns

  // ---- The invariant is kept --------------------------------------------

  /** `WorkerOk` for a busy worker whose job has record `r`. */
  ghost predicate Ready(w: Worker, r: Record, docs: seq<JobId>, indexed: seq<DocId>) {
    && w.Busy? && OwnsDoc(w, docs) && PhaseOk(w, r, indexed)
    && (!w.phase.Claim? ==> InProcess(r, w.stage))
  }

  /** What one action of a worker is allowed to do. */
  ghost predicate EffectOk(w: Worker, e: Effect, r: Record, docs: seq<JobId>, indexed: seq<DocId>)
    requires w.Busy?
  {
    var docs' := if e.stores then docs + [w.job] else docs;
    var indexed' := if e.indexes.Some? then indexed + [e.indexes.value] else indexed;
    var r' := if e.write.Some? then e.write.value else r;
    && (e.worker.Busy? ==> e.worker.job == w.job && Ready(e.worker, r', docs', indexed'))
    && (e.worker.Idle? ==> w.phase.Write?)
    && !IsTerminal(r)
    && (r'.Stored? && r'.job.checkpoint.Some? ==>
          r'.job.checkpoint.value < |docs'| && docs'[r'.job.checkpoint.value] == w.job)
    && (e.indexes.Some? ==> !w.stage.NoDoc? && e.indexes.value == w.stage.doc && w.stage.doc !in indexed)
    && (e.completes.Some? ==> CompletionOk(w, e.completes.value, indexed))
  }

  ghost predicate CompletionOk(w: Worker, c: Completion, indexed: seq<DocId>)
    requires w.Busy?
  {
    !w.stage.NoDoc? && w.stage.doc == c.doc && c.job == w.job && c.anew == w.anew && (c.anew ==> c.doc in indexed)
  }

  lemma {:induction false} ClaimOnward(
      w: Worker, r: Record, docs: seq<JobId>, indexed: seq<DocId>, outcome: Outcome, now: int)
    requires Ready(w, r, docs, indexed) && w.phase.Claim?
    ensures EffectOk(w, ActClaim(w, outcome, now), r, docs, indexed)
  {
  }

  lemma {:induction false} ChunkOnward(w: Worker, r: Record, docs: seq<JobId>, indexed: seq<DocId>, outcome: Outcome)
    requires Ready(w, r, docs, indexed) && w.phase.Chunk? && |docs| !in indexed
    ensures EffectOk(w, ActChunk(w, |docs|, outcome), r, docs, indexed)
  {
  }

  lemma {:induction false} WriteMarkOnward(
      w: Worker, r: Record, docs: seq<JobId>, indexed: seq<DocId>, outcome: Outcome, now: int)
    requires Ready(w, r, docs, indexed) && w.phase.WriteMark?
    ensures EffectOk(w, ActWriteMark(w, outcome, now), r, docs, indexed)
  {
  }

  lemma {:induction false} IndexOnward(w: Worker, r: Record, docs: seq<JobId>, indexed: seq<DocId>, outcome: Outcome)
    requires Ready(w, r, docs, indexed) && w.phase.Index?
    ensures EffectOk(w, ActIndex(w, outcome), r, docs, indexed)
  {
  }

  lemma {:induction false} ResumeOnward(w: Worker, r: Record, docs: seq<JobId>, indexed: seq<DocId>, outcome: Outcome)
    requires Ready(w, r, docs, indexed) && w.phase.Resume?
    ensures EffectOk(w, ActResume(w, outcome), r, docs, indexed)
  {
  }

  lemma {:induction false} WriteOnward(
      w: Worker, r: Record, docs: seq<JobId>, indexed: seq<DocId>, outcome: Outcome, now: int)
    requires Ready(w, r, docs, indexed) && w.phase.Write?
    ensures EffectOk(w, ActWrite(w, outcome, now), r, docs, indexed)
  {
  }

  lemma {:induction false} QuietOnward(
      w: Worker, jobs: map<JobId, Record>, docs: seq<JobId>, indexed: seq<DocId>, outcome: Outcome, now: int)
    requires w.Busy? && w.job in jobs && Ready(w, jobs[w.job], docs, indexed)
    requires w.phase.Nodes? || w.phase.ReadToMark? || w.phase.Summarise? || w.phase.Read?
    ensures EffectOk(w, Act(w, jobs, |docs|, outcome, now), jobs[w.job], docs, indexed)
  {
  }

  /** A worker keeps what holds of it, whatever it does next and however that turns out. */
  lemma {:induction false} ActOk(
      w: Worker, jobs: map<JobId, Record>, docs: seq<JobId>, indexed: seq<DocId>, outcome: Outcome, now: int)
    requires w.Busy? && w.job in jobs && Ready(w, jobs[w.job], docs, indexed) && |docs| !in indexed
    ensures EffectOk(w, Act(w, jobs, |docs|, outcome, now), jobs[w.job], docs, indexed)
  {
    var r := jobs[w.job];
    match w.phase
    case Claim(_) => ClaimOnward(w, r, docs, indexed, outcome, now);
    case Chunk => ChunkOnward(w, r, docs, indexed, outcome);
    case WriteMark(_) => WriteMarkOnward(w, r, docs, indexed, outcome, now);
    case Index => IndexOnward(w, r, docs, indexed, outcome);
    case Resume => ResumeOnward(w, r, docs, indexed, outcome);
    case Write(_, _) => WriteOnward(w, r, docs, indexed, outcome, now);
    case Nodes => QuietOnward(w, jobs, docs, indexed, outcome, now);
    case ReadToMark => QuietOnward(w, jobs, docs, indexed, outcome, now);
    case Summarise => QuietOnward(w, jobs, docs, indexed, outcome, now);
    case Read(_) => QuietOnward(w, jobs, docs, indexed, outcome, now);
  }

  lemma {:induction false} MoveKeepsWorkers(s: System, k: nat, e: Effect)
    requires Inv(s) && k < |s.workers| && s.workers[k].Busy?
    requires EffectOk(s.workers[k], e, s.jobs[s.workers[k].job], s.docs, s.indexed)
    ensures WorkersOk(Applied(s, k, e))
  {
    var s', w := Applied(s, k, e), s.workers[k];
    forall i | 0 <= i < |s'.workers| ensures WorkerOk(s'.workers[i], s'.jobs, s'.docs, s'.indexed) {
      if i != k && s.workers[i].Busy? {
        assert s.workers[i].job != w.job;
        OtherWorkerKeeps(s, k, e, i);
      }
    }
  }

  lemma {:induction false} OtherWorkerKeeps(s: System, k: nat, e: Effect, i: nat)
    requires Inv(s) && k < |s.workers| && s.workers[k].Busy?
    requires EffectOk(s.workers[k], e, s.jobs[s.workers[k].job], s.docs, s.indexed)
    requires i < |s.workers| && s.workers[i].Busy? && s.workers[i].job != s.workers[k].job
    ensures WorkerOk(s.workers[i], Applied(s, k, e).jobs, Applied(s, k, e).docs, Applied(s, k, e).indexed)
  {
    assert WorkerOk(s.workers[i], s.jobs, s.docs, s.indexed);
    assert WorkerOk(s.workers[k], s.jobs, s.docs, s.indexed);
  }

  lemma {:induction false} MoveKeepsNames(s: System, k: nat, e: Effect)
    requires Inv(s) && k < |s.workers| && s.workers[k].Busy?
    requires EffectOk(s.workers[k], e, s.jobs[s.workers[k].job], s.docs, s.indexed)
    ensures NamesOk(Applied(s, k, e))
  {
    assert WorkerOk(s.workers[k], s.jobs, s.docs, s.indexed);
  }

  lemma {:induction false} MoveKeepsIndex(s: System, k: nat, e: Effect)
    requires Inv(s) && k < |s.workers| && s.workers[k].Busy?
    requires EffectOk(s.workers[k], e, s.jobs[s.workers[k].job], s.docs, s.indexed)
    ensures IndexOk(Applied(s, k, e))
  {
    assert WorkerOk(s.workers[k], s.jobs, s.docs, s.indexed);
  }

  lemma {:induction false} MoveKeeps(s: System, k: nat, outcome: Outcome, now: int)
    requires Inv(s) && DoMove(s, k, outcome, now).Some?
    ensures Inv(DoMove(s, k, outcome, now).value)
  {
    var w := s.workers[k];
    assert WorkerOk(w, s.jobs, s.docs, s.indexed);
    ActOk(w, s.jobs, s.docs, s.indexed, outcome, now);
    var e := Act(w, s.jobs, |s.docs|, outcome, now);
    MoveKeepsWorkers(s, k, e);
    MoveKeepsNames(s, k, e);
    MoveKeepsIndex(s, k, e);
    assert s.boot.Running?;
  }

  lemma {:induction false} ClaimKeeps(s: System, k: nat)
    requires Inv(s) && DoClaim(s, k).Some?
    ensures Inv(DoClaim(s, k).value)
  {
    var s' := DoClaim(s, k).value;
    var j := FirstQueued(s.order, s.jobs).value;
    var first := FirstQueuedIsFirst(s.order, s.jobs);
    forall i | 0 <= i < |s.workers| && s.workers[i].Busy?
      ensures s.workers[i].job != j && WorkerOk(s.workers[i], s'.jobs, s.docs, s.indexed)
    {
      assert WorkerOk(s.workers[i], s.jobs, s.docs, s.indexed);
    }
    assert WorkerOk(s'.workers[k], s'.jobs, s.docs, s.indexed);
  }

  lemma {:induction false} EnqueueKeeps(s: System, request: string, at: nat, now: int)
    requires Inv(s) && DoEnqueue(s, request, at, now).Some?
    ensures Inv(DoEnqueue(s, request, at, now).value)
  {
    var s' := DoEnqueue(s, request, at, now).value;
    forall i | 0 <= i < |s.workers| ensures WorkerOk(s'.workers[i], s'.jobs, s'.docs, s'.indexed) {
      assert WorkerOk(s.workers[i], s.jobs, s.docs, s.indexed);
    }
  }

  lemma {:induction false} DeleteKeeps(s: System, fine: bool)
    requires Inv(s) && DoCleanupDelete(s, fine).Some?
    ensures Inv(DoCleanupDelete(s, fine).value)
  {
    var s' := DoCleanupDelete(s, fine).value;
    forall i | 0 <= i < |s.workers| ensures WorkerOk(s'.workers[i], s'.jobs, s'.docs, s'.indexed) {
      assert WorkerOk(s.workers[i], s.jobs, s.docs, s.indexed);
      assert s.workers[i].Busy? ==> !IsTerminal(s.jobs[s.workers[i].job]);
    }
  }

  lemma {:induction false} RecoverKeeps(s: System, fine: bool, now: int)
    requires Inv(s) && DoRecoverOne(s, fine, now).Some?
    ensures Inv(DoRecoverOne(s, fine, now).value)
  {
    var id := s.boot.todo[0];
    assert id in s.boot.todo;
  }

  lemma {:induction false} CrashKeeps(s: System)
    requires Inv(s)
    ensures Inv(DoCrash(s).value)
  {
  }

  lemma {:induction false} RestKeeps(s: System, a: Action)
    requires Inv(s) && Do(s, a).Some? && (a.CleanupRead? || a.Snapshot? || a.StartWorkers?)
    ensures Inv(Do(s, a).value)
  {
    var s' := Do(s, a).value;
    forall i | 0 <= i < |s.workers| ensures WorkerOk(s'.workers[i], s'.jobs, s'.docs, s'.indexed) {
      assert WorkerOk(s.workers[i], s.jobs, s.docs, s.indexed);
    }
  }

  /** Every step of every actor keeps the invariant. */
  lemma {:induction false} DoKeeps(s: System, a: Action)
    requires Inv(s) && Do(s, a).Some?
    ensures Inv(Do(s, a).value)
  {
    match a
    case Enqueue(request, at, now) => EnqueueKeeps(s, request, at, now);
    case ClaimNext(k) => ClaimKeeps(s, k);
    case Move(k, outcome, now) => MoveKeeps(s, k, outcome, now);
    case CleanupDelete(fine) => DeleteKeeps(s, fine);
    case Crash => CrashKeeps(s);
    case RecoverOne(fine, now) => RecoverKeeps(s, fine, now);
    case CleanupRead(_, _) => RestKeeps(s, a);
    case Snapshot(_) => RestKeeps(s, a);
    case StartWorkers => RestKeeps(s, a);
  }

  lemma {:induction false} RunKeeps(s: System, actions: seq<Action>)
    requires Inv(s) && Run(s, actions).Some?
    ensures Inv(Run(s, actions).value)
    decreases |actions|
  {
    if actions != [] {
      DoKeeps(s, actions[0]);
      RunKeeps(Do(s, actions[0]).value, actions[1..]);
    }
  }
}
