// One attempt at a job, step by step: undisturbed, resumed, and failing in any phase.
module JobAttempts {
  import opened Common
  import opened JobModel
  import opened JobRuns

  /** The system with worker `k` on job `j`, whose record is `r`, and what has been done so far. */
  function Along(
      s: System, k: nat, j: JobId, r: Record, w: Worker, docs: seq<JobId>, indexed: seq<DocId>,
      completions: seq<Completion>): System
    requires k < |s.workers|
  {
    s.(jobs := s.jobs[j := r], workers := s.workers[k := w], docs := docs, indexed := indexed,
       completions := completions)
  }

  lemma {:induction false} RunOn(s: System, a: Action, s': System, rest: seq<Action>, all: seq<Action>)
    requires Do(s, a) == Some(s') && all == [a] + rest
    ensures Run(s, all) == Run(s', rest)
  {
    assert all[1..] == rest;
  }

  lemma {:induction false} RunBoth(s: System, a: seq<Action>, b: seq<Action>)
    requires Run(s, a).Some?
    ensures Run(s, a + b) == Run(Run(s, a).value, b)
    decreases |a|
  {
    if a == [] {
      assert a + b == b;
    } else {
      assert (a + b)[1..] == a[1..] + b;
      RunBoth(Do(s, a[0]).value, a[1..], b);
    }
  }

  lemma {:induction false} SameSystem(a: System, b: System)
    requires a.jobs == b.jobs && a.order == b.order && a.nextId == b.nextId && a.workers == b.workers
    requires a.boot == b.boot && a.cleaning == b.cleaning && a.docs == b.docs && a.indexed == b.indexed
    requires a.completions == b.completions
    ensures a == b
  {
  }

  lemma {:induction false} Overwrites(s: System, k: nat, j: JobId, r: Record, r': Record, w: Worker, w': Worker)
    requires k < |s.workers|
    ensures s.jobs[j := r][j := r'] == s.jobs[j := r']
    ensures s.workers[k := w][k := w'] == s.workers[k := w']
  {
  }

  /** What an effect makes of the system. */
  function After(
      s: System, k: nat, j: JobId, r: Record, docs: seq<JobId>, indexed: seq<DocId>, completions: seq<Completion>,
      e: Effect): System
    requires k < |s.workers|
  {
    Along(
      s, k, j, if e.write.Some? then e.write.value else r, e.worker, if e.stores then docs + [j] else docs,
      if e.indexes.Some? then indexed + [e.indexes.value] else indexed,
      if e.completes.Some? then completions + [e.completes.value] else completions)
  }

  lemma {:induction false} AppliedIs(
      s: System, k: nat, j: JobId, r: Record, w: Worker, docs: seq<JobId>, indexed: seq<DocId>,
      completions: seq<Completion>, e: Effect)
    requires k < |s.workers| && w.Busy? && w.job == j
    ensures Along(s, k, j, r, w, docs, indexed, completions).workers[k] == w
    ensures Applied(Along(s, k, j, r, w, docs, indexed, completions), k, e)
      == After(s, k, j, r, docs, indexed, completions, e)
  {
    Overwrites(s, k, j, r, if e.write.Some? then e.write.value else r, w, e.worker);
    SameSystem(Applied(Along(s, k, j, r, w, docs, indexed, completions), k, e),
      After(s, k, j, r, docs, indexed, completions, e));
  }

  /** One action of worker `k` on job `j`, by what `Act` makes of it. */
  lemma {:induction false} MoveLeads(
      s: System, k: nat, j: JobId, r: Record, w: Worker, docs: seq<JobId>, indexed: seq<DocId>,
      completions: seq<Completion>, outcome: Outcome, now: int, e: Effect)
    requires k < |s.workers| && w.Busy? && w.job == j
    requires e == Act(w, Along(s, k, j, r, w, docs, indexed, completions).jobs, |docs|, outcome, now)
    ensures Do(Along(s, k, j, r, w, docs, indexed, completions), Move(k, outcome, now))
      == Some(After(s, k, j, r, docs, indexed, completions, e))
  {
    AppliedIs(s, k, j, r, w, docs, indexed, completions, e);
  }

  /** Worker `k` is free, and job `j` is the next one, with that record. */
  ghost predicate CanClaim(s: System, k: nat, j: JobId, job: Job) {
    && s.boot.Running? && k < |s.workers| && s.workers[k] == Idle
    && IsNext(s.order, s.jobs, j) && j in s.jobs && s.jobs[j] == Stored(job)
  }

  lemma {:induction false} NextIsFirstQueued(order: seq<JobId>, jobs: map<JobId, Record>, j: JobId)
    requires IsNext(order, jobs, j)
    ensures FirstQueued(order, jobs) == Some(j)
  {
    var k := FirstQueuedIsFirst(order, jobs);
    var i :| 0 <= i < |order| && order[i] == j && HasStatus(jobs, order[i], Queued)
      && forall h :: 0 <= h < i ==> !HasStatus(jobs, order[h], Queued);
    assert forall h :: 0 <= h < |order| ==> (Waits(order, jobs, h) <==> HasStatus(jobs, order[h], Queued));
  }

  /** The two writes of a claim: the worker starts anew, or from the checkpoint. */
  lemma {:induction false} ClaimLeads(s: System, k: nat, j: JobId, job: Job, now: int)
    requires CanClaim(s, k, j, job)
    ensures var w := if job.checkpoint.Some? then Busy(j, Marked(job.checkpoint.value), false, Resume)
        else Busy(j, NoDoc, true, Chunk);
      Run(s, [ClaimNext(k), Move(k, Fine, now)]) == Some(Along(
        s, k, j, Stored(job.(status := Processing, updatedAt := now)), w, s.docs, s.indexed, s.completions))
  {
    NextIsFirstQueued(s.order, s.jobs, j);
    var stage := if job.checkpoint.Some? then Marked(job.checkpoint.value) else NoDoc;
    var claiming := Busy(j, stage, job.checkpoint.None?, Claim(job));
    var s1 := Along(s, k, j, Blank, claiming, s.docs, s.indexed, s.completions);
    SameSystem(Do(s, ClaimNext(k)).value, s1);
    var e := Act(claiming, s1.jobs, |s.docs|, Fine, now);
    MoveLeads(s, k, j, Blank, claiming, s.docs, s.indexed, s.completions, Fine, now, e);
    RunOn(s, ClaimNext(k), s1, [Move(k, Fine, now)], [ClaimNext(k), Move(k, Fine, now)]);
    RunOn(s1, Move(k, Fine, now), Do(s1, Move(k, Fine, now)).value, [], [Move(k, Fine, now)]);
  }

  /** `n` actions of worker `k` that all turn out fine. */
  function Moves(k: nat, now: int, n: nat): seq<Action> { seq(n, _ => Move(k, Fine, now)) }

  lemma {:induction false} OneMove(s: System, k: nat, now: int, n: nat, s': System)
    requires Do(s, Move(k, Fine, now)) == Some(s')
    ensures Run(s, Moves(k, now, n + 1)) == Run(s', Moves(k, now, n))
  {
    assert Moves(k, now, n + 1) == [Move(k, Fine, now)] + Moves(k, now, n);
    RunOn(s, Move(k, Fine, now), s', Moves(k, now, n), Moves(k, now, n + 1));
  }

  /** The document and its nodes, in two actions. */
  lemma {:induction false} NodesAreReached(s: System, k: nat, j: JobId, r: Record, now: int, n: nat)
    requires k < |s.workers|
    ensures var d := |s.docs|;
      Run(Along(s, k, j, r, Busy(j, NoDoc, true, Chunk), s.docs, s.indexed, s.completions), Moves(k, now, n + 2))
      == Run(Along(s, k, j, r, Busy(j, Unmarked(d), true, ReadToMark), s.docs + [j], s.indexed, s.completions),
           Moves(k, now, n))
  {
    var d, docs := |s.docs|, s.docs + [j];
    var w0, w1 := Busy(j, NoDoc, true, Chunk), Busy(j, Unmarked(d), true, Nodes);
    var w2 := Busy(j, Unmarked(d), true, ReadToMark);
    var s0 := Along(s, k, j, r, w0, s.docs, s.indexed, s.completions);
    var s1 := Along(s, k, j, r, w1, docs, s.indexed, s.completions);
    MoveLeads(s, k, j, r, w0, s.docs, s.indexed, s.completions, Fine, now, Act(w0, s0.jobs, d, Fine, now));
    MoveLeads(s, k, j, r, w1, docs, s.indexed, s.completions, Fine, now, Act(w1, s1.jobs, |docs|, Fine, now));
    OneMove(s0, k, now, n + 1, s1);
    OneMove(s1, k, now, n, Along(s, k, j, r, w2, docs, s.indexed, s.completions));
  }

  /** The persisted checkpoint, in two actions. */
  lemma {:induction false} MarkIsReached(
      s: System, k: nat, j: JobId, job: Job, d: DocId, docs: seq<JobId>, now: int, n: nat)
    requires k < |s.workers|
    ensures
      Run(Along(s, k, j, Stored(job), Busy(j, Unmarked(d), true, ReadToMark), docs, s.indexed, s.completions),
          Moves(k, now, n + 2))
      == Run(Along(s, k, j, Stored(job.(checkpoint := Some(d), updatedAt := now)), Busy(j, Marked(d), true, Summarise),
           docs, s.indexed, s.completions), Moves(k, now, n))
  {
    var r := Stored(job);
    var w0, w1 := Busy(j, Unmarked(d), true, ReadToMark), Busy(j, Unmarked(d), true, WriteMark(r));
    var s0 := Along(s, k, j, r, w0, docs, s.indexed, s.completions);
    var s1 := Along(s, k, j, r, w1, docs, s.indexed, s.completions);
    MoveLeads(s, k, j, r, w0, docs, s.indexed, s.completions, Fine, now, Act(w0, s0.jobs, |docs|, Fine, now));
    MoveLeads(s, k, j, r, w1, docs, s.indexed, s.completions, Fine, now, Act(w1, s1.jobs, |docs|, Fine, now));
    OneMove(s0, k, now, n + 1, s1);
    OneMove(s1, k, now, n, Along(s, k, j, Stored(job.(checkpoint := Some(d), updatedAt := now)),
      Busy(j, Marked(d), true, Summarise), docs, s.indexed, s.completions));
  }

  /** Summaries and index, in two actions. */
  lemma {:induction false} IndexIsReached(
      s: System, k: nat, j: JobId, r: Record, d: DocId, docs: seq<JobId>, now: int, n: nat)
    requires k < |s.workers|
    ensures
      Run(Along(s, k, j, r, Busy(j, Marked(d), true, Summarise), docs, s.indexed, s.completions), Moves(k, now, n + 2))
      == Run(Along(s, k, j, r, Busy(j, Marked(d), true, Read(Completed(d))), docs, s.indexed + [d], s.completions),
           Moves(k, now, n))
  {
    var w0, w1 := Busy(j, Marked(d), true, Summarise), Busy(j, Marked(d), true, Index);
    var s0 := Along(s, k, j, r, w0, docs, s.indexed, s.completions);
    var s1 := Along(s, k, j, r, w1, docs, s.indexed, s.completions);
    MoveLeads(s, k, j, r, w0, docs, s.indexed, s.completions, Fine, now, Act(w0, s0.jobs, |docs|, Fine, now));
    MoveLeads(s, k, j, r, w1, docs, s.indexed, s.completions, Fine, now, Act(w1, s1.jobs, |docs|, Fine, now));
    OneMove(s0, k, now, n + 1, s1);
    OneMove(s1, k, now, n,
      Along(s, k, j, r, Busy(j, Marked(d), true, Read(Completed(d))), docs, s.indexed + [d], s.completions));
  }

  /** The status is persisted in two actions, and the worker is free again. */
  lemma {:induction false} StatusIsWritten(
      s: System, k: nat, j: JobId, job: Job, stage: Stage, anew: bool, status: Status, docs: seq<JobId>,
      indexed: seq<DocId>, now: int)
    requires k < |s.workers| && (status.Completed? || status.Failed?)
    ensures var done := if status.Completed? then s.completions + [Completion(j, status.doc, anew)] else s.completions;
      Run(Along(s, k, j, Stored(job), Busy(j, stage, anew, Read(status)), docs, indexed, s.completions),
          Moves(k, now, 2))
      == Some(Along(s, k, j, Stored(job.(status := status, updatedAt := now)), Idle, docs, indexed, done))
  {
    var r := Stored(job);
    var w0, w1 := Busy(j, stage, anew, Read(status)), Busy(j, stage, anew, Write(status, r));
    var s0 := Along(s, k, j, r, w0, docs, indexed, s.completions);
    var s1 := Along(s, k, j, r, w1, docs, indexed, s.completions);
    MoveLeads(s, k, j, r, w0, docs, indexed, s.completions, Fine, now, Act(w0, s0.jobs, |docs|, Fine, now));
    MoveLeads(s, k, j, r, w1, docs, indexed, s.completions, Fine, now, Act(w1, s1.jobs, |docs|, Fine, now));
    OneMove(s0, k, now, 1, s1);
    OneMove(s1, k, now, 0, Do(s1, Move(k, Fine, now)).value);
  }

  /**
   * An undisturbed attempt at a new job: after the claim it stores one document,
   * records it as the checkpoint, summarises, indexes it once, and completes, in
   * eight actions.
   */
  lemma {:induction false} UndisturbedJobCompletes(s: System, k: nat, j: JobId, job: Job, now: int)
    requires CanClaim(s, k, j, job) && job.checkpoint == None
    ensures var d := |s.docs|;
      Run(s, [ClaimNext(k), Move(k, Fine, now)] + Moves(k, now, 8)) == Some(Along(
        s, k, j, Stored(Job(Completed(d), job.request, job.createdAt, now, Some(d))), Idle,
        s.docs + [j], s.indexed + [d], s.completions + [Completion(j, d, true)]))
  {
    var d := |s.docs|;
    var processing := job.(status := Processing, updatedAt := now);
    var marked := processing.(checkpoint := Some(d));
    ClaimLeads(s, k, j, job, now);
    RunBoth(s, [ClaimNext(k), Move(k, Fine, now)], Moves(k, now, 8));
    NodesAreReached(s, k, j, Stored(processing), now, 6);
    MarkIsReached(s, k, j, processing, d, s.docs + [j], now, 4);
    IndexIsReached(s, k, j, Stored(marked), d, s.docs + [j], now, 2);
    StatusIsWritten(s, k, j, marked, Marked(d), true, Completed(d), s.docs + [j], s.indexed + [d], now);
  }

  lemma {:induction false} ResumeIsReached(s: System, k: nat, j: JobId, r: Record, d: DocId, now: int, n: nat)
    requires k < |s.workers|
    ensures
      Run(Along(s, k, j, r, Busy(j, Marked(d), false, Resume), s.docs, s.indexed, s.completions), Moves(k, now, n + 1))
      == Run(Along(s, k, j, r, Busy(j, Marked(d), false, Read(Completed(d))), s.docs, s.indexed, s.completions),
           Moves(k, now, n))
  {
    var w := Busy(j, Marked(d), false, Resume);
    var s0 := Along(s, k, j, r, w, s.docs, s.indexed, s.completions);
    MoveLeads(s, k, j, r, w, s.docs, s.indexed, s.completions, Fine, now, Act(w, s0.jobs, |s.docs|, Fine, now));
    OneMove(s0, k, now, n,
      Along(s, k, j, r, Busy(j, Marked(d), false, Read(Completed(d))), s.docs, s.indexed, s.completions));
  }

  /** An undisturbed attempt from a checkpoint resumes and completes, and neither stores nor indexes anything. */
  lemma {:induction false} ResumedJobCompletes(s: System, k: nat, j: JobId, job: Job, d: DocId, now: int)
    requires CanClaim(s, k, j, job) && job.checkpoint == Some(d)
    ensures Run(s, [ClaimNext(k), Move(k, Fine, now)] + Moves(k, now, 3)) == Some(Along(
      s, k, j, Stored(job.(status := Completed(d), updatedAt := now)), Idle,
      s.docs, s.indexed, s.completions + [Completion(j, d, false)]))
  {
    var processing := job.(status := Processing, updatedAt := now);
    ClaimLeads(s, k, j, job, now);
    RunBoth(s, [ClaimNext(k), Move(k, Fine, now)], Moves(k, now, 3));
    ResumeIsReached(s, k, j, Stored(processing), d, now, 2);
    StatusIsWritten(s, k, j, processing, Marked(d), false, Completed(d), s.docs, s.indexed, now);
  }

  /** Whatever fails, the job is recorded as failed, with the checkpoint it has. */
  lemma {:induction false} FailureIsRecorded(
      s: System, k: nat, j: JobId, job: Job, w: Worker, now: int)
    requires k < |s.workers| && w.Busy? && w.job == j
    requires w.phase.Chunk? || w.phase.Nodes? || w.phase.Summarise? || w.phase.Index? || w.phase.Resume?
    ensures
      Run(Along(s, k, j, Stored(job), w, s.docs, s.indexed, s.completions), [Move(k, Fails, now)] + Moves(k, now, 2))
      == Some(Along(s, k, j, Stored(job.(status := Failed, updatedAt := now)), Idle, s.docs, s.indexed, s.completions))
  {
    var s0 := Along(s, k, j, Stored(job), w, s.docs, s.indexed, s.completions);
    var s1 := Along(s, k, j, Stored(job), w.(phase := Read(Failed)), s.docs, s.indexed, s.completions);
    MoveLeads(s, k, j, Stored(job), w, s.docs, s.indexed, s.completions, Fails, now,
      Act(w, s0.jobs, |s.docs|, Fails, now));
    RunOn(s0, Move(k, Fails, now), s1, Moves(k, now, 2), [Move(k, Fails, now)] + Moves(k, now, 2));
    StatusIsWritten(s, k, j, job, w.stage, w.anew, Failed, s.docs, s.indexed, now);
  }

  /** Indexing that went through before the commit failed stays, and the job is recorded as failed. */
  lemma {:induction false} LateFailureHasIndexed(
      s: System, k: nat, j: JobId, job: Job, d: DocId, stage: Stage, now: int)
    requires k < |s.workers| && (stage == Unmarked(d) || stage == Marked(d))
    ensures
      Run(Along(s, k, j, Stored(job), Busy(j, stage, true, Index), s.docs, s.indexed, s.completions),
          [Move(k, Late, now)] + Moves(k, now, 2))
      == Some(Along(s, k, j, Stored(job.(status := Failed, updatedAt := now)), Idle,
           s.docs, s.indexed + [d], s.completions))
  {
    var w := Busy(j, stage, true, Index);
    var s0 := Along(s, k, j, Stored(job), w, s.docs, s.indexed, s.completions);
    var s1 := Along(s, k, j, Stored(job), w.(phase := Read(Failed)), s.docs, s.indexed + [d], s.completions);
    MoveLeads(s, k, j, Stored(job), w, s.docs, s.indexed, s.completions, Late, now,
      Act(w, s0.jobs, |s.docs|, Late, now));
    RunOn(s0, Move(k, Late, now), s1, Moves(k, now, 2), [Move(k, Late, now)] + Moves(k, now, 2));
    StatusIsWritten(s, k, j, job, stage, true, Failed, s.docs, s.indexed + [d], now);
  }

  /** A checkpoint that cannot be written is passed over: the record stays, and the attempt goes on. */
  lemma {:induction false} LostMarkIsPassedOver(
      s: System, k: nat, j: JobId, r: Record, d: DocId, outcome: Outcome, now: int)
    requires k < |s.workers| && (!outcome.Fine? || r.Blank?)
    ensures
      Do(Along(s, k, j, r, Busy(j, Unmarked(d), true, WriteMark(r)), s.docs, s.indexed, s.completions),
         Move(k, outcome, now))
      == Some(Along(s, k, j, r, Busy(j, Unmarked(d), true, Summarise), s.docs, s.indexed, s.completions))
  {
    var w := Busy(j, Unmarked(d), true, WriteMark(r));
    var s0 := Along(s, k, j, r, w, s.docs, s.indexed, s.completions);
    MoveLeads(s, k, j, r, w, s.docs, s.indexed, s.completions, outcome, now,
      Act(w, s0.jobs, |s.docs|, outcome, now));
  }

  /** A status that cannot be written leaves the record as it is, and frees the worker all the same. */
  lemma {:induction false} LostStatusFreesWorker(
      s: System, k: nat, j: JobId, r: Record, stage: Stage, anew: bool, status: Status, outcome: Outcome, now: int)
    requires k < |s.workers| && (!outcome.Fine? || r.Blank?)
    ensures
      Do(Along(s, k, j, r, Busy(j, stage, anew, Write(status, r)), s.docs, s.indexed, s.completions),
         Move(k, outcome, now))
      == Some(Along(s, k, j, r, Idle, s.docs, s.indexed, s.completions))
  {
    var w := Busy(j, stage, anew, Write(status, r));
    var s0 := Along(s, k, j, r, w, s.docs, s.indexed, s.completions);
    MoveLeads(s, k, j, r, w, s.docs, s.indexed, s.completions, outcome, now,
      Act(w, s0.jobs, |s.docs|, outcome, now));
  }
}
