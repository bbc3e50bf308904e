// How many documents a job stores, and when they are indexed, over every run.
module JobDocuments {
  import opened Common
  import opened JobModel
  import opened JobRuns
  import opened JobTheorems
  import opened JobSafety

  // ---- Documents --------------------------------------------------------

  function Count(s: seq<nat>, x: nat): nat {
    if s == [] then 0 else Count(s[..|s| - 1], x) + if s[|s| - 1] == x then 1 else 0
  }

  lemma {:induction false} CountOfSnoc(s: seq<nat>, y: nat, x: nat)
    ensures Count(s + [y], x) == Count(s, x) + if y == x then 1 else 0
  {
    assert (s + [y])[..|s|] == s;
  }

  function DocsOf(stage: Stage): nat { if stage.NoDoc? then 0 else 1 }

  /** The job has not finished, and its record says where it stands. */
  predicate IsLive(r: Record) { IsQueued(r) || IsProcessing(r) }

  /** `update_status` fails to write, or finds nothing to write to: the job is let go as it stands. */
  predicate LetsGo(w: Worker, outcome: Outcome) {
    w.Busy? && w.phase.Write? && !(w.phase.read.Stored? && outcome.Fine?)
  }

  /** The step takes worker `k` off its job before the job has finished. */
  predicate Abandons(s: System, a: Action, k: nat) {
    k < |s.workers| && (a.Crash? || (a.Move? && a.w == k && LetsGo(s.workers[k], a.outcome)))
  }

  /** The step loses a document that no record points to yet. */
  ghost predicate LosesDoc(s: System, a: Action, j: JobId) {
    exists k :: 0 <= k < |s.workers| && Abandons(s, a, k) && Holds(s.workers[k], j) && s.workers[k].stage.Unmarked?
  }

  /** After `lost` such steps, job `j` has stored `lost` documents, and one more when it is past storing. */
  ghost predicate Accounts(s: System, j: JobId, lost: nat) {
    && lost <= Count(s.docs, j) <= lost + 1
    && (forall k :: 0 <= k < |s.workers| && Holds(s.workers[k], j) ==>
          Count(s.docs, j) == lost + DocsOf(s.workers[k].stage))
    && (j in s.jobs && IsLive(s.jobs[j]) && !Held(s, j) ==>
          Count(s.docs, j) == lost + if s.jobs[j].job.checkpoint.Some? then 1 else 0)
    && (j >= s.nextId ==> Count(s.docs, j) == 0)
  }

  /** An action stores a document exactly when it moves the attempt past storing. */
  lemma {:induction false} ActCounts(
      w: Worker, jobs: map<JobId, Record>, docs: seq<JobId>, indexed: seq<DocId>, outcome: Outcome, now: int)
    requires w.Busy? && w.job in jobs && Ready(w, jobs[w.job], docs, indexed)
    ensures var e := Act(w, jobs, |docs|, outcome, now);
      && (e.stores ==> w.stage.NoDoc?)
      && (e.worker.Busy? ==> DocsOf(e.worker.stage) == DocsOf(w.stage) + if e.stores then 1 else 0)
      && (e.worker.Idle? ==> !e.stores && w.phase.Write? && (LetsGo(w, outcome) <==> e.write.None?))
      && (e.worker.Idle? && e.write.Some? ==> IsTerminal(e.write.value))
  {
  }

  lemma {:induction false} MoveAccounts(s: System, a: Action, j: JobId, lost: nat)
    requires Inv(s) && Accounts(s, j, lost) && Do(s, a).Some? && a.Move?
    ensures Accounts(Do(s, a).value, j, if LosesDoc(s, a, j) then lost + 1 else lost)
  {
    if s.workers[a.w].job != j {
      OtherMoveAccounts(s, a, j, lost);
    } else if Do(s, a).value.workers[a.w].Busy? {
      BusyMoveAccounts(s, a, lost);
    } else {
      LastMoveAccounts(s, a, lost);
    }
  }

  lemma {:induction false} OnlyHolder(s: System, k: nat)
    requires Inv(s) && k < |s.workers| && s.workers[k].Busy?
    ensures Holds(s.workers[k], s.workers[k].job)
    ensures forall i :: 0 <= i < |s.workers| && Holds(s.workers[i], s.workers[k].job) ==> i == k
  {
  }

  lemma {:induction false} BusyMoveAccounts(s: System, a: Action, lost: nat)
    requires Inv(s) && Do(s, a).Some? && a.Move? && Accounts(s, s.workers[a.w].job, lost)
    requires Do(s, a).value.workers[a.w].Busy?
    ensures var j := s.workers[a.w].job; !LosesDoc(s, a, j) && Accounts(Do(s, a).value, j, lost)
  {
    var s', w := Do(s, a).value, s.workers[a.w];
    assert WorkerOk(w, s.jobs, s.docs, s.indexed);
    OnlyHolder(s, a.w);
    ActOk(w, s.jobs, s.docs, s.indexed, a.outcome, a.now);
    ActCounts(w, s.jobs, s.docs, s.indexed, a.outcome, a.now);
    CountOfSnoc(s.docs, w.job, w.job);
    forall k | 0 <= k < |s'.workers| && Holds(s'.workers[k], w.job) ensures k == a.w { }
    assert Holds(s'.workers[a.w], w.job);
  }

  lemma {:induction false} LastMoveAccounts(s: System, a: Action, lost: nat)
    requires Inv(s) && Do(s, a).Some? && a.Move? && Accounts(s, s.workers[a.w].job, lost)
    requires Do(s, a).value.workers[a.w].Idle?
    ensures var j := s.workers[a.w].job;
      Accounts(Do(s, a).value, j, if LosesDoc(s, a, j) then lost + 1 else lost)
  {
    var s', w := Do(s, a).value, s.workers[a.w];
    assert WorkerOk(w, s.jobs, s.docs, s.indexed);
    OnlyHolder(s, a.w);
    ActCounts(w, s.jobs, s.docs, s.indexed, a.outcome, a.now);
    assert LosesDoc(s, a, w.job) <==> LetsGo(w, a.outcome) && w.stage.Unmarked? by {
      if LetsGo(w, a.outcome) { assert Abandons(s, a, a.w); }
    }
    forall k | 0 <= k < |s'.workers| ensures !Holds(s'.workers[k], w.job) { }
  }

  lemma {:induction false} OtherMoveAccounts(s: System, a: Action, j: JobId, lost: nat)
    requires Inv(s) && Do(s, a).Some? && a.Move? && Accounts(s, j, lost) && s.workers[a.w].job != j
    ensures !LosesDoc(s, a, j) && Accounts(Do(s, a).value, j, lost)
  {
    var s', w := Do(s, a).value, s.workers[a.w];
    assert WorkerOk(w, s.jobs, s.docs, s.indexed);
    ActOk(w, s.jobs, s.docs, s.indexed, a.outcome, a.now);
    CountOfSnoc(s.docs, w.job, j);
    OthersStay(s, a, j);
  }

  /** A move of another worker leaves the holders of `j` alone. */
  lemma {:induction false} OthersStay(s: System, a: Action, j: JobId)
    requires Inv(s) && Do(s, a).Some? && a.Move? && s.workers[a.w].job != j
    ensures var s' := Do(s, a).value;
      && |s'.workers| == |s.workers|
      && forall k :: 0 <= k < |s.workers| ==>
           (Holds(s'.workers[k], j) <==> Holds(s.workers[k], j))
           && (Holds(s.workers[k], j) ==> s'.workers[k] == s.workers[k])
    ensures Held(Do(s, a).value, j) <==> Held(s, j)
  {
    var s', w := Do(s, a).value, s.workers[a.w];
    assert WorkerOk(w, s.jobs, s.docs, s.indexed);
    ActOk(w, s.jobs, s.docs, s.indexed, a.outcome, a.now);
    forall k | 0 <= k < |s.workers| ensures Holds(s'.workers[k], j) <==> Holds(s.workers[k], j) {
      if k != a.w { assert s'.workers[k] == s.workers[k]; }
    }
    if Held(s, j) {
      var k :| 0 <= k < |s.workers| && Holds(s.workers[k], j);
      assert Holds(s'.workers[k], j);
    }
  }

  lemma {:induction false} ClaimAccounts(s: System, a: Action, j: JobId, lost: nat)
    requires Inv(s) && Accounts(s, j, lost) && Do(s, a).Some? && a.ClaimNext?
    ensures Accounts(Do(s, a).value, j, lost)
  {
    var s' := Do(s, a).value;
    var first := FirstQueuedIsFirst(s.order, s.jobs);
    var claimed := FirstQueued(s.order, s.jobs).value;
    assert forall k :: 0 <= k < |s.workers| ==> WorkerOk(s.workers[k], s.jobs, s.docs, s.indexed);
    assert !Held(s, claimed);
    if Held(s, j) {
      var k :| 0 <= k < |s.workers| && Holds(s.workers[k], j);
      assert Holds(s'.workers[k], j);
    }
  }

  lemma {:induction false} CrashAccounts(s: System, j: JobId, lost: nat)
    requires Inv(s) && Accounts(s, j, lost)
    ensures Accounts(DoCrash(s).value, j, if LosesDoc(s, Crash, j) then lost + 1 else lost)
  {
    if Held(s, j) {
      var k :| 0 <= k < |s.workers| && Holds(s.workers[k], j);
      assert WorkerOk(s.workers[k], s.jobs, s.docs, s.indexed);
      OnlyHolder(s, k);
      assert Abandons(s, Crash, k);
      assert LosesDoc(s, Crash, j) <==> s.workers[k].stage.Unmarked?;
    }
  }

  lemma {:induction false} EnqueueAccounts(s: System, a: Action, j: JobId, lost: nat)
    requires Inv(s) && Accounts(s, j, lost) && Do(s, a).Some? && a.Enqueue?
    ensures Accounts(Do(s, a).value, j, lost)
  {
    assert Held(s, j) ==> Held(Do(s, a).value, j);
  }

  lemma {:induction false} RestAccounts(s: System, a: Action, j: JobId, lost: nat)
    requires Inv(s) && Accounts(s, j, lost) && Do(s, a).Some?
    requires a.CleanupRead? || a.CleanupDelete? || a.Snapshot? || a.RecoverOne? || a.StartWorkers?
    ensures Accounts(Do(s, a).value, j, lost)
  {
    assert Held(s, j) ==> Held(Do(s, a).value, j);
    if a.RecoverOne? { assert s.boot.todo[0] in s.boot.todo; }
  }

  lemma {:induction false} StepAccounts(s: System, a: Action, j: JobId, lost: nat)
    requires Inv(s) && Accounts(s, j, lost) && Do(s, a).Some?
    ensures Accounts(Do(s, a).value, j, if LosesDoc(s, a, j) then lost + 1 else lost)
  {
    match a
    case Move(_, _, _) => MoveAccounts(s, a, j, lost);
    case ClaimNext(_) => ClaimAccounts(s, a, j, lost);
    case Crash => CrashAccounts(s, j, lost);
    case Enqueue(_, _, _) => EnqueueAccounts(s, a, j, lost);
    case CleanupDelete(_) => RestAccounts(s, a, j, lost);
    case CleanupRead(_, _) => RestAccounts(s, a, j, lost);
    case Snapshot(_) => RestAccounts(s, a, j, lost);
    case RecoverOne(_, _) => RestAccounts(s, a, j, lost);
    case StartWorkers => RestAccounts(s, a, j, lost);
  }

  /**
   * The crashes and failed status writes of a run that fall between
   * `insert_document` and the persisted checkpoint of job `j`.
   */
  ghost function WindowLosses(s: System, actions: seq<Action>, j: JobId): nat
    requires Run(s, actions).Some?
    decreases |actions|
  {
    if actions == [] then 0
    else
      (if LosesDoc(s, actions[0], j) then 1 else 0)
      + WindowLosses(Do(s, actions[0]).value, actions[1..], j)
  }

  lemma {:induction false} RunAccounts(s: System, actions: seq<Action>, j: JobId, lost: nat)
    requires Inv(s) && Accounts(s, j, lost) && Run(s, actions).Some?
    ensures Accounts(Run(s, actions).value, j, lost + WindowLosses(s, actions, j))
    decreases |actions|
  {
    if actions != [] {
      var s' := Do(s, actions[0]).value;
      StepAccounts(s, actions[0], j, lost);
      DoKeeps(s, actions[0]);
      RunAccounts(s', actions[1..], j, if LosesDoc(s, actions[0], j) then lost + 1 else lost);
    }
  }

  /** A job stores one document for each loss in its window, and at most one more. */
  lemma {:induction false} DocumentsPerJob(n: nat, actions: seq<Action>, j: JobId)
    requires Run(Initial(n), actions).Some?
    ensures WindowLosses(Initial(n), actions, j)
      <= Count(Run(Initial(n), actions).value.docs, j)
      <= WindowLosses(Initial(n), actions, j) + 1
  {
    RunAccounts(Initial(n), actions, j, 0);
  }

  // ---- The text index ---------------------------------------------------

  lemma {:induction false} CountOfDistinct(s: seq<nat>, x: nat)
    requires forall i, k :: 0 <= i < k < |s| ==> s[i] != s[k]
    ensures Count(s, x) == if x in s then 1 else 0
  {
    if s != [] {
      CountOfDistinct(s[..|s| - 1], x);
      assert s == s[..|s| - 1] + [s[|s| - 1]];
    }
  }

  /**
   * Each document is bulk-indexed at most once, and a document that a completion
   * names is one that its job has stored.
   */
  lemma {:induction false} IndexedAtMostOnce(s: System, doc: DocId)
    requires Reachable(s)
    ensures Count(s.indexed, doc) == if doc in s.indexed then 1 else 0
    ensures forall c :: c in s.completions ==> c.doc < |s.docs| && s.docs[c.doc] == c.job
  {
    ReachableIsOk(s);
    CountOfDistinct(s.indexed, doc);
  }

  /** Only an attempt that did not start from a checkpoint indexes, and only in its indexing phase. */
  lemma {:induction false} OnlyNewAttemptsIndex(s: System, a: Action)
    requires Reachable(s) && Do(s, a).Some? && Do(s, a).value.indexed != s.indexed
    ensures a.Move? && s.workers[a.w].Busy? && s.workers[a.w].anew && s.workers[a.w].phase.Index?
    ensures Do(s, a).value.indexed == s.indexed + [s.workers[a.w].stage.doc]
  {
    ReachableIsOk(s);
    if a.Move? { assert WorkerOk(s.workers[a.w], s.jobs, s.docs, s.indexed); }
  }

  // ---- Which completed jobs are indexed ---------------------------------

  /**
   * The step takes a worker off job `j` that has indexed its document and
   * persisted its checkpoint, but not its status.
   */
  ghost predicate LosesIndex(s: System, a: Action, j: JobId) {
    exists k :: 0 <= k < |s.workers| && Abandons(s, a, k)
      && Holds(s.workers[k], j) && HasIndexed(s.workers[k], s.indexed)
  }

  predicate HasIndexed(w: Worker, indexed: seq<DocId>) {
    w.Busy? && w.anew && w.stage.Marked? && w.stage.doc in indexed
  }

  ghost predicate IndexLost(s: System, actions: seq<Action>, j: JobId)
    requires Run(s, actions).Some?
    decreases |actions|
  {
    actions != [] && (LosesIndex(s, actions[0], j) || IndexLost(Do(s, actions[0]).value, actions[1..], j))
  }

  /** Job `j` has been deleted or has its final record. */
  ghost predicate IsOver(s: System, j: JobId) {
    j < s.nextId && !Held(s, j) && (j in s.jobs ==> IsTerminal(s.jobs[j]))
  }

  /** `lost` says whether an indexed document is behind the checkpoint of job `j`. */
  ghost predicate Tracks(s: System, j: JobId, lost: bool) {
    && (j >= s.nextId ==> !lost)
    && (forall k :: 0 <= k < |s.workers| && Holds(s.workers[k], j) ==> WorkerTracks(s.workers[k], s.indexed, lost))
    && (j in s.jobs && IsLive(s.jobs[j]) && !Held(s, j) ==> RecordTracks(s.jobs[j], s.indexed, lost))
    && (forall c :: c in s.completions && c.job == j ==>
          IsOver(s, j) && (c.doc in s.indexed <==> c.anew || lost))
  }

  ghost predicate WorkerTracks(w: Worker, indexed: seq<DocId>, lost: bool)
    requires w.Busy?
  {
    if w.anew then !lost else w.stage.Marked? && (w.stage.doc in indexed <==> lost)
  }

  ghost predicate RecordTracks(r: Record, indexed: seq<DocId>, lost: bool)
    requires r.Stored?
  {
    lost <==> r.job.checkpoint.Some? && r.job.checkpoint.value in indexed
  }

  ghost predicate Or(p: bool, q: bool) { p || q }

  /** While it goes on, an attempt keeps its kind, and only a new one indexes. */
  lemma {:induction false} ActTracks(
      w: Worker, jobs: map<JobId, Record>, docs: seq<JobId>, indexed: seq<DocId>, outcome: Outcome, now: int,
      lost: bool)
    requires w.Busy? && w.job in jobs && Ready(w, jobs[w.job], docs, indexed) && WorkerTracks(w, indexed, lost)
    ensures var e := Act(w, jobs, |docs|, outcome, now);
      && (e.worker.Busy? ==> WorkerTracks(e.worker, indexed, lost))
      && (e.indexes.Some? ==> w.anew && e.worker.Busy?)
      && (e.worker.Busy? ==> e.completes.None? && e.worker.anew == w.anew)
  {
  }

  lemma {:induction false} BusyMoveTracks(s: System, a: Action, lost: bool)
    requires Inv(s) && Do(s, a).Some? && a.Move? && Tracks(s, s.workers[a.w].job, lost)
    requires Do(s, a).value.workers[a.w].Busy?
    ensures !LosesIndex(s, a, s.workers[a.w].job) && Tracks(Do(s, a).value, s.workers[a.w].job, lost)
  {
    var s', w := Do(s, a).value, s.workers[a.w];
    assert WorkerOk(w, s.jobs, s.docs, s.indexed);
    OnlyHolder(s, a.w);
    ActOk(w, s.jobs, s.docs, s.indexed, a.outcome, a.now);
    ActTracks(w, s.jobs, s.docs, s.indexed, a.outcome, a.now, lost);
    ActCounts(w, s.jobs, s.docs, s.indexed, a.outcome, a.now);
    forall k | 0 <= k < |s'.workers| && Holds(s'.workers[k], w.job) ensures k == a.w { }
    assert Holds(s'.workers[a.w], w.job);
  }

  /** What the last action of an attempt leaves behind. */
  lemma {:induction false} LastActTracks(
      w: Worker, jobs: map<JobId, Record>, docs: seq<JobId>, indexed: seq<DocId>, outcome: Outcome, now: int,
      lost: bool)
    requires w.Busy? && w.job in jobs && Ready(w, jobs[w.job], docs, indexed) && WorkerTracks(w, indexed, lost)
    requires w.phase.Write?
    ensures var e := Act(w, jobs, |docs|, outcome, now);
      && e.indexes.None?
      && (LetsGo(w, outcome) ==> e.write.None? && e.completes.None?)
      && (LetsGo(w, outcome) && IsLive(jobs[w.job]) ==>
            RecordTracks(jobs[w.job], indexed, Or(lost, HasIndexed(w, indexed))))
      && (!LetsGo(w, outcome) ==> e.write.Some? && IsTerminal(e.write.value))
      && (e.completes.Some? ==>
            e.completes.value.job == w.job && (e.completes.value.doc in indexed <==> e.completes.value.anew || lost))
  {
  }

  lemma {:induction false} LastMoveTracks(s: System, a: Action, lost: bool)
    requires Inv(s) && Do(s, a).Some? && a.Move? && Tracks(s, s.workers[a.w].job, lost)
    requires Do(s, a).value.workers[a.w].Idle?
    ensures var j := s.workers[a.w].job; Tracks(Do(s, a).value, j, Or(lost, LosesIndex(s, a, j)))
  {
    var s', w := Do(s, a).value, s.workers[a.w];
    assert WorkerOk(w, s.jobs, s.docs, s.indexed);
    OnlyHolder(s, a.w);
    ActCounts(w, s.jobs, s.docs, s.indexed, a.outcome, a.now);
    LastActTracks(w, s.jobs, s.docs, s.indexed, a.outcome, a.now, lost);
    assert LosesIndex(s, a, w.job) <==> LetsGo(w, a.outcome) && HasIndexed(w, s.indexed) by {
      if LetsGo(w, a.outcome) { assert Abandons(s, a, a.w); }
    }
    forall k | 0 <= k < |s'.workers| ensures !Holds(s'.workers[k], w.job) { }
  }

  /** Another job's document does not matter to what is behind this job's checkpoint. */
  lemma {:induction false} OtherIndexing(s: System, a: Action, j: JobId, doc: DocId)
    requires Inv(s) && Do(s, a).Some? && a.Move? && s.workers[a.w].job != j
    requires doc < |s.docs| && s.docs[doc] == j
    ensures doc in Do(s, a).value.indexed <==> doc in s.indexed
  {
    assert WorkerOk(s.workers[a.w], s.jobs, s.docs, s.indexed);
    ActOk(s.workers[a.w], s.jobs, s.docs, s.indexed, a.outcome, a.now);
  }

  lemma {:induction false} OtherMoveTracks(s: System, a: Action, j: JobId, lost: bool)
    requires Inv(s) && Do(s, a).Some? && a.Move? && Tracks(s, j, lost) && s.workers[a.w].job != j
    ensures !LosesIndex(s, a, j) && Tracks(Do(s, a).value, j, lost)
  {
    var s', w := Do(s, a).value, s.workers[a.w];
    assert WorkerOk(w, s.jobs, s.docs, s.indexed);
    ActOk(w, s.jobs, s.docs, s.indexed, a.outcome, a.now);
    OthersStay(s, a, j);
    forall k | 0 <= k < |s.workers| && Holds(s.workers[k], j) ensures WorkerTracks(s'.workers[k], s'.indexed, lost) {
      assert WorkerOk(s.workers[k], s.jobs, s.docs, s.indexed);
      if s.workers[k].stage.Marked? { OtherIndexing(s, a, j, s.workers[k].stage.doc); }
    }
    if j in s.jobs && IsLive(s.jobs[j]) && s.jobs[j].job.checkpoint.Some? {
      OtherIndexing(s, a, j, s.jobs[j].job.checkpoint.value);
    }
    OtherMoveCompletes(s, a, j, lost);
  }

  lemma {:induction false} OtherMoveCompletes(s: System, a: Action, j: JobId, lost: bool)
    requires Inv(s) && Do(s, a).Some? && a.Move? && Tracks(s, j, lost) && s.workers[a.w].job != j
    ensures forall c :: c in Do(s, a).value.completions && c.job == j ==>
      IsOver(Do(s, a).value, j) && (c.doc in Do(s, a).value.indexed <==> c.anew || lost)
  {
    var s' := Do(s, a).value;
    assert WorkerOk(s.workers[a.w], s.jobs, s.docs, s.indexed);
    ActOk(s.workers[a.w], s.jobs, s.docs, s.indexed, a.outcome, a.now);
    OthersStay(s, a, j);
    forall c | c in s'.completions && c.job == j ensures IsOver(s', j) && (c.doc in s'.indexed <==> c.anew || lost) {
      assert c in s.completions;
      OtherIndexing(s, a, j, c.doc);
    }
  }

  lemma {:induction false} ClaimTracks(s: System, a: Action, j: JobId, lost: bool)
    requires Inv(s) && Tracks(s, j, lost) && Do(s, a).Some? && a.ClaimNext?
    ensures Tracks(Do(s, a).value, j, lost)
  {
    var s' := Do(s, a).value;
    var first := FirstQueuedIsFirst(s.order, s.jobs);
    var claimed := FirstQueued(s.order, s.jobs).value;
    assert forall k :: 0 <= k < |s.workers| ==> WorkerOk(s.workers[k], s.jobs, s.docs, s.indexed);
    assert !Held(s, claimed);
    if Held(s, j) {
      var k :| 0 <= k < |s.workers| && Holds(s.workers[k], j);
      assert Holds(s'.workers[k], j);
    }
    if j != claimed { assert Held(s', j) ==> Held(s, j); }
  }

  lemma {:induction false} CrashTracks(s: System, j: JobId, lost: bool)
    requires Inv(s) && Tracks(s, j, lost)
    ensures Tracks(DoCrash(s).value, j, Or(lost, LosesIndex(s, Crash, j)))
  {
    if Held(s, j) {
      var k :| 0 <= k < |s.workers| && Holds(s.workers[k], j);
      assert WorkerOk(s.workers[k], s.jobs, s.docs, s.indexed);
      OnlyHolder(s, k);
      assert Abandons(s, Crash, k);
      assert LosesIndex(s, Crash, j) <==> HasIndexed(s.workers[k], s.indexed);
    }
  }

  lemma {:induction false} EnqueueTracks(s: System, a: Action, j: JobId, lost: bool)
    requires Inv(s) && Tracks(s, j, lost) && Do(s, a).Some? && a.Enqueue?
    ensures Tracks(Do(s, a).value, j, lost)
  {
    assert Held(s, j) <==> Held(Do(s, a).value, j);
  }

  lemma {:induction false} RestTracks(s: System, a: Action, j: JobId, lost: bool)
    requires Inv(s) && Tracks(s, j, lost) && Do(s, a).Some?
    requires a.CleanupRead? || a.CleanupDelete? || a.Snapshot? || a.RecoverOne? || a.StartWorkers?
    ensures Tracks(Do(s, a).value, j, lost)
  {
    assert Held(s, j) <==> Held(Do(s, a).value, j);
    if a.RecoverOne? { assert s.boot.todo[0] in s.boot.todo; }
  }

  lemma {:induction false} StepTracks(s: System, a: Action, j: JobId, lost: bool)
    requires Inv(s) && Tracks(s, j, lost) && Do(s, a).Some?
    ensures Tracks(Do(s, a).value, j, Or(lost, LosesIndex(s, a, j)))
  {
    match a
    case Move(k, _, _) =>
      if s.workers[k].job != j {
        OtherMoveTracks(s, a, j, lost);
      } else if Do(s, a).value.workers[k].Busy? {
        BusyMoveTracks(s, a, lost);
      } else {
        LastMoveTracks(s, a, lost);
      }
    case ClaimNext(_) => ClaimTracks(s, a, j, lost);
    case Crash => CrashTracks(s, j, lost);
    case Enqueue(_, _, _) => EnqueueTracks(s, a, j, lost);
    case CleanupDelete(_) => RestTracks(s, a, j, lost);
    case CleanupRead(_, _) => RestTracks(s, a, j, lost);
    case Snapshot(_) => RestTracks(s, a, j, lost);
    case RecoverOne(_, _) => RestTracks(s, a, j, lost);
    case StartWorkers => RestTracks(s, a, j, lost);
  }

  lemma {:induction false} RunTracks(s: System, actions: seq<Action>, j: JobId, lost: bool)
    requires Inv(s) && Tracks(s, j, lost) && Run(s, actions).Some?
    ensures Tracks(Run(s, actions).value, j, Or(lost, IndexLost(s, actions, j)))
    decreases |actions|
  {
    if actions != [] {
      var s' := Do(s, actions[0]).value;
      StepTracks(s, actions[0], j, lost);
      DoKeeps(s, actions[0]);
      RunTracks(s', actions[1..], j, Or(lost, LosesIndex(s, actions[0], j)));
    }
  }

  /**
   * The document of a completed job is in the index exactly when the job
   * completed on an attempt that did not start from a checkpoint, or an earlier
   * attempt was cut off, or failed to write its status, after it had indexed.
   */
  lemma {:induction false} CompletedIsIndexedIff(n: nat, actions: seq<Action>, c: Completion)
    requires Run(Initial(n), actions).Some? && c in Run(Initial(n), actions).value.completions
    ensures c.doc in Run(Initial(n), actions).value.indexed <==> c.anew || IndexLost(Initial(n), actions, c.job)
  {
    RunTracks(Initial(n), actions, c.job, false);
  }
}
