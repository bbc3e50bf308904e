// Runs of one worker and one job that show what can go wrong.
module JobWitnesses {
  import opened Common
  import opened JobModel
  import opened JobRuns
  import opened JobTheorems
  import opened JobSafety
  import opened JobDocuments

  lemma {:induction false} RunFurther(s: System, actions: seq<Action>, a: Action)
    requires Run(s, actions).Some? && Do(Run(s, actions).value, a).Some?
    ensures Run(s, actions + [a]) == Do(Run(s, actions).value, a)
    decreases |actions|
  {
    if actions == [] {
      assert [a][1..] == [];
    } else {
      assert (actions + [a])[1..] == actions[1..] + [a];
      RunFurther(Do(s, actions[0]).value, actions[1..], a);
    }
  }

  lemma {:induction false} StepsOn(s: System, a: Action)
    requires Reachable(s) && Do(s, a).Some?
    ensures Reachable(Do(s, a).value)
  {
    var n: nat, actions :| Run(Initial(n), actions) == Some(s);
    RunFurther(Initial(n), actions, a);
  }

  /** One worker, one job and the given record, worker, boot state and documents. */
  function Single(r: Record, w: Worker, boot: Boot, docs: seq<JobId>, completions: seq<Completion>): System {
    System(map[0 := r], [0], 1, [w], boot, None, docs, [], completions)
  }

  function JobAt(status: Status, checkpoint: Option<DocId>): Record { Stored(Job(status, "", 0, 0, checkpoint)) }

  lemma {:induction false} QueuedOne()
    ensures Reachable(Single(JobAt(Queued, None), Idle, Running, [], []))
  {
    var s0 := Initial(1);
    assert Run(s0, []) == Some(s0) && s0.workers == [Idle];
    StepsOn(s0, Snapshot([]));
    var s1 := Do(s0, Snapshot([])).value;
    StepsOn(s1, StartWorkers);
    var s2 := Do(s1, StartWorkers).value;
    StepsOn(s2, Enqueue("", 0, 0));
    assert Do(s2, Enqueue("", 0, 0)).value == Single(JobAt(Queued, None), Idle, Running, [], []);
  }

  lemma {:induction false} ClaimsOne(checkpoint: Option<DocId>, docs: seq<JobId>)
    requires Reachable(Single(JobAt(Queued, checkpoint), Idle, Running, docs, []))
    ensures var stage := if checkpoint.Some? then Marked(checkpoint.value) else NoDoc;
      var w := Busy(0, stage, checkpoint.None?, Claim(JobAt(Queued, checkpoint).job));
      Reachable(Single(Blank, w, Running, docs, []))
  {
    var s := Single(JobAt(Queued, checkpoint), Idle, Running, docs, []);
    StepsOn(s, ClaimNext(0));
    var stage := if checkpoint.Some? then Marked(checkpoint.value) else NoDoc;
    var w := Busy(0, stage, checkpoint.None?, Claim(JobAt(Queued, checkpoint).job));
    assert Do(s, ClaimNext(0)).value == Single(Blank, w, Running, docs, []);
  }

  lemma {:induction false} MovesOn(r: Record, w: Worker, docs: seq<JobId>, r': Record, w': Worker, docs': seq<JobId>)
    requires w.Busy? && w.job == 0 && Reachable(Single(r, w, Running, docs, []))
    requires var e := Act(w, map[0 := r], |docs|, Fine, 0);
      && e.worker == w' && e.indexes.None? && e.completes.None?
      && r' == (if e.write.Some? then e.write.value else r) && docs' == (if e.stores then docs + [0] else docs)
    ensures Reachable(Single(r', w', Running, docs', []))
  {
    var s := Single(r, w, Running, docs, []);
    StepsOn(s, Move(0, Fine, 0));
    assert Do(s, Move(0, Fine, 0)).value == Single(r', w', Running, docs', []);
  }

  lemma {:induction false} StoresOne()
    ensures Reachable(Single(JobAt(Processing, None), Busy(0, Unmarked(0), true, Nodes), Running, [0], []))
  {
    QueuedOne();
    ClaimsOne(None, []);
    var r := JobAt(Processing, None);
    MovesOn(Blank, Busy(0, NoDoc, true, Claim(JobAt(Queued, None).job)), [], r, Busy(0, NoDoc, true, Chunk), []);
    MovesOn(r, Busy(0, NoDoc, true, Chunk), [], r, Busy(0, Unmarked(0), true, Nodes), [0]);
  }

  lemma {:induction false} InsertsNodes()
    ensures Reachable(Single(JobAt(Processing, None), Busy(0, Unmarked(0), true, ReadToMark), Running, [0], []))
  {
    StoresOne();
    var r, busy := JobAt(Processing, None), Busy(0, Unmarked(0), true, Nodes);
    MovesOn(r, busy, [0], r, busy.(phase := ReadToMark), [0]);
  }

  lemma {:induction false} MarksOne()
    ensures Reachable(Single(JobAt(Processing, Some(0)), Busy(0, Marked(0), true, Summarise), Running, [0], []))
  {
    InsertsNodes();
    var r, busy := JobAt(Processing, None), Busy(0, Unmarked(0), true, ReadToMark);
    MovesOn(r, busy, [0], r, busy.(phase := WriteMark(r)), [0]);
    MovesOn(r, busy.(phase := WriteMark(r)), [0], JobAt(Processing, Some(0)), Busy(0, Marked(0), true, Summarise), [0]);
  }

  lemma {:induction false} CrashesOne()
    ensures Reachable(Single(JobAt(Processing, Some(0)), Idle, Down, [0], []))
  {
    MarksOne();
    var r := JobAt(Processing, Some(0));
    var s := Single(r, Busy(0, Marked(0), true, Summarise), Running, [0], []);
    StepsOn(s, Crash);
    assert Do(s, Crash).value == Single(r, Idle, Down, [0], []);
  }

  lemma {:induction false} SnapshotsOne()
    ensures var r := JobAt(Processing, Some(0));
      Reachable(Single(r, Idle, Recovering(map[0 := r], [0]), [0], []))
  {
    CrashesOne();
    var r := JobAt(Processing, Some(0));
    var s := Single(r, Idle, Down, [0], []);
    StepsOn(s, Snapshot([0]));
    assert Do(s, Snapshot([0])).value == Single(r, Idle, Recovering(map[0 := r], [0]), [0], []);
  }

  lemma {:induction false} RecoversOne()
    ensures var r := JobAt(Processing, Some(0));
      Reachable(Single(JobAt(Queued, Some(0)), Idle, Recovering(map[0 := r], []), [0], []))
  {
    SnapshotsOne();
    var r := JobAt(Processing, Some(0));
    var s := Single(r, Idle, Recovering(map[0 := r], [0]), [0], []);
    StepsOn(s, RecoverOne(true, 0));
    assert map[0 := r][0 := Recovered(r, 0)] == map[0 := JobAt(Queued, Some(0))];
    assert [0][1..] == [];
  }

  lemma {:induction false} RestartsOne()
    ensures Reachable(Single(JobAt(Queued, Some(0)), Idle, Running, [0], []))
  {
    RecoversOne();
    var s := Single(JobAt(Queued, Some(0)), Idle, Recovering(map[0 := JobAt(Processing, Some(0))], []), [0], []);
    StepsOn(s, StartWorkers);
    assert Do(s, StartWorkers).value == Single(JobAt(Queued, Some(0)), Idle, Running, [0], []);
  }

  /** A checkpoint does get lost: this run ends in a claim window, and a crash there leaves the record blank. */
  lemma {:induction false} CheckpointMayBeLost() returns (s: System)
    ensures Reachable(s) && HasCheckpoint(s, 0, 0)
    ensures !HasCheckpoint(DoCrash(s).value, 0, 0) && Stranded(DoCrash(s).value, 0)
  {
    RestartsOne();
    ClaimsOne(Some(0), [0]);
    s := Single(Blank, Busy(0, Marked(0), false, Claim(JobAt(Queued, Some(0)).job)), Running, [0], []);
    assert Holds(s.workers[0], 0);
    ReachableIsOk(s);
    CrashStrands(s, 0);
  }

  lemma {:induction false} ResumesOne()
    ensures var r := JobAt(Processing, Some(0));
      Reachable(Single(r, Busy(0, Marked(0), false, Read(Completed(0))), Running, [0], []))
  {
    RestartsOne();
    ClaimsOne(Some(0), [0]);
    var r, busy := JobAt(Processing, Some(0)), Busy(0, Marked(0), false, Resume);
    MovesOn(Blank, busy.(phase := Claim(JobAt(Queued, Some(0)).job)), [0], r, busy, [0]);
    MovesOn(r, busy, [0], r, busy.(phase := Read(Completed(0))), [0]);
  }

  lemma {:induction false} FinishesOne()
    ensures var r := JobAt(Processing, Some(0));
      Reachable(Single(r, Busy(0, Marked(0), false, Write(Completed(0), r)), Running, [0], []))
  {
    ResumesOne();
    var r, busy := JobAt(Processing, Some(0)), Busy(0, Marked(0), false, Read(Completed(0)));
    MovesOn(r, busy, [0], r, busy.(phase := Write(Completed(0), r)), [0]);
  }

  /** An attempt that starts from a checkpoint never indexes: here a job completes and its document is not indexed. */
  lemma {:induction false} ResumedJobMayStayUnindexed() returns (s: System)
    ensures Reachable(s) && s.completions == [Completion(0, 0, false)] && Count(s.indexed, 0) == 0
  {
    FinishesOne();
    var r := JobAt(Processing, Some(0));
    var last := Single(r, Busy(0, Marked(0), false, Write(Completed(0), r)), Running, [0], []);
    StepsOn(last, Move(0, Fine, 0));
    s := Do(last, Move(0, Fine, 0)).value;
    assert s.completions == [Completion(0, 0, false)];
  }
}
