// The worker pool as a state machine: enqueue, two-write claims, the phases of
// processing a job, crashes at any point, recovery and cleanup.  Each step is at
// most one transaction of the store, and any write of a record may fail: the
// code logs that and goes on.
module JobRuns {
  import opened Common
  import opened JobModel

  /** What the attempt's document has come to; `Marked` once a checkpoint for it has been persisted. */
  datatype Stage = NoDoc | Unmarked(doc: DocId) | Marked(doc: DocId)

  datatype Phase =
    | Claim(copy: Job)                          // the record is blank; the old data is in memory
    | Chunk                                     // no document yet
    | Nodes                                     // document inserted
    | ReadToMark                                // nodes inserted
    | WriteMark(read: Record)                   // `set_checkpoint` has read the record
    | Summarise
    | Index
    | Resume                                    // the claimed record had a checkpoint
    | Read(status: Status)                      // `process_job` has returned
    | Write(status: Status, read: Record)       // `update_status` has read the record

  /** A worker: `anew` when its attempt did not start from a checkpoint. */
  datatype Worker = Idle | Busy(job: JobId, stage: Stage, anew: bool, phase: Phase)

  datatype Boot = Down | Recovering(snapshot: map<JobId, Record>, todo: seq<JobId>) | Running

  /** A `Completed` status that a worker has persisted. */
  datatype Completion = Completion(job: JobId, doc: DocId, anew: bool)

  datatype System = System(
    jobs: map<JobId, Record>, order: seq<JobId>, nextId: JobId, workers: seq<Worker>, boot: Boot,
    cleaning: Option<seq<JobId>>,
    docs: seq<JobId>,                           // the job that stored each document
    indexed: seq<DocId>,                        // every bulk indexing, in order
    completions: seq<Completion>)

  /**
   * How the next action of a worker turns out.  `Late` fails after its first
   * effect; a write of the record succeeds only when it is `Fine`.
   */
  datatype Outcome = Fine | Fails | Late

  datatype Action =
    | Enqueue(request: string, at: nat, now: int)
    | ClaimNext(w: nat)
    | Move(w: nat, outcome: Outcome, now: int)
    | CleanupRead(ids: seq<JobId>, now: int)
    | CleanupDelete(fine: bool)
    | Crash
    | Snapshot(ids: seq<JobId>)
    | RecoverOne(fine: bool, now: int)
    | StartWorkers

  // ---- One worker -------------------------------------------------------

  /** What a worker's action does: to itself, to the record of its own job, and to the document stores. */
  datatype Effect = Effect(
    worker: Worker, write: Option<Record>, stores: bool, indexes: Option<DocId>, completes: Option<Completion>)

  function Just(worker: Worker): Effect { Effect(worker, None, false, None, None) }

  function RecordOf(jobs: map<JobId, Record>, j: JobId): Record { if j in jobs then jobs[j] else Blank }

  function Returns(w: Worker, status: Status): Worker
    requires w.Busy?
  {
    w.(phase := Read(status))
  }

  function ActClaim(w: Worker, outcome: Outcome, now: int): Effect
    requires w.Busy? && w.phase.Claim?
  {
    var copy := w.phase.copy;
    var next := match copy.checkpoint
      case Some(doc) => Busy(w.job, Marked(doc), false, Resume)
      case None => Busy(w.job, NoDoc, true, Chunk);
    Just(next).(write := if outcome.Fine? then Some(WithStatus(copy, Processing, now)) else None)
  }

  function ActChunk(w: Worker, nextDoc: DocId, outcome: Outcome): Effect
    requires w.Busy?
  {
    if outcome.Fine? then Just(w.(stage := Unmarked(nextDoc), phase := Nodes)).(stores := true)
    else Just(Returns(w, Failed))
  }

  function ActWriteMark(w: Worker, outcome: Outcome, now: int): Effect
    requires w.Busy? && w.phase.WriteMark?
  {
    var read := w.phase.read;
    if w.stage.Unmarked? && read.Stored? && outcome.Fine?
    then Just(w.(stage := Marked(w.stage.doc), phase := Summarise)).(
      write := Some(WithCheckpoint(read.job, w.stage.doc, now)))
    else Just(w.(phase := Summarise))
  }

  /** Indexing failed, or the commit after it failed, or all went well. */
  function ActIndex(w: Worker, outcome: Outcome): Effect
    requires w.Busy?
  {
    if w.stage.NoDoc? || outcome.Fails? then Just(Returns(w, Failed))
    else
      var status := if outcome.Fine? then Completed(w.stage.doc) else Failed;
      Just(Returns(w, status)).(indexes := Some(w.stage.doc))
  }

  function ActResume(w: Worker, outcome: Outcome): Effect
    requires w.Busy?
  {
    Just(Returns(w, if outcome.Fine? && !w.stage.NoDoc? then Completed(w.stage.doc) else Failed))
  }

  function ActWrite(w: Worker, outcome: Outcome, now: int): Effect
    requires w.Busy? && w.phase.Write?
  {
    var status, read := w.phase.status, w.phase.read;
    if read.Stored? && outcome.Fine? then
      var completes := if status.Completed? then Some(Completion(w.job, status.doc, w.anew)) else None;
      Effect(Idle, Some(WithStatus(read.job, status, now)), false, None, completes)
    else Just(Idle)
  }

  function Act(w: Worker, jobs: map<JobId, Record>, nextDoc: DocId, outcome: Outcome, now: int): Effect
    requires w.Busy?
  {
    match w.phase
    case Claim(_) => ActClaim(w, outcome, now)
    case Chunk => ActChunk(w, nextDoc, outcome)
    case Nodes => Just(if outcome.Fine? then w.(phase := ReadToMark) else Returns(w, Failed))
    case ReadToMark => Just(w.(phase := WriteMark(RecordOf(jobs, w.job))))
    case WriteMark(_) => ActWriteMark(w, outcome, now)
    case Summarise => Just(if outcome.Fine? then w.(phase := Index) else Returns(w, Failed))
    case Index => ActIndex(w, outcome)
    case Resume => ActResume(w, outcome)
    case Read(status) => Just(w.(phase := Write(status, RecordOf(jobs, w.job))))
    case Write(_, _) => ActWrite(w, outcome, now)
  }

  function Applied(s: System, k: nat, e: Effect): System
    requires k < |s.workers| && s.workers[k].Busy?
  {
    var j := s.workers[k].job;
    s.(workers := s.workers[k := e.worker],
       jobs := if e.write.Some? then s.jobs[j := e.write.value] else s.jobs,
       docs := if e.stores then s.docs + [j] else s.docs,
       indexed := if e.indexes.Some? then s.indexed + [e.indexes.value] else s.indexed,
       completions := if e.completes.Some? then s.completions + [e.completes.value] else s.completions)
  }

  // ---- The system -------------------------------------------------------

  function DoEnqueue(s: System, request: string, at: nat, now: int): Option<System> {
    if at > |s.order| then None
    else Some(s.(
      jobs := s.jobs[s.nextId := NewJob(request, now)],
      order := s.order[..at] + [s.nextId] + s.order[at..], nextId := s.nextId + 1))
  }

  /** The first write of a claim. */
  function DoClaim(s: System, k: nat): Option<System> {
    if !s.boot.Running? || k >= |s.workers| || s.workers[k].Busy? then None
    else
      match FirstQueued(s.order, s.jobs)
      case None => None
      case Some(j) =>
        if j !in s.jobs || !s.jobs[j].Stored? then None
        else
          var copy := s.jobs[j].job;
          var stage := if copy.checkpoint.Some? then Marked(copy.checkpoint.value) else NoDoc;
          Some(s.(jobs := s.jobs[j := Blank],
                  workers := s.workers[k := Busy(j, stage, copy.checkpoint.None?, Claim(copy))]))
  }

  function DoMove(s: System, k: nat, outcome: Outcome, now: int): Option<System> {
    if k >= |s.workers| || s.workers[k].Idle? then None
    else Some(Applied(s, k, Act(s.workers[k], s.jobs, |s.docs|, outcome, now)))
  }

  predicate Lists(ids: seq<JobId>, jobs: map<JobId, Record>) {
    && (forall j :: j in ids ==> j in jobs) && (forall j :: j in jobs ==> j in ids)
    && forall i, k :: 0 <= i < k < |ids| ==> ids[i] != ids[k]
  }

  predicate ListsExpired(ids: seq<JobId>, jobs: map<JobId, Record>, now: int) {
    && (forall j :: j in ids ==> j in jobs && IsExpired(jobs[j], now))
    && forall j :: j in jobs && IsExpired(jobs[j], now) ==> j in ids
  }

  function DoCleanupRead(s: System, ids: seq<JobId>, now: int): Option<System> {
    if s.boot.Running? && ListsExpired(ids, s.jobs, now) then Some(s.(cleaning := Some(ids))) else None
  }

  function DoCleanupDelete(s: System, fine: bool): Option<System> {
    match s.cleaning
    case None => None
    case Some(ids) =>
      if !fine then Some(s.(cleaning := None))
      else Some(s.(jobs := map j | j in s.jobs && j !in ids :: s.jobs[j],
              order := Filter(j => j !in ids, s.order), cleaning := None))
  }

  /** The process dies: workers and what they read are gone, the store stays. */
  function DoCrash(s: System): Option<System> {
    Some(s.(workers := seq(|s.workers|, _ => Idle), boot := Down, cleaning := None))
  }

  function DoSnapshot(s: System, ids: seq<JobId>): Option<System> {
    if s.boot.Down? && Lists(ids, s.jobs) then Some(s.(boot := Recovering(s.jobs, ids))) else None
  }

  function DoRecoverOne(s: System, fine: bool, now: int): Option<System> {
    if !s.boot.Recovering? || s.boot.todo == [] then None
    else
      var id, snapshot := s.boot.todo[0], s.boot.snapshot;
      var s' := s.(boot := Recovering(snapshot, s.boot.todo[1..]));
      if IsProcessing(RecordOf(snapshot, id)) && fine
      then Some(s'.(jobs := s.jobs[id := Recovered(RecordOf(snapshot, id), now)]))
      else Some(s')
  }

  function DoStartWorkers(s: System): Option<System> {
    if s.boot.Recovering? && s.boot.todo == [] then Some(s.(boot := Running)) else None
  }

  /** One step; `None` when the action is not possible. */
  function Do(s: System, a: Action): Option<System> {
    match a
    case Enqueue(request, at, now) => DoEnqueue(s, request, at, now)
    case ClaimNext(k) => DoClaim(s, k)
    case Move(k, outcome, now) => DoMove(s, k, outcome, now)
    case CleanupRead(ids, now) => DoCleanupRead(s, ids, now)
    case CleanupDelete(fine) => DoCleanupDelete(s, fine)
    case Crash => DoCrash(s)
    case Snapshot(ids) => DoSnapshot(s, ids)
    case RecoverOne(fine, now) => DoRecoverOne(s, fine, now)
    case StartWorkers => DoStartWorkers(s)
  }

  /** An empty store and a pool of `n` workers that has not been started. */
  function Initial(n: nat): System {
    System(map[], [], 0, seq(n, _ => Idle), Down, None, [], [], [])
  }

  function Run(s: System, actions: seq<Action>): Option<System>
    decreases |actions|
  {
    if actions == [] then Some(s)
    else
      match Do(s, actions[0])
      case None => None
      case Some(s') => Run(s', actions[1..])
  }

  // ---- The invariant ----------------------------------------------------

  predicate Holds(w: Worker, j: JobId) { w.Busy? && w.job == j }

  ghost predicate Held(s: System, j: JobId) {
    exists k :: 0 <= k < |s.workers| && Holds(s.workers[k], j)
  }

  ghost predicate OneHolder(workers: seq<Worker>) {
    forall i, k :: 0 <= i < k < |workers| && workers[i].Busy? && workers[k].Busy? ==> workers[i].job != workers[k].job
  }

  predicate OwnsDoc(w: Worker, docs: seq<JobId>)
    requires w.Busy?
  {
    !w.stage.NoDoc? ==> w.stage.doc < |docs| && docs[w.stage.doc] == w.job
  }

  /** The record of a claimed job that is being processed; still blank when the claim could not write it back. */
  predicate InProcess(r: Record, stage: Stage) {
    r.Blank? || (IsProcessing(r) && r.job.checkpoint == if stage.Marked? then Some(stage.doc) else None)
  }

  predicate ClaimOk(w: Worker, r: Record)
    requires w.Busy? && w.phase.Claim?
  {
    && r == Blank && w.phase.copy.status.Queued? && !w.stage.Unmarked?
    && w.phase.copy.checkpoint == (if w.stage.Marked? then Some(w.stage.doc) else None)
    && w.anew == w.stage.NoDoc?
  }

  predicate PhaseOk(w: Worker, r: Record, indexed: seq<DocId>)
    requires w.Busy?
  {
    match w.phase
    case Claim(_) => ClaimOk(w, r)
    case Chunk => w.stage.NoDoc? && w.anew
    case Nodes => w.stage.Unmarked? && w.anew && w.stage.doc !in indexed
    case ReadToMark => w.stage.Unmarked? && w.anew && w.stage.doc !in indexed
    case WriteMark(read) => w.stage.Unmarked? && w.anew && w.stage.doc !in indexed && read == r
    case Summarise => !w.stage.NoDoc? && w.anew && w.stage.doc !in indexed
    case Index => !w.stage.NoDoc? && w.anew && w.stage.doc !in indexed
    case Resume => w.stage.Marked? && !w.anew
    case Read(status) => ReturnOk(w, status, indexed)
    case Write(status, read) => ReturnOk(w, status, indexed) && read == r
  }

  predicate ReturnOk(w: Worker, status: Status, indexed: seq<DocId>)
    requires w.Busy?
  {
    && (!w.anew ==> w.stage.Marked?)
    && match status
    case Completed(doc) => !w.stage.NoDoc? && w.stage.doc == doc && (w.anew ==> doc in indexed)
    case Failed => true
    case _ => false
  }

  predicate WorkerOk(w: Worker, jobs: map<JobId, Record>, docs: seq<JobId>, indexed: seq<DocId>) {
    w.Busy? ==>
      && w.job in jobs && OwnsDoc(w, docs) && PhaseOk(w, jobs[w.job], indexed)
      && (!w.phase.Claim? ==> InProcess(jobs[w.job], w.stage))
  }

  ghost predicate WorkersOk(s: System) {
    && OneHolder(s.workers)
    && forall k :: 0 <= k < |s.workers| ==> WorkerOk(s.workers[k], s.jobs, s.docs, s.indexed)
  }

  ghost predicate BootOk(s: System) {
    && (!s.boot.Running? ==> s.cleaning.None? && forall k :: 0 <= k < |s.workers| ==> s.workers[k].Idle?)
    && (s.boot.Recovering? ==>
          && (forall j :: j in s.boot.todo ==> j in s.jobs && j in s.boot.snapshot && s.boot.snapshot[j] == s.jobs[j])
          && (forall i, k :: 0 <= i < k < |s.boot.todo| ==> s.boot.todo[i] != s.boot.todo[k]))
  }

  ghost predicate CleaningOk(s: System) {
    s.cleaning.Some? ==> forall j :: j in s.cleaning.value && j in s.jobs ==> IsTerminal(s.jobs[j])
  }

  /** Ids and documents are old; a recorded checkpoint is a document of the job. */
  ghost predicate NamesOk(s: System) {
    && (forall j :: j in s.jobs ==> j < s.nextId)
    && (forall d :: 0 <= d < |s.docs| ==> s.docs[d] < s.nextId)
    && (forall d :: d in s.indexed ==> d < |s.docs|)
    && (forall j :: j in s.jobs && s.jobs[j].Stored? && s.jobs[j].job.checkpoint.Some? ==>
          s.jobs[j].job.checkpoint.value < |s.docs| && s.docs[s.jobs[j].job.checkpoint.value] == j)
    && (s.cleaning.Some? ==> forall j :: j in s.cleaning.value ==> j < s.nextId)
  }

  ghost predicate IndexOk(s: System) {
    && (forall i, k :: 0 <= i < k < |s.indexed| ==> s.indexed[i] != s.indexed[k])
    && (forall c :: c in s.completions ==>
          c.doc < |s.docs| && s.docs[c.doc] == c.job && (c.anew ==> c.doc in s.indexed))
  }

  ghost predicate Inv(s: System) {
    WorkersOk(s) && BootOk(s) && CleaningOk(s) && NamesOk(s) && IndexOk(s)
  }
}
