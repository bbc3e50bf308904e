// The records of the durable job queue and what each write does to one record.
module JobModel {
  import opened Common

  type JobId = nat
  type DocId = nat

  datatype Status = Queued | Processing | Completed(doc: DocId) | Failed {
    predicate IsTerminal() { Completed? || Failed? }
  }

  datatype Job = Job(status: Status, request: string, createdAt: int, updatedAt: int, checkpoint: Option<DocId>)

  /** The bytes under a job's key: a job, or the empty bytes that a claim writes first. */
  datatype Record = Blank | Stored(job: Job)

  predicate IsQueued(r: Record) { r.Stored? && r.job.status.Queued? }

  predicate IsProcessing(r: Record) { r.Stored? && r.job.status.Processing? }

  predicate IsTerminal(r: Record) { r.Stored? && r.job.status.IsTerminal() }

  const JOB_EXPIRY_SECS: int := 3600

  /** Whole seconds in a number of milliseconds, truncated towards zero. */
  function NumSeconds(ms: int): int { if ms >= 0 then ms / 1000 else -((-ms) / 1000) }

  predicate IsExpired(r: Record, now: int) {
    IsTerminal(r) && NumSeconds(now - r.job.updatedAt) > JOB_EXPIRY_SECS
  }

  function NewJob(request: string, now: int): Record { Stored(Job(Queued, request, now, now, None)) }

  function WithStatus(job: Job, status: Status, now: int): Record {
    Stored(job.(status := status, updatedAt := now))
  }

  function WithCheckpoint(job: Job, doc: DocId, now: int): Record {
    Stored(job.(checkpoint := Some(doc), updatedAt := now))
  }

  /** What a restart makes of a record: interrupted jobs wait again, with their checkpoint. */
  function Recovered(r: Record, now: int): Record {
    if IsProcessing(r) then WithStatus(r.job, Queued, now) else r
  }

  /** The first job in order whose record is queued. */
  function FirstQueued(order: seq<JobId>, jobs: map<JobId, Record>): Option<JobId> {
    if order == [] then None
    else if order[0] in jobs && IsQueued(jobs[order[0]]) then Some(order[0])
    else FirstQueued(order[1..], jobs)
  }

  // ---- The same in full -------------------------------------------------

  /** The job is stored with that status. */
  ghost predicate HasStatus(jobs: map<JobId, Record>, j: JobId, status: Status) {
    j in jobs && jobs[j].Stored? && jobs[j].job.status == status
  }

  /** `j` is the first job in order that is stored as queued. */
  ghost predicate IsNext(order: seq<JobId>, jobs: map<JobId, Record>, j: JobId) {
    exists k :: 0 <= k < |order| && order[k] == j && HasStatus(jobs, order[k], Queued)
      && forall i :: 0 <= i < k ==> !HasStatus(jobs, order[i], Queued)
  }

  /** The job finished at least 3601 seconds ago; times are in milliseconds. */
  ghost predicate IsOld(jobs: map<JobId, Record>, j: JobId, now: int) {
    && j in jobs && jobs[j].Stored? && (jobs[j].job.status.Completed? || jobs[j].job.status.Failed?)
    && now - jobs[j].job.updatedAt >= 3601 * 1000
  }

  /** `after` is `before` with the record of `j` replaced. */
  ghost predicate OnlyChanges(before: map<JobId, Record>, after: map<JobId, Record>, j: JobId, job: Job) {
    && after.Keys == before.Keys + {j}
    && after[j] == Stored(job)
    && forall i :: i in before && i != j ==> after[i] == before[i]
  }

  /** Every interrupted job waits again as it is otherwise; no other record has changed. */
  ghost predicate IsRecovered(before: map<JobId, Record>, after: map<JobId, Record>, now: int) {
    && after.Keys == before.Keys
    && (forall j :: j in before && HasStatus(before, j, Processing) ==>
          after[j] == Stored(before[j].job.(status := Queued, updatedAt := now)))
    && (forall j :: j in before && !HasStatus(before, j, Processing) ==> after[j] == before[j])
  }

  ghost predicate NoneProcessing(jobs: map<JobId, Record>) { forall j :: !HasStatus(jobs, j, Processing) }

  lemma {:induction false} RecoveredIsRecovered(before: map<JobId, Record>, after: map<JobId, Record>, now: int)
    requires after == map j | j in before :: Recovered(before[j], now)
    ensures IsRecovered(before, after, now) && NoneProcessing(after)
  {
  }

  lemma {:induction false} FirstQueuedIsNext(order: seq<JobId>, jobs: map<JobId, Record>)
    ensures FirstQueued(order, jobs).Some? ==> IsNext(order, jobs, FirstQueued(order, jobs).value)
    ensures FirstQueued(order, jobs).None? ==> forall j :: j in order ==> !HasStatus(jobs, j, Queued)
  {
    var k := FirstQueuedIsFirst(order, jobs);
    forall i | 0 <= i < |order| ensures Waits(order, jobs, i) <==> HasStatus(jobs, order[i], Queued) { }
  }

  lemma {:induction false} ExpiredIsOld(jobs: map<JobId, Record>, j: JobId, now: int)
    requires j in jobs
    ensures IsExpired(jobs[j], now) <==> IsOld(jobs, j, now)
  {
  }

  ghost predicate Waits(order: seq<JobId>, jobs: map<JobId, Record>, k: nat)
    requires k < |order|
  {
    order[k] in jobs && IsQueued(jobs[order[k]])
  }

  lemma {:induction false} FirstQueuedIsFirst(order: seq<JobId>, jobs: map<JobId, Record>) returns (k: nat)
    ensures k <= |order| && forall i :: 0 <= i < k ==> !Waits(order, jobs, i)
    ensures FirstQueued(order, jobs) == if k < |order| then Some(order[k]) else None
    ensures k < |order| ==> Waits(order, jobs, k)
  {
    if order == [] || (order[0] in jobs && IsQueued(jobs[order[0]])) {
      k := 0;
    } else {
      k := FirstQueuedIsFirst(order[1..], jobs);
      forall i | 0 <= i < k + 1 ensures !Waits(order, jobs, i) {
        if i > 0 { assert !Waits(order[1..], jobs, i - 1); }
      }
      if k < |order[1..]| { assert Waits(order[1..], jobs, k); }
      k := k + 1;
    }
  }
}
