// Beam search as a set of branches that interleave at lock sections.  A task is
// the rest of one branch; a turn names the branch that enters its next lock
// section; a schedule is any list of turns.  The theorems hold for every one.
module SearchRuns {
  import opened Common
  import opened SearchModel

  /** The `results` vector and the `stats` record behind their mutexes. */
  datatype Shared = Shared(results: seq<SearchResult>, stats: Stats)

  const FRESH: Shared := Shared([], Stats(0, 0, 0, 0))

  /** The lock section a branch is about to enter. */
  datatype Frame =
    | Visit(id: NodeId, path: seq<string>, depth: nat)
    | LeafCheck(id: NodeId, path: seq<string>)
    | LeafCall(id: NodeId, path: seq<string>)
    | BatchCall(ids: seq<NodeId>, path: seq<string>)
    | Push(hits: seq<SearchResult>)
    | Decide(id: NodeId, path: seq<string>, depth: nat)
    | Prune(id: NodeId, path: seq<string>, depth: nat)
    | Gate(id: NodeId, path: seq<string>, depth: nat)

  datatype Task = Done | At(frame: Frame) | Then(first: Task, rest: Task) | Both(left: Task, right: Task)

  /** What a lock section does, and what the branch does after it. */
  datatype Section = Section(task: Task, event: Event)

  datatype Turn = Here | First(inner: Turn) | Second(inner: Turn)

  predicate Finished(t: Task) {
    match t
    case Done => true
    case At(_) => false
    case Then(a, b) => Finished(a) && Finished(b)
    case Both(a, b) => Finished(a) && Finished(b)
  }

  predicate StoredFrame(e: Engine, f: Frame) {
    match f
    case Push(_) => true
    case BatchCall(ids, _) => forall k :: k in ids ==> k in e.store
    case _ => f.id in e.store
  }

  predicate Stored(e: Engine, t: Task) {
    match t
    case Done => true
    case At(f) => StoredFrame(e, f)
    case Then(a, b) => Stored(e, a) && Stored(e, b)
    case Both(a, b) => Stored(e, a) && Stored(e, b)
  }

  // ---- One lock section -------------------------------------------------

  /** `depth + 1` on a `u8`. */
  function NextDepth(depth: nat): nat { if depth < 255 then depth + 1 else 0 }

  function BatchTask(ids: seq<NodeId>, path: seq<string>): Task {
    if ids == [] then Done else At(BatchCall(ids, path))
  }

  function PushTask(hits: seq<SearchResult>): Task { if hits == [] then Done else At(Push(hits)) }

  /** `join_all` over the branches, or the `for` loop that awaits them in turn. */
  function Branches(ids: seq<NodeId>, path: seq<string>, depth: nat, parallel: bool): Task {
    if ids == [] then Done
    else
      var head := At(Visit(ids[0], path, depth));
      var tail := Branches(ids[1..], path, depth, parallel);
      if parallel then Both(head, tail) else Then(head, tail)
  }

  function AfterVisit(e: Engine, id: NodeId, path: seq<string>, depth: nat): Task
    requires id in e.store
  {
    var path' := path + [e.store[id].title];
    if depth > e.config.maxDepth then Done
    else if e.store[id].IsLeaf() then At(LeafCheck(id, path'))
    else
      var kids := GetChildren(e, id);
      if kids == [] then Done
      else if depth < e.config.maxDepth && AllLeaves(e, Candidates(e, kids))
      then BatchTask(Candidates(e, kids), path')
      else At(Decide(id, path', depth))
  }

  predicate RunsParallel(e: Engine, ids: seq<NodeId>) { e.config.parallelBranches && |ids| > 1 }

  /** The selected children are verified in one call, or each is traversed. */
  function AfterGate(e: Engine, ids: seq<NodeId>, path: seq<string>, depth: nat): Task
    requires forall k :: k in ids ==> k in e.store
  {
    if depth < e.config.maxDepth && AllLeaves(e, ids) && ids != [] then BatchTask(ids, path)
    else Branches(ids, path, NextDepth(depth), RunsParallel(e, ids))
  }

  predicate Full(e: Engine, sh: Shared) { |sh.results| >= e.config.maxResults }

  function Apply(sh: Shared, event: Event): Shared {
    Shared(if event.Found? then sh.results + [event.result] else sh.results, Count(sh.stats, event))
  }

  function PruneSection(e: Engine, id: NodeId, path: seq<string>, depth: nat): Section
    requires id in e.store
  {
    var selected := Selected(e, id, path);
    Section(if selected == [] then Done else At(Gate(id, path, depth)), Pruned(|GetChildren(e, id)| - |selected|))
  }

  /** The next lock section of one branch, up to where it releases the lock. */
  function LockSection(e: Engine, f: Frame, sh: Shared): Section
    requires StoredFrame(e, f)
  {
    match f
    case Visit(id, path, depth) => Section(AfterVisit(e, id, path, depth), Visited(depth))
    case LeafCheck(id, path) =>
      Section(if Full(e, sh) || !PassesKeywordFilter(e, e.store[id]) then Done else At(LeafCall(id, path)), Looked)
    case LeafCall(id, path) => Section(PushTask(LeafHits(e, id, path)), Called)
    case BatchCall(ids, path) => Section(PushTask(BatchHits(e, ids, path)), Called)
    case Push(hits) => if hits == [] then Section(Done, Looked) else Section(PushTask(hits[1..]), Found(hits[0]))
    case Decide(id, path, depth) => Section(At(Prune(id, path, depth)), Called)
    case Prune(id, path, depth) => PruneSection(e, id, path, depth)
    case Gate(id, path, depth) =>
      Section(if Full(e, sh) then Done else AfterGate(e, Traced(e, id, path), path, depth), Looked)
  }

  /** Lets the branch that `turn` names enter its next lock section, if there is one. */
  function Step(e: Engine, t: Task, sh: Shared, turn: Turn): Option<Section>
    requires Stored(e, t)
  {
    match t
    case Done => None
    case At(f) => if turn == Here then Some(LockSection(e, f, sh)) else None
    case Then(a, b) =>
      if turn == Here || turn.First? == Finished(a) then None
      else if turn.First? then
        (match Step(e, a, sh, turn.inner) case Some(s) => Some(Section(Then(s.task, b), s.event)) case None => None)
      else
        (match Step(e, b, sh, turn.inner) case Some(s) => Some(Section(Then(a, s.task), s.event)) case None => None)
    case Both(a, b) =>
      if turn == Here then None
      else if turn.First? then
        (match Step(e, a, sh, turn.inner) case Some(s) => Some(Section(Both(s.task, b), s.event)) case None => None)
      else
        (match Step(e, b, sh, turn.inner) case Some(s) => Some(Section(Both(a, s.task), s.event)) case None => None)
  }

  // ---- What is left to do -----------------------------------------------

  predicate FrameInBounds(e: Engine, f: Frame) {
    match f
    case Visit(_, _, depth) => depth <= e.config.maxDepth + 1
    case Decide(_, _, depth) => depth <= e.config.maxDepth
    case Prune(_, _, depth) => depth <= e.config.maxDepth
    case Gate(_, _, depth) => depth <= e.config.maxDepth
    case BatchCall(ids, _) => ids != []
    case Push(hits) => hits != []
    case _ => true
  }

  predicate GoodFrame(e: Engine, f: Frame) {
    e.config.maxDepth < 255 && StoredFrame(e, f) && FrameInBounds(e, f)
  }

  predicate Good(e: Engine, t: Task) {
    match t
    case Done => true
    case At(f) => GoodFrame(e, f)
    case Then(a, b) => Good(e, a) && Good(e, b)
    case Both(a, b) => Good(e, a) && Good(e, b)
  }

  lemma {:induction false} GoodIsStored(e: Engine, t: Task)
    requires Good(e, t)
    ensures Stored(e, t)
  {
    match t {
      case Done =>
      case At(f) =>
      case Then(a, b) => GoodIsStored(e, a); GoodIsStored(e, b);
      case Both(a, b) => GoodIsStored(e, a); GoodIsStored(e, b);
    }
  }

  function FrameTrace(e: Engine, f: Frame): seq<Event>
    requires GoodFrame(e, f)
  {
    match f
    case Visit(id, path, depth) => VisitTrace(e, id, path, depth)
    case LeafCheck(id, path) => LeafCheckTrace(e, id, path)
    case LeafCall(id, path) => [Called] + FoundAll(LeafHits(e, id, path))
    case BatchCall(ids, path) => BatchTrace(e, ids, path)
    case Push(hits) => FoundAll(hits)
    case Decide(id, path, depth) => [Called] + PruneTrace(e, id, path, depth)
    case Prune(id, path, depth) => PruneTrace(e, id, path, depth)
    case Gate(id, path, depth) => [Looked] + AfterGateTrace(e, Traced(e, id, path), path, depth)
  }

  /** Everything a task would still do if no branch ever left early. */
  function Remaining(e: Engine, t: Task): seq<Event>
    requires Good(e, t)
  {
    match t
    case Done => []
    case At(f) => FrameTrace(e, f)
    case Then(a, b) => Remaining(e, a) + Remaining(e, b)
    case Both(a, b) => Remaining(e, a) + Remaining(e, b)
  }

  lemma {:induction false} BranchesRemain(e: Engine, ids: seq<NodeId>, path: seq<string>, depth: nat, parallel: bool)
    requires e.config.maxDepth < 255 && depth <= e.config.maxDepth + 1
    requires forall k :: k in ids ==> k in e.store
    ensures Good(e, Branches(ids, path, depth, parallel))
    ensures Remaining(e, Branches(ids, path, depth, parallel)) == BranchTrace(e, ids, path, depth)
  {
    if ids != [] {
      BranchesRemain(e, ids[1..], path, depth, parallel);
      assert GoodFrame(e, Visit(ids[0], path, depth));
    }
  }

  lemma {:induction false} BatchRemains(e: Engine, ids: seq<NodeId>, path: seq<string>)
    requires forall k :: k in ids ==> k in e.store
    requires e.config.maxDepth < 255
    ensures Good(e, BatchTask(ids, path))
    ensures Remaining(e, BatchTask(ids, path)) == BatchTrace(e, ids, path)
  {
  }

  lemma {:induction false} PushRemains(e: Engine, hits: seq<SearchResult>)
    requires e.config.maxDepth < 255
    ensures Good(e, PushTask(hits))
    ensures Remaining(e, PushTask(hits)) == FoundAll(hits)
  {
  }

  lemma {:induction false} AfterGateRemains(e: Engine, ids: seq<NodeId>, path: seq<string>, depth: nat)
    requires forall k :: k in ids ==> k in e.store
    requires e.config.maxDepth < 255 && depth <= e.config.maxDepth
    ensures Good(e, AfterGate(e, ids, path, depth))
    ensures Remaining(e, AfterGate(e, ids, path, depth)) == AfterGateTrace(e, ids, path, depth)
  {
    BatchRemains(e, ids, path);
    BranchesRemain(e, ids, path, depth + 1, RunsParallel(e, ids));
  }

  lemma {:induction false} AfterVisitRemains(e: Engine, id: NodeId, path: seq<string>, depth: nat)
    requires id in e.store && e.config.maxDepth < 255 && depth <= e.config.maxDepth + 1
    ensures Good(e, AfterVisit(e, id, path, depth))
    ensures Remaining(e, AfterVisit(e, id, path, depth)) == InsideTrace(e, id, path + [e.store[id].title], depth)
  {
    if depth <= e.config.maxDepth && !e.store[id].IsLeaf() {
      BatchRemains(e, Candidates(e, GetChildren(e, id)), path + [e.store[id].title]);
    }
  }

  lemma {:induction false} PruneAdvances(e: Engine, id: NodeId, path: seq<string>, depth: nat)
    requires id in e.store && e.config.maxDepth < 255 && depth <= e.config.maxDepth
    ensures var s := PruneSection(e, id, path, depth);
      Good(e, s.task) && PruneTrace(e, id, path, depth) == [s.event] + Remaining(e, s.task)
  {
    var s := PruneSection(e, id, path, depth);
    var chosen := ChosenTrace(e, |GetChildren(e, id)|, Selected(e, id, path), Traced(e, id, path), path, depth);
    assert PruneTrace(e, id, path, depth) == chosen;
    assert Remaining(e, s.task) == chosen[1..];
  }

  /** A section either performs the first event of what remained, or leaves early. */
  lemma {:induction false} FrameAdvances(e: Engine, f: Frame, sh: Shared)
    requires GoodFrame(e, f)
    ensures var s := LockSection(e, f, sh);
      && Good(e, s.task)
      && FrameTrace(e, f) != [] && FrameTrace(e, f)[0] == s.event
      && (Remaining(e, s.task) == FrameTrace(e, f)[1..]
          || (Full(e, sh) && s.event == Looked && Remaining(e, s.task) == []))
  {
    match f {
      case Visit(id, path, depth) => AfterVisitRemains(e, id, path, depth);
      case LeafCheck(id, path) =>
      case LeafCall(id, path) => PushRemains(e, LeafHits(e, id, path));
      case BatchCall(ids, path) => PushRemains(e, BatchHits(e, ids, path));
      case Push(hits) => PushRemains(e, hits[1..]);
      case Decide(id, path, depth) =>
      case Prune(id, path, depth) => PruneAdvances(e, id, path, depth);
      case Gate(id, path, depth) => AfterGateRemains(e, Traced(e, id, path), path, depth);
    }
  }

  /** `event` and `after` are all of `before`, or a part of it. */
  ghost predicate PartOf(event: Event, after: seq<Event>, before: seq<Event>) {
    multiset{event} + multiset(after) <= multiset(before)
  }

  ghost predicate AllOf(event: Event, after: seq<Event>, before: seq<Event>) {
    multiset{event} + multiset(after) == multiset(before)
  }

  lemma {:induction false} PartsBefore(event: Event, after: seq<Event>, before: seq<Event>, other: seq<Event>)
    requires PartOf(event, after, before)
    ensures PartOf(event, after + other, before + other)
    ensures AllOf(event, after, before) ==> AllOf(event, after + other, before + other)
  {
  }

  lemma {:induction false} PartsAfter(event: Event, after: seq<Event>, before: seq<Event>, other: seq<Event>)
    requires PartOf(event, after, before)
    ensures PartOf(event, other + after, other + before)
    ensures AllOf(event, after, before) ==> AllOf(event, other + after, other + before)
  {
  }

  lemma {:induction false} HeadAndTail(trace: seq<Event>)
    requires trace != []
    ensures AllOf(trace[0], trace[1..], trace)
  {
    assert trace == [trace[0]] + trace[1..];
  }

  /** A section accounts for its event, and for everything unless the branch left early. */
  ghost predicate Advances(e: Engine, s: Section, sh: Shared, before: seq<Event>) {
    && Good(e, s.task)
    && PartOf(s.event, Remaining(e, s.task), before)
    && (AllOf(s.event, Remaining(e, s.task), before) || (Full(e, sh) && s.event == Looked))
  }

  lemma {:induction false} SectionAdvances(e: Engine, f: Frame, sh: Shared)
    requires GoodFrame(e, f)
    ensures Advances(e, LockSection(e, f, sh), sh, FrameTrace(e, f))
  {
    FrameAdvances(e, f, sh);
    HeadAndTail(FrameTrace(e, f));
  }

  lemma {:induction false} ThenAdvances(e: Engine, s: Section, sh: Shared, before: seq<Event>, other: Task)
    requires Advances(e, s, sh, before) && Good(e, other)
    ensures Advances(e, Section(Then(s.task, other), s.event), sh, before + Remaining(e, other))
    ensures Advances(e, Section(Then(other, s.task), s.event), sh, Remaining(e, other) + before)
  {
    PartsBefore(s.event, Remaining(e, s.task), before, Remaining(e, other));
    PartsAfter(s.event, Remaining(e, s.task), before, Remaining(e, other));
  }

  lemma {:induction false} BothAdvances(e: Engine, s: Section, sh: Shared, before: seq<Event>, other: Task)
    requires Advances(e, s, sh, before) && Good(e, other)
    ensures Advances(e, Section(Both(s.task, other), s.event), sh, before + Remaining(e, other))
    ensures Advances(e, Section(Both(other, s.task), s.event), sh, Remaining(e, other) + before)
  {
    PartsBefore(s.event, Remaining(e, s.task), before, Remaining(e, other));
    PartsAfter(s.event, Remaining(e, s.task), before, Remaining(e, other));
  }

  lemma {:induction false} StepAdvances(e: Engine, t: Task, sh: Shared, turn: Turn)
    requires Good(e, t) && Stored(e, t) && Step(e, t, sh, turn).Some?
    ensures Advances(e, Step(e, t, sh, turn).value, sh, Remaining(e, t))
    decreases t
  {
    match t {
      case At(f) => SectionAdvances(e, f, sh);
      case Then(a, b) =>
        if turn.First? {
          StepAdvances(e, a, sh, turn.inner);
          ThenAdvances(e, Step(e, a, sh, turn.inner).value, sh, Remaining(e, a), b);
        } else {
          StepAdvances(e, b, sh, turn.inner);
          ThenAdvances(e, Step(e, b, sh, turn.inner).value, sh, Remaining(e, b), a);
        }
      case Both(a, b) =>
        if turn.First? {
          StepAdvances(e, a, sh, turn.inner);
          BothAdvances(e, Step(e, a, sh, turn.inner).value, sh, Remaining(e, a), b);
        } else {
          StepAdvances(e, b, sh, turn.inner);
          BothAdvances(e, Step(e, b, sh, turn.inner).value, sh, Remaining(e, b), a);
        }
    }
  }
}
