// Theorems about every schedule of one search.
module SearchTheorems {
  import opened Common
  import opened SearchModel
  import opened SearchRuns

  // ---- Runs -------------------------------------------------------------

  /** Where a run has come to: what is left, the shared state, and its events in order. */
  datatype Progress = Progress(task: Task, shared: Shared, log: seq<Event>)

  lemma {:induction false} BranchesStored(e: Engine, ids: seq<NodeId>, path: seq<string>, depth: nat, parallel: bool)
    requires forall k :: k in ids ==> k in e.store
    ensures Stored(e, Branches(ids, path, depth, parallel))
  {
    if ids != [] { BranchesStored(e, ids[1..], path, depth, parallel); }
  }

  lemma {:induction false} SectionStored(e: Engine, f: Frame, sh: Shared)
    requires StoredFrame(e, f)
    ensures Stored(e, LockSection(e, f, sh).task)
  {
    if f.Gate? {
      var ids := Traced(e, f.id, f.path);
      BranchesStored(e, ids, f.path, NextDepth(f.depth), RunsParallel(e, ids));
    }
  }

  lemma {:induction false} StepStored(e: Engine, t: Task, sh: Shared, turn: Turn)
    requires Stored(e, t) && Step(e, t, sh, turn).Some?
    ensures Stored(e, Step(e, t, sh, turn).value.task)
    decreases t
  {
    match t {
      case At(f) => SectionStored(e, f, sh);
      case Then(a, b) => StepStored(e, if turn.First? then a else b, sh, turn.inner);
      case Both(a, b) => StepStored(e, if turn.First? then a else b, sh, turn.inner);
    }
  }

  /** Plays a schedule; `None` when one of its turns is not possible. */
  function Run(e: Engine, t: Task, sh: Shared, turns: seq<Turn>): Option<Progress>
    requires Stored(e, t)
    decreases |turns|
  {
    if turns == [] then Some(Progress(t, sh, []))
    else
      match Step(e, t, sh, turns[0])
      case None => None
      case Some(s) =>
        StepStored(e, t, sh, turns[0]);
        match Run(e, s.task, Apply(sh, s.event), turns[1..])
        case None => None
        case Some(p) => Some(p.(log := [s.event] + p.log))
  }

  function Start(root: NodeId): Task { At(Visit(root, [], 0)) }

  function ByConfidence(r: SearchResult): int { -r.confidence }

  /** The response `search` builds once the traversal has returned. */
  datatype SearchResponse = SearchResponse(results: seq<SearchResult>, stats: Stats)

  function Respond(e: Engine, sh: Shared): SearchResponse {
    SearchResponse(Take(StableSort(ByConfidence, sh.results), e.config.maxResults), sh.stats)
  }

  // ---- Traces with the same events --------------------------------------

  lemma {:induction false} CountCommutes(s: Stats, a: Event, b: Event)
    ensures Count(Count(s, a), b) == Count(Count(s, b), a)
  {
  }

  function Without(trace: seq<Event>, i: nat): seq<Event>
    requires i < |trace|
  {
    trace[..i] + trace[i + 1..]
  }

  function OwnHits(event: Event): seq<SearchResult> { if event.Found? then [event.result] else [] }

  lemma {:induction false} TailWithout(trace: seq<Event>, i: nat)
    requires 0 < i < |trace|
    ensures Without(trace, i)[0] == trace[0] && Without(trace, i)[1..] == Without(trace[1..], i - 1)
  {
  }

  lemma {:induction false} StatsWithout(trace: seq<Event>, i: nat)
    requires i < |trace|
    ensures StatsOf(trace) == Count(StatsOf(Without(trace, i)), trace[i])
  {
    if i == 0 {
      assert Without(trace, i) == trace[1..];
    } else {
      TailWithout(trace, i);
      StatsWithout(trace[1..], i - 1);
      CountCommutes(StatsOf(Without(trace[1..], i - 1)), trace[i], trace[0]);
    }
  }

  lemma {:induction false} HitsWithout(trace: seq<Event>, i: nat)
    requires i < |trace|
    ensures multiset(Hits(trace)) == multiset(OwnHits(trace[i])) + multiset(Hits(Without(trace, i)))
  {
    if i == 0 {
      assert Without(trace, i) == trace[1..];
    } else {
      TailWithout(trace, i);
      HitsWithout(trace[1..], i - 1);
    }
  }

  lemma {:induction false} EventsWithout(trace: seq<Event>, i: nat)
    requires i < |trace|
    ensures multiset(trace) == multiset{trace[i]} + multiset(Without(trace, i))
  {
    assert trace == trace[..i] + [trace[i]] + trace[i + 1..];
  }

  lemma {:induction false} Match(a: seq<Event>, b: seq<Event>) returns (i: nat)
    requires a != [] && multiset(a) <= multiset(b)
    ensures i < |b| && b[i] == a[0]
    ensures multiset(a[1..]) <= multiset(Without(b, i))
    ensures multiset(a) == multiset(b) ==> multiset(a[1..]) == multiset(Without(b, i))
  {
    assert a[0] in multiset(b);
    i :| 0 <= i < |b| && b[i] == a[0];
    EventsWithout(b, i);
    EventsWithout(a, 0);
    assert Without(a, 0) == a[1..];
    CancelOne(a[0], multiset(a[1..]), multiset(Without(b, i)));
  }

  lemma {:induction false} HitsDecide(a: seq<Event>, b: seq<Event>)
    requires multiset(a) <= multiset(b)
    ensures multiset(Hits(a)) <= multiset(Hits(b))
    decreases |a|
  {
    if a != [] {
      var i := Match(a, b);
      HitsDecide(a[1..], Without(b, i));
      HitsWithout(b, i);
      assert Hits(a) == OwnHits(a[0]) + Hits(a[1..]);
    }
  }

  lemma {:induction false} StatsDecide(a: seq<Event>, b: seq<Event>)
    requires multiset(a) <= multiset(b)
    ensures StatsOf(a).visited <= StatsOf(b).visited && StatsOf(a).llmCalls <= StatsOf(b).llmCalls
    ensures multiset(a) == multiset(b) ==> StatsOf(a) == StatsOf(b)
    decreases |a|
  {
    if a != [] {
      var i := Match(a, b);
      StatsDecide(a[1..], Without(b, i));
      StatsWithout(b, i);
    } else if b != [] {
      assert b[0] in multiset(b);
    }
  }

  /** Fewer events, in any order, amount to less; the same events amount to the same. */
  lemma {:induction false} EventsDecide(a: seq<Event>, b: seq<Event>)
    requires multiset(a) <= multiset(b)
    ensures multiset(Hits(a)) <= multiset(Hits(b))
    ensures StatsOf(a).visited <= StatsOf(b).visited && StatsOf(a).llmCalls <= StatsOf(b).llmCalls
    ensures multiset(a) == multiset(b) ==> multiset(Hits(a)) == multiset(Hits(b)) && StatsOf(a) == StatsOf(b)
  {
    HitsDecide(a, b);
    StatsDecide(a, b);
    if multiset(a) == multiset(b) { HitsDecide(b, a); }
  }

  lemma {:induction false} TailOfAppend(a: seq<Event>, b: seq<Event>)
    requires a != []
    ensures (a + b)[0] == a[0] && (a + b)[1..] == a[1..] + b
  {
  }

  lemma {:induction false} HitsOfFirst(trace: seq<Event>)
    requires trace != []
    ensures Hits(trace) == OwnHits(trace[0]) + Hits(trace[1..])
  {
  }

  lemma {:induction false} HitsOfAppend(a: seq<Event>, b: seq<Event>)
    ensures Hits(a + b) == Hits(a) + Hits(b)
  {
    if a == [] {
      assert a + b == b;
    } else {
      TailOfAppend(a, b);
      HitsOfAppend(a[1..], b);
      HitsOfFirst(a);
      HitsOfFirst(a + b);
      Associates(OwnHits(a[0]), Hits(a[1..]), Hits(b));
    }
  }

  lemma {:induction false} StatsOfAppend(a: seq<Event>, b: seq<Event>)
    ensures StatsOf(a + b).visited == StatsOf(a).visited + StatsOf(b).visited
  {
    if a == [] {
      assert a + b == b;
    } else {
      TailOfAppend(a, b);
      StatsOfAppend(a[1..], b);
    }
  }

  // ---- Conservation over a run ------------------------------------------

  /** The shared state is what the events so far amount to. */
  ghost predicate Reflects(sh: Shared, log: seq<Event>) {
    sh.results == Hits(log) && sh.stats == StatsOf(log)
  }

  function ApplyAll(sh: Shared, log: seq<Event>): Shared
    decreases |log|
  {
    if log == [] then sh else ApplyAll(Apply(sh, log[0]), log[1..])
  }

  lemma {:induction false} ApplyAllFinds(sh: Shared, log: seq<Event>)
    ensures ApplyAll(sh, log).results == sh.results + Hits(log)
    decreases |log|
  {
    if log != [] {
      ApplyAllFinds(Apply(sh, log[0]), log[1..]);
    }
  }

  lemma {:induction false} SameStats(a: Shared, b: Shared, log: seq<Event>)
    requires a.stats == b.stats
    ensures ApplyAll(a, log).stats == ApplyAll(b, log).stats
    decreases |log|
  {
    if log != [] { SameStats(Apply(a, log[0]), Apply(b, log[0]), log[1..]); }
  }

  lemma {:induction false} ApplyAllCounts(sh: Shared, event: Event, log: seq<Event>)
    ensures ApplyAll(Apply(sh, event), log).stats == Count(ApplyAll(sh, log).stats, event)
    decreases |log|
  {
    if log != [] {
      CountCommutes(sh.stats, event, log[0]);
      SameStats(Apply(Apply(sh, event), log[0]), Apply(Apply(sh, log[0]), event), log[1..]);
      ApplyAllCounts(Apply(sh, log[0]), event, log[1..]);
    }
  }

  lemma {:induction false} ApplyAllReflects(log: seq<Event>)
    ensures Reflects(ApplyAll(FRESH, log), log)
    decreases |log|
  {
    ApplyAllFinds(FRESH, log);
    if log != [] {
      ApplyAllReflects(log[1..]);
      ApplyAllCounts(FRESH, log[0], log[1..]);
    }
  }

  lemma {:induction false} RunApplies(e: Engine, t: Task, sh: Shared, turns: seq<Turn>)
    requires Stored(e, t) && Run(e, t, sh, turns).Some?
    ensures Run(e, t, sh, turns).value.shared == ApplyAll(sh, Run(e, t, sh, turns).value.log)
    decreases |turns|
  {
    if turns != [] {
      var s, p := FirstStep(e, t, sh, turns);
      RunApplies(e, s.task, Apply(sh, s.event), turns[1..]);
    }
  }

  /** A run is its first step and then a run. */
  lemma {:induction false} FirstStep(e: Engine, t: Task, sh: Shared, turns: seq<Turn>) returns (s: Section, p: Progress)
    requires Stored(e, t) && turns != [] && Run(e, t, sh, turns).Some?
    ensures Step(e, t, sh, turns[0]) == Some(s) && Stored(e, s.task)
    ensures Run(e, s.task, Apply(sh, s.event), turns[1..]) == Some(p)
    ensures Run(e, t, sh, turns) == Some(p.(log := [s.event] + p.log))
  {
    StepStored(e, t, sh, turns[0]);
    s := Step(e, t, sh, turns[0]).value;
    p := Run(e, s.task, Apply(sh, s.event), turns[1..]).value;
  }

  /** The events so far and those still owed are all of `whole`, or a part of it. */
  ghost predicate Conserved(log: seq<Event>, owed: seq<Event>, whole: seq<Event>) {
    multiset(log) + multiset(owed) <= multiset(whole)
  }

  ghost predicate FullyConserved(log: seq<Event>, owed: seq<Event>, whole: seq<Event>) {
    multiset(log) + multiset(owed) == multiset(whole)
  }

  lemma {:induction false} OneEventMore(
      event: Event, log: seq<Event>, owed: seq<Event>, after: seq<Event>, before: seq<Event>)
    requires PartOf(event, after, before) && Conserved(log, owed, after)
    ensures Conserved([event] + log, owed, before)
    ensures AllOf(event, after, before) && FullyConserved(log, owed, after) ==>
      FullyConserved([event] + log, owed, before)
  {
    var mine, logged, owing := multiset{event}, multiset(log), multiset(owed);
    assert multiset([event] + log) + owing == mine + (logged + owing);
    MoreOnBothSides(mine, logged + owing, multiset(after));
  }

  lemma {:induction false} MoreOnBothSides(x: multiset<Event>, m: multiset<Event>, n: multiset<Event>)
    requires m <= n
    ensures x + m <= x + n
  {
  }

  ghost predicate Accounts(e: Engine, p: Progress, sh: Shared, whole: seq<Event>) {
    && Good(e, p.task)
    && |sh.results| <= |p.shared.results|
    && Conserved(p.log, Remaining(e, p.task), whole)
    && (FullyConserved(p.log, Remaining(e, p.task), whole) || Full(e, p.shared))
  }

  lemma {:induction false} AccountsForOneMore(e: Engine, s: Section, p: Progress, sh: Shared, whole: seq<Event>)
    requires Advances(e, s, sh, whole) && Accounts(e, p, Apply(sh, s.event), Remaining(e, s.task))
    ensures Accounts(e, p.(log := [s.event] + p.log), sh, whole)
  {
    OneEventMore(s.event, p.log, Remaining(e, p.task), Remaining(e, s.task), whole);
  }

  /**
   * Conservation: the events of a run and the events it still owes are among
   * those of the full traversal, and are all of them unless `results` is full.
   */
  lemma {:induction false} RunConserves(e: Engine, t: Task, sh: Shared, turns: seq<Turn>)
    requires Good(e, t) && Stored(e, t) && Run(e, t, sh, turns).Some?
    ensures Accounts(e, Run(e, t, sh, turns).value, sh, Remaining(e, t))
    ensures |Run(e, t, sh, turns).value.log| == |turns|
    decreases |turns|
  {
    if turns != [] {
      var s, p := FirstStep(e, t, sh, turns);
      StepAdvances(e, t, sh, turns[0]);
      RunConserves(e, s.task, Apply(sh, s.event), turns[1..]);
      AccountsForOneMore(e, s, p, sh, Remaining(e, t));
    }
  }

  lemma {:induction false} FinishedOwesNothing(e: Engine, t: Task)
    requires Good(e, t) && Finished(t)
    ensures Remaining(e, t) == []
  {
    match t {
      case Done =>
      case Then(a, b) => FinishedOwesNothing(e, a); FinishedOwesNothing(e, b);
      case Both(a, b) => FinishedOwesNothing(e, a); FinishedOwesNothing(e, b);
    }
  }

  ghost predicate Falls(results: seq<SearchResult>) {
    forall i, j :: 0 <= i < j < |results| ==> results[i].confidence >= results[j].confidence
  }

  /** The best `n` of `all`, best first: nothing that is left out is better than anything kept. */
  ghost predicate IsBestOf(kept: seq<SearchResult>, all: seq<SearchResult>, n: nat) {
    && |kept| == Min(n, |all|) && multiset(kept) <= multiset(all) && Falls(kept)
    && forall k, d :: k in kept && d in multiset(all) - multiset(kept) ==> k.confidence >= d.confidence
  }

  lemma {:induction false} FrontIsBest(sorted: seq<SearchResult>, n: nat)
    requires SortedBy(ByConfidence, sorted) && n <= |sorted|
    ensures Falls(sorted[..n])
    ensures forall k, d :: k in sorted[..n] && d in sorted[n..] ==> k.confidence >= d.confidence
  {
    forall i, j | 0 <= i < j < n ensures sorted[i].confidence >= sorted[j].confidence {
      assert ByConfidence(sorted[i]) <= ByConfidence(sorted[j]);
    }
    forall k, d | k in sorted[..n] && d in sorted[n..] ensures k.confidence >= d.confidence {
      var i :| 0 <= i < n && sorted[..n][i] == k;
      var j :| 0 <= j < |sorted[n..]| && sorted[n..][j] == d;
      assert ByConfidence(sorted[i]) <= ByConfidence(sorted[n + j]);
    }
  }

  lemma {:induction false} RestOf(
      all: multiset<SearchResult>, kept: multiset<SearchResult>, rest: multiset<SearchResult>)
    requires all == kept + rest
    ensures all - kept == rest && kept <= all
  {
  }

  /** The response holds the best `max_results` of the collected results. */
  lemma {:induction false} RespondKeeps(e: Engine, sh: Shared)
    ensures IsBestOf(Respond(e, sh).results, sh.results, e.config.maxResults)
    ensures |sh.results| <= e.config.maxResults ==> multiset(Respond(e, sh).results) == multiset(sh.results)
  {
    var sorted := StableSort(ByConfidence, sh.results);
    StableSortSorts(ByConfidence, sh.results);
    var kept := Take(sorted, e.config.maxResults);
    FrontIsBest(sorted, |kept|);
    assert sorted == kept + sorted[|kept|..];
    RestOf(multiset(sh.results), multiset(kept), multiset(sorted[|kept|..]));
  }

  /** A run from the root: its log explains the shared state and comes from the full traversal. */
  lemma {:induction false} RunFromRoot(e: Engine, root: NodeId, turns: seq<Turn>)
    requires root in e.store && e.config.maxDepth < 255 && Run(e, Start(root), FRESH, turns).Some?
    ensures var p := Run(e, Start(root), FRESH, turns).value;
      && Good(e, p.task)
      && |p.log| == |turns|
      && Reflects(p.shared, p.log)
      && multiset(p.log) <= multiset(VisitTrace(e, root, [], 0))
      && (Finished(p.task) && !Full(e, p.shared) ==> multiset(p.log) == multiset(VisitTrace(e, root, [], 0)))
  {
    var p := Run(e, Start(root), FRESH, turns).value;
    assert Remaining(e, Start(root)) == VisitTrace(e, root, [], 0);
    RunApplies(e, Start(root), FRESH, turns);
    ApplyAllReflects(p.log);
    RunConserves(e, Start(root), FRESH, turns);
    if Finished(p.task) { FinishedOwesNothing(e, p.task); }
  }

  lemma {:induction false} SizesFollow<T>(a: seq<T>, b: seq<T>)
    requires multiset(a) <= multiset(b)
    ensures |a| <= |b|
    ensures multiset(a) == multiset(b) ==> |a| == |b|
  {
    var rest := multiset(b) - multiset(a);
    assert multiset(b) == multiset(a) + rest;
    assert |multiset(b)| == |multiset(a)| + |rest|;
  }

  /**
   * For every schedule that lets all branches return: the response holds
   * exactly `min(max_results, |full|)` results, drawn from those of the full
   * traversal, best first; and when that traversal finds fewer than
   * `max_results`, results and all four counters do not depend on the schedule.
   */
  lemma {:induction false} EveryScheduleAnswers(e: Engine, root: NodeId, turns: seq<Turn>)
    requires root in e.store && e.config.maxDepth < 255
    requires Run(e, Start(root), FRESH, turns).Some? && Finished(Run(e, Start(root), FRESH, turns).value.task)
    ensures
      var response := Respond(e, Run(e, Start(root), FRESH, turns).value.shared);
      var trace := VisitTrace(e, root, [], 0);
      && |response.results| == Min(e.config.maxResults, |Hits(trace)|)
      && multiset(response.results) <= multiset(Hits(trace))
      && Falls(response.results)
      && (|Hits(trace)| < e.config.maxResults ==>
            multiset(response.results) == multiset(Hits(trace)) && response.stats == StatsOf(trace))
  {
    var p := Run(e, Start(root), FRESH, turns).value;
    RunFromRoot(e, root, turns);
    EventsDecide(p.log, VisitTrace(e, root, [], 0));
    SizesFollow(Hits(p.log), Hits(VisitTrace(e, root, [], 0)));
    RespondKeeps(e, p.shared);
  }

  // ---- Termination ------------------------------------------------------

  /** The branch that moves next when branches run one after another. */
  function NextTurn(t: Task): Turn {
    match t
    case Done => Here
    case At(_) => Here
    case Then(a, b) => if Finished(a) then Second(NextTurn(b)) else First(NextTurn(a))
    case Both(a, b) => if Finished(a) then Second(NextTurn(b)) else First(NextTurn(a))
  }

  /**
   * No schedule runs longer than the full traversal has lock sections, and none
   * is stuck before every branch has returned: also on cyclic child links.
   */
  lemma {:induction false} EveryScheduleEnds(e: Engine, root: NodeId, turns: seq<Turn>)
    requires root in e.store && e.config.maxDepth < 255
    requires Run(e, Start(root), FRESH, turns).Some?
    ensures |turns| <= |VisitTrace(e, root, [], 0)|
    ensures var p := Run(e, Start(root), FRESH, turns).value;
      Stored(e, p.task) && (Finished(p.task) || Step(e, p.task, p.shared, NextTurn(p.task)).Some?)
  {
    var p := Run(e, Start(root), FRESH, turns).value;
    RunFromRoot(e, root, turns);
    SizesFollow(p.log, VisitTrace(e, root, [], 0));
    GoodIsStored(e, p.task);
    if !Finished(p.task) { SomeTurnIsPossible(e, p.task, p.shared); }
  }

  lemma {:induction false} SomeTurnIsPossible(e: Engine, t: Task, sh: Shared)
    requires Stored(e, t) && !Finished(t)
    ensures Step(e, t, sh, NextTurn(t)).Some?
    decreases t
  {
    match t {
      case At(_) =>
      case Then(a, b) => SomeTurnIsPossible(e, if Finished(a) then b else a, sh);
      case Both(a, b) => SomeTurnIsPossible(e, if Finished(a) then b else a, sh);
    }
  }

  // ---- Cost -------------------------------------------------------------

  /** Reasoner calls that frames already counted as visited may still make. */
  function Owed(t: Task): nat {
    match t
    case Done => 0
    case At(f) =>
      (match f
       case Visit(_, _, _) => 0
       case Push(_) => 0
       case Decide(_, _, _) => 2
       case _ => 1)
    case Then(a, b) => Owed(a) + Owed(b)
    case Both(a, b) => Owed(a) + Owed(b)
  }

  lemma {:induction false} BranchesOweNothing(ids: seq<NodeId>, path: seq<string>, depth: nat, parallel: bool)
    ensures Owed(Branches(ids, path, depth, parallel)) == 0
  {
    if ids != [] { BranchesOweNothing(ids[1..], path, depth, parallel); }
  }

  /** A section of a branch that owed `owed` calls pays for the call it makes, or visits a node. */
  predicate Pays(s: Section, owed: nat) {
    match s.event
    case Visited(_) => Owed(s.task) <= owed + 2
    case Called => Owed(s.task) + 1 <= owed
    case _ => Owed(s.task) <= owed
  }

  lemma {:induction false} GatePays(e: Engine, ids: seq<NodeId>, path: seq<string>, depth: nat)
    requires forall k :: k in ids ==> k in e.store
    ensures Owed(AfterGate(e, ids, path, depth)) <= 1
  {
    BranchesOweNothing(ids, path, NextDepth(depth), RunsParallel(e, ids));
  }

  lemma {:induction false} VisitPays(e: Engine, id: NodeId, path: seq<string>, depth: nat)
    requires id in e.store
    ensures Owed(AfterVisit(e, id, path, depth)) <= 2
  {
  }

  lemma {:induction false} FramePays(e: Engine, f: Frame, sh: Shared)
    requires StoredFrame(e, f)
    ensures Pays(LockSection(e, f, sh), Owed(At(f)))
  {
    match f
    case Visit(id, path, depth) => VisitPays(e, id, path, depth);
    case Gate(id, path, depth) => GatePays(e, Traced(e, id, path), path, depth);
    case _ =>
  }

  lemma {:induction false} StepPays(e: Engine, t: Task, sh: Shared, turn: Turn)
    requires Stored(e, t) && Step(e, t, sh, turn).Some?
    ensures Pays(Step(e, t, sh, turn).value, Owed(t))
    decreases t
  {
    match t {
      case At(f) => FramePays(e, f, sh);
      case Then(a, b) => StepPays(e, if turn.First? then a else b, sh, turn.inner);
      case Both(a, b) => StepPays(e, if turn.First? then a else b, sh, turn.inner);
    }
  }

  lemma {:induction false} RunPays(e: Engine, t: Task, sh: Shared, turns: seq<Turn>)
    requires Stored(e, t) && Run(e, t, sh, turns).Some?
    requires sh.stats.llmCalls + Owed(t) <= 2 * sh.stats.visited
    ensures var p := Run(e, t, sh, turns).value;
      p.shared.stats.llmCalls + Owed(p.task) <= 2 * p.shared.stats.visited
    decreases |turns|
  {
    if turns != [] {
      var s, p := FirstStep(e, t, sh, turns);
      StepPays(e, t, sh, turns[0]);
      RunPays(e, s.task, Apply(sh, s.event), turns[1..]);
    }
  }

  // ---- One branch at a time, or several ---------------------------------

  /** No two branches are under way at once. */
  predicate IsSequential(t: Task) {
    match t
    case Done => true
    case At(_) => true
    case Then(a, b) => IsSequential(a) && IsSequential(b)
    case Both(_, _) => false
  }

  lemma {:induction false} LoopIsSequential(ids: seq<NodeId>, path: seq<string>, depth: nat)
    ensures IsSequential(Branches(ids, path, depth, false))
  {
    if ids != [] { LoopIsSequential(ids[1..], path, depth); }
  }

  lemma {:induction false} SectionIsSequential(e: Engine, f: Frame, sh: Shared)
    requires StoredFrame(e, f) && !e.config.parallelBranches
    ensures IsSequential(LockSection(e, f, sh).task)
  {
    match f
    case Visit(id, path, depth) => VisitIsSequential(e, id, path, depth);
    case Gate(id, path, depth) => GateIsSequential(e, Traced(e, id, path), path, depth);
    case _ =>
  }

  lemma {:induction false} VisitIsSequential(e: Engine, id: NodeId, path: seq<string>, depth: nat)
    requires id in e.store
    ensures IsSequential(AfterVisit(e, id, path, depth))
  {
  }

  lemma {:induction false} GateIsSequential(e: Engine, ids: seq<NodeId>, path: seq<string>, depth: nat)
    requires (forall k :: k in ids ==> k in e.store) && !e.config.parallelBranches
    ensures IsSequential(AfterGate(e, ids, path, depth))
  {
    LoopIsSequential(ids, path, NextDepth(depth));
  }

  lemma {:induction false} OneTurnAtATime(e: Engine, t: Task, sh: Shared, turn: Turn)
    requires Stored(e, t) && IsSequential(t) && !e.config.parallelBranches && Step(e, t, sh, turn).Some?
    ensures turn == NextTurn(t) && IsSequential(Step(e, t, sh, turn).value.task)
    decreases t
  {
    match t {
      case At(f) => SectionIsSequential(e, f, sh);
      case Then(a, b) => OneTurnAtATime(e, if turn.First? then a else b, sh, turn.inner);
    }
  }

  /** With `parallel_branches` off there is one schedule only: at every point a single turn is possible. */
  lemma {:induction false} SequentialIsDeterministic(e: Engine, t: Task, sh: Shared, turns: seq<Turn>)
    requires Stored(e, t) && IsSequential(t) && !e.config.parallelBranches && Run(e, t, sh, turns).Some?
    ensures var p := Run(e, t, sh, turns).value;
      Stored(e, p.task) && forall turn :: Step(e, p.task, p.shared, turn).Some? ==> turn == NextTurn(p.task)
    decreases |turns|
  {
    if turns == [] {
      forall turn | Step(e, t, sh, turn).Some? ensures turn == NextTurn(t) { OneTurnAtATime(e, t, sh, turn); }
    } else {
      var s, p := FirstStep(e, t, sh, turns);
      OneTurnAtATime(e, t, sh, turns[0]);
      SequentialIsDeterministic(e, s.task, Apply(sh, s.event), turns[1..]);
    }
  }

  /** With it on, any of several chosen children may be visited first. */
  lemma {:induction false} AnyBranchMayStart(
      e: Engine, ids: seq<NodeId>, path: seq<string>, depth: nat, sh: Shared, i: nat)
      returns (turn: Turn)
    requires e.config.parallelBranches && i < |ids| && |ids| > 1 && forall k :: k in ids ==> k in e.store
    requires !(depth < e.config.maxDepth && AllLeaves(e, ids))
    ensures Stored(e, AfterGate(e, ids, path, depth))
    ensures Step(e, AfterGate(e, ids, path, depth), sh, turn).Some?
    ensures Step(e, AfterGate(e, ids, path, depth), sh, turn).value.event == Visited(NextDepth(depth))
    ensures turn == TurnOf(i)
  {
    BranchesStored(e, ids, path, NextDepth(depth), true);
    turn := TurnOf(i);
    BranchMayStart(e, ids, path, NextDepth(depth), sh, i);
  }

  function TurnOf(i: nat): Turn { if i == 0 then First(Here) else Second(TurnOf(i - 1)) }

  lemma {:induction false} BranchMayStart(
      e: Engine, ids: seq<NodeId>, path: seq<string>, depth: nat, sh: Shared, i: nat)
    requires i < |ids| && Stored(e, Branches(ids, path, depth, true))
    ensures Step(e, Branches(ids, path, depth, true), sh, TurnOf(i)).Some?
    ensures Step(e, Branches(ids, path, depth, true), sh, TurnOf(i)).value.event == Visited(depth)
    decreases i
  {
    if i > 0 { BranchMayStart(e, ids[1..], path, depth, sh, i - 1); }
  }

  // ---- Enough results ---------------------------------------------------

  /** Reasoner calls that branches may still make although there are enough results. */
  function Pending(t: Task): nat {
    match t
    case Done => 0
    case At(f) => if f.Visit? || f.LeafCall? || f.BatchCall? || f.Decide? then 1 else 0
    case Then(a, b) => Pending(a) + Pending(b)
    case Both(a, b) => Pending(a) + Pending(b)
  }

  predicate PaysPending(s: Section, pending: nat) {
    Pending(s.task) + (if s.event.Called? then 1 else 0) <= pending
  }

  lemma {:induction false} FullFramePays(e: Engine, f: Frame, sh: Shared)
    requires StoredFrame(e, f) && |sh.results| >= e.config.maxResults
    ensures PaysPending(LockSection(e, f, sh), Pending(At(f)))
  {
  }

  lemma {:induction false} FullStepPays(e: Engine, t: Task, sh: Shared, turn: Turn)
    requires Stored(e, t) && Step(e, t, sh, turn).Some? && |sh.results| >= e.config.maxResults
    ensures PaysPending(Step(e, t, sh, turn).value, Pending(t))
    decreases t
  {
    match t {
      case At(f) => FullFramePays(e, f, sh);
      case Then(a, b) => FullStepPays(e, if turn.First? then a else b, sh, turn.inner);
      case Both(a, b) => FullStepPays(e, if turn.First? then a else b, sh, turn.inner);
    }
  }

  /**
   * Once `max_results` results are collected, a run makes at most one more call
   * for each branch that was already about to visit a node or to call.
   */
  lemma {:induction false} EnoughIsEnough(e: Engine, t: Task, sh: Shared, turns: seq<Turn>)
    requires Stored(e, t) && Run(e, t, sh, turns).Some? && |sh.results| >= e.config.maxResults
    ensures var p := Run(e, t, sh, turns).value;
      p.shared.stats.llmCalls + Pending(p.task) <= sh.stats.llmCalls + Pending(t)
    decreases |turns|
  {
    if turns != [] {
      var s, p := FirstStep(e, t, sh, turns);
      FullStepPays(e, t, sh, turns[0]);
      EnoughIsEnough(e, s.task, Apply(sh, s.event), turns[1..]);
    }
  }

  function Power(b: nat, n: nat): nat { if n == 0 then 1 else b * Power(b, n - 1) }

  /** `b^0 + b^1 + .. + b^n`. */
  function Geometric(b: nat, n: nat): nat { if n == 0 then 1 else Geometric(b, n - 1) + Power(b, n) }

  lemma {:induction false} GeometricUnfolds(b: nat, n: nat)
    requires n > 0
    ensures Geometric(b, n) == 1 + b * Geometric(b, n - 1)
  {
    if n > 1 {
      GeometricUnfolds(b, n - 1);
      Distributes(b, Geometric(b, n - 2), Power(b, n - 1));
      assert Geometric(b, n - 1) == Geometric(b, n - 2) + Power(b, n - 1);
      assert b * Geometric(b, n - 1) == b * Geometric(b, n - 2) + b * Power(b, n - 1);
    } else {
      assert Power(b, 1) == b * Power(b, 0) && Geometric(b, 0) == 1;
    }
  }

  lemma {:induction false} Distributes(a: int, b: int, c: int)
    ensures a * (b + c) == a * b + a * c
  {
  }

  /** The widest beam: four times the configured one. */
  function Width(e: Engine): (width: nat) { 4 * e.config.beamWidth }

  lemma {:induction false} TracedWithinWidth(e: Engine, id: NodeId, path: seq<string>)
    requires id in e.store
    ensures |Traced(e, id, path)| <= Width(e)
  {
  }

  lemma {:induction false} FoundAllIsFree(hits: seq<SearchResult>)
    ensures StatsOf(FoundAll(hits)).visited == 0
    ensures Hits(FoundAll(hits)) == hits
    ensures forall ev :: ev in FoundAll(hits) ==> ev.Found? && ev.result in hits
  {
    if hits != [] { FoundAllIsFree(hits[1..]); }
  }

  lemma {:induction false} VisitsAtMost(e: Engine, id: NodeId, path: seq<string>, depth: nat)
    requires id in e.store && e.config.maxDepth < 255 && depth <= e.config.maxDepth + 1
    ensures StatsOf(VisitTrace(e, id, path, depth)).visited
         <= Geometric(Width(e), e.config.maxDepth + 1 - depth)
    decreases e.config.maxDepth + 1 - depth, 2
  {
    var inside := InsideTrace(e, id, path + [e.store[id].title], depth);
    StatsOfAppend([Visited(depth)], inside);
    if depth <= e.config.maxDepth {
      GeometricUnfolds(Width(e), e.config.maxDepth + 1 - depth);
      InsideVisitsAtMost(e, id, path + [e.store[id].title], depth);
    }
  }

  lemma {:induction false} InsideVisitsAtMost(e: Engine, id: NodeId, path: seq<string>, depth: nat)
    requires id in e.store && e.config.maxDepth < 255 && depth <= e.config.maxDepth
    ensures StatsOf(InsideTrace(e, id, path, depth)).visited
         <= Width(e) * Geometric(Width(e), e.config.maxDepth - depth)
    decreases e.config.maxDepth + 1 - depth, 1
  {
    var kids := GetChildren(e, id);
    if e.store[id].IsLeaf() {
      LeavesVisitNothing(e, id, [], path);
    } else if kids == [] {
    } else if depth < e.config.maxDepth && AllLeaves(e, Candidates(e, kids)) {
      LeavesVisitNothing(e, id, Candidates(e, kids), path);
      assert InsideTrace(e, id, path, depth) == BatchTrace(e, Candidates(e, kids), path);
    } else {
      PruneVisitsNothing(e, id, path, depth);
      TracedVisitsAtMost(e, id, path, depth);
      NoVisit(Called, PruneTrace(e, id, path, depth));
      assert InsideTrace(e, id, path, depth) == [Called] + PruneTrace(e, id, path, depth);
    }
  }

  lemma {:induction false} ChoosingVisitsNothing(
      e: Engine, kids: nat, selected: seq<Decision>, ids: seq<NodeId>, path: seq<string>, depth: nat)
    requires forall k :: k in ids ==> k in e.store
    requires e.config.maxDepth < 255 && depth <= e.config.maxDepth
    ensures StatsOf(ChosenTrace(e, kids, selected, ids, path, depth)).visited
         <= StatsOf(AfterGateTrace(e, ids, path, depth)).visited
  {
    var gate := AfterGateTrace(e, ids, path, depth);
    NoVisit(Looked, gate);
    NoVisit(Pruned(kids - |selected|), [Looked] + gate);
    NoVisit(Pruned(kids - |selected|), []);
  }

  lemma {:induction false} AfterGateVisitsAtMost(e: Engine, ids: seq<NodeId>, path: seq<string>, depth: nat)
    requires forall k :: k in ids ==> k in e.store
    requires e.config.maxDepth < 255 && depth <= e.config.maxDepth
    ensures StatsOf(AfterGateTrace(e, ids, path, depth)).visited
         <= |ids| * Geometric(Width(e), e.config.maxDepth - depth)
    decreases e.config.maxDepth + 1 - depth, 0, 0
  {
    if depth < e.config.maxDepth && AllLeaves(e, ids) && ids != [] {
      LeavesVisitNothing(e, ids[0], ids, path);
      ProductsOrdered(0, |ids|, Geometric(Width(e), e.config.maxDepth - depth));
    } else {
      BranchVisitsAtMost(e, ids, path, depth + 1);
    }
  }

  lemma {:induction false} TracedVisitsAtMost(e: Engine, id: NodeId, path: seq<string>, depth: nat)
    requires id in e.store && e.config.maxDepth < 255 && depth <= e.config.maxDepth
    ensures StatsOf(AfterGateTrace(e, Traced(e, id, path), path, depth)).visited
         <= Width(e) * Geometric(Width(e), e.config.maxDepth - depth)
    decreases e.config.maxDepth + 1 - depth, 0, 1
  {
    var ids := Traced(e, id, path);
    TracedWithinWidth(e, id, path);
    AfterGateVisitsAtMost(e, ids, path, depth);
    ProductsOrdered(|ids|, Width(e), Geometric(Width(e), e.config.maxDepth - depth));
  }

  lemma {:induction false} PruneVisitsNothing(e: Engine, id: NodeId, path: seq<string>, depth: nat)
    requires id in e.store && e.config.maxDepth < 255 && depth <= e.config.maxDepth
    ensures StatsOf(PruneTrace(e, id, path, depth)).visited
         <= StatsOf(AfterGateTrace(e, Traced(e, id, path), path, depth)).visited
  {
    ChoosingVisitsNothing(e, |GetChildren(e, id)|, Selected(e, id, path), Traced(e, id, path), path, depth);
  }

  lemma {:induction false} NoVisit(event: Event, rest: seq<Event>)
    requires !event.Visited?
    ensures StatsOf([event] + rest).visited == StatsOf(rest).visited
  {
    assert ([event] + rest)[1..] == rest;
  }

  lemma {:induction false} ProductsOrdered(a: nat, b: nat, c: nat)
    requires a <= b
    ensures a * c <= b * c
  {
  }

  lemma {:induction false} LeavesVisitNothing(e: Engine, id: NodeId, ids: seq<NodeId>, path: seq<string>)
    requires id in e.store && forall k :: k in ids ==> k in e.store
    ensures StatsOf(LeafCheckTrace(e, id, path)).visited == 0
    ensures StatsOf(BatchTrace(e, ids, path)).visited == 0
  {
    FoundAllIsFree(LeafHits(e, id, path));
    StatsOfAppend([Called], FoundAll(LeafHits(e, id, path)));
    StatsOfAppend([Looked], [Called] + FoundAll(LeafHits(e, id, path)));
    FoundAllIsFree(BatchHits(e, ids, path));
    StatsOfAppend([Called], FoundAll(BatchHits(e, ids, path)));
  }

  lemma {:induction false} BranchVisitsAtMost(e: Engine, ids: seq<NodeId>, path: seq<string>, depth: nat)
    requires forall k :: k in ids ==> k in e.store
    requires e.config.maxDepth < 255 && depth <= e.config.maxDepth + 1
    ensures StatsOf(BranchTrace(e, ids, path, depth)).visited
         <= |ids| * Geometric(Width(e), e.config.maxDepth + 1 - depth)
    decreases e.config.maxDepth + 1 - depth, 3, |ids|
  {
    if ids != [] {
      VisitsAtMost(e, ids[0], path, depth);
      BranchVisitsAtMost(e, ids[1..], path, depth);
      StatsOfAppend(VisitTrace(e, ids[0], path, depth), BranchTrace(e, ids[1..], path, depth));
      OneMore(|ids|, Geometric(Width(e), e.config.maxDepth + 1 - depth));
    }
  }

  lemma {:induction false} OneMore(n: nat, c: nat)
    requires n > 0
    ensures n * c == c + (n - 1) * c
  {
  }

  /** Cost of any run, finished or not. */
  lemma {:induction false} EveryScheduleIsCheap(e: Engine, root: NodeId, turns: seq<Turn>)
    requires root in e.store && e.config.maxDepth < 255
    requires Run(e, Start(root), FRESH, turns).Some?
    ensures var stats := Run(e, Start(root), FRESH, turns).value.shared.stats;
      && stats.llmCalls <= 2 * stats.visited
      && stats.visited <= Geometric(Width(e), e.config.maxDepth + 1)
  {
    var p := Run(e, Start(root), FRESH, turns).value;
    RunPays(e, Start(root), FRESH, turns);
    RunFromRoot(e, root, turns);
    EventsDecide(p.log, VisitTrace(e, root, [], 0));
    VisitsAtMost(e, root, [], 0);
  }
}
