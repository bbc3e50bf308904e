// What callers get when nothing breaks, and that a failure always has a cause.
module DaemonHealth {
  import opened Common
  import opened DaemonRuns
  import opened DaemonTheorems

  /** A step in which nothing breaks: what can fail does not, and no process dies. */
  predicate IsHealthy(a: Action) {
    match a
    case Start(_, fine) => fine
    case Spawn(_, fine) => fine
    case Write(_, fine) => fine
    case Read(_, fine) => fine
    case Die(_) => false
    case _ => true
  }

  /** The plugin itself has answered with an error, or not at all. */
  ghost predicate IsFaulty(plugins: Plugins, call: Call) { plugins(call.name, call.request) == Faulty }

  /** An outcome that a process, and not a breakage, has brought about. */
  ghost predicate IsDeserved(plugins: Plugins, call: Call, outcome: Outcome) {
    outcome.Failed? ==> IsFaulty(plugins, call)
  }

  ghost predicate CallIsWell(plugins: Plugins, call: Call) {
    && (call.stage.Over? ==> IsDeserved(plugins, call, call.stage.outcome))
    && (call.stage.Waiting? && call.stage.mailbox.Some? ==>
          !call.stage.mailbox.value.TimedOut? && IsDeserved(plugins, call, call.stage.mailbox.value))
  }

  ghost predicate DaemonIsWell(plugins: Plugins, s: System, d: nat)
    requires d < |s.daemons|
  {
    var thread := s.daemons[d].thread;
    && !thread.Draining?
    && (thread.Listening? || Serves(thread) ==> s.daemons[d].process.alive)
    && (thread.Replying? ==>
          thread.call < |s.calls| && IsDeserved(plugins, s.calls[thread.call], thread.outcome))
  }

  ghost predicate IsWell(plugins: Plugins, s: System) {
    && (forall c :: 0 <= c < |s.calls| ==> CallIsWell(plugins, s.calls[c]))
    && (forall d :: 0 <= d < |s.daemons| ==> DaemonIsWell(plugins, s, d))
  }

  lemma {:induction false} CallerStaysWell(plugins: Plugins, s: System, a: Action)
    requires Inv(plugins, s) && Live(s) && IsWell(plugins, s) && Do(plugins, s, a).Some? && IsHealthy(a)
    requires a.Arrive? || a.Lookup? || a.Start? || a.Insert? || a.Expire? || a.Receive? || a.SendFails?
    ensures IsWell(plugins, Do(plugins, s, a).value)
  {
    var s' := Do(plugins, s, a).value;
    forall c | 0 <= c < |s'.calls| ensures CallIsWell(plugins, s'.calls[c]) {
      if c < |s.calls| { assert CallIsWell(plugins, s.calls[c]) && CallOk(plugins, s, c); }
    }
    forall d | 0 <= d < |s'.daemons| ensures DaemonIsWell(plugins, s', d) {
      if d < |s.daemons| { assert DaemonIsWell(plugins, s, d); }
    }
  }

  lemma {:induction false} DaemonStaysWell(plugins: Plugins, s: System, a: Action)
    requires Inv(plugins, s) && IsWell(plugins, s) && Do(plugins, s, a).Some? && IsHealthy(a)
    requires a.Spawn? || a.Write? || a.Compute? || a.Read? || a.Close?
    ensures IsWell(plugins, Do(plugins, s, a).value)
  {
    var s' := Do(plugins, s, a).value;
    assert DaemonOk(plugins, s, a.d) && DaemonIsWell(plugins, s, a.d);
    forall d | 0 <= d < |s'.daemons| ensures DaemonIsWell(plugins, s', d) { assert DaemonIsWell(plugins, s, d); }
  }

  lemma {:induction false} MeetingStaysWell(plugins: Plugins, s: System, a: Action)
    requires Inv(plugins, s) && IsWell(plugins, s) && Do(plugins, s, a).Some?
    requires a.Accept? || a.Reply?
    ensures IsWell(plugins, Do(plugins, s, a).value)
  {
    var s' := Do(plugins, s, a).value;
    assert DaemonOk(plugins, s, a.d) && DaemonIsWell(plugins, s, a.d);
    forall c | 0 <= c < |s'.calls| ensures CallIsWell(plugins, s'.calls[c]) { assert CallIsWell(plugins, s.calls[c]); }
    forall d | 0 <= d < |s'.daemons| ensures DaemonIsWell(plugins, s', d) { assert DaemonIsWell(plugins, s, d); }
  }

  lemma {:induction false} StepStaysWell(plugins: Plugins, s: System, a: Action)
    requires Inv(plugins, s) && Live(s) && IsWell(plugins, s) && Do(plugins, s, a).Some? && IsHealthy(a)
    ensures IsWell(plugins, Do(plugins, s, a).value)
  {
    if a.Accept? || a.Reply? {
      MeetingStaysWell(plugins, s, a);
    } else if a.Spawn? || a.Write? || a.Compute? || a.Read? || a.Close? {
      DaemonStaysWell(plugins, s, a);
    } else {
      CallerStaysWell(plugins, s, a);
    }
  }

  lemma {:induction false} RunStaysWell(plugins: Plugins, s: System, actions: seq<Action>)
    requires Inv(plugins, s) && Live(s) && IsWell(plugins, s) && Run(plugins, s, actions).Some?
    requires forall i :: 0 <= i < |actions| ==> IsHealthy(actions[i])
    ensures IsWell(plugins, Run(plugins, s, actions).value)
    decreases |actions|
  {
    if actions != [] {
      StepStaysWell(plugins, s, actions[0]);
      DoKeeps(plugins, s, actions[0]);
      DoKeepsLive(plugins, s, actions[0]);
      RunStaysWell(plugins, Do(plugins, s, actions[0]).value, actions[1..]);
    }
  }

  /**
   * As long as nothing breaks, whoever else calls, waits, or gives up waiting: a
   * call that ends without a time-out ends with the plugin's response if that is
   * usable, and with an error if it is not.
   */
  lemma {:induction false} HealthyCallsAreAnswered(plugins: Plugins, actions: seq<Action>, c: nat)
    requires Run(plugins, EMPTY, actions).Some? && forall i :: 0 <= i < |actions| ==> IsHealthy(actions[i])
    requires c < |Run(plugins, EMPTY, actions).value.calls|
    ensures var call := Run(plugins, EMPTY, actions).value.calls[c];
      call.stage.Over? && !call.stage.outcome.TimedOut? ==>
        match plugins(call.name, call.request)
        case Usable(response) => call.stage.outcome == Answered(response)
        case Faulty => call.stage.outcome == Failed
  {
    var s := Run(plugins, EMPTY, actions).value;
    RunKeeps(plugins, EMPTY, actions);
    RunStaysWell(plugins, EMPTY, actions);
    assert CallOk(plugins, s, c) && CallIsWell(plugins, s.calls[c]);
  }

  // ---- One call, undisturbed --------------------------------------------

  lemma {:induction false} RunOn(
      plugins: Plugins, s: System, a: Action, s': System, rest: seq<Action>, all: seq<Action>)
    requires Do(plugins, s, a) == Some(s') && all == [a] + rest
    ensures Run(plugins, s, all) == Run(plugins, s', rest)
  {
    assert all[1..] == rest;
  }

  lemma {:induction false} Leads(plugins: Plugins, s: System, a: Action, s': System)
    requires Do(plugins, s, a).Some?
    requires var after := Do(plugins, s, a).value;
      after.pool == s'.pool && after.calls == s'.calls && after.daemons == s'.daemons
    ensures Do(plugins, s, a) == Some(s')
  {
  }

  lemma {:induction false} RunBoth(plugins: Plugins, s: System, a: seq<Action>, b: seq<Action>)
    requires Run(plugins, s, a).Some?
    ensures Run(plugins, s, a + b) == Run(plugins, Run(plugins, s, a).value, b)
    decreases |a|
  {
    if a == [] {
      assert a + b == b;
    } else {
      assert (a + b)[1..] == a[1..] + b;
      RunBoth(plugins, Do(plugins, s, a[0]).value, a[1..], b);
    }
  }

  lemma {:induction false} RunThree(
      plugins: Plugins, s: System, a1: Action, s1: System, a2: Action, s2: System, a3: Action, s3: System)
    requires Do(plugins, s, a1) == Some(s1) && Do(plugins, s1, a2) == Some(s2) && Do(plugins, s2, a3) == Some(s3)
    ensures Run(plugins, s, [a1, a2, a3]) == Some(s3)
  {
    RunOn(plugins, s, a1, s1, [a2, a3], [a1, a2, a3]);
    RunOn(plugins, s1, a2, s2, [a3], [a2, a3]);
    RunOn(plugins, s2, a3, s3, [], [a3]);
  }

  ghost predicate CanServe(s: System, d: nat, c: nat) {
    && d < |s.daemons| && c < |s.calls| && s.calls[c].stage == Sending(d)
    && s.daemons[d].thread == Listening && s.daemons[d].process == Process([], [], true)
    && s.daemons[d].name == s.calls[c].name
  }

  function OutcomeOf(line: Line): Outcome { if line.Usable? then Answered(line.response) else Failed }

  /** The steps of a request from the rendezvous to the line that comes back. */
  function Asking(d: nat, c: nat): seq<Action> { [Accept(d, c), Write(d, true), Compute(d), Read(d, true)] }

  /** The system with call `c` at `stage`, and daemon `d` with that thread and an idle process. */
  function Along(s: System, d: nat, c: nat, stage: Stage, thread: Thread, process: Process): System
    requires d < |s.daemons| && c < |s.calls|
  {
    s.(calls := s.calls[c := s.calls[c].(stage := stage)],
       daemons := s.daemons[d := s.daemons[d].(thread := thread, process := process)])
  }

  lemma {:induction false} RequestIsWritten(plugins: Plugins, s: System, d: nat, c: nat)
    requires CanServe(s, d, c)
    ensures Do(plugins, Along(s, d, c, Waiting(d, None), Writing(c), Process([], [], true)), Write(d, true))
      == Some(Along(s, d, c, Waiting(d, None), Reading(c), Process([s.calls[c].request], [], true)))
  {
    assert [] + [s.calls[c].request] == [s.calls[c].request];
    Leads(plugins, Along(s, d, c, Waiting(d, None), Writing(c), Process([], [], true)), Write(d, true),
      Along(s, d, c, Waiting(d, None), Reading(c), Process([s.calls[c].request], [], true)));
  }

  lemma {:induction false} RequestIsComputed(plugins: Plugins, s: System, d: nat, c: nat)
    requires CanServe(s, d, c)
    ensures var request, line := s.calls[c].request, plugins(s.calls[c].name, s.calls[c].request);
      Do(plugins, Along(s, d, c, Waiting(d, None), Reading(c), Process([request], [], true)), Compute(d))
        == Some(Along(s, d, c, Waiting(d, None), Reading(c), Process([], [line], true)))
  {
    var request, line := s.calls[c].request, plugins(s.calls[c].name, s.calls[c].request);
    assert [] + [line] == [line] && [request][1..] == [];
    Leads(plugins, Along(s, d, c, Waiting(d, None), Reading(c), Process([request], [], true)), Compute(d),
      Along(s, d, c, Waiting(d, None), Reading(c), Process([], [line], true)));
  }

  /** A listening daemon takes the request, and has its plugin's line to reply with after four steps. */
  lemma {:induction false} RequestIsRead(plugins: Plugins, s: System, d: nat, c: nat)
    requires CanServe(s, d, c)
    ensures var outcome := OutcomeOf(plugins(s.calls[c].name, s.calls[c].request));
      Run(plugins, s, Asking(d, c))
        == Some(Along(s, d, c, Waiting(d, None), Replying(c, outcome), Process([], [], true)))
  {
    var line := plugins(s.calls[c].name, s.calls[c].request);
    var s1 := Along(s, d, c, Waiting(d, None), Writing(c), Process([], [], true));
    var s2 := Along(s, d, c, Waiting(d, None), Reading(c), Process([s.calls[c].request], [], true));
    var s3 := Along(s, d, c, Waiting(d, None), Reading(c), Process([], [line], true));
    var s4 := Along(s, d, c, Waiting(d, None), Replying(c, OutcomeOf(line)), Process([], [], true));
    Leads(plugins, s, Accept(d, c), s1);
    RequestIsWritten(plugins, s, d, c);
    RequestIsComputed(plugins, s, d, c);
    RunThree(plugins, s, Accept(d, c), s1, Write(d, true), s2, Compute(d), s3);
    assert [line][1..] == [];
    Leads(plugins, s3, Read(d, true), s4);
    RunBoth(plugins, s, [Accept(d, c), Write(d, true), Compute(d)], [Read(d, true)]);
    RunOn(plugins, s3, Read(d, true), s4, [], [Read(d, true)]);
    assert Asking(d, c) == [Accept(d, c), Write(d, true), Compute(d)] + [Read(d, true)];
  }

  /**
   * The caller who is still there receives the outcome, and the daemon listens
   * again after a usable response; after a faulty one its process is replaced.
   */
  lemma {:induction false} UndisturbedCallIsAnswered(plugins: Plugins, s: System, d: nat, c: nat)
    requires CanServe(s, d, c)
    ensures var line := plugins(s.calls[c].name, s.calls[c].request);
      Run(plugins, s, Asking(d, c) + [Reply(d), Receive(c)])
        == Some(if line.Usable? then Along(s, d, c, Over(Answered(line.response)), Listening, Process([], [], true))
                else Along(s, d, c, Over(Failed), Spawning, NO_PROCESS))
  {
    var outcome := OutcomeOf(plugins(s.calls[c].name, s.calls[c].request));
    var thread := if outcome.Answered? then Listening else Spawning;
    var process := if outcome.Answered? then Process([], [], true) else NO_PROCESS;
    var s4 := Along(s, d, c, Waiting(d, None), Replying(c, outcome), Process([], [], true));
    var s5 := Along(s, d, c, Waiting(d, Some(outcome)), thread, process);
    var s6 := Along(s, d, c, Over(outcome), thread, process);
    RequestIsRead(plugins, s, d, c);
    Leads(plugins, s4, Reply(d), s5);
    Leads(plugins, s5, Receive(c), s6);
    RunBoth(plugins, s, Asking(d, c), [Reply(d), Receive(c)]);
    RunOn(plugins, s4, Reply(d), s5, [Receive(c)], [Reply(d), Receive(c)]);
    RunOn(plugins, s5, Receive(c), s6, [], [Receive(c)]);
  }

  /** When the caller has given up before the reply, the process is replaced, whatever it has answered. */
  lemma {:induction false} LateReplyKillsProcess(plugins: Plugins, s: System, d: nat, c: nat)
    requires CanServe(s, d, c)
    ensures Run(plugins, s, Asking(d, c) + [Expire(c), Reply(d)])
      == Some(Along(s, d, c, Over(TimedOut), Spawning, NO_PROCESS))
  {
    var outcome := OutcomeOf(plugins(s.calls[c].name, s.calls[c].request));
    var s4 := Along(s, d, c, Waiting(d, None), Replying(c, outcome), Process([], [], true));
    var s5 := Along(s, d, c, Over(TimedOut), Replying(c, outcome), Process([], [], true));
    var s6 := Along(s, d, c, Over(TimedOut), Spawning, NO_PROCESS);
    RequestIsRead(plugins, s, d, c);
    Leads(plugins, s4, Expire(c), s5);
    Leads(plugins, s5, Reply(d), s6);
    RunBoth(plugins, s, Asking(d, c), [Expire(c), Reply(d)]);
    RunOn(plugins, s4, Expire(c), s5, [Reply(d)], [Expire(c), Reply(d)]);
    RunOn(plugins, s5, Reply(d), s6, [], [Reply(d)]);
  }

  /** Where a request breaks: its line cannot be written, no line can be read, or the process dies on it. */
  datatype Break = AtWrite | AtRead | Dying

  function AskingUntil(b: Break, d: nat, c: nat): seq<Action> {
    match b
    case AtWrite => [Accept(d, c), Write(d, false)]
    case AtRead => [Accept(d, c), Write(d, true)] + [Read(d, false)]
    case Dying => [Accept(d, c), Write(d, true)] + [Die(d), Read(d, true)]
  }

  lemma {:induction false} RunTwo(plugins: Plugins, s: System, a1: Action, s1: System, a2: Action, s2: System)
    requires Do(plugins, s, a1) == Some(s1) && Do(plugins, s1, a2) == Some(s2)
    ensures Run(plugins, s, [a1, a2]) == Some(s2)
  {
    RunOn(plugins, s, a1, s1, [a2], [a1, a2]);
    RunOn(plugins, s1, a2, s2, [], [a2]);
  }

  lemma {:induction false} RequestIsTaken(plugins: Plugins, s: System, d: nat, c: nat)
    requires CanServe(s, d, c)
    ensures Run(plugins, s, [Accept(d, c), Write(d, true)])
      == Some(Along(s, d, c, Waiting(d, None), Reading(c), Process([s.calls[c].request], [], true)))
  {
    var s1 := Along(s, d, c, Waiting(d, None), Writing(c), Process([], [], true));
    Leads(plugins, s, Accept(d, c), s1);
    RequestIsWritten(plugins, s, d, c);
    RunTwo(plugins, s, Accept(d, c), s1, Write(d, true),
      Along(s, d, c, Waiting(d, None), Reading(c), Process([s.calls[c].request], [], true)));
  }

  lemma {:induction false} WriteBreaks(plugins: Plugins, s: System, d: nat, c: nat)
    requires CanServe(s, d, c)
    ensures Run(plugins, s, AskingUntil(AtWrite, d, c))
      == Some(Along(s, d, c, Waiting(d, None), Replying(c, Failed), Process([], [], true)))
  {
    var s1 := Along(s, d, c, Waiting(d, None), Writing(c), Process([], [], true));
    var s2 := Along(s, d, c, Waiting(d, None), Replying(c, Failed), Process([], [], true));
    Leads(plugins, s, Accept(d, c), s1);
    Leads(plugins, s1, Write(d, false), s2);
    RunTwo(plugins, s, Accept(d, c), s1, Write(d, false), s2);
  }

  lemma {:induction false} ReadBreaks(plugins: Plugins, s: System, d: nat, c: nat)
    requires CanServe(s, d, c)
    ensures Run(plugins, s, AskingUntil(AtRead, d, c))
      == Some(Along(s, d, c, Waiting(d, None), Replying(c, Failed), Process([s.calls[c].request], [], true)))
  {
    var p := Process([s.calls[c].request], [], true);
    var s2, s3 := Along(s, d, c, Waiting(d, None), Reading(c), p),
      Along(s, d, c, Waiting(d, None), Replying(c, Failed), p);
    RequestIsTaken(plugins, s, d, c);
    Leads(plugins, s2, Read(d, false), s3);
    RunOn(plugins, s2, Read(d, false), s3, [], [Read(d, false)]);
    RunBoth(plugins, s, [Accept(d, c), Write(d, true)], [Read(d, false)]);
  }

  lemma {:induction false} DeathBreaks(plugins: Plugins, s: System, d: nat, c: nat)
    requires CanServe(s, d, c)
    ensures Run(plugins, s, AskingUntil(Dying, d, c))
      == Some(Along(s, d, c, Waiting(d, None), Replying(c, Failed), Process([s.calls[c].request], [], false)))
  {
    var p := Process([s.calls[c].request], [], false);
    var s2 := Along(s, d, c, Waiting(d, None), Reading(c), p.(alive := true));
    var s3, s4 := Along(s, d, c, Waiting(d, None), Reading(c), p),
      Along(s, d, c, Waiting(d, None), Replying(c, Failed), p);
    RequestIsTaken(plugins, s, d, c);
    Leads(plugins, s2, Die(d), s3);
    Leads(plugins, s3, Read(d, true), s4);
    RunTwo(plugins, s2, Die(d), s3, Read(d, true), s4);
    RunBoth(plugins, s, [Accept(d, c), Write(d, true)], [Die(d), Read(d, true)]);
  }

  lemma {:induction false} FailureIsReplied(plugins: Plugins, s: System, d: nat, c: nat, p: Process)
    requires d < |s.daemons| && c < |s.calls|
    ensures Run(plugins, Along(s, d, c, Waiting(d, None), Replying(c, Failed), p), [Reply(d), Receive(c)])
      == Some(Along(s, d, c, Over(Failed), Spawning, NO_PROCESS))
  {
    var s1 := Along(s, d, c, Waiting(d, None), Replying(c, Failed), p);
    var s2 := Along(s, d, c, Waiting(d, Some(Failed)), Spawning, NO_PROCESS);
    Leads(plugins, s1, Reply(d), s2);
    Leads(plugins, s2, Receive(c), Along(s, d, c, Over(Failed), Spawning, NO_PROCESS));
    RunTwo(plugins, s1, Reply(d), s2, Receive(c), Along(s, d, c, Over(Failed), Spawning, NO_PROCESS));
  }

  /** Wherever a request breaks, its caller gets an error, and the process is replaced. */
  lemma {:induction false} BrokenRequestFails(plugins: Plugins, s: System, b: Break, d: nat, c: nat)
    requires CanServe(s, d, c)
    ensures Run(plugins, s, AskingUntil(b, d, c) + [Reply(d), Receive(c)])
      == Some(Along(s, d, c, Over(Failed), Spawning, NO_PROCESS))
  {
    match b {
      case AtWrite =>
        WriteBreaks(plugins, s, d, c);
        FailureIsReplied(plugins, s, d, c, Process([], [], true));
      case AtRead =>
        ReadBreaks(plugins, s, d, c);
        FailureIsReplied(plugins, s, d, c, Process([s.calls[c].request], [], true));
      case Dying =>
        DeathBreaks(plugins, s, d, c);
        FailureIsReplied(plugins, s, d, c, Process([s.calls[c].request], [], false));
    }
    RunBoth(plugins, s, AskingUntil(b, d, c), [Reply(d), Receive(c)]);
  }

  /** A daemon whose process cannot be started answers every caller with an error, and does not try again. */
  lemma {:induction false} UnstartableDaemonAnswers(plugins: Plugins, s: System, d: nat, c: nat)
    requires d < |s.daemons| && c < |s.calls| && s.calls[c].stage == Sending(d) && s.daemons[d].thread == Spawning
    ensures Run(plugins, s, [Spawn(d, false), Accept(d, c), Receive(c)])
      == Some(Along(s, d, c, Over(Failed), Draining, NO_PROCESS))
  {
    var s1 := Along(s, d, c, Sending(d), Draining, NO_PROCESS);
    var s2 := Along(s, d, c, Waiting(d, Some(Failed)), Draining, NO_PROCESS);
    var s3 := Along(s, d, c, Over(Failed), Draining, NO_PROCESS);
    Leads(plugins, s, Spawn(d, false), s1);
    Leads(plugins, s1, Accept(d, c), s2);
    Leads(plugins, s2, Receive(c), s3);
    RunThree(plugins, s, Spawn(d, false), s1, Accept(d, c), s2, Receive(c), s3);
  }

  /** The first call of a plugin starts its daemon and puts it into the pool; then it can be served. */
  lemma {:induction false} FirstCallStartsDaemon(plugins: Plugins, name: Name, request: Request)
    ensures var after :=
        Run(plugins, EMPTY, [Arrive(name, request), Lookup(0), Start(0, true), Insert(0), Spawn(0, true)]);
      after.Some? && CanServe(after.value, 0, 0) && after.value.pool == map[name := 0]
  {
    var spawning := Daemon(name, Spawning, NO_PROCESS);
    var s1 := System(map[], [], [Call(name, request, Looking)]);
    var s2 := System(map[], [], [Call(name, request, Missing)]);
    var s3 := System(map[], [spawning], [Call(name, request, Started(0))]);
    var s4 := System(map[name := 0], [spawning], [Call(name, request, Sending(0))]);
    var listening := Daemon(name, Listening, Process([], [], true));
    var s5 := System(map[name := 0], [listening], [Call(name, request, Sending(0))]);
    Leads(plugins, EMPTY, Arrive(name, request), s1);
    Leads(plugins, s1, Lookup(0), s2);
    Leads(plugins, s2, Start(0, true), s3);
    Leads(plugins, s3, Insert(0), s4);
    Leads(plugins, s4, Spawn(0, true), s5);
    RunOn(plugins, s3, Insert(0), s4, [Spawn(0, true)], [Insert(0), Spawn(0, true)]);
    RunOn(plugins, s4, Spawn(0, true), s5, [], [Spawn(0, true)]);
    RunThree(plugins, EMPTY, Arrive(name, request), s1, Lookup(0), s2, Start(0, true), s3);
    RunBoth(plugins, EMPTY, [Arrive(name, request), Lookup(0), Start(0, true)], [Insert(0), Spawn(0, true)]);
    assert [Arrive(name, request), Lookup(0), Start(0, true)] + [Insert(0), Spawn(0, true)]
      == [Arrive(name, request), Lookup(0), Start(0, true), Insert(0), Spawn(0, true)];
  }

  /** A later call finds the daemon in the pool. */
  lemma {:induction false} LaterCallFindsDaemon(plugins: Plugins, s: System, c: nat)
    requires c < |s.calls| && s.calls[c].stage.Looking? && s.calls[c].name in s.pool
    ensures Do(plugins, s, Lookup(c)).Some?
    ensures Do(plugins, s, Lookup(c)).value.calls[c].stage == Sending(s.pool[s.calls[c].name])
    ensures Do(plugins, s, Lookup(c)).value.daemons == s.daemons
  {
  }

  /** When no thread can be started for a daemon, its call fails, and the pool is as it was. */
  lemma {:induction false} UnstartableThreadFails(plugins: Plugins, s: System, c: nat)
    requires c < |s.calls| && s.calls[c].stage == Looking && s.calls[c].name !in s.pool
    ensures Run(plugins, s, [Lookup(c), Start(c, false)])
      == Some(s.(calls := s.calls[c := s.calls[c].(stage := Over(Failed))]))
  {
    var s1, s2 := WithStage(s, c, Missing), s.(calls := s.calls[c := s.calls[c].(stage := Over(Failed))]);
    Leads(plugins, s, Lookup(c), s1);
    Leads(plugins, s1, Start(c, false), s2);
    RunTwo(plugins, s, Lookup(c), s1, Start(c, false), s2);
  }

  /** A daemon that nobody can reach shuts down as soon as it listens. */
  lemma {:induction false} DroppedDaemonStops(plugins: Plugins, s: System, d: nat, fine: bool)
    requires d < |s.daemons| && IsDropped(s, d) && s.daemons[d].thread == Spawning
    ensures Run(plugins, s, [Spawn(d, fine), Close(d)])
      == Some(s.(daemons := s.daemons[d := Daemon(s.daemons[d].name, Stopped, NO_PROCESS)]))
  {
    var thread := if fine then Listening else Draining;
    var process := if fine then Process([], [], true) else NO_PROCESS;
    var s1 := WithDaemon(s, d, thread, process);
    var s2 := s.(daemons := s.daemons[d := Daemon(s.daemons[d].name, Stopped, NO_PROCESS)]);
    Leads(plugins, s, Spawn(d, fine), s1);
    assert IsDropped(s1, d);
    Leads(plugins, s1, Close(d), s2);
    RunTwo(plugins, s, Spawn(d, fine), s1, Close(d), s2);
  }

  // ---- No request is held up --------------------------------------------

  /** How many steps a daemon is away from having replied. */
  function Left(daemon: Daemon): nat {
    match daemon.thread
    case Writing(_) => 4
    case Reading(_) => if Computes(daemon.process) then 3 else 2
    case Replying(_, _) => 1
    case _ => 0
  }

  predicate Computes(p: Process) { p.stdout == [] && p.stdin != [] && p.alive }

  /** The next step of a daemon, without a further breakage. */
  function NextOf(daemon: Daemon, d: nat): Action {
    match daemon.thread
    case Writing(_) => Write(d, true)
    case Reading(_) => if Computes(daemon.process) then Compute(d) else Read(d, true)
    case _ => Reply(d)
  }

  /** Whoever waits has mail; whoever has given up stays so. */
  ghost predicate IsReplied(before: Call, after: Call, d: nat) {
    && (before.stage.Waiting? ==> after.stage.Waiting? && after.stage.handle == d && after.stage.mailbox.Some?)
    && (!before.stage.Waiting? ==> after == before)
  }

  /** The call `c` is still being served as it was, or has been replied to. */
  ghost predicate IsNearer(s: System, s': System, d: nat, c: nat)
    requires d < |s.daemons| && c < |s.calls|
  {
    && |s'.daemons| == |s.daemons| && |s'.calls| == |s.calls|
    && Left(s'.daemons[d]) < Left(s.daemons[d])
    && if Serves(s'.daemons[d].thread) then s'.daemons[d].thread.call == c && s'.calls == s.calls
       else IsReplied(s.calls[c], s'.calls[c], d) && !s'.daemons[d].thread.Draining? && !s'.daemons[d].thread.Stopped?
  }

  lemma {:induction false} ServiceGoesOn(plugins: Plugins, s: System, d: nat)
    requires Inv(plugins, s) && d < |s.daemons| && Serves(s.daemons[d].thread)
    ensures s.daemons[d].thread.call < |s.calls|
    ensures Do(plugins, s, NextOf(s.daemons[d], d)).Some?
    ensures IsNearer(s, Do(plugins, s, NextOf(s.daemons[d], d)).value, d, s.daemons[d].thread.call)
  {
    assert DaemonOk(plugins, s, d);
  }

  lemma {:induction false} StepsLeft(plugins: Plugins, s: System, d: nat) returns (steps: seq<Action>)
    requires Inv(plugins, s) && d < |s.daemons| && Serves(s.daemons[d].thread)
    ensures |steps| <= Left(s.daemons[d]) && forall i :: 0 <= i < |steps| ==> IsHealthy(steps[i])
    ensures Run(plugins, s, steps).Some? && s.daemons[d].thread.call < |s.calls|
    ensures IsNearer(s, Run(plugins, s, steps).value, d, s.daemons[d].thread.call)
    ensures !Serves(Run(plugins, s, steps).value.daemons[d].thread)
    decreases Left(s.daemons[d])
  {
    var a := NextOf(s.daemons[d], d);
    ServiceGoesOn(plugins, s, d);
    var s' := Do(plugins, s, a).value;
    if Serves(s'.daemons[d].thread) {
      DoKeeps(plugins, s, a);
      var rest := StepsLeft(plugins, s', d);
      steps := [a] + rest;
      RunOn(plugins, s, a, s', rest, steps);
    } else {
      steps := [a];
      RunOn(plugins, s, a, s', [], steps);
    }
  }

  /**
   * In every state of every run, whatever has broken before, a daemon that serves
   * a call can reply to it by at most four steps of its own in which nothing
   * breaks; then it listens, or has its process replaced.
   */
  lemma {:induction false} ServiceEnds(plugins: Plugins, actions: seq<Action>, d: nat) returns (steps: seq<Action>)
    requires Run(plugins, EMPTY, actions).Some? && d < |Run(plugins, EMPTY, actions).value.daemons|
    requires Serves(Run(plugins, EMPTY, actions).value.daemons[d].thread)
    ensures |steps| <= 4 && forall i :: 0 <= i < |steps| ==> IsHealthy(steps[i])
    ensures Run(plugins, Run(plugins, EMPTY, actions).value, steps).Some?
    ensures var s := Run(plugins, EMPTY, actions).value;
      var s', c := Run(plugins, s, steps).value, s.daemons[d].thread.call;
      && c < |s.calls| == |s'.calls| && |s'.daemons| == |s.daemons| && IsReplied(s.calls[c], s'.calls[c], d)
      && (s'.daemons[d].thread == Listening || s'.daemons[d].thread == Spawning)
  {
    RunKeeps(plugins, EMPTY, actions);
    steps := StepsLeft(plugins, Run(plugins, EMPTY, actions).value, d);
  }
}
