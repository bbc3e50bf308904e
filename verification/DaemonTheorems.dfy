// What the daemon protocol guarantees for every interleaving.
module DaemonTheorems {
  import opened Common
  import opened DaemonRuns

  // ---- Steps of callers -------------------------------------------------

  /** A call changes its stage; the daemons stay, the pool only grows. */
  lemma {:induction false} StageKeeps(plugins: Plugins, s: System, c: nat, s': System)
    requires Inv(plugins, s) && c < |s.calls| && |s'.calls| == |s.calls| && s'.daemons == s.daemons && PoolOk(s')
    requires forall i :: 0 <= i < |s.calls| && i != c ==> s'.calls[i] == s.calls[i]
    requires s'.calls[c] == s.calls[c].(stage := s'.calls[c].stage) && CallOk(plugins, s', c)
    requires forall name :: name in s.pool ==> name in s'.pool && s'.pool[name] == s.pool[name]
    requires forall d :: 0 <= d < |s.daemons| && Serves(s.daemons[d].thread) && s.daemons[d].thread.call == c ==>
      s'.calls[c].stage == Over(TimedOut)
    ensures Inv(plugins, s')
  {
    forall d | 0 <= d < |s'.daemons| ensures DaemonOk(plugins, s', d) {
      assert DaemonOk(plugins, s, d);
    }
    forall i | 0 <= i < |s'.calls| ensures CallOk(plugins, s', i) {
      assert CallOk(plugins, s, i);
    }
  }

  /** Only calls that wait for a daemon, or have timed out, are served. */
  lemma {:induction false} NotServed(plugins: Plugins, s: System, c: nat)
    requires Inv(plugins, s) && c < |s.calls|
    requires s.calls[c].stage.Looking? || s.calls[c].stage.Missing? || s.calls[c].stage.Started?
      || s.calls[c].stage.Sending? || (s.calls[c].stage.Waiting? && s.calls[c].stage.mailbox.Some?)
    ensures forall d :: 0 <= d < |s.daemons| && Serves(s.daemons[d].thread) ==> s.daemons[d].thread.call != c
  {
    forall d | 0 <= d < |s.daemons| && Serves(s.daemons[d].thread) ensures s.daemons[d].thread.call != c {
      assert DaemonOk(plugins, s, d);
    }
  }

  lemma {:induction false} CallerKeeps(plugins: Plugins, s: System, a: Action)
    requires Inv(plugins, s) && Do(plugins, s, a).Some?
    requires a.Lookup? || a.Insert? || a.Receive? || a.SendFails? || (a.Start? && !a.fine)
    ensures Inv(plugins, Do(plugins, s, a).value)
  {
    assert CallOk(plugins, s, a.c);
    NotServed(plugins, s, a.c);
    StageKeeps(plugins, s, a.c, Do(plugins, s, a).value);
  }

  lemma {:induction false} ExpireKeeps(plugins: Plugins, s: System, a: Action)
    requires Inv(plugins, s) && Do(plugins, s, a).Some? && a.Expire?
    ensures Inv(plugins, Do(plugins, s, a).value)
  {
    StageKeeps(plugins, s, a.c, Do(plugins, s, a).value);
  }

  lemma {:induction false} ArriveKeeps(plugins: Plugins, s: System, a: Action)
    requires Inv(plugins, s) && a.Arrive?
    ensures Inv(plugins, Do(plugins, s, a).value)
  {
    var s' := Do(plugins, s, a).value;
    forall d | 0 <= d < |s'.daemons| ensures DaemonOk(plugins, s', d) { assert DaemonOk(plugins, s, d); }
    forall i | 0 <= i < |s'.calls| ensures CallOk(plugins, s', i) {
      if i < |s.calls| { assert CallOk(plugins, s, i); }
    }
  }

  lemma {:induction false} StartKeeps(plugins: Plugins, s: System, a: Action)
    requires Inv(plugins, s) && Do(plugins, s, a).Some? && a.Start? && a.fine
    ensures Inv(plugins, Do(plugins, s, a).value)
  {
    var s' := Do(plugins, s, a).value;
    NotServed(plugins, s, a.c);
    forall d | 0 <= d < |s'.daemons| ensures DaemonOk(plugins, s', d) {
      if d < |s.daemons| { assert DaemonOk(plugins, s, d); }
    }
    forall i | 0 <= i < |s'.calls| ensures CallOk(plugins, s', i) {
      assert CallOk(plugins, s, i);
    }
  }

  // ---- Steps of daemons -------------------------------------------------

  /** A daemon changes its thread and its process, and keeps what holds of it. */
  lemma {:induction false} DaemonKeeps(plugins: Plugins, s: System, d: nat, thread: Thread, process: Process)
    requires Inv(plugins, s) && d < |s.daemons| && DaemonOk(plugins, WithDaemon(s, d, thread, process), d)
    requires Serves(thread) ==> Serves(s.daemons[d].thread) && thread.call == s.daemons[d].thread.call
    ensures Inv(plugins, WithDaemon(s, d, thread, process))
  {
    var s' := WithDaemon(s, d, thread, process);
    forall e | 0 <= e < |s'.daemons| ensures DaemonOk(plugins, s', e) {
      if e != d { assert DaemonOk(plugins, s, e); }
    }
    forall c | 0 <= c < |s'.calls| ensures CallOk(plugins, s', c) { assert CallOk(plugins, s, c); }
  }

  lemma {:induction false} RequestKeeps(plugins: Plugins, s: System, a: Action)
    requires Inv(plugins, s) && Do(plugins, s, a).Some? && (a.Write? || a.Read?)
    ensures Inv(plugins, Do(plugins, s, a).value)
  {
    assert DaemonOk(plugins, s, a.d);
    var daemon := Do(plugins, s, a).value.daemons[a.d];
    DaemonKeeps(plugins, s, a.d, daemon.thread, daemon.process);
  }

  lemma {:induction false} ProcessKeeps(plugins: Plugins, s: System, a: Action)
    requires Inv(plugins, s) && Do(plugins, s, a).Some? && (a.Compute? || a.Die?)
    ensures Inv(plugins, Do(plugins, s, a).value)
  {
    assert DaemonOk(plugins, s, a.d);
    var daemon := Do(plugins, s, a).value.daemons[a.d];
    DaemonKeeps(plugins, s, a.d, daemon.thread, daemon.process);
  }

  lemma {:induction false} LifeKeeps(plugins: Plugins, s: System, a: Action)
    requires Inv(plugins, s) && Do(plugins, s, a).Some? && (a.Spawn? || a.Close?)
    ensures Inv(plugins, Do(plugins, s, a).value)
  {
    var daemon := Do(plugins, s, a).value.daemons[a.d];
    DaemonKeeps(plugins, s, a.d, daemon.thread, daemon.process);
  }

  lemma {:induction false} AcceptKeeps(plugins: Plugins, s: System, a: Action)
    requires Inv(plugins, s) && Do(plugins, s, a).Some? && a.Accept?
    ensures Inv(plugins, Do(plugins, s, a).value)
  {
    var s' := Do(plugins, s, a).value;
    NotServed(plugins, s, a.c);
    assert CallOk(plugins, s, a.c) && DaemonOk(plugins, s, a.d);
    forall e | 0 <= e < |s'.daemons| ensures DaemonOk(plugins, s', e) {
      if e != a.d { assert DaemonOk(plugins, s, e); }
    }
    forall c | 0 <= c < |s'.calls| ensures CallOk(plugins, s', c) { assert CallOk(plugins, s, c); }
  }

  /** A daemon that has an outcome for its call goes on to the next request, or restarts. */
  lemma {:induction false} ServedDaemonKeeps(plugins: Plugins, s: System, d: nat)
    requires Inv(plugins, s) && d < |s.daemons| && s.daemons[d].thread.Replying?
    ensures Inv(plugins, WithDaemon(s, d, Spawning, NO_PROCESS))
    ensures s.daemons[d].thread.outcome.Answered? ==> Inv(plugins, WithDaemon(s, d, Listening, s.daemons[d].process))
  {
    assert DaemonOk(plugins, s, d);
    DaemonKeeps(plugins, s, d, Spawning, NO_PROCESS);
    if s.daemons[d].thread.outcome.Answered? {
      DaemonKeeps(plugins, s, d, Listening, s.daemons[d].process);
    }
  }

  /** A call that nobody serves any more gets its outcome. */
  lemma {:induction false} MailKeeps(plugins: Plugins, s: System, c: nat, outcome: Outcome)
    requires Inv(plugins, s) && c < |s.calls| && s.calls[c].stage.Waiting?
    requires forall d :: 0 <= d < |s.daemons| && Serves(s.daemons[d].thread) ==> s.daemons[d].thread.call != c
    requires IsOwnAnswer(plugins, s.calls[c].name, s.calls[c].request, outcome)
    ensures Inv(plugins, WithStage(s, c, Waiting(s.calls[c].stage.handle, Some(outcome))))
  {
    assert CallOk(plugins, s, c);
    StageKeeps(plugins, s, c, WithStage(s, c, Waiting(s.calls[c].stage.handle, Some(outcome))));
  }

  lemma {:induction false} ReplyKeeps(plugins: Plugins, s: System, a: Action)
    requires Inv(plugins, s) && Do(plugins, s, a).Some? && a.Reply?
    ensures Inv(plugins, Do(plugins, s, a).value)
  {
    assert DaemonOk(plugins, s, a.d);
    var c, outcome := s.daemons[a.d].thread.call, s.daemons[a.d].thread.outcome;
    ServedDaemonKeeps(plugins, s, a.d);
    if s.calls[c].stage.Waiting? {
      var s' := if outcome.Answered? then WithDaemon(s, a.d, Listening, s.daemons[a.d].process)
        else WithDaemon(s, a.d, Spawning, NO_PROCESS);
      MailKeeps(plugins, s', c, outcome);
    }
  }

  /** Every step of every caller, daemon thread and process keeps the invariant. */
  lemma {:induction false} DoKeeps(plugins: Plugins, s: System, a: Action)
    requires Inv(plugins, s) && Do(plugins, s, a).Some?
    ensures Inv(plugins, Do(plugins, s, a).value)
  {
    match a
    case Arrive(_, _) => ArriveKeeps(plugins, s, a);
    case Lookup(_) => CallerKeeps(plugins, s, a);
    case Insert(_) => CallerKeeps(plugins, s, a);
    case Receive(_) => CallerKeeps(plugins, s, a);
    case SendFails(_) => CallerKeeps(plugins, s, a);
    case Start(_, fine) => if fine { StartKeeps(plugins, s, a); } else { CallerKeeps(plugins, s, a); }
    case Expire(_) => ExpireKeeps(plugins, s, a);
    case Accept(_, _) => AcceptKeeps(plugins, s, a);
    case Reply(_) => ReplyKeeps(plugins, s, a);
    case Spawn(_, _) => LifeKeeps(plugins, s, a);
    case Close(_) => LifeKeeps(plugins, s, a);
    case Write(_, _) => RequestKeeps(plugins, s, a);
    case Read(_, _) => RequestKeeps(plugins, s, a);
    case Compute(_) => ProcessKeeps(plugins, s, a);
    case Die(_) => ProcessKeeps(plugins, s, a);
  }

  lemma {:induction false} RunKeeps(plugins: Plugins, s: System, actions: seq<Action>)
    requires Inv(plugins, s) && Run(plugins, s, actions).Some?
    ensures Inv(plugins, Run(plugins, s, actions).value)
    decreases |actions|
  {
    if actions != [] {
      DoKeeps(plugins, s, actions[0]);
      RunKeeps(plugins, Do(plugins, s, actions[0]).value, actions[1..]);
    }
  }

  // ---- Theorems ---------------------------------------------------------

  /** A caller that gets a response gets the plugin's answer to its own request. */
  lemma {:induction false} ResponsesMatchRequests(plugins: Plugins, actions: seq<Action>, c: nat)
    requires Run(plugins, EMPTY, actions).Some? && c < |Run(plugins, EMPTY, actions).value.calls|
    ensures var call := Run(plugins, EMPTY, actions).value.calls[c];
      call.stage.Over? && call.stage.outcome.Answered? ==>
        plugins(call.name, call.request) == Usable(call.stage.outcome.response)
  {
    RunKeeps(plugins, EMPTY, actions);
    assert CallOk(plugins, Run(plugins, EMPTY, actions).value, c);
  }

  /** At most one line is in the pipes of a process, and none while its daemon waits for the next request. */
  lemma {:induction false} OneRequestInFlight(plugins: Plugins, actions: seq<Action>, d: nat)
    requires Run(plugins, EMPTY, actions).Some? && d < |Run(plugins, EMPTY, actions).value.daemons|
    ensures var daemon := Run(plugins, EMPTY, actions).value.daemons[d];
      && |daemon.process.stdin| + |daemon.process.stdout| <= 1
      && (!Serves(daemon.thread) ==> Idle(daemon.process))
  {
    RunKeeps(plugins, EMPTY, actions);
    assert DaemonOk(plugins, Run(plugins, EMPTY, actions).value, d);
  }

  /** A plugin keeps the handle that was put into the pool first. */
  lemma {:induction false} PoolOnlyGrows(plugins: Plugins, s: System, actions: seq<Action>, name: Name)
    requires name in s.pool && Run(plugins, s, actions).Some?
    ensures name in Run(plugins, s, actions).value.pool
    ensures Run(plugins, s, actions).value.pool[name] == s.pool[name]
    decreases |actions|
  {
    if actions != [] {
      PoolOnlyGrows(plugins, Do(plugins, s, actions[0]).value, actions[1..], name);
    }
  }

  /** However first calls race, all calls for one plugin are sent to one daemon, the one in the pool. */
  lemma {:induction false} OneHandlePerPlugin(plugins: Plugins, actions: seq<Action>, c: nat, e: nat)
    requires Run(plugins, EMPTY, actions).Some?
    requires c < |Run(plugins, EMPTY, actions).value.calls| && e < |Run(plugins, EMPTY, actions).value.calls|
    ensures var s := Run(plugins, EMPTY, actions).value;
      (s.calls[c].stage.Sending? || s.calls[c].stage.Waiting?) ==>
        && s.calls[c].name in s.pool && s.pool[s.calls[c].name] == s.calls[c].stage.handle
        && ((s.calls[e].stage.Sending? || s.calls[e].stage.Waiting?) && s.calls[e].name == s.calls[c].name ==>
              s.calls[e].stage.handle == s.calls[c].stage.handle)
  {
    var s := Run(plugins, EMPTY, actions).value;
    RunKeeps(plugins, EMPTY, actions);
    assert CallOk(plugins, s, c) && CallOk(plugins, s, e);
  }

  /** Daemons in the pool, and those about to be put there, have not stopped. */
  ghost predicate Live(s: System) {
    && (forall name :: name in s.pool && s.pool[name] < |s.daemons| ==> !s.daemons[s.pool[name]].thread.Stopped?)
    && (forall c :: 0 <= c < |s.calls| && s.calls[c].stage.Started? && s.calls[c].stage.handle < |s.daemons| ==>
          !s.daemons[s.calls[c].stage.handle].thread.Stopped?)
  }

  lemma {:induction false} CallerKeepsLive(plugins: Plugins, s: System, a: Action)
    requires Inv(plugins, s) && Live(s) && Do(plugins, s, a).Some?
    requires a.Arrive? || a.Lookup? || a.Expire? || a.Receive? || a.SendFails?
    ensures Live(Do(plugins, s, a).value)
  {
    forall c | 0 <= c < |s.calls| ensures CallOk(plugins, s, c) { }
  }

  lemma {:induction false} NewcomerKeepsLive(plugins: Plugins, s: System, a: Action)
    requires Inv(plugins, s) && Live(s) && Do(plugins, s, a).Some?
    requires a.Start? || a.Insert?
    ensures Live(Do(plugins, s, a).value)
  {
    forall c | 0 <= c < |s.calls| ensures CallOk(plugins, s, c) { }
  }

  lemma {:induction false} WorkKeepsLive(plugins: Plugins, s: System, a: Action)
    requires Inv(plugins, s) && Live(s) && Do(plugins, s, a).Some?
    requires a.Write? || a.Read?
    ensures Live(Do(plugins, s, a).value)
  {
    forall c | 0 <= c < |s.calls| ensures CallOk(plugins, s, c) { }
  }

  lemma {:induction false} ProcessKeepsLive(plugins: Plugins, s: System, a: Action)
    requires Inv(plugins, s) && Live(s) && Do(plugins, s, a).Some?
    requires a.Compute? || a.Die? || a.Spawn?
    ensures Live(Do(plugins, s, a).value)
  {
    forall c | 0 <= c < |s.calls| ensures CallOk(plugins, s, c) { }
  }

  lemma {:induction false} AcceptKeepsLive(plugins: Plugins, s: System, a: Action)
    requires Inv(plugins, s) && Live(s) && Do(plugins, s, a).Some? && a.Accept?
    ensures Live(Do(plugins, s, a).value)
  {
  }

  lemma {:induction false} ReplyKeepsLive(plugins: Plugins, s: System, a: Action)
    requires Inv(plugins, s) && Live(s) && Do(plugins, s, a).Some? && a.Reply?
    ensures Live(Do(plugins, s, a).value)
  {
  }

  lemma {:induction false} CloseKeepsLive(plugins: Plugins, s: System, a: Action)
    requires Inv(plugins, s) && Live(s) && Do(plugins, s, a).Some? && a.Close?
    ensures Live(Do(plugins, s, a).value)
  {
  }

  lemma {:induction false} DoKeepsLive(plugins: Plugins, s: System, a: Action)
    requires Inv(plugins, s) && Live(s) && Do(plugins, s, a).Some?
    ensures Live(Do(plugins, s, a).value)
  {
    if a.Arrive? || a.Lookup? || a.Expire? || a.Receive? || a.SendFails? {
      CallerKeepsLive(plugins, s, a);
    } else if a.Start? || a.Insert? {
      NewcomerKeepsLive(plugins, s, a);
    } else if a.Accept? {
      AcceptKeepsLive(plugins, s, a);
    } else if a.Reply? {
      ReplyKeepsLive(plugins, s, a);
    } else if a.Close? {
      CloseKeepsLive(plugins, s, a);
    } else if a.Write? || a.Read? {
      WorkKeepsLive(plugins, s, a);
    } else {
      ProcessKeepsLive(plugins, s, a);
    }
  }

  lemma {:induction false} RunKeepsLive(plugins: Plugins, s: System, actions: seq<Action>)
    requires Inv(plugins, s) && Live(s) && Run(plugins, s, actions).Some?
    ensures Live(Run(plugins, s, actions).value)
    decreases |actions|
  {
    if actions != [] {
      DoKeeps(plugins, s, actions[0]);
      DoKeepsLive(plugins, s, actions[0]);
      RunKeepsLive(plugins, Do(plugins, s, actions[0]).value, actions[1..]);
    }
  }

  /** The daemon in the pool never shuts down, so no send to it ever fails. */
  lemma {:induction false} SendNeverFails(plugins: Plugins, actions: seq<Action>, c: nat)
    requires Run(plugins, EMPTY, actions).Some?
    ensures Do(plugins, Run(plugins, EMPTY, actions).value, SendFails(c)).None?
    ensures var s := Run(plugins, EMPTY, actions).value;
      c < |s.calls| && s.calls[c].stage.Sending? ==>
        var d := s.calls[c].stage.handle; d < |s.daemons| && s.daemons[d].thread != Stopped
  {
    var s := Run(plugins, EMPTY, actions).value;
    RunKeeps(plugins, EMPTY, actions);
    RunKeepsLive(plugins, EMPTY, actions);
    if c < |s.calls| { assert CallOk(plugins, s, c); }
  }
}
