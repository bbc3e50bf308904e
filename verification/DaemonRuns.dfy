// Plugin daemons as a state machine: callers that look up or start a daemon and
// wait with a timeout, daemon threads that own one process each, and processes
// that answer one line per line and may die at any time.
module DaemonRuns {
  import opened Common

  type Name = string
  type Request = string
  type Response = string

  /** What a plugin writes for a request: a usable response, or a line that counts as an error. */
  datatype Line = Usable(response: Response) | Faulty

  /** The plugins' behaviour: one line for each request line. */
  type Plugins = (Name, Request) -> Line

  datatype Outcome = Answered(response: Response) | Failed | TimedOut

  /** One invocation, from the lookup in the pool to its result. */
  datatype Stage =
    | Looking
    | Missing                                   // no daemon in the pool yet
    | Started(handle: nat)                      // own daemon started, not yet in the pool
    | Sending(handle: nat)                      // blocked on the rendezvous channel
    | Waiting(handle: nat, mailbox: Option<Outcome>)
    | Over(outcome: Outcome)

  datatype Call = Call(name: Name, request: Request, stage: Stage)

  datatype Thread = Spawning | Draining | Listening | Writing(call: nat) | Reading(call: nat)
    | Replying(call: nat, outcome: Outcome) | Stopped

  /** The pipes of a process: request lines it has not read, and lines nobody has read. */
  datatype Process = Process(stdin: seq<Request>, stdout: seq<Line>, alive: bool)

  datatype Daemon = Daemon(name: Name, thread: Thread, process: Process)

  datatype System = System(pool: map<Name, nat>, daemons: seq<Daemon>, calls: seq<Call>)

  const NO_PROCESS: Process := Process([], [], false)

  datatype Action =
    | Arrive(name: Name, request: Request)
    | Lookup(c: nat)
    | Start(c: nat, fine: bool)
    | Insert(c: nat)
    | Expire(c: nat)
    | Receive(c: nat)
    | SendFails(c: nat)
    | Spawn(d: nat, fine: bool)
    | Accept(d: nat, c: nat)
    | Write(d: nat, fine: bool)
    | Compute(d: nat)
    | Die(d: nat)
    | Read(d: nat, fine: bool)
    | Reply(d: nat)
    | Close(d: nat)

  // ---- Callers ----------------------------------------------------------

  function WithStage(s: System, c: nat, stage: Stage): System
    requires c < |s.calls|
  {
    s.(calls := s.calls[c := s.calls[c].(stage := stage)])
  }

  function DoLookup(s: System, c: nat): Option<System> {
    if c >= |s.calls| || !s.calls[c].stage.Looking? then None
    else if s.calls[c].name in s.pool then Some(WithStage(s, c, Sending(s.pool[s.calls[c].name])))
    else Some(WithStage(s, c, Missing))
  }

  function DoStart(s: System, c: nat, fine: bool): Option<System> {
    if c >= |s.calls| || !s.calls[c].stage.Missing? then None
    else if !fine then Some(WithStage(s, c, Over(Failed)))
    else
      Some(WithStage(s, c, Started(|s.daemons|)).(
        daemons := s.daemons + [Daemon(s.calls[c].name, Spawning, NO_PROCESS)]))
  }

  /** `or_insert`: another call may have put its daemon into the pool first. */
  function DoInsert(s: System, c: nat): Option<System> {
    if c >= |s.calls| || !s.calls[c].stage.Started? then None
    else
      var name, handle := s.calls[c].name, s.calls[c].stage.handle;
      if name in s.pool then Some(WithStage(s, c, Sending(s.pool[name])))
      else Some(WithStage(s, c, Sending(handle)).(pool := s.pool[name := handle]))
  }

  function DoExpire(s: System, c: nat): Option<System> {
    if c >= |s.calls| || !s.calls[c].stage.Waiting? then None else Some(WithStage(s, c, Over(TimedOut)))
  }

  function DoReceive(s: System, c: nat): Option<System> {
    if c >= |s.calls| || !s.calls[c].stage.Waiting? || s.calls[c].stage.mailbox.None? then None
    else Some(WithStage(s, c, Over(s.calls[c].stage.mailbox.value)))
  }

  function DoSendFails(s: System, c: nat): Option<System> {
    if c >= |s.calls| || !s.calls[c].stage.Sending? then None
    else
      var h := s.calls[c].stage.handle;
      if h < |s.daemons| && s.daemons[h].thread.Stopped? then Some(WithStage(s, c, Over(Failed))) else None
  }

  // ---- Daemons ----------------------------------------------------------

  function WithDaemon(s: System, d: nat, thread: Thread, process: Process): System
    requires d < |s.daemons|
  {
    s.(daemons := s.daemons[d := s.daemons[d].(thread := thread, process := process)])
  }

  function DoSpawn(s: System, d: nat, fine: bool): Option<System> {
    if d >= |s.daemons| || !s.daemons[d].thread.Spawning? then None
    else if fine then Some(WithDaemon(s, d, Listening, Process([], [], true)))
    else Some(WithDaemon(s, d, Draining, NO_PROCESS))
  }

  /** The rendezvous: a daemon that gave up answers at once with an error. */
  function DoAccept(s: System, d: nat, c: nat): Option<System> {
    if d >= |s.daemons| || c >= |s.calls| || s.calls[c].stage != Sending(d) then None
    else if s.daemons[d].thread.Listening?
    then Some(WithDaemon(WithStage(s, c, Waiting(d, None)), d, Writing(c), s.daemons[d].process))
    else if s.daemons[d].thread.Draining? then Some(WithStage(s, c, Waiting(d, Some(Failed))))
    else None
  }

  function DoWrite(s: System, d: nat, fine: bool): Option<System> {
    if d >= |s.daemons| || !s.daemons[d].thread.Writing? then None
    else
      var c, p := s.daemons[d].thread.call, s.daemons[d].process;
      if fine && c < |s.calls|
      then Some(WithDaemon(s, d, Reading(c), p.(stdin := p.stdin + [s.calls[c].request])))
      else Some(WithDaemon(s, d, Replying(c, Failed), p))
  }

  /** The process answers the next request line. */
  function DoCompute(plugins: Plugins, s: System, d: nat): Option<System> {
    if d >= |s.daemons| || s.daemons[d].process.stdin == [] || !s.daemons[d].process.alive then None
    else
      var daemon := s.daemons[d];
      var p := daemon.process;
      Some(WithDaemon(s, d, daemon.thread,
        p.(stdin := p.stdin[1..], stdout := p.stdout + [plugins(daemon.name, p.stdin[0])])))
  }

  function DoDie(s: System, d: nat): Option<System> {
    if d >= |s.daemons| then None
    else Some(WithDaemon(s, d, s.daemons[d].thread, s.daemons[d].process.(alive := false)))
  }

  /** One line from stdout; nothing is left to read from a dead process, and reading may fail. */
  function DoRead(s: System, d: nat, fine: bool): Option<System> {
    if d >= |s.daemons| || !s.daemons[d].thread.Reading? then None
    else
      var c, p := s.daemons[d].thread.call, s.daemons[d].process;
      if !fine then Some(WithDaemon(s, d, Replying(c, Failed), p))
      else if p.stdout != [] then
        var outcome := if p.stdout[0].Usable? then Answered(p.stdout[0].response) else Failed;
        Some(WithDaemon(s, d, Replying(c, outcome), p.(stdout := p.stdout[1..])))
      else if !p.alive then Some(WithDaemon(s, d, Replying(c, Failed), p))
      else None
  }

  /** The reply; the process is killed when the caller has gone or the request failed. */
  function DoReply(s: System, d: nat): Option<System> {
    if d >= |s.daemons| || !s.daemons[d].thread.Replying? then None
    else
      var c, outcome := s.daemons[d].thread.call, s.daemons[d].thread.outcome;
      if c < |s.calls| && s.calls[c].stage.Waiting? then
        var s' := WithStage(s, c, Waiting(s.calls[c].stage.handle, Some(outcome)));
        if outcome.Answered? then Some(WithDaemon(s', d, Listening, s.daemons[d].process))
        else Some(WithDaemon(s', d, Spawning, NO_PROCESS))
      else Some(WithDaemon(s, d, Spawning, NO_PROCESS))
  }

  /** Nobody can send to this daemon any more. */
  ghost predicate IsDropped(s: System, d: nat) {
    && (forall name :: name in s.pool ==> s.pool[name] != d)
    && (forall c :: 0 <= c < |s.calls| ==> s.calls[c].stage != Started(d) && s.calls[c].stage != Sending(d))
  }

  ghost function DoClose(s: System, d: nat): Option<System> {
    if d >= |s.daemons| || !IsDropped(s, d) || !(s.daemons[d].thread.Listening? || s.daemons[d].thread.Draining?)
    then None
    else Some(WithDaemon(s, d, Stopped, NO_PROCESS))
  }

  ghost function Do(plugins: Plugins, s: System, a: Action): Option<System> {
    match a
    case Arrive(name, request) => Some(s.(calls := s.calls + [Call(name, request, Looking)]))
    case Lookup(c) => DoLookup(s, c)
    case Start(c, fine) => DoStart(s, c, fine)
    case Insert(c) => DoInsert(s, c)
    case Expire(c) => DoExpire(s, c)
    case Receive(c) => DoReceive(s, c)
    case SendFails(c) => DoSendFails(s, c)
    case Spawn(d, fine) => DoSpawn(s, d, fine)
    case Accept(d, c) => DoAccept(s, d, c)
    case Write(d, fine) => DoWrite(s, d, fine)
    case Compute(d) => DoCompute(plugins, s, d)
    case Die(d) => DoDie(s, d)
    case Read(d, fine) => DoRead(s, d, fine)
    case Reply(d) => DoReply(s, d)
    case Close(d) => DoClose(s, d)
  }

  const EMPTY: System := System(map[], [], [])

  ghost function Run(plugins: Plugins, s: System, actions: seq<Action>): Option<System>
    decreases |actions|
  {
    if actions == [] then Some(s)
    else
      match Do(plugins, s, actions[0])
      case None => None
      case Some(s') => Run(plugins, s', actions[1..])
  }

  // ---- The invariant ----------------------------------------------------

  /** The outcome is not a response, or it is the plugin's answer to this very request. */
  ghost predicate IsOwnAnswer(plugins: Plugins, name: Name, request: Request, outcome: Outcome) {
    outcome.Answered? ==> plugins(name, request) == Usable(outcome.response)
  }

  ghost predicate Idle(p: Process) { p.stdin == [] && p.stdout == [] }

  ghost predicate InFlight(plugins: Plugins, name: Name, request: Request, p: Process) {
    (p.stdin == [request] && p.stdout == []) || (p.stdin == [] && p.stdout == [plugins(name, request)])
  }

  /** The call a daemon is working on: it waits for that daemon, or has timed out. */
  ghost predicate IsServed(s: System, d: nat, c: nat) {
    && c < |s.calls| && d < |s.daemons| && s.calls[c].name == s.daemons[d].name
    && (s.calls[c].stage == Waiting(d, None) || s.calls[c].stage == Over(TimedOut))
  }

  ghost predicate DaemonOk(plugins: Plugins, s: System, d: nat)
    requires d < |s.daemons|
  {
    var daemon := s.daemons[d];
    match daemon.thread
    case Listening => Idle(daemon.process)
    case Writing(c) => IsServed(s, d, c) && Idle(daemon.process)
    case Reading(c) => IsServed(s, d, c) && InFlight(plugins, daemon.name, s.calls[c].request, daemon.process)
    case Replying(c, outcome) =>
      && IsServed(s, d, c) && IsOwnAnswer(plugins, daemon.name, s.calls[c].request, outcome)
      && !outcome.TimedOut? && (outcome.Answered? ==> Idle(daemon.process))
      && (Idle(daemon.process) || InFlight(plugins, daemon.name, s.calls[c].request, daemon.process))
    case _ => Idle(daemon.process)
  }

  ghost predicate CallOk(plugins: Plugins, s: System, c: nat)
    requires c < |s.calls|
  {
    var call := s.calls[c];
    match call.stage
    case Started(h) => h < |s.daemons| && s.daemons[h].name == call.name
    case Sending(h) => call.name in s.pool && s.pool[call.name] == h
    case Waiting(h, mailbox) =>
      && call.name in s.pool && s.pool[call.name] == h
      && (mailbox.Some? ==> IsOwnAnswer(plugins, call.name, call.request, mailbox.value))
    case Over(outcome) => IsOwnAnswer(plugins, call.name, call.request, outcome)
    case _ => true
  }

  ghost predicate PoolOk(s: System) {
    forall name :: name in s.pool ==> s.pool[name] < |s.daemons| && s.daemons[s.pool[name]].name == name
  }

  predicate Serves(t: Thread) { t.Writing? || t.Reading? || t.Replying? }

  /** Different daemons serve different calls. */
  ghost predicate OneServer(s: System) {
    forall d, e :: 0 <= d < e < |s.daemons| && Serves(s.daemons[d].thread) && Serves(s.daemons[e].thread) ==>
      s.daemons[d].thread.call != s.daemons[e].thread.call
  }

  ghost predicate Inv(plugins: Plugins, s: System) {
    && PoolOk(s) && OneServer(s)
    && (forall d :: 0 <= d < |s.daemons| ==> DaemonOk(plugins, s, d))
    && (forall c :: 0 <= c < |s.calls| ==> CallOk(plugins, s, c))
  }
}
