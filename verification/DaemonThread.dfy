// One daemon thread and its process: the request loop, and its restarts.  What
// the operating system does is a parameter: which spawns fail, which pipes
// break, which processes die.
module DaemonThread {
  import opened Common

  datatype Response = Response(ok: bool, error: string, result: string)

  /** Lines to and from a plugin: `decode` trims and parses. */
  datatype Codec<!Request> = Codec(encode: Request -> Option<string>, decode: string -> Option<Response>)

  type Reply = Result<Response, string>

  /** What befalls a process while it serves a request. */
  datatype Fault = Healthy | WriteBreaks | Dies

  /** What befalls the process at each request, and whether a process can be started for it. */
  datatype World = World(fault: nat -> Fault, spawns: nat -> bool)

  /** A request, and whether its caller is still there when the reply comes. */
  datatype Payload<Request> = Payload(request: Request, waits: bool)

  const NOT_STARTED: string := "Plugin daemon failed to start"

  // ---- What the replies are ---------------------------------------------

  function Decoded<Request>(codec: Codec<Request>, line: string): Reply {
    if line == "" then Err("Daemon process closed stdout (likely crashed)")
    else
      match codec.decode(line)
      case None => Err("Daemon returned invalid JSON")
      case Some(response) => if response.ok then Ok(response) else Err(response.error)
  }

  /** The reply to a request, by the line that `plugin` writes for its line. */
  function ReplyUnder<Request>(
      codec: Codec<Request>, plugin: string -> string, request: Request, fault: Fault): Reply
  {
    match codec.encode(request)
    case None => Err("Failed to serialize request")
    case Some(line) =>
      if fault.WriteBreaks? then Err("Failed to write to daemon stdin")
      else Decoded(codec, if fault.Dies? then "" else plugin(line))
  }

  /**
   * The replies to the requests from number `k` on, `up` when a process is
   * running: it is restarted after an error or a caller that has gone, and
   * everybody left gets an error once that fails.
   */
  function Replies<Request>(
      codec: Codec<Request>, plugin: string -> string, world: World, payloads: seq<Payload<Request>>, k: nat, up: bool):
      (replies: seq<Reply>)
    requires k <= |payloads|
    ensures |replies| == |payloads| - k
    decreases |payloads| - k
  {
    if k == |payloads| then []
    else if !up && !world.spawns(k) then seq(|payloads| - k, _ => Err(NOT_STARTED))
    else
      var r := ReplyUnder(codec, plugin, payloads[k].request, world.fault(k));
      [r] + Replies(codec, plugin, world, payloads, k + 1, r.Ok? && payloads[k].waits)
  }

  // ---- What a caller may rely on ----------------------------------------

  /** The reply to one request, by what befalls the process while it is served. */
  ghost predicate Answers<Request>(
      codec: Codec<Request>, plugin: string -> string, request: Request, fault: Fault, r: Reply)
  {
    match codec.encode(request)
    case None => r == Err("Failed to serialize request")
    case Some(line) =>
      && (fault.WriteBreaks? ==> r == Err("Failed to write to daemon stdin"))
      && (fault.Dies? ==> r == Err("Daemon process closed stdout (likely crashed)"))
      && (fault.Healthy? ==> IsAnswer(codec, plugin(line), r))
  }

  /** What the plugin's line means: its own good response, or its own error message, or that nothing came. */
  ghost predicate IsAnswer<Request>(codec: Codec<Request>, line: string, r: Reply) {
    && (line == "" ==> r == Err("Daemon process closed stdout (likely crashed)"))
    && (line != "" && codec.decode(line).None? ==> r == Err("Daemon returned invalid JSON"))
    && (line != "" && codec.decode(line).Some? && codec.decode(line).value.ok ==> r == Ok(codec.decode(line).value))
    && (line != "" && codec.decode(line).Some? && !codec.decode(line).value.ok ==>
          r == Err(codec.decode(line).value.error))
  }

  /** A good reply: the request can be written, nothing breaks, and the plugin's line is a good response. */
  ghost predicate IsGood<Request>(codec: Codec<Request>, plugin: string -> string, request: Request, value: Response) {
    && codec.encode(request).Some?
    && plugin(codec.encode(request).value) != ""
    && codec.decode(plugin(codec.encode(request).value)) == Some(value) && value.ok
  }

  lemma {:induction false} ReplyAnswers<Request>(
      codec: Codec<Request>, plugin: string -> string, request: Request, fault: Fault)
    ensures Answers(codec, plugin, request, fault, ReplyUnder(codec, plugin, request, fault))
  {
  }

  /** A caller gets Ok exactly when all went well, and then the plugin's response to its own request. */
  lemma {:induction false} OkIffGood<Request>(
      codec: Codec<Request>, plugin: string -> string, request: Request, fault: Fault, r: Reply)
    requires Answers(codec, plugin, request, fault, r)
    ensures r.Ok? <==> fault.Healthy? && exists value :: IsGood(codec, plugin, request, value)
    ensures r.Ok? ==> IsGood(codec, plugin, request, r.value)
  {
    if r.Ok? {
      assert IsGood(codec, plugin, request, r.value);
    }
    if fault.Healthy? && exists value :: IsGood(codec, plugin, request, value) {
      var value :| IsGood(codec, plugin, request, value);
      assert r == Ok(value);
    }
  }

  /** No process is running when the `n`-th request from `from` on comes: it has been killed, or was never there. */
  ghost predicate IsDownAt<Request>(payloads: seq<Payload<Request>>, replies: seq<Reply>, from: nat, n: nat, up: bool)
    requires n <= |replies| && from + |replies| <= |payloads|
  {
    if n == 0 then !up else replies[n - 1].Err? || !payloads[from + n - 1].waits
  }

  /** Request `n` is answered by a process that runs, or that can be started for it. */
  ghost predicate IsServed<Request>(
      codec: Codec<Request>, plugin: string -> string, world: World, payloads: seq<Payload<Request>>,
      replies: seq<Reply>, from: nat, n: nat, up: bool)
    requires n < |replies| && from + |replies| <= |payloads|
  {
    && Answers(codec, plugin, payloads[from + n].request, world.fault(from + n), replies[n])
    && (IsDownAt(payloads, replies, from, n, up) ==> world.spawns(from + n))
  }

  /**
   * The replies from request `from` on: the first `served` requests are answered;
   * then a process cannot be started, and everybody from there on is told so.
   */
  ghost predicate AreReplies<Request>(
      codec: Codec<Request>, plugin: string -> string, world: World, payloads: seq<Payload<Request>>, from: nat,
      up: bool,
      replies: seq<Reply>, served: nat)
  {
    && |payloads| == from + |replies| && served <= |replies|
    && (forall n :: 0 <= n < served ==> IsServed(codec, plugin, world, payloads, replies, from, n, up))
    && (served < |replies| ==> IsDownAt(payloads, replies, from, served, up) && !world.spawns(from + served))
    && (forall n :: served <= n < |replies| ==> replies[n] == Err("Plugin daemon failed to start"))
  }

  lemma {:induction false} RepliesAreThose<Request>(
      codec: Codec<Request>, plugin: string -> string, world: World, payloads: seq<Payload<Request>>, k: nat, up: bool)
    returns (served: nat)
    requires k <= |payloads|
    ensures AreReplies(codec, plugin, world, payloads, k, up, Replies(codec, plugin, world, payloads, k, up), served)
    decreases |payloads| - k
  {
    if k == |payloads| || (!up && !world.spawns(k)) {
      served := 0;
    } else {
      var r := ReplyUnder(codec, plugin, payloads[k].request, world.fault(k));
      var next := r.Ok? && payloads[k].waits;
      ReplyAnswers(codec, plugin, payloads[k].request, world.fault(k));
      var later := RepliesAreThose(codec, plugin, world, payloads, k + 1, next);
      var rest := Replies(codec, plugin, world, payloads, k + 1, next);
      FirstAndRest(codec, plugin, world, payloads, k, up, r, rest, later);
      served := later + 1;
    }
  }

  lemma {:induction false} DownLater<Request>(
      payloads: seq<Payload<Request>>, k: nat, up: bool, r: Reply, rest: seq<Reply>, n: nat)
    requires |payloads| == k + 1 + |rest| && n <= |rest|
    ensures IsDownAt(payloads, [r] + rest, k, n + 1, up)
      <==> IsDownAt(payloads, rest, k + 1, n, r.Ok? && payloads[k].waits)
  {
  }

  lemma {:induction false} FirstAndRest<Request>(
      codec: Codec<Request>, plugin: string -> string, world: World, payloads: seq<Payload<Request>>, k: nat, up: bool,
      r: Reply, rest: seq<Reply>, served: nat)
    requires k < |payloads| && (up || world.spawns(k))
    requires Answers(codec, plugin, payloads[k].request, world.fault(k), r)
    requires AreReplies(codec, plugin, world, payloads, k + 1, r.Ok? && payloads[k].waits, rest, served)
    ensures AreReplies(codec, plugin, world, payloads, k, up, [r] + rest, served + 1)
  {
    var replies, next := [r] + rest, r.Ok? && payloads[k].waits;
    forall n | 0 <= n < served + 1 ensures IsServed(codec, plugin, world, payloads, replies, k, n, up) {
      if n > 0 {
        assert IsServed(codec, plugin, world, payloads, rest, k + 1, n - 1, next);
        DownLater(payloads, k, up, r, rest, n - 1);
      }
    }
    DownLater(payloads, k, up, r, rest, served);
    forall n | served + 1 <= n < |replies| ensures replies[n] == Err("Plugin daemon failed to start") {
      assert replies[n] == rest[n - 1];
    }
  }

  /** Whatever breaks, an Ok reply is the plugin's own, good response to the very request. */
  lemma {:induction false} OkRepliesMatch<Request>(
      codec: Codec<Request>, plugin: string -> string, world: World, payloads: seq<Payload<Request>>,
      replies: seq<Reply>, served: nat, i: nat)
    requires AreReplies(codec, plugin, world, payloads, 0, false, replies, served) && i < |replies|
    ensures replies[i].Ok? ==> IsGood(codec, plugin, payloads[i].request, replies[i].value) && world.fault(i).Healthy?
  {
    if i < served {
      assert IsServed(codec, plugin, world, payloads, replies, 0, i, false);
      OkIffGood(codec, plugin, payloads[i].request, world.fault(i), replies[i]);
    }
  }

  /**
   * When nothing breaks, every request gets what its plugin's line means,
   * whichever callers have gone and whichever answers are errors.
   */
  lemma {:induction false} HealthyWorldAnswersAll<Request>(
      codec: Codec<Request>, plugin: string -> string, world: World, payloads: seq<Payload<Request>>,
      replies: seq<Reply>, served: nat, i: nat)
    requires AreReplies(codec, plugin, world, payloads, 0, false, replies, served) && i < |replies|
    requires forall n: nat :: world.fault(n) == Healthy && world.spawns(n)
    ensures codec.encode(payloads[i].request).None? ==> replies[i] == Err("Failed to serialize request")
    ensures codec.encode(payloads[i].request).Some? ==>
      IsAnswer(codec, plugin(codec.encode(payloads[i].request).value), replies[i])
  {
    assert world.fault(i) == Healthy && world.spawns(served);
    assert IsServed(codec, plugin, world, payloads, replies, 0, i, false);
  }

  // ---- The process ------------------------------------------------------

  class DaemonProcess {
    const plugin: string -> string
    var stdin: seq<string>
    var stdout: seq<string>
    var alive: bool

    constructor (plugin: string -> string)
      ensures this.plugin == plugin && Clean() && alive
    {
      this.plugin, stdin, stdout, alive := plugin, [], [], true;
    }

    /** No line is under way. */
    ghost predicate Clean()
      reads this
    {
      stdin == [] && stdout == []
    }

    method Kill()
      modifies this`alive
      ensures !alive
    {
      alive := false;
    }

    method WriteLine(line: string, fault: Fault) returns (ok: bool)
      modifies this`stdin
      ensures ok == !fault.WriteBreaks? && stdin == if ok then old(stdin) + [line] else old(stdin)
    {
      ok := !fault.WriteBreaks?;
      if ok { stdin := stdin + [line]; }
    }

    /** The plugin's side: it answers the next line, or dies first. */
    method RunPlugin(fault: Fault)
      requires alive && stdin != []
      modifies this
      ensures fault.Dies? ==> !alive && stdin == old(stdin) && stdout == old(stdout)
      ensures !fault.Dies? ==>
        alive && stdin == old(stdin)[1..] && stdout == old(stdout) + [plugin(old(stdin)[0])]
    {
      if fault.Dies? {
        alive := false;
      } else {
        stdout := stdout + [plugin(stdin[0])];
        stdin := stdin[1..];
      }
    }

    /** One line, or the empty string at the end of the stream. */
    method ReadLine() returns (line: string)
      modifies this`stdout
      ensures old(stdout) != [] ==> line == old(stdout)[0] && stdout == old(stdout)[1..]
      ensures old(stdout) == [] ==> line == "" && stdout == []
    {
      if stdout == [] {
        return "";
      }
      line := stdout[0];
      stdout := stdout[1..];
    }
  }

  /** One request line out, one response line in. */
  method InvokeViaDaemon<Request(!new)>(process: DaemonProcess, codec: Codec<Request>, request: Request, fault: Fault)
    returns (r: Reply)
    requires process.Clean() && process.alive
    modifies process
    ensures r == ReplyUnder(codec, process.plugin, request, fault)
    ensures Answers(codec, process.plugin, request, fault, r)
    ensures r.Ok? ==> process.Clean() && process.alive
  {
    ReplyAnswers(codec, process.plugin, request, fault);
    var encoded := codec.encode(request);
    if encoded.None? {
      return Err("Failed to serialize request");
    }
    var written := process.WriteLine(encoded.value, fault);
    if !written {
      return Err("Failed to write to daemon stdin");
    }
    process.RunPlugin(fault);
    var line := process.ReadLine();
    if line == "" {
      return Err("Daemon process closed stdout (likely crashed)");
    }
    var response := codec.decode(line);
    if response.None? {
      return Err("Daemon returned invalid JSON");
    }
    if !response.value.ok {
      return Err(response.value.error);
    }
    return Ok(response.value);
  }

  // ---- The thread -------------------------------------------------------

  lemma {:induction false} RepliesStep<Request>(
      codec: Codec<Request>, plugin: string -> string, world: World, payloads: seq<Payload<Request>>,
      done: seq<Reply>, up: bool)
    requires |done| < |payloads| && (up || world.spawns(|done|))
    ensures var r := ReplyUnder(codec, plugin, payloads[|done|].request, world.fault(|done|));
      done + Replies(codec, plugin, world, payloads, |done|, up)
        == done + [r] + Replies(codec, plugin, world, payloads, |done| + 1, r.Ok? && payloads[|done|].waits)
  {
    var r := ReplyUnder(codec, plugin, payloads[|done|].request, world.fault(|done|));
    Associates(done, [r], Replies(codec, plugin, world, payloads, |done| + 1, r.Ok? && payloads[|done|].waits));
  }

  /** Serves requests from one process until it errs or a caller has gone; returns the replies so far. */
  method ServeUntilError<Request(!new)>(
      process: DaemonProcess, codec: Codec<Request>, world: World, payloads: seq<Payload<Request>>, before: seq<Reply>)
    returns (replies: seq<Reply>)
    requires process.Clean() && process.alive && |before| < |payloads|
    modifies process
    ensures |before| < |replies| <= |payloads|
    ensures replies + Replies(codec, process.plugin, world, payloads, |replies|, false)
      == before + Replies(codec, process.plugin, world, payloads, |before|, true)
    ensures |replies| < |payloads| ==> !process.alive
  {
    replies := before;
    var serving := true;
    while serving && |replies| < |payloads|
      invariant |before| <= |replies| <= |payloads| && (!serving ==> |before| < |replies| && !process.alive)
      invariant serving ==> process.Clean() && process.alive
      invariant replies + Replies(codec, process.plugin, world, payloads, |replies|, serving)
        == before + Replies(codec, process.plugin, world, payloads, |before|, true)
      decreases |payloads| - |replies|
    {
      var payload := payloads[|replies|];
      RepliesStep(codec, process.plugin, world, payloads, replies, true);
      var r := InvokeViaDaemon(process, codec, payload.request, world.fault(|replies|));
      replies := replies + [r];
      if !payload.waits || r.Err? {
        process.Kill();
        serving := false;
      }
    }
  }

  /** The whole life of a daemon thread over the requests it receives. */
  method RunDaemon<Request(!new)>(
      codec: Codec<Request>, plugin: string -> string, world: World, payloads: seq<Payload<Request>>)
    returns (replies: seq<Reply>, ghost served: nat)
    ensures replies == Replies(codec, plugin, world, payloads, 0, false)
    ensures AreReplies(codec, plugin, world, payloads, 0, false, replies, served)
  {
    served := RepliesAreThose(codec, plugin, world, payloads, 0, false);
    replies := [];
    while |replies| < |payloads|
      invariant |replies| <= |payloads|
      invariant replies + Replies(codec, plugin, world, payloads, |replies|, false)
        == Replies(codec, plugin, world, payloads, 0, false)
      decreases |payloads| - |replies|
    {
      if !world.spawns(|replies|) {
        // The process cannot be started: the remaining callers get an error.
        replies := Drain(replies, |payloads| - |replies|);
        return;
      }
      SpawnedIsUp(codec, plugin, world, payloads, |replies|);
      var process := new DaemonProcess(plugin);
      replies := ServeUntilError(process, codec, world, payloads, replies);
    }
    assert replies + [] == replies;
  }

  lemma {:induction false} SpawnedIsUp<Request>(
      codec: Codec<Request>, plugin: string -> string, world: World, payloads: seq<Payload<Request>>, k: nat)
    requires k < |payloads| && world.spawns(k)
    ensures Replies(codec, plugin, world, payloads, k, false) == Replies(codec, plugin, world, payloads, k, true)
  {
  }

  method Drain(before: seq<Reply>, n: nat) returns (replies: seq<Reply>)
    ensures replies == before + seq(n, _ => Err(NOT_STARTED))
  {
    replies := before;
    for k := 0 to n
      invariant replies == before + seq(k, _ => Err(NOT_STARTED))
    {
      replies := replies + [Err(NOT_STARTED)];
    }
  }
}
