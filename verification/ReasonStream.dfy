// The event-stream reader: chunks of text cut anywhere, lines, events.
module ReasonStream {
  import opened Common

  /** How the frontend reads text: `trim`, and parsing JSON values. */
  datatype Reader<!Value> = Reader(trim: string -> string, parse: string -> Result<Value, string>)

  /** One stream: still reading, or returned.  `progress` is what has been sent on so far. */
  datatype Stream<Value> =
    | Reading(eventType: string, eventData: string, progress: seq<Value>)
    | Returned(progress: seq<Value>, result: Result<Value, string>)

  const NO_RESULTS: string := "Stream ended without results"

  // ---- Lines ------------------------------------------------------------

  /** The position of the first newline, or the length. */
  function FindNewline(s: string): (p: nat)
    ensures p <= |s| && (p < |s| ==> s[p] == '\n') && forall i :: 0 <= i < p ==> s[i] != '\n'
  {
    if s == "" || s[0] == '\n' then 0 else 1 + FindNewline(s[1..])
  }

  /** The complete lines of a text, without their newlines. */
  function Lines(s: string): seq<string>
    decreases |s|
  {
    var p := FindNewline(s);
    if p == |s| then [] else [s[..p]] + Lines(s[p + 1..])
  }

  /** What follows the last newline. */
  function Tail(s: string): string
    decreases |s|
  {
    var p := FindNewline(s);
    if p == |s| then s else Tail(s[p + 1..])
  }

  function TrimReturns(line: string): string {
    if line != "" && line[|line| - 1] == '\r' then TrimReturns(line[..|line| - 1]) else line
  }

  function After(line: string, prefix: string): string { if prefix <= line then line[|prefix|..] else line }

  // ---- Events -----------------------------------------------------------

  /** A blank line ends an event. */
  function Dispatch<Value>(
      reader: Reader<Value>, eventType: string, eventData: string, progress: seq<Value>): Stream<Value>
  {
    if eventType == "" || eventData == "" then Reading("", "", progress)
    else if eventType == "progress" then
      var data := reader.parse(eventData);
      Reading("", "", if data.Ok? then progress + [data.value] else progress)
    else if eventType == "complete" then Returned(progress, reader.parse(eventData))
    else if eventType == "error" then Returned(progress, Err(eventData))
    else Reading("", "", progress)
  }

  function TakeLine<Value>(reader: Reader<Value>, s: Stream<Value>, raw: string): Stream<Value>
    requires s.Reading?
  {
    var line := TrimReturns(raw);
    if ":" <= line then s
    else if "event:" <= line then s.(eventType := reader.trim(After(line, "event:")))
    else if "data:" <= line then s.(eventData := reader.trim(After(line, "data:")))
    else if line == "" then Dispatch(reader, s.eventType, s.eventData, s.progress)
    else s
  }

  function TakeLines<Value>(reader: Reader<Value>, s: Stream<Value>, lines: seq<string>): Stream<Value>
    decreases |lines|
  {
    if lines == [] || s.Returned? then s else TakeLines(reader, TakeLine(reader, s, lines[0]), lines[1..])
  }

  /** The end of the stream, or the network error that cut it off. */
  function Finish<Value>(reader: Reader<Value>, s: Stream<Value>, error: Option<string>): Stream<Value> {
    match s
    case Returned(_, _) => s
    case Reading(eventType, eventData, progress) =>
      if error.Some? then Returned(progress, Err(error.value))
      else if eventType == "complete" && eventData != "" then Returned(progress, reader.parse(eventData))
      else if eventType == "error" && eventData != "" then Returned(progress, Err(eventData))
      else Returned(progress, Err(NO_RESULTS))
  }

  function Fresh<Value>(): Stream<Value> { Reading("", "", []) }

  /** The reference: read the whole text at once, line by line. */
  function WholeStream<Value>(reader: Reader<Value>, text: string, error: Option<string>): Stream<Value> {
    Finish(reader, TakeLines(reader, Fresh(), Lines(text)), error)
  }

  // ---- Cutting a text ---------------------------------------------------

  lemma {:induction false} FirstLineOf(s: string, p: nat, line: string)
    requires p == |line| && '\n' !in line && p < |s| && s[..p] == line && s[p] == '\n'
    ensures FindNewline(s) == p
  {
    forall i | 0 <= i < p ensures s[i] != '\n' { assert s[i] == line[i]; }
  }

  function WithLine(line: string, rest: string): string { line + "\n" + rest }

  lemma {:induction false} ReadsWithLine(line: string, rest: string)
    requires '\n' !in line
    ensures Lines(WithLine(line, rest)) == [line] + Lines(rest)
    ensures Tail(WithLine(line, rest)) == Tail(rest)
  {
    var s := WithLine(line, rest);
    FirstLineOf(s, |line|, line);
    assert s[..|line|] == line && s[|line| + 1..] == rest;
  }

  lemma {:induction false} SplitsAtNewline(s: string) returns (line: string, rest: string)
    requires FindNewline(s) < |s|
    ensures line == s[..FindNewline(s)] && rest == s[FindNewline(s) + 1..]
    ensures s == WithLine(line, rest) && '\n' !in line
  {
    line, rest := s[..FindNewline(s)], s[FindNewline(s) + 1..];
    assert s == line + [s[FindNewline(s)]] + rest;
  }

  lemma {:induction false} WithLineAppends(line: string, rest: string, b: string)
    ensures WithLine(line, rest) + b == WithLine(line, rest + b)
  {
  }

  lemma {:induction false} NoLine(s: string)
    requires FindNewline(s) == |s|
    ensures Lines(s) == [] && Tail(s) == s
  {
  }

  /** Reading on keeps the lines that were complete, and goes on from the incomplete one. */
  lemma {:induction false} LinesOfAppend(a: string, b: string)
    ensures Lines(a + b) == Lines(a) + Lines(Tail(a) + b)
    ensures Tail(a + b) == Tail(Tail(a) + b)
    decreases |a|
  {
    if FindNewline(a) == |a| {
      NoLine(a);
      assert [] + Lines(a + b) == Lines(a + b);
    } else {
      var line, rest := SplitsAtNewline(a);
      LinesOfAppend(rest, b);
      WithLineAppends(line, rest, b);
      ReadsWithLine(line, rest);
      ReadsWithLine(line, rest + b);
      Associates([line], Lines(rest), Lines(Tail(rest) + b));
    }
  }

  lemma {:induction false} TakeLinesOfAppend<Value>(
      reader: Reader<Value>, s: Stream<Value>, a: seq<string>, b: seq<string>)
    ensures TakeLines(reader, s, a + b) == TakeLines(reader, TakeLines(reader, s, a), b)
    decreases |a|
  {
    if a == [] {
      assert a + b == b;
    } else if s.Reading? {
      assert (a + b)[0] == a[0] && (a + b)[1..] == a[1..] + b;
      TakeLinesOfAppend(reader, TakeLine(reader, s, a[0]), a[1..], b);
    }
  }

  /** Reading the first line, and then the rest. */
  lemma {:induction false} ReadsLine<Value>(reader: Reader<Value>, s: Stream<Value>, line: string, rest: string)
    requires s.Reading? && '\n' !in line
    ensures TakeLines(reader, s, Lines(WithLine(line, rest)))
      == TakeLines(reader, TakeLine(reader, s, line), Lines(rest))
    ensures Tail(WithLine(line, rest)) == Tail(rest)
  {
    ReadsWithLine(line, rest);
    assert ([line] + Lines(rest))[1..] == Lines(rest);
  }

  // ---- The reader as it runs --------------------------------------------

  function Concat(chunks: seq<string>): string {
    if chunks == [] then "" else chunks[0] + Concat(chunks[1..])
  }

  lemma {:induction false} ConcatOfSnoc(chunks: seq<string>, k: nat)
    requires k < |chunks|
    ensures Concat(chunks[..k + 1]) == Concat(chunks[..k]) + chunks[k]
    decreases k
  {
    if k > 0 {
      ConcatOfSnoc(chunks[1..], k - 1);
      assert chunks[..k + 1][1..] == chunks[1..][..k] && chunks[..k][1..] == chunks[1..][..k - 1];
    }
  }

  class StreamReader<Value(!new)> {
    const reader: Reader<Value>
    var buffer: string
    var eventType: string
    var eventData: string
    var progress: seq<Value>

    constructor (reader: Reader<Value>)
      ensures this.reader == reader && buffer == "" && State() == Fresh()
    {
      this.reader, buffer, eventType, eventData, progress := reader, "", "", "", [];
    }

    ghost function State(): Stream<Value>
      reads this
    {
      Reading(eventType, eventData, progress)
    }

    method Clear()
      modifies this`eventType, this`eventData
      ensures eventType == "" && eventData == ""
    {
      eventType, eventData := "", "";
    }

    /** A blank line; the result when it ends the stream. */
    method DispatchEvent() returns (result: Option<Result<Value, string>>)
      modifies this`eventType, this`eventData, this`progress
      ensures var s := Dispatch(reader, old(eventType), old(eventData), old(progress));
        if result.Some? then s == Returned(progress, result.value) else s == State()
    {
      if eventType == "" || eventData == "" {
        Clear();
        return None;
      }
      if eventType == "progress" {
        var data := reader.parse(eventData);
        if data.Ok? { progress := progress + [data.value]; }
      } else if eventType == "complete" {
        return Some(reader.parse(eventData));
      } else if eventType == "error" {
        return Some(Err(eventData));
      }
      Clear();
      return None;
    }

    method ReadLine(raw: string) returns (result: Option<Result<Value, string>>)
      modifies this`eventType, this`eventData, this`progress
      ensures var s := TakeLine(reader, old(State()), raw);
        if result.Some? then s == Returned(progress, result.value) else s == State()
    {
      var line := TrimReturns(raw);
      result := None;
      if ":" <= line {
      } else if "event:" <= line {
        eventType := reader.trim(line[|"event:"|..]);
      } else if "data:" <= line {
        eventData := reader.trim(line[|"data:"|..]);
      } else if line == "" {
        result := DispatchEvent();
      }
    }

    /** Consumes the complete lines in the buffer. */
    method ConsumeLines() returns (result: Option<Result<Value, string>>)
      modifies this
      ensures var s := TakeLines(reader, old(State()), Lines(old(buffer)));
        if result.Some? then s == Returned(progress, result.value) else s == State() && buffer == Tail(old(buffer))
    {
      result := None;
      while result.None? && FindNewline(buffer) < |buffer|
        invariant result.Some? ==>
          TakeLines(reader, old(State()), Lines(old(buffer))) == Returned(progress, result.value)
        invariant result.None? ==>
          TakeLines(reader, State(), Lines(buffer)) == TakeLines(reader, old(State()), Lines(old(buffer)))
        invariant result.None? ==> Tail(buffer) == Tail(old(buffer))
        decreases |buffer|, result.None?
      {
        var p := FindNewline(buffer);
        var line := buffer[..p];
        ghost var first, rest := SplitsAtNewline(buffer);
        ReadsLine(reader, State(), first, rest);
        buffer := buffer[p + 1..];
        result := ReadLine(line);
      }
    }

    /** The fields hold what a reader of the whole of `read` would hold. */
    ghost predicate HasRead(read: string)
      reads this
    {
      TakeLines(reader, Fresh(), Lines(read)) == State() && buffer == Tail(read)
    }

    /** One chunk of the stream. */
    method ReadChunk(chunk: string, ghost read: string) returns (result: Option<Result<Value, string>>)
      requires HasRead(read)
      modifies this
      ensures result.None? ==> HasRead(read + chunk)
      ensures result.Some? ==> TakeLines(reader, Fresh(), Lines(read + chunk)) == Returned(progress, result.value)
    {
      ReadFurther(reader, read, chunk);
      buffer := buffer + chunk;
      result := ConsumeLines();
    }

    /** The end of the stream. */
    method AtEnd() returns (result: Result<Value, string>)
      ensures Finish(reader, State(), None) == Returned(progress, result)
    {
      if eventType != "" && eventData != "" {
        if eventType == "complete" {
          return reader.parse(eventData);
        }
        if eventType == "error" {
          return Err(eventData);
        }
      }
      return Err(NO_RESULTS);
    }

    /**
     * The result and the progress for a text that arrives in `chunks`: those of
     * the whole text, however it was cut.
     */
    method Execute(chunks: seq<string>, error: Option<string>) returns (result: Result<Value, string>)
      requires buffer == "" && State() == Fresh()
      modifies this
      ensures WholeStream(reader, Concat(chunks), error) == Returned(progress, result)
    {
      for k := 0 to |chunks|
        invariant HasRead(Concat(chunks[..k]))
      {
        ConcatOfSnoc(chunks, k);
        var early := ReadChunk(chunks[k], Concat(chunks[..k]));
        if early.Some? {
          ReturnedStays(reader, chunks, k + 1, error);
          return early.value;
        }
      }
      assert chunks[..|chunks|] == chunks;
      if error.Some? {
        return Err(error.value);
      }
      result := AtEnd();
    }
  }

  /** Reading a chunk more: the lines of the tail and the chunk, from where the reader stands. */
  lemma {:induction false} ReadFurther<Value>(reader: Reader<Value>, read: string, chunk: string)
    ensures TakeLines(reader, Fresh(), Lines(read + chunk))
      == TakeLines(reader, TakeLines(reader, Fresh(), Lines(read)), Lines(Tail(read) + chunk))
    ensures Tail(read + chunk) == Tail(Tail(read) + chunk)
  {
    LinesOfAppend(read, chunk);
    TakeLinesOfAppend(reader, Fresh(), Lines(read), Lines(Tail(read) + chunk));
  }

  /** Once a prefix of the text has returned, the rest does not matter. */
  lemma {:induction false} ReturnedStays<Value>(
      reader: Reader<Value>, chunks: seq<string>, k: nat, error: Option<string>)
    requires k <= |chunks| && TakeLines(reader, Fresh(), Lines(Concat(chunks[..k]))).Returned?
    ensures WholeStream(reader, Concat(chunks), error) == TakeLines(reader, Fresh(), Lines(Concat(chunks[..k])))
    decreases |chunks| - k
  {
    if k == |chunks| {
      assert chunks[..k] == chunks;
    } else {
      ConcatOfSnoc(chunks, k);
      ReadFurther(reader, Concat(chunks[..k]), chunks[k]);
      ReturnedStays(reader, chunks, k + 1, error);
    }
  }

  // ---- Round trip -------------------------------------------------------

  /** A line of an event: its name, its data, a comment, or a field that the reader does not know. */
  datatype Field = Name(value: string) | Data(value: string) | Comment(text: string) | Other(line: string)

  /** The lines up to a blank one; a heartbeat is a block of one comment. */
  type Block = seq<Field>

  function LineOf(f: Field): string {
    match f
    case Name(value) => "event: " + value
    case Data(value) => "data: " + value
    case Comment(text) => ": " + text
    case Other(line) => line
  }

  /** Each line ends in `cr`, which is "" or some carriage returns, and a newline. */
  function LinesOf(fields: seq<Field>, cr: string): seq<string> {
    if fields == [] then [] else LinesOf(fields[..|fields| - 1], cr) + [LineOf(fields[|fields| - 1]) + cr]
  }

  function WithLines(lines: seq<string>, rest: string): string {
    if lines == [] then rest else WithLine(lines[0], WithLines(lines[1..], rest))
  }

  /** The blocks, the lines of one more without its blank line, and an incomplete line. */
  function Encode(blocks: seq<Block>, last: Block, partial: string, cr: string): string {
    if blocks == [] then WithLines(LinesOf(last, cr), partial)
    else WithLines(LinesOf(blocks[0], cr), WithLine(cr, Encode(blocks[1..], last, partial, cr)))
  }

  /** A value that survives a line: no line breaks, not blank, and `trim` only takes off the leading blank. */
  ghost predicate IsValue<Value>(reader: Reader<Value>, s: string) {
    s != "" && '\n' !in s && s[|s| - 1] != '\r' && reader.trim(" " + s) == s
  }

  ghost predicate IsClean<Value>(reader: Reader<Value>, f: Field) {
    match f
    case Name(value) => IsValue(reader, value)
    case Data(value) => IsValue(reader, value)
    case Comment(text) => '\n' !in text
    case Other(line) =>
      && line != "" && '\n' !in line && line[|line| - 1] != '\r'
      && !(":" <= line) && !("event:" <= line) && !("data:" <= line)
  }

  ghost predicate AreClean<Value>(reader: Reader<Value>, block: Block) {
    forall k :: 0 <= k < |block| ==> IsClean(reader, block[k])
  }

  ghost predicate AreReturns(cr: string) { forall k :: 0 <= k < |cr| ==> cr[k] == '\r' }

  /** The name that a block gives last; "" if it gives none. */
  function NameIn(block: Block): string {
    if block == [] then ""
    else if block[|block| - 1].Name? then block[|block| - 1].value
    else NameIn(block[..|block| - 1])
  }

  /** The data that a block gives last: earlier ones do not count. */
  function DataIn(block: Block): string {
    if block == [] then ""
    else if block[|block| - 1].Data? then block[|block| - 1].value
    else DataIn(block[..|block| - 1])
  }

  /**
   * What a text means: the progress values up to the first result.  Without one,
   * a network error counts, and then an event that lacks only its blank line.
   */
  function Meaning<Value>(
      reader: Reader<Value>, blocks: seq<Block>, last: Block, error: Option<string>, progress: seq<Value>)
      : Stream<Value>
    decreases |blocks|
  {
    if blocks != [] then
      var name, data := NameIn(blocks[0]), DataIn(blocks[0]);
      if data != "" && name == "complete" then Returned(progress, reader.parse(data))
      else if data != "" && name == "error" then Returned(progress, Err(data))
      else if data != "" && name == "progress" && reader.parse(data).Ok?
      then Meaning(reader, blocks[1..], last, error, progress + [reader.parse(data).value])
      else Meaning(reader, blocks[1..], last, error, progress)
    else if error.Some? then Returned(progress, Err(error.value))
    else
      var name, data := NameIn(last), DataIn(last);
      if data != "" && name == "complete" then Returned(progress, reader.parse(data))
      else if data != "" && name == "error" then Returned(progress, Err(data))
      else Returned(progress, Err("Stream ended without results"))
  }

  lemma {:induction false} TrimsReturns(line: string, cr: string)
    requires AreReturns(cr) && (line == "" || line[|line| - 1] != '\r')
    ensures TrimReturns(line + cr) == line
    decreases |cr|
  {
    if cr == "" {
      assert line + cr == line;
    } else {
      assert (line + cr)[..|line + cr| - 1] == line + cr[..|cr| - 1];
      TrimsReturns(line, cr[..|cr| - 1]);
    }
  }

  lemma {:induction false} TrimKeepsFirst(line: string)
    requires line != "" && line[0] != '\r'
    ensures TrimReturns(line) != "" && TrimReturns(line)[0] == line[0]
    decreases |line|
  {
    if line[|line| - 1] == '\r' { TrimKeepsFirst(line[..|line| - 1]); }
  }

  lemma {:induction false} ReadsName<Value>(reader: Reader<Value>, s: Stream<Value>, value: string, cr: string)
    requires s.Reading? && AreReturns(cr) && IsValue(reader, value)
    ensures TakeLine(reader, s, "event: " + value + cr) == s.(eventType := value)
  {
    var line := "event: " + value;
    assert line[|line| - 1] == value[|value| - 1] && line[0] == 'e';
    TrimsReturns(line, cr);
    assert line[|"event:"|..] == " " + value && "event:" <= line;
  }

  lemma {:induction false} ReadsData<Value>(reader: Reader<Value>, s: Stream<Value>, value: string, cr: string)
    requires s.Reading? && AreReturns(cr) && IsValue(reader, value)
    ensures TakeLine(reader, s, "data: " + value + cr) == s.(eventData := value)
  {
    var line := "data: " + value;
    assert line[|line| - 1] == value[|value| - 1] && line[0] == 'd';
    TrimsReturns(line, cr);
    assert line[|"data:"|..] == " " + value && "data:" <= line;
  }

  lemma {:induction false} ReadsComment<Value>(reader: Reader<Value>, s: Stream<Value>, text: string, cr: string)
    requires s.Reading?
    ensures TakeLine(reader, s, ": " + text + cr) == s
  {
    TrimKeepsFirst(": " + text + cr);
  }

  lemma {:induction false} ReadsOther<Value>(reader: Reader<Value>, s: Stream<Value>, line: string, cr: string)
    requires s.Reading? && AreReturns(cr) && IsClean(reader, Other(line))
    ensures TakeLine(reader, s, line + cr) == s
  {
    TrimsReturns(line, cr);
  }

  /** A line changes what its field is about, and nothing else. */
  lemma {:induction false} ReadsField<Value>(reader: Reader<Value>, s: Stream<Value>, f: Field, cr: string)
    requires s.Reading? && AreReturns(cr) && IsClean(reader, f)
    ensures TakeLine(reader, s, LineOf(f) + cr)
      == if f.Name? then s.(eventType := f.value) else if f.Data? then s.(eventData := f.value) else s
  {
    match f
    case Name(value) => ReadsName(reader, s, value, cr);
    case Data(value) => ReadsData(reader, s, value, cr);
    case Comment(text) => ReadsComment(reader, s, text, cr);
    case Other(line) => ReadsOther(reader, s, line, cr);
  }

  lemma {:induction false} ReadsFields<Value>(reader: Reader<Value>, block: Block, progress: seq<Value>, cr: string)
    requires AreReturns(cr) && AreClean(reader, block)
    ensures TakeLines(reader, Reading("", "", progress), LinesOf(block, cr))
      == Reading(NameIn(block), DataIn(block), progress)
  {
    if block != [] {
      var front, f := block[..|block| - 1], block[|block| - 1];
      ReadsFields(reader, front, progress, cr);
      var s := Reading(NameIn(front), DataIn(front), progress);
      TakeLinesOfAppend(reader, Reading("", "", progress), LinesOf(front, cr), [LineOf(f) + cr]);
      ReadsField(reader, s, f, cr);
      TakesOneLine(reader, s, LineOf(f) + cr);
    }
  }

  lemma {:induction false} TakesOneLine<Value>(reader: Reader<Value>, s: Stream<Value>, line: string)
    requires s.Reading?
    ensures TakeLines(reader, s, [line]) == TakeLine(reader, s, line)
  {
    assert [line][1..] == [];
  }

  lemma {:induction false} NoNewlineInLine<Value>(reader: Reader<Value>, f: Field, cr: string)
    requires AreReturns(cr) && IsClean(reader, f)
    ensures '\n' !in LineOf(f) + cr
  {
  }

  lemma {:induction false} NoNewlineInLines<Value>(reader: Reader<Value>, block: Block, cr: string)
    requires AreReturns(cr) && AreClean(reader, block)
    ensures forall line :: line in LinesOf(block, cr) ==> '\n' !in line
  {
    if block != [] {
      NoNewlineInLines(reader, block[..|block| - 1], cr);
      NoNewlineInLine(reader, block[|block| - 1], cr);
    }
  }

  lemma {:induction false} ReadsWithLines(lines: seq<string>, rest: string)
    requires forall line :: line in lines ==> '\n' !in line
    ensures Lines(WithLines(lines, rest)) == lines + Lines(rest)
    decreases |lines|
  {
    if lines == [] {
      assert lines + Lines(rest) == Lines(rest);
    } else {
      ReadsWithLines(lines[1..], rest);
      ReadsWithLine(lines[0], WithLines(lines[1..], rest));
      assert lines == [lines[0]] + lines[1..];
      Associates([lines[0]], lines[1..], Lines(rest));
    }
  }

  /** The lines of a block, and what comes after. */
  lemma {:induction false} ReadsBlock<Value>(
      reader: Reader<Value>, block: Block, progress: seq<Value>, cr: string, rest: string)
    requires AreReturns(cr) && AreClean(reader, block)
    ensures TakeLines(reader, Reading("", "", progress), Lines(WithLines(LinesOf(block, cr), rest)))
      == TakeLines(reader, Reading(NameIn(block), DataIn(block), progress), Lines(rest))
  {
    NoNewlineInLines(reader, block, cr);
    ReadsWithLines(LinesOf(block, cr), rest);
    TakeLinesOfAppend(reader, Reading("", "", progress), LinesOf(block, cr), Lines(rest));
    ReadsFields(reader, block, progress, cr);
  }

  /** A blank line dispatches what has been read. */
  lemma {:induction false} ReadsBlank<Value>(reader: Reader<Value>, s: Stream<Value>, cr: string, rest: string)
    requires s.Reading? && AreReturns(cr)
    ensures TakeLines(reader, s, Lines(WithLine(cr, rest)))
      == TakeLines(reader, Dispatch(reader, s.eventType, s.eventData, s.progress), Lines(rest))
  {
    TrimsReturns("", cr);
    assert "" + cr == cr;
    ReadsLine(reader, s, cr, rest);
  }

  lemma {:induction false} NoLineIn(partial: string)
    requires '\n' !in partial
    ensures Lines(partial) == []
  {
    assert FindNewline(partial) == |partial|;
  }

  /** A whole block means what dispatching its name and data does. */
  lemma {:induction false} MeansDispatch<Value>(
      reader: Reader<Value>, blocks: seq<Block>, last: Block, error: Option<string>, progress: seq<Value>)
    requires blocks != []
    ensures var next := Dispatch(reader, NameIn(blocks[0]), DataIn(blocks[0]), progress);
      && (next.Returned? ==> Meaning(reader, blocks, last, error, progress) == next)
      && (next.Reading? ==> next == Reading("", "", next.progress))
      && (next.Reading? ==>
            Meaning(reader, blocks, last, error, progress) == Meaning(reader, blocks[1..], last, error, next.progress))
  {
  }

  /** What comes after the last blank line counts at the end of the stream only. */
  lemma {:induction false} MeansFinish<Value>(
      reader: Reader<Value>, last: Block, error: Option<string>, progress: seq<Value>)
    ensures Finish(reader, Reading(NameIn(last), DataIn(last), progress), error)
      == Meaning(reader, [], last, error, progress)
  {
  }

  lemma {:induction false} ReadsBack<Value>(
      reader: Reader<Value>, blocks: seq<Block>, last: Block, partial: string, cr: string, error: Option<string>,
      progress: seq<Value>)
    requires AreReturns(cr) && AreClean(reader, last) && '\n' !in partial
    requires forall k :: 0 <= k < |blocks| ==> AreClean(reader, blocks[k])
    ensures
      Finish(reader, TakeLines(reader, Reading("", "", progress), Lines(Encode(blocks, last, partial, cr))), error)
      == Meaning(reader, blocks, last, error, progress)
    decreases |blocks|
  {
    if blocks == [] {
      ReadsBlock(reader, last, progress, cr, partial);
      NoLineIn(partial);
      MeansFinish(reader, last, error, progress);
    } else {
      ReadsBlockBack(reader, blocks, last, partial, cr, progress);
      MeansDispatch(reader, blocks, last, error, progress);
      var next := Dispatch(reader, NameIn(blocks[0]), DataIn(blocks[0]), progress);
      if next.Reading? { ReadsBack(reader, blocks[1..], last, partial, cr, error, next.progress); }
    }
  }

  lemma {:induction false} ReadsBlockBack<Value>(
      reader: Reader<Value>, blocks: seq<Block>, last: Block, partial: string, cr: string, progress: seq<Value>)
    requires blocks != [] && AreReturns(cr) && AreClean(reader, blocks[0])
    ensures TakeLines(reader, Reading("", "", progress), Lines(Encode(blocks, last, partial, cr)))
      == TakeLines(reader, Dispatch(reader, NameIn(blocks[0]), DataIn(blocks[0]), progress),
           Lines(Encode(blocks[1..], last, partial, cr)))
  {
    var block, rest := blocks[0], Encode(blocks[1..], last, partial, cr);
    ReadsBlock(reader, block, progress, cr, WithLine(cr, rest));
    ReadsBlank(reader, Reading(NameIn(block), DataIn(block), progress), cr, rest);
  }

  /**
   * Reading back what the server wrote, heartbeats included, gives what it
   * means: also when the connection fails, or ends before the last blank line.
   */
  lemma {:induction false} ServerStreamsReadBack<Value>(
      reader: Reader<Value>, blocks: seq<Block>, last: Block, partial: string, cr: string, error: Option<string>)
    requires AreReturns(cr) && AreClean(reader, last) && '\n' !in partial
    requires forall k :: 0 <= k < |blocks| ==> AreClean(reader, blocks[k])
    ensures WholeStream(reader, Encode(blocks, last, partial, cr), error) == Meaning(reader, blocks, last, error, [])
  {
    ReadsBack(reader, blocks, last, partial, cr, error, []);
  }

  /** Two ways of cutting the same text cannot be told apart. */
  method ReadTwice<Value(!new)>(reader: Reader<Value>, a: seq<string>, b: seq<string>, error: Option<string>)
    returns (first: Stream<Value>, second: Stream<Value>)
    requires Concat(a) == Concat(b)
    ensures first == second == WholeStream(reader, Concat(a), error)
  {
    var left := new StreamReader(reader);
    var one := left.Execute(a, error);
    var right := new StreamReader(reader);
    var two := right.Execute(b, error);
    first, second := Returned(left.progress, one), Returned(right.progress, two);
  }
}
