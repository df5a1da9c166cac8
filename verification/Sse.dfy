/**
  Server-sent event frames (src/langgraph_api/sse.py), read back by the parser of sections
  9.2.5 and 9.2.6 of the WHATWG HTML Living Standard.  Text stands for UTF-8 bytes.
 */
module Sse {
  import opened Wrappers
  import KeyedLists

  const CR := '\r'
  const LF := '\n'
  const NUL := '\0'

  predicate IsBreak(c: char)
  {
    c == CR || c == LF
  }

  predicate OneLine(s: string)
  {
    forall i | 0 <= i < |s| :: !IsBreak(s[i])
  }

  // ---------------------------------------------------------------- the sender

  /** `_sanitize_sse_field` */
  function Sanitize(s: string): (r: string)
    ensures OneLine(r) && (OneLine(s) ==> r == s)
  {
    if s == "" then "" else (if IsBreak(s[0]) then "" else [s[0]]) + Sanitize(s[1..])
  }

  /** Of every field exactly the line breaks go; the other characters stay in their order. */
  lemma {:induction false} SanitizeDropsBreaks(s: string)
    ensures Sanitize(s) == KeyedLists.Where(s, (c: char) => c != '\r' && c != '\n')
  {
    if s != "" { SanitizeDropsBreaks(s[1..]); }
  }

  const SEP := [CR, LF]

  /** `json_to_sse` */
  function JsonToSse(event: string, data: string, id: Option<string>): string
  {
    "event: " + Sanitize(event) + SEP
    + ("data: " + data + SEP)
    + (if id.Some? then "id: " + Sanitize(id.value) + SEP else "")
    + SEP
  }

  const HEARTBEAT := ": heartbeat" + SEP + SEP

  /** What the server writes to the stream. */
  datatype Chunk = Frame(event: string, data: string, id: Option<string>) | Heartbeat

  function Text(c: Chunk): string
  {
    match c
    case Frame(event, data, id) => JsonToSse(event, data, id)
    case Heartbeat => HEARTBEAT
  }

  function Written(chunks: seq<Chunk>): string
  {
    if chunks == [] then "" else Text(chunks[0]) + Written(chunks[1..])
  }

  // ---------------------------------------------------------------- the standard's parser

  function FirstBreak(s: string): (k: nat)
    ensures k <= |s| && OneLine(s[..k]) && (k < |s| ==> IsBreak(s[k]))
  {
    if s == "" || IsBreak(s[0]) then 0
    else
      var k := 1 + FirstBreak(s[1..]);
      assert forall i | 1 <= i < k :: s[i] == s[1..][i - 1];
      k
  }

  /** Section 9.2.5: lines end with CR LF, LF or CR; an unfinished last line is dropped. */
  function Lines(s: string): seq<string>
    decreases |s|
  {
    var k := FirstBreak(s);
    if k == |s| then []
    else if s[k] == CR && k + 1 < |s| && s[k + 1] == LF then [s[..k]] + Lines(s[k + 2..])
    else [s[..k]] + Lines(s[k + 1..])
  }

  datatype Received = Received(kind: string, data: string, lastId: string)

  /** The event type buffer, the data buffer, the last event id buffer, and the events dispatched. */
  datatype Parser = Parser(kind: string, data: string, lastId: string, out: seq<Received>)

  function FirstColon(s: string): (k: nat)
    ensures k <= |s| && (k < |s| ==> s[k] == ':')
  {
    if s == "" || s[0] == ':' then 0 else 1 + FirstColon(s[1..])
  }

  /** The end of an event. */
  function Dispatch(p: Parser): Parser
  {
    if p.data == "" then p.(kind := "")
    else
      var data := if p.data[|p.data| - 1] == LF then p.data[..|p.data| - 1] else p.data;
      Parser("", "", p.lastId, p.out + [Received(if p.kind == "" then "message" else p.kind, data, p.lastId)])
  }

  function Field(p: Parser, name: string, value: string): Parser
  {
    if name == "event" then p.(kind := value)
    else if name == "data" then p.(data := p.data + value + [LF])
    else if name == "id" then (if NUL in value then p else p.(lastId := value))
    else p   // "retry" only sets a reconnection time
  }

  /** Section 9.2.6, one line. */
  function Interpret(p: Parser, line: string): Parser
  {
    if line == "" then Dispatch(p)
    else if line[0] == ':' then p
    else
      var k := FirstColon(line);
      if k == |line| then Field(p, line, "")
      else
        var value := line[k + 1..];
        Field(p, line[..k], if value != "" && value[0] == ' ' then value[1..] else value)
  }

  function Run(p: Parser, lines: seq<string>): Parser
    decreases |lines|
  {
    if lines == [] then p else Run(Interpret(p, lines[0]), lines[1..])
  }

  function Parse(p: Parser, text: string): Parser
  {
    Run(p, Lines(text))
  }

  // ---------------------------------------------------------------- what should be received

  /** The id in force after a chunk. */
  function NextId(lastId: string, c: Chunk): string
  {
    if c.Frame? && c.id.Some? && NUL !in Sanitize(c.id.value) then Sanitize(c.id.value) else lastId
  }

  /** The event of a chunk, received with the id in force. */
  function EventOf(c: Chunk, lastId: string): seq<Received>
  {
    match c
    case Heartbeat => []
    case Frame(event, data, _) => [Received(if Sanitize(event) == "" then "message" else Sanitize(event), data, lastId)]
  }

  function Expected(lastId: string, chunks: seq<Chunk>): seq<Received>
    decreases |chunks|
  {
    if chunks == [] then []
    else EventOf(chunks[0], NextId(lastId, chunks[0])) + Expected(NextId(lastId, chunks[0]), chunks[1..])
  }

  // ---------------------------------------------------------------- lines

  lemma {:induction false} FirstBreakAt(line: string, rest: string)
    requires OneLine(line) && rest != "" && IsBreak(rest[0])
    ensures FirstBreak(line + rest) == |line|
  {
    if line == "" {
      assert line + rest == rest;
    } else {
      assert (line + rest)[1..] == line[1..] + rest;
      FirstBreakAt(line[1..], rest);
    }
  }

  /** A line end: CR LF, LF, or CR not followed by LF. */
  predicate IsEnd(end: string, rest: string)
  {
    end == SEP || end == [LF] || (end == [CR] && (rest == "" || rest[0] != LF))
  }

  /** The first line of a text is read first. */
  lemma LinesAt(line: string, end: string, rest: string)
    requires OneLine(line) && IsEnd(end, rest)
    ensures Lines(line + end + rest) == [line] + Lines(rest)
  {
    var s, k := line + end + rest, |line|;
    assert s == line + (end + rest);
    FirstBreakAt(line, end + rest);
    assert s[..k] == line && s[k] == end[0] && s[k + |end|..] == rest;
    assert k + 1 < |s| ==> s[k + 1] == if |end| == 2 then end[1] else rest[0];
  }

  lemma LinesCons(line: string, rest: string)
    requires OneLine(line)
    ensures Lines(line + SEP + rest) == [line] + Lines(rest)
  {
    LinesAt(line, SEP, rest);
  }

  /** Text with a line break is a first line, its end, and the rest. */
  lemma SplitFirst(s: string) returns (line: string, end: string, rest: string)
    requires !OneLine(s)
    ensures s == line + end + rest && OneLine(line) && IsEnd(end, rest)
  {
    var k := FirstBreak(s);
    assert s[..|s|] == s;
    line := s[..k];
    end := if s[k] == CR && k + 1 < |s| && s[k + 1] == LF then SEP else [s[k]];
    rest := s[k + |end|..];
  }

  lemma RunCons(p: Parser, line: string, lines: seq<string>)
    ensures Run(p, [line] + lines) == Run(Interpret(p, line), lines)
  {
    assert ([line] + lines)[1..] == lines;
  }

  lemma ParseLine(p: Parser, line: string, rest: string)
    requires OneLine(line)
    ensures Parse(p, line + SEP + rest) == Parse(Interpret(p, line), rest)
  {
    LinesCons(line, rest);
    RunCons(p, line, Lines(rest));
  }

  lemma {:induction false} ColonAt(name: string, value: string)
    requires ':' !in name
    ensures FirstColon(name + ":" + value) == |name|
  {
    var s := name + ":" + value;
    if name != "" {
      assert s[1..] == name[1..] + ":" + value;
      ColonAt(name[1..], value);
    }
  }

  /** A "name: value" line sets that field. */
  lemma FieldLine(p: Parser, name: string, value: string)
    requires name != "" && ':' !in name
    ensures Interpret(p, name + ": " + value) == Field(p, name, value)
  {
    var line := name + ": " + value;
    assert line == name + ":" + (" " + value);
    ColonAt(name, " " + value);
    assert line[0] == name[0];
    assert line[..|name|] == name && line[|name| + 1..] == " " + value;
    assert (" " + value)[1..] == value;
  }

  // ---------------------------------------------------------------- one frame

  /** Between frames the event type and data buffers are empty. */
  predicate Idle(p: Parser)
  {
    p.kind == "" && p.data == ""
  }

  lemma HeadOfFrame(p: Parser, event: string, rest: string)
    ensures Parse(p, "event: " + Sanitize(event) + SEP + rest) == Parse(p.(kind := Sanitize(event)), rest)
  {
    var line := "event: " + Sanitize(event);
    assert line == "event" + ": " + Sanitize(event);
    FieldLine(p, "event", Sanitize(event));
    assert OneLine(line);
    ParseLine(p, line, rest);
  }

  lemma DataOfFrame(p: Parser, data: string, rest: string)
    requires OneLine(data)
    ensures Parse(p, "data: " + data + SEP + rest) == Parse(p.(data := p.data + data + [LF]), rest)
  {
    var line := "data: " + data;
    assert line == "data" + ": " + data;
    FieldLine(p, "data", data);
    ParseLine(p, line, rest);
  }

  lemma IdOfFrame(p: Parser, id: string, rest: string)
    ensures Parse(p, "id: " + Sanitize(id) + SEP + rest) ==
            Parse(if NUL in Sanitize(id) then p else p.(lastId := Sanitize(id)), rest)
  {
    var line := "id: " + Sanitize(id);
    assert line == "id" + ": " + Sanitize(id);
    FieldLine(p, "id", Sanitize(id));
    assert OneLine(line);
    ParseLine(p, line, rest);
  }

  lemma EndOfFrame(p: Parser, rest: string)
    ensures Parse(p, SEP + rest) == Parse(Dispatch(p), rest)
  {
    assert SEP + rest == "" + SEP + rest;
    ParseLine(p, "", rest);
  }

  lemma FrameShape(event: string, data: string, id: Option<string>, rest: string)
    ensures var tail := (if id.Some? then "id: " + Sanitize(id.value) + SEP + (SEP + rest) else SEP + rest);
            JsonToSse(event, data, id) + rest == "event: " + Sanitize(event) + SEP + ("data: " + data + SEP + tail)
  {
    var head := "event: " + Sanitize(event) + SEP;
    var body := "data: " + data + SEP;
    if id.Some? {
      var mid := "id: " + Sanitize(id.value) + SEP;
      assert head + body + mid + SEP + rest == head + (body + (mid + (SEP + rest)));
    } else {
      assert head + body + "" + SEP + rest == head + (body + (SEP + rest));
    }
  }

  function AfterChunk(p: Parser, c: Chunk): Parser
  {
    Parser("", "", NextId(p.lastId, c), p.out + EventOf(c, NextId(p.lastId, c)))
  }

  lemma ParseFrame(p: Parser, event: string, data: string, id: Option<string>, rest: string)
    requires Idle(p) && OneLine(data)
    ensures Parse(p, JsonToSse(event, data, id) + rest) == Parse(AfterChunk(p, Frame(event, data, id)), rest)
  {
    FrameShape(event, data, id, rest);
    var tail := if id.Some? then "id: " + Sanitize(id.value) + SEP + (SEP + rest) else SEP + rest;
    HeadOfFrame(p, event, "data: " + data + SEP + tail);
    var p1 := p.(kind := Sanitize(event));
    DataOfFrame(p1, data, tail);
    var p2 := p1.(data := data + [LF]);
    assert p1.data + data + [LF] == data + [LF];
    var p3 := p2.(lastId := NextId(p.lastId, Frame(event, data, id)));
    if id.Some? { IdOfFrame(p2, id.value, SEP + rest); }
    EndOfFrame(p3, rest);
    assert (data + [LF])[..|data|] == data;
  }

  lemma ParseChunk(p: Parser, c: Chunk, rest: string)
    requires Idle(p) && (c.Frame? ==> OneLine(c.data))
    ensures Parse(p, Text(c) + rest) == Parse(AfterChunk(p, c), rest)
  {
    match c
    case Frame(event, data, id) => ParseFrame(p, event, data, id, rest);
    case Heartbeat =>
      assert HEARTBEAT + rest == ": heartbeat" + SEP + (SEP + rest);
      ParseLine(p, ": heartbeat", SEP + rest);
      EndOfFrame(p, rest);
      assert AfterChunk(p, c) == p;
  }

  function AfterChunks(p: Parser, chunks: seq<Chunk>): Parser
    decreases |chunks|
  {
    if chunks == [] then p else AfterChunks(AfterChunk(p, chunks[0]), chunks[1..])
  }

  lemma {:induction false} ParseChunks(chunks: seq<Chunk>, p: Parser)
    requires Idle(p) && forall c | c in chunks && c.Frame? :: OneLine(c.data)
    ensures Parse(p, Written(chunks)) == AfterChunks(p, chunks)
    decreases |chunks|
  {
    if chunks == [] {
      assert Lines("") == [];
    } else {
      assert chunks[0] in chunks;
      ParseChunk(p, chunks[0], Written(chunks[1..]));
      ParseChunks(chunks[1..], AfterChunk(p, chunks[0]));
    }
  }

  lemma Associative<T>(a: seq<T>, b: seq<T>, c: seq<T>)
    ensures a + (b + c) == (a + b) + c
  {
  }

  lemma {:induction false} ChunksExpected(chunks: seq<Chunk>, p: Parser)
    ensures AfterChunks(p, chunks).out == p.out + Expected(p.lastId, chunks)
    decreases |chunks|
  {
    if chunks != [] {
      var p', events := AfterChunk(p, chunks[0]), EventOf(chunks[0], NextId(p.lastId, chunks[0]));
      ChunksExpected(chunks[1..], p');
      Associative(p.out, events, Expected(p'.lastId, chunks[1..]));
    }
  }

  /**
    Any mix of frames and heartbeats reads back as the frames' events: sanitized name,
    unchanged data, latest id.
   */
  lemma FramesReadBack(chunks: seq<Chunk>, p: Parser)
    requires Idle(p) && forall c | c in chunks && c.Frame? :: OneLine(c.data)
    ensures Parse(p, Written(chunks)).out == p.out + Expected(p.lastId, chunks)
  {
    ParseChunks(chunks, p);
    ChunksExpected(chunks, p);
  }

  const Fresh := Parser("", "", "", [])

  function WithoutHeartbeats(chunks: seq<Chunk>): seq<Chunk>
  {
    if chunks == [] then []
    else (if chunks[0].Heartbeat? then [] else [chunks[0]]) + WithoutHeartbeats(chunks[1..])
  }

  /** Heartbeats between frames change nothing. */
  lemma HeartbeatsChangeNothing(chunks: seq<Chunk>)
    requires forall c | c in chunks && c.Frame? :: OneLine(c.data)
    ensures Parse(Fresh, Written(chunks)).out == Parse(Fresh, Written(WithoutHeartbeats(chunks))).out
  {
    FramesReadBack(chunks, Fresh);
    FramesKept(chunks, "");
    FramesReadBack(WithoutHeartbeats(chunks), Fresh);
  }

  lemma {:induction false} FramesKept(chunks: seq<Chunk>, lastId: string)
    ensures Expected(lastId, WithoutHeartbeats(chunks)) == Expected(lastId, chunks)
    ensures forall c | c in WithoutHeartbeats(chunks) :: c in chunks
  {
    if chunks != [] {
      FramesKept(chunks[1..], NextId(lastId, chunks[0]));
      var kept := WithoutHeartbeats(chunks);
      if chunks[0].Frame? {
        assert kept[1..] == WithoutHeartbeats(chunks[1..]);
      } else {
        assert kept == WithoutHeartbeats(chunks[1..]);
      }
    }
  }

  // ---------------------------------------------------------------- data with line breaks

  function Total(lines: seq<string>): nat
  {
    if lines == [] then 0 else |lines[0]| + Total(lines[1..])
  }

  /** One line adds less to the data buffer than its own length. */
  lemma InterpretGrowth(p: Parser, line: string)
    ensures |Interpret(p, line).data| <= |p.data| + |line|
    ensures |Interpret(p, line).out| <= |p.out| + 1 && p.out <= Interpret(p, line).out
    ensures |Interpret(p, line).out| > |p.out| ==> |Interpret(p, line).out[|p.out|].data| <= |p.data|
    ensures |Interpret(p, line).out| > |p.out| && OneLineEnds(p.data) ==>
              |Interpret(p, line).out[|p.out|].data| < |p.data|
    ensures OneLineEnds(p.data) ==> OneLineEnds(Interpret(p, line).data)
  {
  }

  /** The data buffer is empty or ends with LF. */
  predicate OneLineEnds(data: string)
  {
    data == "" || data[|data| - 1] == LF
  }

  /** Every event dispatched from the lines is shorter than the data buffer plus all the lines. */
  lemma {:induction false} RunGrowth(p: Parser, lines: seq<string>, bound: nat)
    requires OneLineEnds(p.data) && |p.data| + Total(lines) <= bound
    ensures p.out <= Run(p, lines).out
    ensures forall k | |p.out| <= k < |Run(p, lines).out| :: |Run(p, lines).out[k].data| < bound
    ensures |Run(p, lines).data| <= bound && OneLineEnds(Run(p, lines).data)
    decreases |lines|
  {
    if lines != [] {
      InterpretGrowth(p, lines[0]);
      RunGrowth(Interpret(p, lines[0]), lines[1..], bound);
    }
  }

  lemma {:induction false} BodyTotal(r: string)
    ensures Total(Lines(r + SEP)) <= |r|
    decreases |r|
  {
    if OneLine(r) {
      assert r + SEP == r + SEP + "";
      LinesCons(r, "");
      assert Lines("") == [];
      TotalCons(r, []);
    } else {
      var line, end, rest := SplitFirst(r);
      assert r + SEP == line + end + (rest + SEP);
      LinesAt(line, end, rest + SEP);
      BodyTotal(rest);
      TotalCons(line, Lines(rest + SEP));
    }
  }

  lemma TotalCons(line: string, lines: seq<string>)
    ensures Total([line] + lines) == |line| + Total(lines)
  {
    assert ([line] + lines)[1..] == lines;
  }

  lemma LinesStep(line: string, end: string, more: string, rest: string)
    requires OneLine(line) && IsEnd(end, more)
    ensures Lines(line + end + more + SEP + rest) == [line] + Lines(more + SEP + rest)
  {
    assert line + end + more + SEP + rest == line + end + (more + SEP + rest);
    LinesAt(line, end, more + SEP + rest);
  }

  lemma LinesAppendLine(r: string, rest: string)
    requires OneLine(r)
    ensures Lines(r + SEP + rest) == Lines(r + SEP + "") + Lines(rest)
  {
    LinesCons(r, rest);
    LinesCons(r, "");
    assert Lines("") == [];
  }

  lemma LinesAppendStep(line: string, end: string, more: string, rest: string)
    requires OneLine(line) && IsEnd(end, more)
    requires Lines(more + SEP + rest) == Lines(more + SEP + "") + Lines(rest)
    ensures Lines(line + end + more + SEP + rest) == Lines(line + end + more + SEP + "") + Lines(rest)
  {
    var whole, tail := Lines(more + SEP + ""), Lines(rest);
    calc {
      Lines(line + end + more + SEP + rest);
      { LinesStep(line, end, more, rest); }
      [line] + (whole + tail);
      ([line] + whole) + tail;
      { LinesStep(line, end, more, ""); }
      Lines(line + end + more + SEP + "") + tail;
    }
  }

  /** Text that ends with CR LF splits off whole lines. */
  lemma {:induction false} LinesAppend(r: string, rest: string)
    ensures Lines(r + SEP + rest) == Lines(r + SEP + "") + Lines(rest)
    decreases |r|
  {
    if OneLine(r) {
      LinesAppendLine(r, rest);
    } else {
      var line, end, more := SplitFirst(r);
      LinesAppend(more, rest);
      LinesAppendStep(line, end, more, rest);
    }
  }

  lemma {:induction false} RunAppend(p: Parser, a: seq<string>, b: seq<string>)
    ensures Run(p, a + b) == Run(Run(p, a), b)
    decreases |a|
  {
    if a == [] {
      assert a + b == b;
    } else {
      assert (a + b)[1..] == a[1..] + b;
      RunAppend(Interpret(p, a[0]), a[1..], b);
    }
  }

  /** The text of a frame after its data. */
  function FrameTail(id: Option<string>): string
  {
    (if id.Some? then "id: " + Sanitize(id.value) + SEP else "") + SEP
  }

  /** The id line and the end of the frame dispatch what the data buffer holds. */
  lemma TailDispatches(p: Parser, id: Option<string>)
    ensures Parse(p, FrameTail(id)).out ==
            Dispatch(if id.Some? && NUL !in Sanitize(id.value) then p.(lastId := Sanitize(id.value)) else p).out
  {
    var p' := if id.Some? && NUL !in Sanitize(id.value) then p.(lastId := Sanitize(id.value)) else p;
    assert SEP + "" == SEP;
    if id.Some? { IdOfFrame(p, id.value, SEP); }
    EndOfFrame(p', "");
    assert Lines("") == [];
  }

  /** With a line break in the data, no event of the frame carries that data. */
  lemma BrokenDataIsLost(event: string, data: string, id: Option<string>)
    requires !OneLine(data)
    ensures forall e | e in Parse(Fresh, JsonToSse(event, data, id)).out :: |e.data| < |data|
  {
    FrameShape(event, data, id, "");
    assert JsonToSse(event, data, id) + "" == JsonToSse(event, data, id);
    var tail := if id.Some? then "id: " + Sanitize(id.value) + SEP + (SEP + "") else SEP + "";
    assert tail == FrameTail(id);
    HeadOfFrame(Fresh, event, "data: " + data + SEP + tail);
    var line, end, rest := SplitFirst(data);
    var p1 := Fresh.(kind := Sanitize(event));
    FirstDataLine(p1, line, end, rest, tail);
    var p2 := p1.(data := line + [LF]);
    LinesAppend(rest, tail);
    assert rest + SEP + "" == rest + SEP;
    RunAppend(p2, Lines(rest + SEP), Lines(tail));
    BodyTotal(rest);
    RunGrowth(p2, Lines(rest + SEP), |line| + 1 + |rest|);
    TailDispatches(Run(p2, Lines(rest + SEP)), id);
  }

  lemma Regroup(a: string, b: string, c: string, d: string, e: string, f: string)
    ensures a + (b + c + d) + e + f == (a + b) + c + (d + e + f)
  {
  }

  lemma DataLine(p: Parser, line: string)
    requires OneLine(line)
    ensures OneLine("data: " + line) && Interpret(p, "data: " + line) == p.(data := p.data + line + [LF])
  {
    assert "data: " + line == "data" + ": " + line;
    FieldLine(p, "data", line);
  }

  lemma ParseEnd(p: Parser, line: string, end: string, rest: string)
    requires OneLine(line) && IsEnd(end, rest)
    ensures Parse(p, line + end + rest) == Parse(Interpret(p, line), rest)
  {
    LinesAt(line, end, rest);
    RunCons(p, line, Lines(rest));
  }

  lemma EndStays(end: string, rest: string, tail: string)
    requires IsEnd(end, rest)
    ensures IsEnd(end, rest + SEP + tail)
  {
    assert (rest + SEP + tail)[0] == if rest == "" then CR else rest[0];
  }

  /** The first line of broken data is a data field of its own. */
  lemma FirstDataLine(p: Parser, line: string, end: string, rest: string, tail: string)
    requires OneLine(line) && IsEnd(end, rest) && p.data == ""
    ensures Parse(p, "data: " + (line + end + rest) + SEP + tail) ==
            Parse(p.(data := line + [LF]), rest + SEP + tail)
  {
    Regroup("data: ", line, end, rest, SEP, tail);
    EndStays(end, rest, tail);
    DataLine(p, line);
    ParseEnd(p, "data: " + line, end, rest + SEP + tail);
    assert "" + line + [LF] == line + [LF];
  }

  /** A frame reads back as one event with its data exactly when the data has no line break. */
  lemma FrameReadsBackIff(event: string, data: string, id: Option<string>)
    ensures (exists e | e in Parse(Fresh, JsonToSse(event, data, id)).out :: e.data == data) <==> OneLine(data)
  {
    if OneLine(data) {
      ParseFrame(Fresh, event, data, id, "");
      assert JsonToSse(event, data, id) + "" == JsonToSse(event, data, id);
      assert Lines("") == [];
      assert Parse(Fresh, JsonToSse(event, data, id)).out[0].data == data;
    } else {
      BrokenDataIsLost(event, data, id);
    }
  }
}
