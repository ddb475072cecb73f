/**
 * Server-sent events: the frames writeSSEEvent writes (internal/proxy/stream.go:171-179)
 * and how section 9.2.6 of the WHATWG HTML Living Standard reads them.
 */
module EventStream {

  datatype Event = Event(name: string, data: string)

  const LF: char := '\n'
  const CR: char := '\r'

  predicate OneLine(s: string) {
    LF !in s && CR !in s
  }

  /** fmt.Fprintf(writer, "event: %s\ndata: %s\n\n", event, data) */
  function Frame(e: Event): string {
    "event: " + e.name + [LF] + "data: " + e.data + [LF] + [LF]
  }

  function Frames(events: seq<Event>): string {
    if events == [] then "" else Frame(events[0]) + Frames(events[1..])
  }

  // -------------------------------------------- section 9.2.6, interpretation

  /** The event type and data buffers. */
  datatype Buffers = Buffers(name: string, data: string)

  const EMPTY := Buffers("", "")

  /** The end of the first line of s, |s| if it is not terminated. */
  function LineEnd(s: string): (n: nat)
    ensures n <= |s|
    ensures n < |s| ==> s[n] == LF || s[n] == CR
  {
    if s == [] || s[0] == LF || s[0] == CR then 0 else 1 + LineEnd(s[1..])
  }

  /** What follows the line end at n: LF, CR, or the pair CR LF. */
  function AfterLine(s: string, n: nat): (rest: string)
    requires n < |s|
    ensures |rest| < |s|
  {
    if s[n] == CR && n + 1 < |s| && s[n + 1] == LF then s[n + 2..] else s[n + 1..]
  }

  function Colon(line: string): (n: nat)
    ensures n <= |line|
    ensures n < |line| ==> line[n] == ':'
  {
    if line == [] || line[0] == ':' then 0 else 1 + Colon(line[1..])
  }

  /** Process one field; the id and retry fields do not affect name or data. */
  function Field(name: string, value: string, b: Buffers): Buffers {
    if name == "event" then b.(name := value)
    else if name == "data" then b.(data := b.data + value + [LF])
    else b
  }

  /** Process one non-empty line: a comment, a field with a value, or a bare field. */
  function Line(line: string, b: Buffers): Buffers
    requires line != []
  {
    var c := Colon(line);
    if c == 0 then b
    else if c < |line| then
      var value := line[c + 1..];
      Field(line[..c], if value != [] && value[0] == ' ' then value[1..] else value, b)
    else Field(line, "", b)
  }

  /** Dispatch the event, unless there is no data. */
  function Dispatch(b: Buffers): seq<Event> {
    if b.data == "" then []
    else
      var data := if b.data[|b.data| - 1] == LF then b.data[..|b.data| - 1] else b.data;
      [Event(if b.name == "" then "message" else b.name, data)]
  }

  /** The events of a stream; an unfinished last event is discarded. */
  function Interpret(s: string, b: Buffers): seq<Event>
    decreases |s|
  {
    var n := LineEnd(s);
    if n == |s| then []
    else if n == 0 then Dispatch(b) + Interpret(AfterLine(s, 0), EMPTY)
    else Interpret(AfterLine(s, n), Line(s[..n], b))
  }

  /** A whole stream: one leading byte order mark is ignored. */
  function Parse(s: string): seq<Event> {
    Interpret(if s != [] && s[0] == '\U{FEFF}' then s[1..] else s, EMPTY)
  }

  // ------------------------------------------------------------- round trip

  lemma {:induction false} LineEndAt(line: string, rest: string)
    requires OneLine(line)
    ensures LineEnd(line + [LF] + rest) == |line|
  {
    var s := line + [LF] + rest;
    if line != [] {
      assert line[0] in line;
      assert s[1..] == line[1..] + [LF] + rest;
      LineEndAt(line[1..], rest);
    }
  }

  lemma ReadLine(line: string, rest: string, b: Buffers)
    requires OneLine(line)
    ensures Interpret(line + [LF] + rest, b) ==
      if line == [] then Dispatch(b) + Interpret(rest, EMPTY) else Interpret(rest, Line(line, b))
  {
    var s := line + [LF] + rest;
    LineEndAt(line, rest);
    assert s[..|line|] == line;
    assert s[|line| + 1..] == rest;
    assert s[|line|] == LF;
  }

  lemma FieldLine(field: string, value: string, b: Buffers)
    requires field in {"event", "data"}
    ensures Line(field + ": " + value, b) == Field(field, value, b)
  {
    var line := field + ": " + value;
    ColonAt(field, " " + value);
    assert line == field + [':'] + (" " + value);
    assert line[..|field|] == field;
    assert line[|field| + 1..] == " " + value;
    assert (" " + value)[1..] == value;
  }

  lemma {:induction false} ColonAt(field: string, rest: string)
    requires ':' !in field
    ensures Colon(field + [':'] + rest) == |field|
  {
    var s := field + [':'] + rest;
    if field != [] {
      assert field[0] in field;
      assert s[1..] == field[1..] + [':'] + rest;
      ColonAt(field[1..], rest);
    }
  }

  /** What the standard makes of one event: an unnamed event is a "message". */
  function Named(e: Event): Event {
    if e.name == "" then Event("message", e.data) else e
  }

  lemma ReadField(field: string, value: string, rest: string, b: Buffers)
    requires field in {"event", "data"} && OneLine(value)
    ensures Interpret(field + ": " + value + [LF] + rest, b) == Interpret(rest, Field(field, value, b))
  {
    var line := field + ": " + value;
    assert OneLine(field);
    ReadLine(line, rest, b);
    FieldLine(field, value, b);
  }

  lemma ReadBlank(rest: string, b: Buffers)
    ensures Interpret([LF] + rest, b) == Dispatch(b) + Interpret(rest, EMPTY)
  {
    ReadLine([], rest, b);
    assert [] + [LF] + rest == [LF] + rest;
  }

  lemma FrameShape(e: Event, rest: string)
    ensures Frame(e) + rest == "event" + ": " + e.name + [LF] + ("data" + ": " + e.data + [LF] + ([LF] + rest))
  {}

  lemma DispatchNamed(name: string, data: string)
    ensures Dispatch(Buffers(name, data + [LF])) == [Named(Event(name, data))]
  {
    assert (data + [LF])[..|data|] == data;
  }

  lemma ReadFrame(e: Event, rest: string)
    requires OneLine(e.name) && OneLine(e.data)
    ensures Interpret(Frame(e) + rest, EMPTY) == [Named(e)] + Interpret(rest, EMPTY)
  {
    FrameShape(e, rest);
    ReadField("event", e.name, "data" + ": " + e.data + [LF] + ([LF] + rest), EMPTY);
    ReadField("data", e.data, [LF] + rest, Buffers(e.name, ""));
    assert "" + e.data + [LF] == e.data + [LF];
    ReadBlank(rest, Buffers(e.name, e.data + [LF]));
    DispatchNamed(e.name, e.data);
  }

  lemma {:induction false} InterpretFrames(events: seq<Event>)
    requires forall e :: e in events ==> OneLine(e.name) && OneLine(e.data)
    ensures Interpret(Frames(events), EMPTY) == seq(|events|, i requires 0 <= i < |events| => Named(events[i]))
  {
    if events != [] {
      InterpretFrames(events[1..]);
      ReadFrame(events[0], Frames(events[1..]));
    }
  }

  /**
   * The framing round trip: whatever named, line-break-free events are written, a client
   * that follows the standard reads back exactly that sequence of (name, data) pairs.
   */
  lemma FramesParseBack(events: seq<Event>)
    requires forall e :: e in events ==> e.name != "" && OneLine(e.name) && OneLine(e.data)
    ensures Parse(Frames(events)) == events
  {
    InterpretFrames(events);
    if events != [] {
      assert Frames(events)[0] == 'e';
    }
  }
}
