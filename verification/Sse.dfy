/**
 The watch stream's decoder (src/api/client.rs): the payloads of the `data:`
 lines of a byte stream that arrives in chunks. This is the single-line-data
 subset of server-sent events, section 9.2 of the WHATWG HTML standard. UTF-8 is
 a parameter.
 */
module Sse {
  import opened Basics

  type byte = b: int | 0 <= b < 256

  const LF: byte := 10
  const CR: byte := 13

  /** What the connection delivers. */
  datatype Item = Chunk(bytes: seq<byte>) | Fault(error: string)

  /** A line without its newline, or an error passed on. */
  datatype Raw = Line(bytes: seq<byte>) | Broken(error: string)

  datatype Event = Data(payload: string) | Error(error: string)

  // ----------------------------------------------- the meaning, byte by byte

  datatype Signal = Byte(b: byte) | Hiccup(error: string)

  function Signals(bytes: seq<byte>): (r: seq<Signal>)
    ensures |r| == |bytes| && forall i :: 0 <= i < |bytes| ==> r[i] == Byte(bytes[i])
  {
    seq(|bytes|, i requires 0 <= i < |bytes| => Byte(bytes[i]))
  }

  function Flatten(items: seq<Item>): seq<Signal> {
    if items == [] then []
    else (match items[0] case Chunk(bytes) => Signals(bytes) case Fault(e) => [Hiccup(e)]) + Flatten(items[1..])
  }

  /** Lines end at newlines; an error comes between lines and leaves the line it interrupts as it is. */
  function Scan(pending: seq<byte>, signals: seq<Signal>): seq<Raw>
    decreases |signals|
  {
    if signals == [] then []
    else
      match signals[0]
      case Hiccup(e) => [Broken(e)] + Scan(pending, signals[1..])
      case Byte(b) =>
        if b == LF then [Line(pending)] + Scan([], signals[1..]) else Scan(pending + [b], signals[1..])
  }

  lemma {:induction false} ScanWithinLine(pending: seq<byte>, bytes: seq<byte>, rest: seq<Signal>)
    requires LF !in bytes
    ensures Scan(pending, Signals(bytes) + rest) == Scan(pending + bytes, rest)
    decreases |bytes|
  {
    var all := Signals(bytes) + rest;
    if bytes == [] {
      assert all == rest && pending + bytes == pending;
    } else {
      assert all[0] == Byte(bytes[0]) && all[1..] == Signals(bytes[1..]) + rest;
      ScanWithinLine(pending + [bytes[0]], bytes[1..], rest);
      assert pending + [bytes[0]] + bytes[1..] == pending + bytes;
    }
  }

  lemma ScanOfLine(bytes: seq<byte>, rest: seq<Signal>)
    requires LF !in bytes
    ensures Scan([], Signals(bytes + [LF]) + rest) == [Line(bytes)] + Scan([], rest)
  {
    var after := Signals([LF]) + rest;
    assert Signals(bytes + [LF]) + rest == Signals(bytes) + after;
    ScanWithinLine([], bytes, after);
    assert [] + bytes == bytes && after[0] == Byte(LF) && after[1..] == rest;
  }

  lemma LineAtFront(buf: seq<byte>, pos: nat, rest: seq<Signal>)
    requires pos < |buf| && buf[pos] == LF && LF !in buf[..pos]
    ensures Scan([], Signals(buf) + rest) == [Line(buf[..pos])] + Scan([], Signals(buf[pos + 1..]) + rest)
  {
    hide Scan;
    var line, after := buf[..pos], Signals(buf[pos + 1..]) + rest;
    assert buf == line + [LF] + buf[pos + 1..];
    assert Signals(buf) + rest == Signals(line + [LF]) + after;
    ScanOfLine(line, after);
  }

  lemma ChunkJoins(buf: seq<byte>, bytes: seq<byte>, rest: seq<Signal>)
    ensures Signals(buf) + (Signals(bytes) + rest) == Signals(buf + bytes) + rest
  {
  }

  lemma FaultPassesOn(buf: seq<byte>, e: string, rest: seq<Signal>)
    requires LF !in buf
    ensures Scan([], Signals(buf) + ([Hiccup(e)] + rest)) == [Broken(e)] + Scan([], Signals(buf) + rest)
  {
    var after := [Hiccup(e)] + rest;
    ScanWithinLine([], buf, after);
    ScanWithinLine([], buf, rest);
    assert [] + buf == buf && after[0] == Hiccup(e) && after[1..] == rest;
  }

  lemma TailIsNoLine(buf: seq<byte>)
    requires LF !in buf
    ensures Scan([], Signals(buf) + []) == []
  {
    ScanWithinLine([], buf, []);
  }

  predicate IsSpace(c: char) {
    var n := c as int;
    || 9 <= n <= 13 || n == 32 || n == 0x85 || n == 0xA0 || n == 0x1680 || 0x2000 <= n <= 0x200A
    || n == 0x2028 || n == 0x2029 || n == 0x202F || n == 0x205F || n == 0x3000
  }

  function TrimStart(s: string): string {
    if s != "" && IsSpace(s[0]) then TrimStart(s[1..]) else s
  }

  function StripCr(line: seq<byte>): seq<byte> {
    if line != [] && line[|line| - 1] == CR then line[..|line| - 1] else line
  }

  /** The payload of a `data:` line; other lines have none. */
  function PayloadOf(decode: seq<byte> -> string, line: seq<byte>): Option<string> {
    var text := decode(StripCr(line));
    if "data:" <= text then Some(TrimStart(text[5..])) else None
  }

  /** Only white space is cut, and all of it. */
  lemma {:induction false} TrimStartMeans(s: string) returns (k: nat)
    ensures k <= |s| && TrimStart(s) == s[k..] && (forall i :: 0 <= i < k ==> IsSpace(s[i])) && (k < |s| ==> !IsSpace(s[k]))
  {
    k := 0;
    if s != "" && IsSpace(s[0]) {
      var j := TrimStartMeans(s[1..]);
      k := j + 1;
      assert s[1..][j..] == s[k..];
    }
  }

  /**
   A line has a payload exactly when it begins with `data:`: what follows, from
   its first character on that is no white space. A line may end in a carriage
   return, which is not part of it.
   */
  lemma PayloadMeans(decode: seq<byte> -> string, line: seq<byte>, end: seq<byte>) returns (white: string)
    requires (line != [] ==> line[|line| - 1] != CR) && (end == [] || end == [CR])
    ensures PayloadOf(decode, line + end).Some? <==> "data:" <= decode(line)
    ensures var payload := PayloadOf(decode, line + end);
            payload.Some? ==>
              && decode(line) == "data:" + white + payload.value && (forall c <- white :: IsSpace(c))
              && (payload.value != "" ==> !IsSpace(payload.value[0]))
  {
    CrIsNoPart(line, end);
    hide StripCr, TrimStart, IsSpace;
    var text := decode(line);
    white := "";
    if "data:" <= text {
      var after := text[5..];
      var k := TrimStartMeans(after);
      white := after[..k];
      SplitAt(text, after, k);
    }
  }

  lemma CrIsNoPart(line: seq<byte>, end: seq<byte>)
    requires (line != [] ==> line[|line| - 1] != CR) && (end == [] || end == [CR])
    ensures StripCr(line + end) == line
  {
    if end == [] { assert line + end == line; } else { assert (line + end)[..|line|] == line; }
  }

  lemma SplitAt(text: string, after: string, k: nat)
    requires "data:" <= text && after == text[5..] && k <= |after|
    ensures text == "data:" + after[..k] + after[k..]
  {
  }

  function Events(decode: seq<byte> -> string, raw: Raw): seq<Event> {
    match raw
    case Broken(e) => [Error(e)]
    case Line(bytes) =>
      var payload := PayloadOf(decode, bytes);
      if payload.Some? then [Data(payload.value)] else []
  }

  function Kept(decode: seq<byte> -> string, raws: seq<Raw>): seq<Event> {
    if raws == [] then [] else Events(decode, raws[0]) + Kept(decode, raws[1..])
  }

  lemma KeptNone(decode: seq<byte> -> string)
    ensures Kept(decode, []) == []
  {
  }

  lemma KeptOneMore(decode: seq<byte> -> string, out: seq<Event>, raw: Raw, rest: seq<Raw>)
    ensures out + Kept(decode, [raw] + rest) == out + Events(decode, raw) + Kept(decode, rest)
  {
    hide Events;
    assert ([raw] + rest)[1..] == rest;
  }

  // ------------------------------------------------------------- the decoder

  /** The unfolding state of the decoder: what is still to come, the bytes not yet split, and whether the stream ended. */
  class Lines {
    var items: seq<Item>
    var buf: seq<byte>
    var done: bool

    constructor (items: seq<Item>)
      ensures this.items == items && buf == [] && !done
    {
      this.items, buf, done := items, [], false;
    }

    /** The lines and errors still to be delivered. */
    ghost function Left(): seq<Raw>
      reads this
    {
      Scan([], Signals(buf) + if done then [] else Flatten(items))
    }

    method Position() returns (pos: nat)
      ensures pos <= |buf| && (pos < |buf| ==> buf[pos] == LF) && LF !in buf[..pos]
    {
      pos := 0;
      while pos < |buf| && buf[pos] != LF
        invariant pos <= |buf| && LF !in buf[..pos]
      {
        pos := pos + 1;
      }
    }

    /** The next line or error; None at the end, where a line without its newline is dropped. */
    method Next() returns (r: Option<Raw>)
      modifies this
      ensures r.Some? ==> old(Left()) == [r.value] + Left()
      ensures r.None? ==> old(Left()) == [] == Left()
    {
      hide Scan, Signals;
      while true
        invariant Left() == old(Left())
        decreases !done, |items|
      {
        ghost var rest := if done then [] else Flatten(items);
        var pos := Position();
        if pos < |buf| {
          LineAtFront(buf, pos, rest);
          var line := buf[..pos];
          buf := buf[pos + 1..];
          return Some(Line(line));
        }
        assert buf[..pos] == buf;
        if done {
          TailIsNoLine(buf);
          return None;
        }
        if items == [] {
          done := true;
        } else {
          var item := items[0];
          items := items[1..];
          match item
          case Chunk(bytes) =>
            ChunkJoins(buf, bytes, Flatten(items));
            buf := buf + bytes;
          case Fault(e) =>
            FaultPassesOn(buf, e, Flatten(items));
            return Some(Broken(e));
        }
      }
    }
  }

  /** Decode a stream into the payloads of its `data:` lines. */
  method DataLines(decode: seq<byte> -> string, items: seq<Item>) returns (out: seq<Event>)
    ensures out == Kept(decode, Scan([], Flatten(items)))
  {
    hide Scan, Flatten, PayloadOf, Kept;
    var lines := new Lines(items);
    out := [];
    assert Signals([]) + Flatten(items) == Flatten(items);
    KeptNone(decode);
    var more := true;
    while more
      invariant out + Kept(decode, lines.Left()) == Kept(decode, Scan([], Flatten(items)))
      invariant !more ==> lines.Left() == []
      decreases more, |lines.Left()|
    {
      ghost var before := out;
      var raw := lines.Next();
      if raw.Some? { KeptOneMore(decode, before, raw.value, lines.Left()); }
      match raw
      case None => more := false;
      case Some(Broken(e)) => out := out + [Error(e)];
      case Some(Line(bytes)) =>
        var payload := PayloadOf(decode, bytes);
        if payload.Some? { out := out + [Data(payload.value)]; }
    }
  }

  // ------------------------------------------------- the meaning in one shot

  /** The first newline; |bytes| when there is none. */
  function Newline(bytes: seq<byte>): (k: nat)
    ensures k <= |bytes| && (k < |bytes| ==> bytes[k] == LF) && LF !in bytes[..k]
  {
    if bytes == [] || bytes[0] == LF then 0
    else
      var k := Newline(bytes[1..]);
      assert bytes[..k + 1] == [bytes[0]] + bytes[1..][..k];
      k + 1
  }

  /** Split the whole stream at its newlines; what follows the last one is no line. */
  function Split(bytes: seq<byte>): seq<seq<byte>>
    decreases |bytes|
  {
    var k := Newline(bytes);
    if k == |bytes| then [] else [bytes[..k]] + Split(bytes[k + 1..])
  }

  function Tail(bytes: seq<byte>): seq<byte>
    decreases |bytes|
  {
    var k := Newline(bytes);
    if k == |bytes| then bytes else Tail(bytes[k + 1..])
  }

  function Ended(lines: seq<seq<byte>>): seq<byte> {
    if lines == [] then [] else lines[0] + [LF] + Ended(lines[1..])
  }

  lemma SplitAtFirst(bytes: seq<byte>)
    requires Newline(bytes) < |bytes|
    ensures var k := Newline(bytes); var rest := bytes[k + 1..];
            && bytes == bytes[..k] + [LF] + rest && LF !in bytes[..k]
            && Split(bytes) == [bytes[..k]] + Split(rest) && Tail(bytes) == Tail(rest)
            && Ended(Split(bytes)) == bytes[..k] + [LF] + Ended(Split(rest))
  {
    var k := Newline(bytes);
    var lines := [bytes[..k]] + Split(bytes[k + 1..]);
    assert lines[0] == bytes[..k] && lines[1..] == Split(bytes[k + 1..]);
  }

  /** Splitting loses nothing: only the tail belongs to no line. */
  lemma {:induction false} SplitLosesNothing(bytes: seq<byte>)
    ensures bytes == Ended(Split(bytes)) + Tail(bytes)
    decreases |bytes|
  {
    hide Ended;
    var k := Newline(bytes);
    if k == |bytes| {
      assert Ended([]) == [] by { NoLines(); }
    } else {
      var rest := bytes[k + 1..];
      SplitAtFirst(bytes);
      SplitLosesNothing(rest);
      Rejoin(bytes[..k] + [LF], Ended(Split(rest)), Tail(rest));
    }
  }

  lemma NoLines()
    ensures Ended([]) == []
  {
  }

  lemma Rejoin<T>(a: seq<T>, b: seq<T>, c: seq<T>)
    ensures a + (b + c) == a + b + c
  {
  }

  lemma {:induction false} LinesHoldNoNewline(bytes: seq<byte>)
    ensures LF !in Tail(bytes) && forall line <- Split(bytes) :: LF !in line
    decreases |bytes|
  {
    hide Ended;
    var k := Newline(bytes);
    if k == |bytes| {
      assert bytes[..k] == bytes;
    } else {
      SplitAtFirst(bytes);
      LinesHoldNoNewline(bytes[k + 1..]);
    }
  }

  lemma SplitOfLine(line: seq<byte>, rest: seq<byte>)
    requires LF !in line
    ensures var bytes := line + [LF] + rest; Split(bytes) == [line] + Split(rest) && Tail(bytes) == Tail(rest)
  {
    hide Newline;
    var bytes := line + [LF] + rest;
    assert bytes[|line|] == LF && bytes[..|line|] == line && bytes[|line| + 1..] == rest;
    FirstNewline(bytes, |line|);
  }

  lemma SplitOfTail(tail: seq<byte>)
    requires LF !in tail
    ensures Split([] + tail) == [] && Tail([] + tail) == tail
  {
    assert [] + tail == tail;
  }

  /** There is only one way to split a stream. */
  lemma {:induction false} SplitIsUnique(lines: seq<seq<byte>>, tail: seq<byte>)
    requires LF !in tail && forall line <- lines :: LF !in line
    ensures Split(Ended(lines) + tail) == lines && Tail(Ended(lines) + tail) == tail
  {
    hide Split, Tail;
    if lines == [] {
      SplitOfTail(tail);
    } else {
      SplitIsUnique(lines[1..], tail);
      SplitOfLine(lines[0], Ended(lines[1..]) + tail);
      Rejoin(lines[0] + [LF], Ended(lines[1..]), tail);
    }
  }

  lemma FirstNewline(bytes: seq<byte>, k: nat)
    requires k < |bytes| && bytes[k] == LF && LF !in bytes[..k]
    ensures Newline(bytes) == k
  {
    var n := Newline(bytes);
    assert forall i :: 0 <= i < k ==> bytes[..k][i] == bytes[i];
    assert forall i :: 0 <= i < n ==> bytes[..n][i] == bytes[i];
  }

  function Whole(lines: seq<seq<byte>>): (r: seq<Raw>)
    ensures |r| == |lines| && forall i :: 0 <= i < |lines| ==> r[i] == Line(lines[i])
  {
    seq(|lines|, i requires 0 <= i < |lines| => Line(lines[i]))
  }

  lemma {:induction false} ScanIsSplit(bytes: seq<byte>)
    ensures Scan([], Signals(bytes)) == Whole(Split(bytes))
    decreases |bytes|
  {
    hide Scan;
    var k := Newline(bytes);
    assert Signals(bytes) == Signals(bytes) + [];
    if k == |bytes| {
      assert bytes[..k] == bytes;
      TailIsNoLine(bytes);
    } else {
      var rest := bytes[k + 1..];
      LineAtFront(bytes, k, []);
      assert Signals(rest) + [] == Signals(rest);
      ScanIsSplit(rest);
      assert Split(bytes) == [bytes[..k]] + Split(rest);
      assert Whole(Split(bytes)) == [Line(bytes[..k])] + Whole(Split(rest));
    }
  }

  function Bytes(items: seq<Item>): seq<byte> {
    if items == [] then [] else (if items[0].Chunk? then items[0].bytes else []) + Bytes(items[1..])
  }

  predicate FaultFree(items: seq<Item>) { forall i <- items :: i.Chunk? }

  lemma {:induction false} FlattenedChunks(items: seq<Item>)
    requires FaultFree(items)
    ensures Flatten(items) == Signals(Bytes(items))
  {
    if items != [] {
      FlattenedChunks(items[1..]);
    }
  }

  /**
   However the stream is cut into chunks, the decoder delivers what splitting
   the whole of it at newlines gives, and nothing of the unterminated tail.
   */
  lemma ChunksDoNotMatter(decode: seq<byte> -> string, items: seq<Item>)
    requires FaultFree(items)
    ensures Kept(decode, Scan([], Flatten(items))) == Kept(decode, Whole(Split(Bytes(items))))
  {
    FlattenedChunks(items);
    ScanIsSplit(Bytes(items));
  }

  // ------------------------------------------------------------------ errors

  function Payloads(out: seq<Event>): seq<string> {
    if out == [] then [] else (if out[0].Data? then [out[0].payload] else []) + Payloads(out[1..])
  }

  function Errors(out: seq<Event>): seq<string> {
    if out == [] then [] else (if out[0].Error? then [out[0].error] else []) + Errors(out[1..])
  }

  function Faults(items: seq<Item>): seq<string> {
    if items == [] then [] else (if items[0].Fault? then [items[0].error] else []) + Faults(items[1..])
  }

  lemma OneFewer(e: Event, out: seq<Event>)
    ensures Payloads([e] + out) == (if e.Data? then [e.payload] else []) + Payloads(out)
    ensures Errors([e] + out) == (if e.Error? then [e.error] else []) + Errors(out)
  {
    assert ([e] + out)[1..] == out;
  }

  lemma KeptFirst(decode: seq<byte> -> string, raw: Raw, rest: seq<Raw>)
    ensures var all, less := Kept(decode, [raw] + rest), Kept(decode, rest);
            && Errors(all) == (if raw.Broken? then [raw.error] else []) + Errors(less)
            && Payloads(all) == (if raw.Line? && PayloadOf(decode, raw.bytes).Some? then [PayloadOf(decode, raw.bytes).value] else [])
                                + Payloads(less)
  {
    hide PayloadOf;
    assert ([raw] + rest)[1..] == rest;
    var less := Kept(decode, rest);
    match raw
    case Broken(e) => OneFewer(Error(e), less);
    case Line(bytes) =>
      if PayloadOf(decode, bytes).Some? { OneFewer(Data(PayloadOf(decode, bytes).value), less); } else { assert [] + less == less; }
  }

  /** From any point of a line on, the payloads are those of the bytes alone, and the errors all come through. */
  lemma {:induction false} FaultsBetween(decode: seq<byte> -> string, pending: seq<byte>, signals: seq<Signal>, bytes: seq<byte>,
                                         faults: seq<string>)
    requires bytes == BytesOf(signals) && faults == Hiccups(signals)
    ensures Payloads(Kept(decode, Scan(pending, signals))) == Payloads(Kept(decode, Scan(pending, Signals(bytes))))
    ensures Errors(Kept(decode, Scan(pending, signals))) == faults
    decreases |signals|
  {
    hide Kept, Payloads, Errors;
    if signals == [] {
      KeptNone(decode);
      NoEvents();
      assert Signals(bytes) == [];
    } else {
      var rest := signals[1..];
      match signals[0]
      case Hiccup(e) =>
        FaultsBetween(decode, pending, rest, bytes, faults[1..]);
        KeptFirst(decode, Broken(e), Scan(pending, rest));
      case Byte(b) =>
        assert Signals(bytes)[0] == Byte(b) && Signals(bytes)[1..] == Signals(bytes[1..]);
        FaultsBetween(decode, if b == LF then [] else pending + [b], rest, bytes[1..], faults);
        if b == LF {
          KeptFirst(decode, Line(pending), Scan([], rest));
          KeptFirst(decode, Line(pending), Scan([], Signals(bytes[1..])));
        }
    }
  }

  lemma NoEvents()
    ensures Payloads([]) == [] && Errors([]) == []
  {
  }

  function BytesOf(signals: seq<Signal>): seq<byte> {
    if signals == [] then [] else (if signals[0].Byte? then [signals[0].b] else []) + BytesOf(signals[1..])
  }

  function Hiccups(signals: seq<Signal>): seq<string> {
    if signals == [] then [] else (if signals[0].Hiccup? then [signals[0].error] else []) + Hiccups(signals[1..])
  }

  lemma {:induction false} SignalsJoin(bytes: seq<byte>, rest: seq<Signal>)
    ensures BytesOf(Signals(bytes) + rest) == bytes + BytesOf(rest) && Hiccups(Signals(bytes) + rest) == Hiccups(rest)
  {
    var all := Signals(bytes) + rest;
    if bytes == [] {
      assert all == rest;
    } else {
      assert all[0] == Byte(bytes[0]) && all[1..] == Signals(bytes[1..]) + rest;
      SignalsJoin(bytes[1..], rest);
    }
  }

  lemma {:induction false} FlattenedAll(items: seq<Item>)
    ensures BytesOf(Flatten(items)) == Bytes(items) && Hiccups(Flatten(items)) == Faults(items)
  {
    if items != [] {
      FlattenedAll(items[1..]);
      match items[0]
      case Chunk(bytes) => SignalsJoin(bytes, Flatten(items[1..]));
      case Fault(e) => assert ([Hiccup(e)] + Flatten(items[1..]))[1..] == Flatten(items[1..]);
    }
  }

  /**
   Errors of the connection all come through, in order, and cost no payload: those
   are the ones of the bytes received, wherever the errors fell between them.
   */
  lemma ErrorsCostNothing(decode: seq<byte> -> string, items: seq<Item>)
    ensures var out := Kept(decode, Scan([], Flatten(items)));
            && Errors(out) == Faults(items)
            && Payloads(out) == Payloads(Kept(decode, Whole(Split(Bytes(items)))))
  {
    FlattenedAll(items);
    FaultsBetween(decode, [], Flatten(items), Bytes(items), Faults(items));
    ScanIsSplit(Bytes(items));
  }

  // -------------------------------------------------------------- round trip

  datatype Printed = Message(payload: string) | KeepAlive

  function Text(p: Printed): string {
    match p
    case Message(payload) => "data: " + payload
    case KeepAlive => ": keepalive"
  }

  /** As the server writes it: the line, and a blank one. */
  function Print(encode: string -> seq<byte>, p: Printed): seq<byte> { encode(Text(p)) + [LF, LF] }

  function PrintAll(encode: string -> seq<byte>, ps: seq<Printed>): seq<byte> {
    if ps == [] then [] else Print(encode, ps[0]) + PrintAll(encode, ps[1..])
  }

  /** What UTF-8 promises about a text. */
  predicate Faithful(encode: string -> seq<byte>, decode: seq<byte> -> string, s: string) {
    var bytes := encode(s);
    && decode(bytes) == s
    && (LF in bytes ==> '\n' in s)
    && (bytes != [] && bytes[|bytes| - 1] == CR ==> s != "" && s[|s| - 1] == '\r')
  }

  /** One line, no leading white space, no trailing carriage return. */
  predicate Printable(p: Printed) {
    p.Message? ==>
      && '\n' !in p.payload
      && (p.payload != "" ==> !IsSpace(p.payload[0]) && p.payload[|p.payload| - 1] != '\r')
  }

  function Messages(ps: seq<Printed>): seq<Event> {
    if ps == [] then []
    else (match ps[0] case Message(payload) => [Data(payload)] case KeepAlive => []) + Messages(ps[1..])
  }

  function LinesOf(encode: string -> seq<byte>, ps: seq<Printed>): seq<seq<byte>> {
    if ps == [] then [] else [encode(Text(ps[0])), []] + LinesOf(encode, ps[1..])
  }

  lemma PrintedLine(encode: string -> seq<byte>, decode: seq<byte> -> string, p: Printed)
    requires Printable(p) && Faithful(encode, decode, Text(p))
    ensures LF !in encode(Text(p))
    ensures PayloadOf(decode, encode(Text(p))) == if p.Message? then Some(p.payload) else None
  {
    var text := Text(p);
    assert '\n' !in text;
    assert text[|text| - 1] != '\r' by {
      if p.Message? && p.payload != "" { assert text[|text| - 1] == p.payload[|p.payload| - 1]; }
    }
    assert StripCr(encode(text)) == encode(text);
    if p.Message? {
      var padded := " " + p.payload;
      assert text[..5] == "data:" && text[5..] == padded;
      assert padded[0] == ' ' && IsSpace(' ') && padded[1..] == p.payload;
      assert TrimStart(p.payload) == p.payload;
    } else {
      assert text[0] == ':';
    }
  }

  lemma KeptCons(decode: seq<byte> -> string, line: seq<byte>, lines: seq<seq<byte>>)
    ensures Kept(decode, Whole([line] + lines)) == Events(decode, Line(line)) + Kept(decode, Whole(lines))
    ensures Ended([line] + lines) == line + [LF] + Ended(lines)
  {
    hide PayloadOf;
    assert ([line] + lines)[1..] == lines;
    assert Whole([line] + lines)[0] == Line(line) && Whole([line] + lines)[1..] == Whole(lines);
  }

  lemma PrintedEvents(encode: string -> seq<byte>, decode: seq<byte> -> string, p: Printed)
    requires decode([]) == "" && Printable(p) && Faithful(encode, decode, Text(p))
    ensures Events(decode, Line(encode(Text(p)))) == if p.Message? then [Data(p.payload)] else []
    ensures Events(decode, Line([])) == []
  {
    PrintedLine(encode, decode, p);
  }

  /** One message more in front: its line and the blank one. */
  lemma PrintedOneMore(encode: string -> seq<byte>, decode: seq<byte> -> string, p: Printed, rest: seq<seq<byte>>)
    requires decode([]) == "" && Printable(p) && Faithful(encode, decode, Text(p))
    ensures var lines := [encode(Text(p)), []] + rest;
            && Ended(lines) == Print(encode, p) + Ended(rest)
            && Kept(decode, Whole(lines)) == (if p.Message? then [Data(p.payload)] else []) + Kept(decode, Whole(rest))
  {
    hide Kept, Ended, Whole, Faithful, Printable, Text, Events;
    PrintedEvents(encode, decode, p);
    var line := encode(Text(p));
    KeptCons(decode, line, [[]] + rest);
    KeptCons(decode, [], rest);
    assert [line, []] + rest == [line] + ([[]] + rest);
    BlankLine(line, Ended(rest));
  }

  lemma BlankLine(line: seq<byte>, rest: seq<byte>)
    ensures line + [LF] + ([] + [LF] + rest) == line + [LF, LF] + rest
  {
  }

  lemma {:induction false} PrintedHoldNoNewline(encode: string -> seq<byte>, decode: seq<byte> -> string, ps: seq<Printed>)
    requires forall p <- ps :: Printable(p) && Faithful(encode, decode, Text(p))
    ensures forall line <- LinesOf(encode, ps) :: LF !in line
  {
    hide Faithful, Printable, Text;
    if ps != [] {
      PrintedLine(encode, decode, ps[0]);
      PrintedHoldNoNewline(encode, decode, ps[1..]);
    }
  }

  lemma {:induction false} PrintedLines(encode: string -> seq<byte>, decode: seq<byte> -> string, ps: seq<Printed>)
    requires decode([]) == ""
    requires forall p <- ps :: Printable(p) && Faithful(encode, decode, Text(p))
    ensures Ended(LinesOf(encode, ps)) == PrintAll(encode, ps)
    ensures Kept(decode, Whole(LinesOf(encode, ps))) == Messages(ps)
  {
    if ps != [] {
      hide Kept, Ended, Whole, PayloadOf, Faithful, Printable, Text, Print;
      PrintedLines(encode, decode, ps[1..]);
      PrintedOneMore(encode, decode, ps[0], LinesOf(encode, ps[1..]));
    }
  }

  lemma {:induction false} EndedJoin(a: seq<seq<byte>>, b: seq<seq<byte>>)
    ensures Ended(a + b) == Ended(a) + Ended(b)
  {
    if a == [] {
      assert a + b == b;
    } else {
      assert (a + b)[0] == a[0] && (a + b)[1..] == a[1..] + b;
      EndedJoin(a[1..], b);
      Rejoin(a[0] + [LF], Ended(a[1..]), Ended(b));
    }
  }

  lemma {:induction false} KeptJoin(decode: seq<byte> -> string, a: seq<Raw>, b: seq<Raw>)
    ensures Kept(decode, a + b) == Kept(decode, a) + Kept(decode, b)
  {
    hide Events;
    if a == [] {
      assert a + b == b;
    } else {
      assert (a + b)[0] == a[0] && (a + b)[1..] == a[1..] + b;
      KeptJoin(decode, a[1..], b);
      Rejoin(Events(decode, a[0]), Kept(decode, a[1..]), Kept(decode, b));
    }
  }

  lemma LinesJoin(decode: seq<byte> -> string, a: seq<seq<byte>>, b: seq<seq<byte>>)
    ensures Ended(a + b) == Ended(a) + Ended(b)
    ensures Kept(decode, Whole(a + b)) == Kept(decode, Whole(a)) + Kept(decode, Whole(b))
  {
    hide Kept, Ended;
    EndedJoin(a, b);
    assert Whole(a + b) == Whole(a) + Whole(b);
    KeptJoin(decode, Whole(a), Whole(b));
  }

  /** The lines that the first `cut` bytes of a printed message complete, and the tail they leave. */
  function CutLines(encode: string -> seq<byte>, p: Printed, cut: nat): seq<seq<byte>> {
    var line := encode(Text(p));
    if cut <= |line| then [] else if cut == |line| + 1 then [line] else [line, []]
  }

  function CutTail(encode: string -> seq<byte>, p: Printed, cut: nat): seq<byte> {
    var line := encode(Text(p));
    if cut <= |line| then line[..cut] else []
  }

  /** The lines of a message, as far as they have ended. */
  lemma CutLinesMean(encode: string -> seq<byte>, decode: seq<byte> -> string, p: Printed, cut: nat)
    requires decode([]) == "" && Printable(p) && Faithful(encode, decode, Text(p)) && cut <= |Print(encode, p)|
    ensures Kept(decode, Whole(CutLines(encode, p, cut))) == if cut > |encode(Text(p))| then Messages([p]) else []
  {
    PrintedEvents(encode, decode, p);
    hide Faithful, Printable, Text, Events, Ended, Kept, Whole;
    var line := encode(Text(p));
    var none: seq<seq<byte>>, blank: seq<seq<byte>> := [], [[]];
    NoLinesAtAll(decode);
    OneMessage(p);
    KeptCons(decode, [], none);
    KeptCons(decode, line, none);
    KeptCons(decode, line, blank);
    assert [[]] + none == blank && [line] + none == [line] && [line] + blank == [line, []];
  }

  lemma CutAnywhere(encode: string -> seq<byte>, decode: seq<byte> -> string, p: Printed, cut: nat)
    requires decode([]) == "" && Printable(p) && Faithful(encode, decode, Text(p)) && cut <= |Print(encode, p)|
    ensures Print(encode, p)[..cut] == Ended(CutLines(encode, p, cut)) + CutTail(encode, p, cut)
    ensures LF !in CutTail(encode, p, cut) && forall line <- CutLines(encode, p, cut) :: LF !in line
  {
    PrintedLine(encode, decode, p);
    hide Faithful, Printable, Text, Ended;
    var line, printed := encode(Text(p)), Print(encode, p);
    NoLinesAtAll(decode);
    if cut <= |line| {
      assert printed[..cut] == line[..cut];
    } else {
      var none: seq<seq<byte>>, blank: seq<seq<byte>> := [], [[]];
      EndedCons([], none);
      EndedCons(line, if cut == |line| + 1 then none else blank);
      assert [[]] + none == blank && [line] + none == [line] && [line] + blank == [line, []];
      assert printed[..cut] == if cut == |line| + 1 then line + [LF] else line + [LF] + [LF];
    }
  }

  lemma EndedCons(line: seq<byte>, lines: seq<seq<byte>>)
    ensures Ended([line] + lines) == line + [LF] + Ended(lines)
  {
    assert ([line] + lines)[1..] == lines;
  }

  lemma OneMessage(p: Printed)
    ensures Messages([p]) == if p.Message? then [Data(p.payload)] else []
  {
    assert [p][1..] == [] && Messages([]) == [];
  }

  lemma NoLinesAtAll(decode: seq<byte> -> string)
    ensures Ended([]) == [] && Whole([]) == [] && Kept(decode, Whole([])) == []
  {
  }

  /**
   Whatever the server printed, in any chunks and broken off anywhere in a further
   message, its payloads come out in order; that of the last one counts once the
   line that carries it has ended.
   */
  lemma DecodesWhatWasPrinted(encode: string -> seq<byte>, decode: seq<byte> -> string, ps: seq<Printed>,
                              last: Printed, cut: nat, items: seq<Item>)
    requires decode([]) == "" && forall p <- ps + [last] :: Printable(p) && Faithful(encode, decode, Text(p))
    requires cut <= |Print(encode, last)|
    requires FaultFree(items) && Bytes(items) == PrintAll(encode, ps) + Print(encode, last)[..cut]
    ensures Kept(decode, Scan([], Flatten(items)))
         == Messages(ps) + if cut > |encode(Text(last))| then Messages([last]) else []
  {
    assert forall p <- ps :: p in ps + [last];
    assert last in ps + [last];
    ChunksDoNotMatter(decode, items);
    PrintedLines(encode, decode, ps);
    PrintedHoldNoNewline(encode, decode, ps);
    CutAnywhere(encode, decode, last, cut);
    CutLinesMean(encode, decode, last, cut);
    hide Faithful, Printable, Text, Kept, Whole, Ended, Scan, Flatten, Split, Tail, Print, PrintAll, CutLines, CutTail;
    var lines, more, tail := LinesOf(encode, ps), CutLines(encode, last, cut), CutTail(encode, last, cut);
    LinesJoin(decode, lines, more);
    Rejoin(Ended(lines), Ended(more), tail);
    SplitIsUnique(lines + more, tail);
  }
}
