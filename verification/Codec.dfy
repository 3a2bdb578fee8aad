/** The frame codec (sse/sse.go writes it, consume/consume.go readStream reads
    it): reading the text of any frames is reading the frames, and cutting the
    text anywhere only loses a suffix. Compare section 9.2.6 of the WHATWG HTML
    Standard. */
module Codec {
  import opened Records
  import opened Text
  import opened Delivery

  // ---- The server's side ----

  /** One field line: its name with the colon, a blank, its value. */
  function Field(name: string, value: string): string {
    name + (" " + value)
  }

  /** The lines of one frame: its fields and the blank line that ends it. */
  function FrameLines(f: Frame): seq<string> {
    match f
    case Log(n, payload) => [Field("id:", Decimal(n)), Field("data:", payload), ""]
    case Keepalive => [Field(":", "keepalive"), ""]
    case Connected => [Field(":", "connected"), ""]
    case CaughtUp(n) => [Field("event:", "caught-up"), Field("data:", CaughtUpPayload(n)), ""]
    case Injected(payload) => [Field("data:", payload), ""]
  }

  function CaughtUpPayload(n: nat): (s: string)
    ensures OneLine(s) && |s| > 2 && s[0] == '{' && s[|s| - 1] == '}'
  {
    var digits := Decimal(n);
    assert forall i :: 0 <= i < |digits| ==> IsDigit(digits[i]);
    "{\"seq\":" + digits + "}"
  }

  /** Every line ends in a newline. */
  function Join(lines: seq<string>): string {
    if lines == [] then "" else lines[0] + "\n" + Join(lines[1..])
  }

  function Encode(f: Frame): string {
    Join(FrameLines(f))
  }

  function EncodeAll(frames: seq<Frame>): string {
    if frames == [] then "" else Encode(frames[0]) + EncodeAll(frames[1..])
  }

  // ---- The client's side ----

  /** The variables of the scan loop. */
  datatype Parser = Parser(id: int, data: string, eventName: string)

  /** What the handler answers: an error, or success with or without the signal
      to stop; and whether the cursor could be written after it. */
  datatype Answer = Answer(failed: bool, stop: bool, persisted: bool)

  datatype Reading = Reading(
    parser: Parser,
    cursor: int,
    disk: int,
    calls: seq<(int, string)>,
    over: bool)

  function Start(cursor: int, disk: int): Reading {
    Reading(Parser(cursor, "", ""), cursor, disk, [], false)
  }

  function AfterPrefix(line: string, n: nat): string
    requires n <= |line|
  {
    TrimSpace(line[n..])
  }

  function ReadField(p: Parser, line: string): Parser {
    if ":" <= line then p
    else if "id:" <= line then
      match ParseInt(AfterPrefix(line, 3))
      case Some(n) => p.(id := n)
      case None => p
    else if "event:" <= line then p.(eventName := AfterPrefix(line, 6))
    else if "data:" <= line then p.(data := AfterPrefix(line, 5))
    else p
  }

  /** A blank line dispatches a default-type event with data. */
  function Dispatch(r: Reading, a: Answer): Reading {
    var cleared := Parser(r.parser.id, "", "");
    if r.parser.data == "" || (r.parser.eventName != "" && r.parser.eventName != "message") then r.(parser := cleared)
    else Call(r, cleared, r.parser.data, a)
  }

  /** The handler runs under the current id; the cursor follows its success. */
  function Call(r: Reading, cleared: Parser, data: string, a: Answer): Reading {
    var called := r.(calls := r.calls + [(cleared.id, data)], parser := cleared);
    if a.failed then called.(over := true)
    else called.(cursor := cleared.id, disk := if a.persisted then cleared.id else r.disk, over := a.stop)
  }

  function ReadLine(r: Reading, line: string, handler: nat -> Answer): Reading {
    if r.over then r
    else if line == "" then Dispatch(r, handler(|r.calls|))
    else r.(parser := ReadField(r.parser, line))
  }

  function ReadLines(r: Reading, lines: seq<string>, handler: nat -> Answer): Reading
    decreases |lines|
  {
    if lines == [] then r else ReadLines(ReadLine(r, lines[0], handler), lines[1..], handler)
  }

  /** readStream's loop over one connection's text; the handler's n-th call
      answers handler(n). */
  method ReadStream(text: string, start: int, disk0: int, handler: nat -> Answer)
    returns (stop: bool, cursor: int, disk: int, calls: seq<(int, string)>)
    ensures var r := ReadLines(Start(start, disk0), ScanLines(text), handler);
      && cursor == r.cursor && disk == r.disk && calls == r.calls
      && (stop <==> r.over && r.calls != [] && !handler(|r.calls| - 1).failed)
  {
    var lines := ScanLines(text);
    var data, eventName, id := "", "", start;
    ghost var r := Start(start, disk0);
    cursor, disk, calls := start, disk0, [];
    for i := 0 to |lines|
      invariant r == Reading(Parser(id, data, eventName), cursor, disk, calls, false)
      invariant ReadLines(Start(start, disk0), lines, handler) == ReadLines(r, lines[i..], handler)
    {
      var line := lines[i];
      assert lines[i..][0] == line && lines[i..][1..] == lines[i + 1..];
      r := ReadLine(r, line, handler);
      if line == "" {
        if data == "" || (eventName != "" && eventName != "message") {
          data, eventName := "", "";
          continue;
        }
        var a := handler(|calls|);
        calls := calls + [(id, data)];
        if a.failed {
          OverStays(r, lines[i + 1..], handler);
          return false, cursor, disk, calls;
        }
        cursor := id;
        if a.persisted {
          disk := cursor;
        }
        if a.stop {
          OverStays(r, lines[i + 1..], handler);
          return true, cursor, disk, calls;
        }
        data, eventName := "", "";
      } else if ":" <= line {
      } else if "id:" <= line {
        match ParseInt(TrimSpace(line[3..]))
        case Some(n) => id := n;
        case None =>
      } else if "event:" <= line {
        eventName := TrimSpace(line[6..]);
      } else if "data:" <= line {
        data := TrimSpace(line[5..]);
      }
    }
    stop := false;
  }

  lemma {:induction false} OverStays(r: Reading, lines: seq<string>, handler: nat -> Answer)
    requires r.over
    ensures ReadLines(r, lines, handler) == r
    decreases |lines|
  {
    if lines != [] { OverStays(r, lines[1..], handler); }
  }

  lemma {:induction false} ReadAppend(r: Reading, a: seq<string>, b: seq<string>, handler: nat -> Answer)
    ensures ReadLines(r, a + b, handler) == ReadLines(ReadLines(r, a, handler), b, handler)
    decreases |a|
  {
    if a == [] {
      assert a + b == b;
    } else {
      assert (a + b)[1..] == a[1..] + b;
      ReadAppend(ReadLine(r, a[0], handler), a[1..], b, handler);
    }
  }

  // ---- Reading frames instead of text ----

  /** What one whole frame means to the client. */
  function ReadFrame(r: Reading, f: Frame, handler: nat -> Answer): Reading {
    if r.over then r else
      match f
      case Log(n, payload) => Call(r, Parser(n, "", ""), payload, handler(|r.calls|))
      case Injected(payload) => Call(r, Parser(r.parser.id, "", ""), payload, handler(|r.calls|))
      case _ => r
  }

  function ReadFrames(r: Reading, frames: seq<Frame>, handler: nat -> Answer): Reading
    decreases |frames|
  {
    if frames == [] then r else ReadFrames(ReadFrame(r, frames[0], handler), frames[1..], handler)
  }

  /** The payloads that survive the text: not empty, one line, trimmed; and seqs
      that fit the integer type of both sides. */
  predicate Sendable(f: Frame) {
    match f
    case Log(n, payload) => n <= MAX_INT64 && payload != "" && OneLine(payload) && Trimmed(payload)
    case Injected(payload) => payload != "" && OneLine(payload) && Trimmed(payload)
    case _ => true
  }

  predicate AllSendable(frames: seq<Frame>) { forall i :: 0 <= i < |frames| ==> Sendable(frames[i]) }

  predicate AtBoundary(r: Reading) {
    r.over || (r.parser.data == "" && r.parser.eventName == "")
  }

  predicate PlainLine(line: string) {
    OneLine(line) && (line == "" || (line[0] != '\r' && line[|line| - 1] != '\r'))
  }

  lemma Regroup(a: string, b: string, c: string)
    ensures (a + b) + c == a + (b + c)
  {
  }

  predicate PlainLines(lines: seq<string>) { forall i :: 0 <= i < |lines| ==> PlainLine(lines[i]) }

  lemma JoinCons(line: string, others: seq<string>, rest: string)
    ensures Join([line] + others) + rest == line + "\n" + (Join(others) + rest)
  {
    Regroup(line + "\n", Join(others), rest);
    assert ([line] + others)[1..] == others;
  }

  lemma Cons(line: string, others: seq<string>, scanned: seq<string>)
    ensures [line] + (others + scanned) == ([line] + others) + scanned
  {
  }

  lemma {:induction false} JoinScans(lines: seq<string>, rest: string)
    requires PlainLines(lines)
    ensures ScanLines(Join(lines) + rest) == lines + ScanLines(rest)
    decreases |lines|
  {
    if lines == [] {
      assert Join(lines) + rest == rest;
    } else {
      var line, others := lines[0], lines[1..];
      assert lines == [line] + others;
      var tail := Join(others) + rest;
      JoinScans(others, rest);
      JoinCons(line, others, rest);
      ScanLine(line, tail);
      Cons(line, others, ScanLines(rest));
    }
  }

  lemma FrameScans(f: Frame, rest: string)
    requires Sendable(f)
    ensures ScanLines(Encode(f) + rest) == FrameLines(f) + ScanLines(rest)
  {
    var lines := FrameLines(f);
    FrameLinesPlain(f);
    JoinScans(lines, rest);
  }

  lemma FrameLinesPlain(f: Frame)
    requires Sendable(f)
    ensures PlainLines(FrameLines(f))
  {
    match f
    case Log(n, payload) =>
      FieldPlain("id:", Decimal(n));
      FieldPlain("data:", payload);
    case Injected(payload) => FieldPlain("data:", payload);
    case CaughtUp(n) =>
      FieldPlain("event:", "caught-up");
      FieldPlain("data:", CaughtUpPayload(n));
    case Keepalive => FieldPlain(":", "keepalive");
    case Connected => FieldPlain(":", "connected");
  }

  lemma FieldPlain(name: string, value: string)
    requires PlainLine(name) && name != "" && OneLine(value) && value != "" && value[|value| - 1] != '\r'
    ensures PlainLine(Field(name, value))
  {
  }

  // ---- The theorems ----

  /** Reading the lines of one frame is reading the frame. */
  lemma FrameReads(r: Reading, f: Frame, handler: nat -> Answer)
    requires Sendable(f) && AtBoundary(r)
    ensures var r' := ReadLines(r, FrameLines(f), handler);
      && r' == ReadFrame(r, f, handler)
      && AtBoundary(r')
  {
    if r.over {
      OverStays(r, FrameLines(f), handler);
    } else {
      match f
      case Log(n, payload) => LogReads(r, n, payload, handler);
      case Injected(payload) => InjectedReads(r, payload, handler);
      case CaughtUp(n) => CaughtUpReads(r, n, handler);
      case Keepalive => CommentReads(r, "keepalive", handler);
      case Connected => CommentReads(r, "connected", handler);
    }
  }

  lemma ReadOne(r: Reading, line: string, handler: nat -> Answer)
    ensures ReadLines(r, [line], handler) == ReadLine(r, line, handler)
  {
    assert [line][1..] == [];
  }

  lemma ReadTwo(r: Reading, a: string, b: string, handler: nat -> Answer)
    ensures ReadLines(r, [a, b], handler) == ReadLine(ReadLine(r, a, handler), b, handler)
  {
    assert [a, b][1..] == [b];
    ReadOne(ReadLine(r, a, handler), b, handler);
  }

  lemma ReadThree(r: Reading, a: string, b: string, c: string, handler: nat -> Answer)
    ensures ReadLines(r, [a, b, c], handler) == ReadLine(ReadLine(ReadLine(r, a, handler), b, handler), c, handler)
  {
    assert [a, b, c][1..] == [b, c];
    ReadTwo(ReadLine(r, a, handler), b, c, handler);
  }

  lemma CommentReads(r: Reading, text: string, handler: nat -> Answer)
    requires AtBoundary(r) && !r.over
    ensures ReadLines(r, [Field(":", text), ""], handler) == r
  {
    ReadTwo(r, Field(":", text), "", handler);
    Begins(":", " " + text);
  }

  lemma LogReads(r: Reading, n: nat, payload: string, handler: nat -> Answer)
    requires Sendable(Log(n, payload)) && AtBoundary(r) && !r.over
    ensures ReadLines(r, FrameLines(Log(n, payload)), handler) == ReadFrame(r, Log(n, payload), handler)
  {
    ReadThree(r, Field("id:", Decimal(n)), Field("data:", payload), "", handler);
    IdReads(r.parser, n);
    DataReads(r.parser.(id := n), payload);
  }

  lemma InjectedReads(r: Reading, payload: string, handler: nat -> Answer)
    requires Sendable(Injected(payload)) && AtBoundary(r) && !r.over
    ensures ReadLines(r, FrameLines(Injected(payload)), handler) == ReadFrame(r, Injected(payload), handler)
  {
    ReadTwo(r, Field("data:", payload), "", handler);
    DataReads(r.parser, payload);
  }

  lemma CaughtUpReads(r: Reading, n: nat, handler: nat -> Answer)
    requires AtBoundary(r) && !r.over
    ensures ReadLines(r, FrameLines(CaughtUp(n)), handler) == r
  {
    NamedReads(r, "caught-up", CaughtUpPayload(n), handler);
  }

  /** A named event is a marker: it calls nothing. */
  lemma NamedReads(r: Reading, name: string, payload: string, handler: nat -> Answer)
    requires AtBoundary(r) && !r.over && Trimmed(name) && Trimmed(payload) && name != "" && name != "message"
    ensures ReadLines(r, [Field("event:", name), Field("data:", payload), ""], handler) == r
  {
    ReadThree(r, Field("event:", name), Field("data:", payload), "", handler);
    EventReads(r.parser, name);
    DataReads(r.parser.(eventName := name), payload);
  }

  lemma Begins(prefix: string, rest: string)
    ensures prefix <= prefix + rest && (prefix + rest)[|prefix|..] == rest
  {
  }

  lemma BeginsOtherwise(prefix: string, line: string)
    requires prefix != "" && line != "" && prefix[0] != line[0]
    ensures !(prefix <= line)
  {
  }

  lemma FieldValue(name: string, value: string)
    requires Trimmed(value)
    ensures name <= Field(name, value) && AfterPrefix(Field(name, value), |name|) == value
  {
    Begins(name, " " + value);
    TrimAfterSpace(value);
  }

  lemma IdReads(p: Parser, n: nat)
    requires n <= MAX_INT64
    ensures ReadField(p, Field("id:", Decimal(n))) == p.(id := n)
  {
    DecimalRoundTrip(n);
    DecimalTrimmed(n);
    FieldValue("id:", Decimal(n));
    BeginsOtherwise(":", Field("id:", Decimal(n)));
  }

  lemma DecimalTrimmed(n: nat)
    ensures Trimmed(Decimal(n))
  {
    var text := Decimal(n);
    assert IsDigit(text[0]) && IsDigit(text[|text| - 1]);
  }

  lemma EventReads(p: Parser, name: string)
    requires Trimmed(name)
    ensures ReadField(p, Field("event:", name)) == p.(eventName := name)
  {
    var line := Field("event:", name);
    FieldValue("event:", name);
    BeginsOtherwise(":", line);
    BeginsOtherwise("id:", line);
  }

  lemma DataReads(p: Parser, payload: string)
    requires Trimmed(payload)
    ensures ReadField(p, Field("data:", payload)) == p.(data := payload)
  {
    var line := Field("data:", payload);
    FieldValue("data:", payload);
    BeginsOtherwise(":", line);
    BeginsOtherwise("id:", line);
    BeginsOtherwise("event:", line);
  }

  lemma FrameThenText(r: Reading, f: Frame, rest: string, handler: nat -> Answer)
    requires Sendable(f) && AtBoundary(r)
    ensures ReadLines(r, ScanLines(Encode(f) + rest), handler)
         == ReadLines(ReadFrame(r, f, handler), ScanLines(rest), handler)
    ensures AtBoundary(ReadFrame(r, f, handler))
  {
    FrameScans(f, rest);
    ReadAppend(r, FrameLines(f), ScanLines(rest), handler);
    FrameReads(r, f, handler);
  }

  lemma {:induction false} FramesThenText(r: Reading, frames: seq<Frame>, rest: string, handler: nat -> Answer)
    requires AtBoundary(r) && AllSendable(frames)
    ensures ReadLines(r, ScanLines(EncodeAll(frames) + rest), handler)
         == ReadLines(ReadFrames(r, frames, handler), ScanLines(rest), handler)
    decreases |frames|
  {
    if frames == [] {
      assert "" + rest == rest;
    } else {
      Regroup(Encode(frames[0]), EncodeAll(frames[1..]), rest);
      FrameThenText(r, frames[0], EncodeAll(frames[1..]) + rest, handler);
      FramesThenText(ReadFrame(r, frames[0], handler), frames[1..], rest, handler);
    }
  }

  /** The round trip: whatever the handler answers, the client that reads the
      text of a run of frames makes the calls, and moves the cursors, of a
      client that is handed the frames. */
  lemma TextIsFrames(r: Reading, frames: seq<Frame>, handler: nat -> Answer)
    requires AtBoundary(r) && AllSendable(frames)
    ensures ReadLines(r, ScanLines(EncodeAll(frames)), handler) == ReadFrames(r, frames, handler)
  {
    FramesThenText(r, frames, "", handler);
    assert EncodeAll(frames) + "" == EncodeAll(frames);
  }

  /** How many frames came whole when the text is cut after k characters. */
  function WholeFrames(frames: seq<Frame>, k: nat): (n: nat)
    ensures n <= |frames|
    decreases |frames|
  {
    if frames == [] || k < |Encode(frames[0])| then 0
    else 1 + WholeFrames(frames[1..], k - |Encode(frames[0])|)
  }

  /** What then came of the next frame. */
  function PartFrame(frames: seq<Frame>, k: nat): string
    decreases |frames|
  {
    if frames == [] then ""
    else if k < |Encode(frames[0])| then Encode(frames[0])[..k]
    else PartFrame(frames[1..], k - |Encode(frames[0])|)
  }

  lemma {:induction false} CutSplits(frames: seq<Frame>, k: nat)
    requires k <= |EncodeAll(frames)|
    ensures EncodeAll(frames)[..k] == EncodeAll(frames[..WholeFrames(frames, k)]) + PartFrame(frames, k)
    decreases |frames|
  {
    if frames != [] && k < |Encode(frames[0])| {
      CutText(Encode(frames[0]), EncodeAll(frames[1..]), k);
    } else if frames != [] {
      var others, k' := frames[1..], k - |Encode(frames[0])|;
      var n := WholeFrames(others, k');
      CutSplits(others, k');
      CutText(Encode(frames[0]), EncodeAll(others), k);
      EncodeOneMore(frames, n + 1);
      Regroup(Encode(frames[0]), EncodeAll(others[..n]), PartFrame(others, k'));
    }
  }

  lemma CutText(a: string, b: string, k: nat)
    requires k <= |a + b|
    ensures (a + b)[..k] == if k < |a| then a[..k] else a + b[..k - |a|]
  {
  }

  lemma EncodeOneMore(frames: seq<Frame>, n: nat)
    requires 0 < n <= |frames|
    ensures EncodeAll(frames[..n]) == Encode(frames[0]) + EncodeAll(frames[1..][..n - 1])
  {
    assert frames[..n][1..] == frames[1..][..n - 1];
  }

  lemma {:induction false} PartHasNoBlank(frames: seq<Frame>, k: nat)
    requires AllSendable(frames)
    ensures NoBlank(ScanLines(PartFrame(frames, k)))
    decreases |frames|
  {
    if frames != [] {
      if k < |Encode(frames[0])| {
        PartialFrameScans(frames[0], k);
      } else {
        PartHasNoBlank(frames[1..], k - |Encode(frames[0])|);
      }
    }
  }

  lemma {:induction false} BoundaryAfter(r: Reading, frames: seq<Frame>, handler: nat -> Answer)
    requires AtBoundary(r)
    ensures AtBoundary(ReadFrames(r, frames, handler))
    decreases |frames|
  {
    if frames != [] { BoundaryAfter(ReadFrame(r, frames[0], handler), frames[1..], handler); }
  }

  /** A connection may break anywhere. What was read of the text of a run of
      frames is then what the client makes of the frames that came whole: the
      part of a frame that did arrive calls nothing and moves no cursor. */
  lemma CutTextIsFewerFrames(r: Reading, frames: seq<Frame>, k: nat, handler: nat -> Answer)
    requires AtBoundary(r) && AllSendable(frames)
    requires k <= |EncodeAll(frames)|
    ensures SameButParser(
      ReadLines(r, ScanLines(EncodeAll(frames)[..k]), handler),
      ReadFrames(r, frames[..WholeFrames(frames, k)], handler))
  {
    var whole := frames[..WholeFrames(frames, k)];
    CutSplits(frames, k);
    FramesThenText(r, whole, PartFrame(frames, k), handler);
    PartHasNoBlank(frames, k);
    NoDispatch(ReadFrames(r, whole, handler), ScanLines(PartFrame(frames, k)), handler);
  }

  predicate SameButParser(a: Reading, b: Reading) {
    a.cursor == b.cursor && a.disk == b.disk && a.calls == b.calls && a.over == b.over
  }

  predicate NoBlank(lines: seq<string>) { forall i :: 0 <= i < |lines| ==> lines[i] != "" }

  lemma {:induction false} NoDispatch(r: Reading, lines: seq<string>, handler: nat -> Answer)
    requires NoBlank(lines)
    ensures SameButParser(ReadLines(r, lines, handler), r)
    decreases |lines|
  {
    if lines != [] { NoDispatch(ReadLine(r, lines[0], handler), lines[1..], handler); }
  }

  lemma PartialFrameScans(f: Frame, k: nat)
    requires Sendable(f) && k < |Encode(f)|
    ensures NoBlank(ScanLines(Encode(f)[..k]))
  {
    FrameLinesPlain(f);
    FieldsNotBlank(f);
    PartialBlock(FrameLines(f), k);
  }

  lemma PartialBlock(lines: seq<string>, k: nat)
    requires PlainLines(lines) && lines != [] && lines[|lines| - 1] == "" && NoBlank(lines[..|lines| - 1])
    requires k < |Join(lines)|
    ensures NoBlank(ScanLines(Join(lines)[..k]))
  {
    var fields := lines[..|lines| - 1];
    assert lines == fields + [""];
    JoinBlank(fields);
    assert Join(lines)[..k] == Join(fields)[..k];
    PartialScans(fields, k);
  }

  lemma FieldsNotBlank(f: Frame)
    ensures |FrameLines(f)| > 0 && FrameLines(f)[|FrameLines(f)| - 1] == ""
    ensures NoBlank(FrameLines(f)[..|FrameLines(f)| - 1])
  {
  }

  /** Cut after k characters: how many lines came whole, and what came of the next. */
  function WholeLines(lines: seq<string>, k: nat): (n: nat)
    ensures n <= |lines|
  {
    if lines == [] || k <= |lines[0]| then 0 else 1 + WholeLines(lines[1..], k - |lines[0]| - 1)
  }

  function PartLine(lines: seq<string>, k: nat): string {
    if lines == [] then ""
    else if k <= |lines[0]| then lines[0][..k]
    else PartLine(lines[1..], k - |lines[0]| - 1)
  }

  lemma {:induction false} JoinSplits(lines: seq<string>, k: nat)
    requires k <= |Join(lines)|
    ensures Join(lines)[..k] == Join(lines[..WholeLines(lines, k)]) + PartLine(lines, k)
  {
    if lines != [] && k <= |lines[0]| {
      CutInLine(lines[0], Join(lines[1..]), k);
    } else if lines != [] {
      var others, k' := lines[1..], k - |lines[0]| - 1;
      var n := WholeLines(others, k');
      JoinSplits(others, k');
      CutPastLine(lines[0], Join(others), k);
      assert lines[..n + 1] == [lines[0]] + others[..n];
      JoinCons(lines[0], others[..n], PartLine(others, k'));
      Regroup(lines[0], "\n", Join(others)[..k']);
    }
  }

  lemma CutInLine(line: string, rest: string, k: nat)
    requires k <= |line|
    ensures (line + "\n" + rest)[..k] == line[..k]
  {
  }

  lemma CutPastLine(line: string, rest: string, k: nat)
    requires |line| < k <= |line + "\n" + rest|
    ensures (line + "\n" + rest)[..k] == line + "\n" + rest[..k - |line| - 1]
  {
  }

  lemma {:induction false} PartIsPlain(lines: seq<string>, k: nat)
    requires PlainLines(lines)
    ensures OneLine(PartLine(lines, k))
    ensures PartLine(lines, k) != "" ==> PartLine(lines, k)[0] != '\r'
  {
    if lines != [] && k > |lines[0]| {
      PartIsPlain(lines[1..], k - |lines[0]| - 1);
    } else if lines != [] {
      assert PlainLine(lines[0]);
    }
  }

  lemma PartialScans(lines: seq<string>, k: nat)
    requires PlainLines(lines) && NoBlank(lines) && k <= |Join(lines)|
    ensures NoBlank(ScanLines(Join(lines)[..k]))
  {
    JoinSplits(lines, k);
    JoinScans(lines[..WholeLines(lines, k)], PartLine(lines, k));
    PartIsPlain(lines, k);
    PartialLine(PartLine(lines, k));
  }

  lemma PartialLine(part: string)
    requires OneLine(part) && (part != "" ==> part[0] != '\r')
    ensures NoBlank(ScanLines(part))
  {
  }

  /** The blank line at the end is the last to come. */
  lemma {:induction false} JoinBlank(lines: seq<string>)
    ensures Join(lines + [""]) == Join(lines) + "\n"
  {
    if lines == [] {
      assert [""][1..] == [];
    } else {
      JoinBlank(lines[1..]);
      assert (lines + [""])[1..] == lines[1..] + [""];
    }
  }

  /** With a handler that never fails, that is exactly the log and injected
      payloads in order: log frames under their own seq, injected ones under the
      id that precedes them. */
  function Deliveries(id: int, frames: seq<Frame>): seq<(int, string)>
    decreases |frames|
  {
    if frames == [] then [] else Payloads(id, frames[0]) + Deliveries(IdAfter(id, frames[0]), frames[1..])
  }

  function Payloads(id: int, f: Frame): seq<(int, string)> {
    match f
    case Log(n, payload) => [(n as int, payload)]
    case Injected(payload) => [(id, payload)]
    case _ => []
  }

  function IdAfter(id: int, f: Frame): int { if f.Log? then f.seqNo else id }

  lemma {:induction false} FramesDelivered(r: Reading, frames: seq<Frame>, handler: nat -> Answer)
    requires !r.over && forall n :: !handler(n).failed && !handler(n).stop
    ensures var r' := ReadFrames(r, frames, handler);
      !r'.over && r'.calls == r.calls + Deliveries(r.parser.id, frames)
    decreases |frames|
  {
    if frames != [] {
      var r1 := ReadFrame(r, frames[0], handler);
      FrameDelivered(r, frames[0], handler);
      FramesDelivered(r1, frames[1..], handler);
      assert (r.calls + Payloads(r.parser.id, frames[0])) + Deliveries(r1.parser.id, frames[1..])
          == r.calls + (Payloads(r.parser.id, frames[0]) + Deliveries(r1.parser.id, frames[1..]));
    }
  }

  lemma FrameDelivered(r: Reading, f: Frame, handler: nat -> Answer)
    requires !r.over && forall n :: !handler(n).failed && !handler(n).stop
    ensures var r' := ReadFrame(r, f, handler);
      && !r'.over && r'.parser.id == IdAfter(r.parser.id, f)
      && r'.calls == r.calls + Payloads(r.parser.id, f)
  {
  }

  lemma CodecRoundTrip(frames: seq<Frame>, start: int, disk: int, handler: nat -> Answer)
    requires AllSendable(frames)
    requires forall n :: !handler(n).failed && !handler(n).stop
    ensures ReadLines(Start(start, disk), ScanLines(EncodeAll(frames)), handler).calls == Deliveries(start, frames)
  {
    TextIsFrames(Start(start, disk), frames, handler);
    FramesDelivered(Start(start, disk), frames, handler);
  }

  /** A frame read from text moves the client as the delivery protocol says. */
  lemma ReadFrameIsProtocolRead(s: State, r: Reading, handler: nat -> Answer)
    requires s.conn.Some? && s.conn.value.wire != [] && !r.over
    requires s.conn.value.id == r.parser.id && s.cursor == r.cursor && s.disk == r.disk
    ensures var a := handler(|r.calls|);
      var r' := ReadFrame(r, s.conn.value.wire[0], handler);
      var s' := After(s, Read(if a.failed then Failed else Succeeded(a.persisted)));
      && s'.cursor == r'.cursor && s'.disk == r'.disk
      && (s'.conn.Some? ==> s'.conn.value.id == r'.parser.id)
      && (r'.over && !a.stop ==> s'.conn.None?)
  {
  }
}
