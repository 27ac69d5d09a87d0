/** The bridge's incremental server-sent-events parser, and the printer it reads. */
module SseFrames {

  datatype Frame = Frame(event: string, id: string, data: string)

  /** Parser state between lines: the fields of the frame being read and the bytes
      it has used so far. */
  datatype Parser = Parser(event: string, id: string, data: seq<string>, size: nat)

  const FRESH := Parser("message", "", [], 0)

  const MAX_FRAME_BYTES: nat := 1024 * 1024

  /** Bytes of a text in UTF-8. */
  function ByteLength(s: string): nat {
    if s == "" then 0 else CharBytes(s[0]) + ByteLength(s[1..])
  }

  function CharBytes(c: char): (n: nat)
    ensures 1 <= n <= 4
  {
    if c < '\U{80}' then 1 else if c < '\U{800}' then 2 else if c < '\U{10000}' then 3 else 4
  }

  /** First position of `c`, or -1. */
  function IndexOf(s: string, c: char): (i: int)
    ensures -1 <= i < |s|
    ensures i >= 0 ==> s[i] == c && c !in s[..i]
    ensures i < 0 ==> c !in s
  {
    if s == "" then -1
    else if s[0] == c then 0
    else
      var rest := IndexOf(s[1..], c);
      assert rest >= 0 ==> s[..rest + 1] == [s[0]] + s[1..][..rest];
      if rest < 0 then -1 else rest + 1
  }

  function StripReturn(line: string): string {
    if line != "" && line[|line| - 1] == '\r' then line[..|line| - 1] else line
  }

  function StripSpace(value: string): string {
    if value != "" && value[0] == ' ' then value[1..] else value
  }

  function Join(parts: seq<string>): string {
    if parts == [] then "" else if |parts| == 1 then parts[0] else parts[0] + "\n" + Join(parts[1..])
  }

  function SetField(p: Parser, line: string): Parser {
    var colon := IndexOf(line, ':');
    var field := if colon < 0 then line else line[..colon];
    var value := if colon < 0 then "" else StripSpace(line[colon + 1..]);
    Assigned(p, field, value)
  }

  function Assigned(p: Parser, field: string, value: string): Parser {
    if field == "event" then p.(event := value)
    else if field == "id" then p.(id := value)
    else if field == "data" then p.(data := p.data + [value])
    else p
  }

  /** What one complete line does: `TooLarge`, or a new state and at most one frame. */
  datatype Fed = TooLarge | Fed(parser: Parser, frames: seq<Frame>)

  function FeedLine(p: Parser, raw: string): Fed {
    var line := StripReturn(raw);
    var size := p.size + ByteLength(line);
    if size > MAX_FRAME_BYTES then TooLarge
    else if line == "" then Fed(FRESH, if p.data == [] then [] else [Frame(p.event, p.id, Join(p.data))])
    else if line[0] == ':' then Fed(p.(size := size), [])
    else Fed(SetField(p.(size := size), line), [])
  }

  /** The lines of a text, fed one after another; `rest` is the unfinished line. */
  datatype Parsed = Parsed(frames: seq<Frame>, parser: Parser, rest: string, failed: bool)

  function FeedText(p: Parser, text: string): Parsed
    decreases |text|
  {
    var newline := IndexOf(text, '\n');
    if newline < 0 then Parsed([], p, text, false)
    else
      var fed := FeedLine(p, text[..newline]);
      if fed.TooLarge? then Parsed([], p, "", true)
      else
        Prepend(fed.frames, FeedText(fed.parser, text[newline + 1..]))
  }

  function Prepend(frames: seq<Frame>, r: Parsed): Parsed { r.(frames := frames + r.frames) }

  lemma PrependTwice(a: seq<Frame>, b: seq<Frame>, r: Parsed)
    ensures Prepend(a, Prepend(b, r)) == Prepend(a + b, r)
  {
  }

  /** The unfinished line already makes the frame too large. */
  predicate Overflows(r: Parsed) { ByteLength(r.rest) + r.parser.size > MAX_FRAME_BYTES }

  function Concat(chunks: seq<string>): string {
    if chunks == [] then "" else Concat(chunks[..|chunks| - 1]) + chunks[|chunks| - 1]
  }

  /** A text that arrives whole: the reference the chunked parser is compared to. */
  predicate AcceptsWhole(text: string) {
    var r := FeedText(FRESH, text);
    !r.failed && !Overflows(r)
  }

  /** The parser fails at the end of some received chunk. */
  predicate RejectsAt(chunks: seq<string>, k: nat)
    requires k <= |chunks|
  {
    var r := FeedText(FRESH, Concat(chunks[..k]));
    r.failed || Overflows(r)
  }

  lemma {:induction false} FeedTextConcat(p: Parser, a: string, b: string)
    ensures var first := FeedText(p, a);
            FeedText(p, a + b) ==
              if first.failed then first
              else Prepend(first.frames, FeedText(first.parser, first.rest + b))
    decreases |a|
  {
    hide FeedLine, IndexOf;
    var newline := IndexOf(a, '\n');
    if newline >= 0 {
      IndexOfConcat(a, b, '\n');
      assert (a + b)[..newline] == a[..newline];
      assert (a + b)[newline + 1..] == a[newline + 1..] + b;
      var fed := FeedLine(p, a[..newline]);
      if fed.Fed? {
        FeedTextConcat(fed.parser, a[newline + 1..], b);
        var first := FeedText(fed.parser, a[newline + 1..]);
        if !first.failed {
          PrependTwice(fed.frames, first.frames, FeedText(first.parser, first.rest + b));
        }
      }
    }
  }

  lemma {:induction false} IndexOfConcat(a: string, b: string, c: char)
    requires c in a
    ensures IndexOf(a + b, c) == IndexOf(a, c)
  {
    if a[0] != c {
      assert (a + b)[1..] == a[1..] + b;
      IndexOfConcat(a[1..], b, c);
    }
  }

  /** FeedText's definition, for proofs that otherwise keep it folded. */
  lemma FeedTextUnfolds(p: Parser, text: string)
    ensures var newline := IndexOf(text, '\n');
            FeedText(p, text) ==
              if newline < 0 then Parsed([], p, text, false)
              else
                var fed := FeedLine(p, text[..newline]);
                if fed.TooLarge? then Parsed([], p, "", true)
                else Prepend(fed.frames, FeedText(fed.parser, text[newline + 1..]))
  {}

  /** Feeds every complete line of the buffer. */
  method DrainLines(p: Parser, buffer: string) returns (r: Parsed)
    ensures r == FeedText(p, buffer)
  {
    hide FeedLine, IndexOf, FeedText;
    var parser, rest, frames := p, buffer, [];
    var newline := IndexOf(rest, '\n');
    while newline >= 0
      invariant newline == IndexOf(rest, '\n')
      invariant FeedText(p, buffer) == Prepend(frames, FeedText(parser, rest))
      decreases |rest|
    {
      FeedTextUnfolds(parser, rest);
      var fed := FeedLine(parser, rest[..newline]);
      if fed.TooLarge? {
        return Parsed(frames, parser, "", true);
      }
      PrependTwice(frames, fed.frames, FeedText(fed.parser, rest[newline + 1..]));
      frames := frames + fed.frames;
      parser, rest := fed.parser, rest[newline + 1..];
      newline := IndexOf(rest, '\n');
    }
    FeedTextUnfolds(parser, rest);
    r := Parsed(frames, parser, rest, false);
  }

  /** The parser as it runs: one decoded chunk after another, then the end of the
      body. It stops at the first chunk boundary where the text so far is too large. */
  method Frames(chunks: seq<string>) returns (frames: seq<Frame>, ok: bool, ghost stop: nat)
    ensures ok <==> forall k :: 0 <= k <= |chunks| ==> !RejectsAt(chunks, k)
    ensures ok ==> frames == FeedText(FRESH, Concat(chunks)).frames
    ensures stop <= |chunks| && frames == FeedText(FRESH, Concat(chunks[..stop])).frames
    ensures forall k :: 0 <= k < stop ==> !RejectsAt(chunks, k)
    ensures if ok then stop == |chunks| && !RejectsAt(chunks, stop) else RejectsAt(chunks, stop)
  {
    hide FeedText, ByteLength;
    FeedTextUnfolds(FRESH, "");
    assert ByteLength("") == 0 by { ByteLengthEmpty(); }
    var r := Parsed([], FRESH, "", false);
    frames := [];
    var i := 0;
    while i < |chunks|
      invariant 0 <= i <= |chunks|
      invariant r.(frames := frames) == FeedText(FRESH, Concat(chunks[..i])) && !r.failed
      invariant forall k :: 0 <= k <= i ==> !RejectsAt(chunks, k)
    {
      ghost var before := Concat(chunks[..i]);
      assert chunks[..i + 1][..i] == chunks[..i];
      FeedTextConcat(FRESH, before, chunks[i]);
      r := DrainLines(r.parser, r.rest + chunks[i]);
      frames := frames + r.frames;
      i := i + 1;
      if r.failed || ByteLength(r.rest) + r.parser.size > MAX_FRAME_BYTES {
        assert RejectsAt(chunks, i);
        return frames, false, i;
      }
    }
    ok, stop := true, |chunks|;
    assert chunks[..|chunks|] == chunks;
  }

  // ------------------------------------------------- independence of chunking

  /** The one place where a chunk boundary matters: the text up to it ends with a
      carriage return that puts the unfinished line one byte over the limit, and the
      next character ends that line. */
  predicate ReturnAtLimit(before: string, after: string) {
    var r := FeedText(FRESH, before);
    && !r.failed
    && r.rest != "" && r.rest[|r.rest| - 1] == '\r'
    && ByteLength(r.rest) + r.parser.size == MAX_FRAME_BYTES + 1
    && after != "" && after[0] == '\n'
  }

  lemma {:induction false} ByteLengthConcat(a: string, b: string)
    ensures ByteLength(a + b) == ByteLength(a) + ByteLength(b)
  {
    if a == "" {
      assert a + b == b;
    } else {
      assert (a + b)[1..] == a[1..] + b;
      ByteLengthConcat(a[1..], b);
    }
  }

  lemma ByteLengthEmpty()
    ensures ByteLength("") == 0
  {}

  lemma ByteLengthOne(c: char)
    ensures ByteLength([c]) == CharBytes(c)
  {
  }

  lemma StripReturnBytes(line: string)
    ensures ByteLength(StripReturn(line)) ==
            ByteLength(line) - if line != "" && line[|line| - 1] == '\r' then 1 else 0
  {
    if line != "" && line[|line| - 1] == '\r' {
      var front := line[..|line| - 1];
      hide ByteLength;
      assert line == front + ['\r'];
      ByteLengthConcat(front, ['\r']);
      ByteLengthOne('\r');
    }
  }

  /** An unfinished line that is too large stays too large, whatever follows, with
      that single exception. */
  lemma OverflowPersists(before: string, after: string)
    requires !FeedText(FRESH, before).failed && Overflows(FeedText(FRESH, before))
    ensures !AcceptsWhole(before + after) || ReturnAtLimit(before, after)
  {
    hide FeedLine;
    var r := FeedText(FRESH, before);
    FeedTextConcat(FRESH, before, after);
    var text := r.rest + after;
    ByteLengthConcat(r.rest, after);
    RestHasNoNewline(FRESH, before);
    var newline := IndexOf(text, '\n');
    if newline >= 0 {
      var raw := text[..newline];
      assert newline >= |r.rest|;
      var extra := after[..newline - |r.rest|];
      assert raw == r.rest + extra;
      ByteLengthConcat(r.rest, extra);
      StripReturnBytes(raw);
      assert extra != "" ==> ByteLength(extra) >= 1;
      LongLineFails(r.parser, raw);
      if extra == "" { assert raw == r.rest; }
    }
  }

  lemma LongLineFails(p: Parser, raw: string)
    ensures FeedLine(p, raw).TooLarge? <==> p.size + ByteLength(StripReturn(raw)) > MAX_FRAME_BYTES
  {}

  lemma {:induction false} RestHasNoNewline(p: Parser, text: string)
    ensures !FeedText(p, text).failed ==> '\n' !in FeedText(p, text).rest
    decreases |text|
  {
    hide FeedLine;
    var newline := IndexOf(text, '\n');
    if newline >= 0 {
      var fed := FeedLine(p, text[..newline]);
      if fed.Fed? { RestHasNoNewline(fed.parser, text[newline + 1..]); }
    }
  }

  lemma {:induction false} ConcatSplit(chunks: seq<string>, k: nat)
    requires k <= |chunks|
    ensures Concat(chunks) == Concat(chunks[..k]) + Concat(chunks[k..])
  {
    if k == |chunks| {
      assert chunks[..k] == chunks;
    } else {
      var front := chunks[..|chunks| - 1];
      ConcatSplit(front, k);
      assert front[..k] == chunks[..k];
      assert front[k..] == chunks[k..][..|chunks[k..]| - 1];
    }
  }

  /** A body is accepted in pieces exactly when it is accepted whole and no piece
      ends between the two bytes of a line end at the limit; and then the frames are
      the same however it was cut. */
  lemma ChunkingIndependence(chunks: seq<string>)
    ensures (forall k :: 0 <= k <= |chunks| ==> !RejectsAt(chunks, k)) <==>
            AcceptsWhole(Concat(chunks)) &&
            forall k {:trigger chunks[..k]} :: 0 <= k <= |chunks| ==> !ReturnAtLimit(Concat(chunks[..k]), Concat(chunks[k..]))
  {
    assert chunks[..|chunks|] == chunks;
    if forall k :: 0 <= k <= |chunks| ==> !RejectsAt(chunks, k) {
      assert !RejectsAt(chunks, |chunks|);
      forall k {:trigger chunks[..k]} | 0 <= k <= |chunks|
        ensures !ReturnAtLimit(Concat(chunks[..k]), Concat(chunks[k..]))
      {
        assert !RejectsAt(chunks, k);
      }
    } else {
      var k :| 0 <= k <= |chunks| && RejectsAt(chunks, k);
      ConcatSplit(chunks, k);
      var r := FeedText(FRESH, Concat(chunks[..k]));
      FeedTextConcat(FRESH, Concat(chunks[..k]), Concat(chunks[k..]));
      if !r.failed {
        OverflowPersists(Concat(chunks[..k]), Concat(chunks[k..]));
      }
    }
  }

  lemma {:induction false} AsciiBytes(n: nat)
    ensures ByteLength(seq(n, _ => 'a')) == n
  {
    if n > 0 {
      assert seq(n, _ => 'a')[1..] == seq(n - 1, _ => 'a');
      AsciiBytes(n - 1);
    }
  }

  /** The exception is real: one line that fills a frame and ends in CR LF is
      accepted whole and rejected when the two bytes arrive separately. */
  lemma SplitLineEndAtLimit()
    ensures var line := seq(MAX_FRAME_BYTES, _ => 'a') + "\r";
            AcceptsWhole(line + "\n") && RejectsAt([line, "\n"], 1)
  {
    var body := seq(MAX_FRAME_BYTES, _ => 'a');
    var line := body + "\r";
    AsciiBytes(MAX_FRAME_BYTES);
    ByteLengthConcat(body, "\r");
    assert ByteLength("\r") == 1;
    assert StripReturn(line) == body;
    assert Concat([line, "\n"][..1]) == line by {
      assert [line, "\n"][..1] == [line];
      assert Concat([line]) == Concat([]) + line;
    }
    FeedCompleteLine(FRESH, line, "");
    assert line + "\n" + "" == line + "\n";
    assert ByteLength("") == 0;
    assert IndexOf(body, ':') < 0;
  }

  // ------------------------------------------------------------- round trip

  /** The Go printer. */
  function Print(e: Frame): string {
    FieldLine("id", e.id) + "\n" + (FieldLine("event", e.event) + "\n" + (FieldLine("data", e.data) + "\n" + "\n"))
  }

  function FieldLine(field: string, value: string): string { field + ": " + value }

  function PrintAll(events: seq<Frame>): string {
    if events == [] then "" else Print(events[0]) + PrintAll(events[1..])
  }

  predicate CleanText(s: string) { '\n' !in s && (s != "" ==> s[|s| - 1] != '\r') }

  predicate Printable(e: Frame) {
    && CleanText(e.id) && CleanText(e.event) && CleanText(e.data)
    && ByteLength(FieldLine("id", e.id)) + ByteLength(FieldLine("event", e.event)) + ByteLength(FieldLine("data", e.data))
       <= MAX_FRAME_BYTES
  }

  lemma FeedCompleteLine(p: Parser, line: string, rest: string)
    requires '\n' !in line
    ensures FeedText(p, line + "\n" + rest) ==
            var fed := FeedLine(p, line);
            if fed.TooLarge? then Parsed([], p, "", true)
            else Prepend(fed.frames, FeedText(fed.parser, rest))
  {
    hide FeedLine;
    var text := line + "\n" + rest;
    IndexOfFirst(line, '\n', rest);
    assert text[..|line|] == line && text[|line| + 1..] == rest;
  }

  lemma {:induction false} IndexOfFirst(before: string, c: char, rest: string)
    requires c !in before
    ensures IndexOf(before + [c] + rest, c) == |before|
  {
    if before == "" {
      assert (before + [c] + rest)[0] == c;
    } else {
      assert (before + [c] + rest)[1..] == before[1..] + [c] + rest;
      assert before[0] in before;
      IndexOfFirst(before[1..], c, rest);
    }
  }

  /** A printed field line splits at its colon and gives the value back. */
  lemma FieldLineSplits(field: string, value: string)
    requires ':' !in field
    ensures var line := FieldLine(field, value);
            var colon := IndexOf(line, ':');
            colon == |field| && line[..colon] == field && StripSpace(line[colon + 1..]) == value
  {
    var line := FieldLine(field, value);
    assert line == field + [':'] + (" " + value);
    IndexOfFirst(field, ':', " " + value);
    assert line[|field| + 1..] == " " + value;
  }

  lemma FieldLineIsClean(field: string, value: string)
    requires CleanText(field) && CleanText(value)
    ensures '\n' !in FieldLine(field, value) && StripReturn(FieldLine(field, value)) == FieldLine(field, value)
  {
  }

  /** A printed field line sets exactly that field. */
  lemma FeedField(p: Parser, field: string, value: string, rest: string)
    requires CleanText(field) && CleanText(value) && field != "" && ':' !in field
    requires p.size + ByteLength(FieldLine(field, value)) <= MAX_FRAME_BYTES
    ensures FeedText(p, FieldLine(field, value) + "\n" + rest) ==
            FeedText(Assigned(p.(size := p.size + ByteLength(FieldLine(field, value))), field, value), rest)
  {
    hide ByteLength, IndexOf, FeedText, Assigned;
    var line := FieldLine(field, value);
    FieldLineIsClean(field, value);
    FieldLineSplits(field, value);
    assert line[0] == field[0] && field[0] in field;
    FeedCompleteLine(p, line, rest);
    var next := Assigned(p.(size := p.size + ByteLength(line)), field, value);
    assert FeedLine(p, line) == Fed(next, []);
    assert Prepend([], FeedText(next, rest)) == FeedText(next, rest);
  }

  lemma FeedPrinted(e: Frame, rest: string)
    requires Printable(e)
    ensures FeedText(FRESH, Print(e) + rest) == Prepend([e], FeedText(FRESH, rest))
  {
    hide FeedLine, FeedText, ByteLength, FieldLine;
    var idLine, eventLine, dataLine := FieldLine("id", e.id), FieldLine("event", e.event), FieldLine("data", e.data);
    var a, b, c := ByteLength(idLine), ByteLength(eventLine), ByteLength(dataLine);
    var tail3 := "" + "\n" + rest;
    var tail2 := dataLine + "\n" + tail3;
    var tail1 := eventLine + "\n" + tail2;
    assert Print(e) + rest == idLine + "\n" + tail1;
    FeedField(FRESH, "id", e.id, tail1);
    var p1 := Parser("message", e.id, [], a);
    assert Assigned(FRESH.(size := a), "id", e.id) == p1;
    FeedField(p1, "event", e.event, tail2);
    var p2 := Parser(e.event, e.id, [], a + b);
    assert Assigned(p1.(size := a + b), "event", e.event) == p2;
    FeedField(p2, "data", e.data, tail3);
    var p3 := Parser(e.event, e.id, [e.data], a + b + c);
    assert Assigned(p2.(size := a + b + c), "data", e.data) == p3;
    assert Join([e.data]) == e.data;
    FeedCompleteLine(p3, "", rest);
    FeedBlank(p3);
  }

  lemma FeedBlank(p: Parser)
    requires p.size <= MAX_FRAME_BYTES && p.data != []
    ensures FeedLine(p, "") == Fed(FRESH, [Frame(p.event, p.id, Join(p.data))])
  {
  }

  lemma {:induction false} FeedPrintedAll(events: seq<Frame>)
    requires forall e <- events :: Printable(e)
    ensures FeedText(FRESH, PrintAll(events)) == Parsed(events, FRESH, "", false)
  {
    if events != [] {
      FeedPrinted(events[0], PrintAll(events[1..]));
      FeedPrintedAll(events[1..]);
    }
  }

  predicate NoReturnNewline(s: string) { forall i :: 0 < i < |s| ==> !(s[i - 1] == '\r' && s[i] == '\n') }

  lemma CleanLine(field: string, value: string, tail: string)
    requires CleanText(field) && CleanText(value) && NoReturnNewline(tail)
    ensures NoReturnNewline(FieldLine(field, value) + "\n" + tail)
  {
  }

  lemma {:induction false} PrintedHasNoReturnNewline(events: seq<Frame>)
    requires forall e <- events :: Printable(e)
    ensures NoReturnNewline(PrintAll(events))
  {
    if events != [] {
      var e := events[0];
      assert Printable(e);
      var dataTail := FieldLine("data", e.data) + "\n" + "\n";
      var eventTail := FieldLine("event", e.event) + "\n" + dataTail;
      CleanLine("data", e.data, "\n");
      CleanLine("event", e.event, dataTail);
      CleanLine("id", e.id, eventTail);
      assert Print(e)[|Print(e)| - 1] == '\n';
      PrintedHasNoReturnNewline(events[1..]);
    }
  }

  lemma {:induction false} RestIsSuffix(p: Parser, text: string)
    ensures var r := FeedText(p, text);
            !r.failed ==> |r.rest| <= |text| && r.rest == text[|text| - |r.rest|..]
    decreases |text|
  {
    hide FeedLine;
    var newline := IndexOf(text, '\n');
    if newline >= 0 {
      var fed := FeedLine(p, text[..newline]);
      if fed.Fed? { RestIsSuffix(fed.parser, text[newline + 1..]); }
    }
  }

  /** Round trip: any way of cutting what the server printed is accepted, and gives
      back exactly the printed events. */
  lemma PrintedRoundTrip(events: seq<Frame>, chunks: seq<string>)
    requires forall e <- events :: Printable(e)
    requires Concat(chunks) == PrintAll(events)
    ensures forall k :: 0 <= k <= |chunks| ==> !RejectsAt(chunks, k)
    ensures FeedText(FRESH, Concat(chunks)).frames == events
  {
    FeedPrintedAll(events);
    PrintedHasNoReturnNewline(events);
    assert ByteLength("") == 0;
    forall k {:trigger chunks[..k]} | 0 <= k <= |chunks|
      ensures !ReturnAtLimit(Concat(chunks[..k]), Concat(chunks[k..]))
    {
      var before, after := Concat(chunks[..k]), Concat(chunks[k..]);
      ConcatSplit(chunks, k);
      RestIsSuffix(FRESH, before);
      var text := PrintAll(events);
      if after != "" && before != "" {
        assert text[|before| - 1] == before[|before| - 1] && text[|before|] == after[0];
      }
    }
    ChunkingIndependence(chunks);
  }
}
