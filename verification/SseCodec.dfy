/** The event stream between server and client: server/server.go, lines 439-449, writes it and
    useChatPanel.ts, lines 736-786, reads it. Both use the subset of sections 9.2.5 and 9.2.6 of the
    WHATWG HTML Living Standard in which a frame is an `event: ` line, one `data: ` line and a blank one. */
module SseCodec {
  import Strings

  // What reaches JSON.parse: the type of the event and its data.
  datatype Frame = Frame(event: string, data: string)

  // ----- the writer -----

  function Written(f: Frame): string {
    "event: " + f.event + "\ndata: " + f.data + "\n\n"
  }

  function WrittenAll(frames: seq<Frame>): string {
    if frames == [] then "" else Written(frames[0]) + WrittenAll(frames[1..])
  }

  // The server's event names and the output of json.Marshal.
  predicate Writable(f: Frame) {
    '\n' !in f.event && '\n' !in f.data && f.data != ""
  }

  // ----- the reader -----

  const BLANK_LINE := "\n\n"

  /** String.split: cut at every separator, leftmost first; there is always a last part. */
  function Split(s: string, sep: string): (parts: seq<string>)
    requires sep != ""
    ensures parts != []
    decreases |s|
  {
    var i := Strings.Index(s, sep);
    if i < 0 then [s] else [s[..i]] + Split(s[i + |sep|..], sep)
  }

  // String.trim leaves nothing.
  predicate IsBlank(s: string) {
    forall c :: c in s ==> (Strings.IsSpace(c) && c != '\U{0085}') || c == '\U{FEFF}'
  }

  // The last matching line of each kind counts.
  function ReadLines(lines: seq<string>): Frame {
    if lines == [] then Frame("message", "")
    else
      var f, line := ReadLines(lines[..|lines| - 1]), lines[|lines| - 1];
      if Strings.HasPrefix(line, "event: ") then f.(event := line[7..])
      else if Strings.HasPrefix(line, "data: ") then f.(data := line[6..])
      else f
  }

  function ReadPart(part: string): seq<Frame> {
    if IsBlank(part) then []
    else
      var f := ReadLines(Split(part, "\n"));
      if f.data == "" then [] else [f]
  }

  function ReadParts(parts: seq<string>): seq<Frame> {
    if parts == [] then [] else ReadParts(parts[..|parts| - 1]) + ReadPart(parts[|parts| - 1])
  }

  // The frames of a whole stream, and what is left over at its end.
  function Read(s: string): (seq<Frame>, string) {
    var parts := Split(s, BLANK_LINE);
    (ReadParts(parts[..|parts| - 1]), parts[|parts| - 1])
  }

  class Reader {
    var buffer: string
    var frames: seq<Frame>

    constructor ()
      ensures buffer == "" && frames == []
    {
      buffer, frames := "", [];
    }

    /** One turn of the read loop, with the text of one chunk. */
    method Feed(chunk: string)
      modifies this
      ensures frames == old(frames) + Read(old(buffer) + chunk).0
      ensures buffer == Read(old(buffer) + chunk).1
    {
      buffer := buffer + chunk;
      var parts := Split(buffer, BLANK_LINE);
      buffer := parts[|parts| - 1];
      HandleParts(parts[..|parts| - 1]);
    }

    method HandleParts(parts: seq<string>)
      modifies this`frames
      ensures frames == old(frames) + ReadParts(parts)
    {
      for i := 0 to |parts|
        invariant frames == old(frames) + ReadParts(parts[..i])
      {
        assert parts[..i + 1][..i] == parts[..i];
        if IsBlank(parts[i]) {
          continue;
        }
        var f := ReadFrame(parts[i]);
        if f.data == "" {
          continue;
        }
        frames := frames + [f];
      }
      assert parts[..|parts|] == parts;
    }

    static method ReadFrame(part: string) returns (f: Frame)
      ensures f == ReadLines(Split(part, "\n"))
    {
      f := Frame("message", "");
      var lines := Split(part, "\n");
      for i := 0 to |lines|
        invariant f == ReadLines(lines[..i])
      {
        assert lines[..i + 1][..i] == lines[..i];
        if Strings.HasPrefix(lines[i], "event: ") {
          f := f.(event := lines[i][7..]);
        } else if Strings.HasPrefix(lines[i], "data: ") {
          f := f.(data := lines[i][6..]);
        }
      }
      assert lines[..|lines|] == lines;
    }
  }

  function Concat(chunks: seq<string>): string {
    if chunks == [] then "" else chunks[0] + Concat(chunks[1..])
  }

  /** A whole stream, however it is cut into chunks. */
  method ReadStream(chunks: seq<string>) returns (frames: seq<Frame>, leftover: string)
    ensures (frames, leftover) == Read(Concat(chunks))
  {
    var reader := new Reader();
    ReadNothing();
    for i := 0 to |chunks|
      invariant (reader.frames, reader.buffer) == Read(Concat(chunks[..i]))
    {
      ConcatSnoc(chunks[..i], chunks[i]);
      assert chunks[..i + 1] == chunks[..i] + [chunks[i]];
      ReadOn(Concat(chunks[..i]), chunks[i]);
      reader.Feed(chunks[i]);
    }
    assert chunks[..|chunks|] == chunks;
    frames, leftover := reader.frames, reader.buffer;
  }

  lemma {:induction false} ConcatSnoc(chunks: seq<string>, chunk: string)
    ensures Concat(chunks + [chunk]) == Concat(chunks) + chunk
  {
    if chunks == [] {
      assert chunks + [chunk] == [chunk];
      assert [chunk][1..] == [];
    } else {
      ConcatSnoc(chunks[1..], chunk);
      assert (chunks + [chunk])[1..] == chunks[1..] + [chunk];
    }
  }

  lemma ReadNothing()
    ensures Read("") == ([], "")
  {
    assert Strings.Index("", BLANK_LINE) == -1 by {
      assert forall i :: !Strings.OccursAt("", BLANK_LINE, i);
    }
  }

  // ----- reading on from a leftover -----

  // Parts already complete stay as they are when more text follows.
  lemma {:induction false} SplitOn(a: string, b: string)
    ensures var parts := Split(a, BLANK_LINE);
      Split(a + b, BLANK_LINE) == parts[..|parts| - 1] + Split(parts[|parts| - 1] + b, BLANK_LINE)
    decreases |a|
  {
    var i := Strings.Index(a, BLANK_LINE);
    if i < 0 {
      var parts := [a];
      assert parts[..0] == [] && parts[0] == a;
    } else {
      var rest := a[i + 2..];
      IndexStays(a, b, i);
      assert (a + b)[..i] == a[..i] && (a + b)[i + 2..] == rest + b;
      SplitOn(rest, b);
      var later := Split(rest, BLANK_LINE);
      Prepend(a[..i], later, Split(later[|later| - 1] + b, BLANK_LINE));
    }
  }

  lemma Prepend(first: string, later: seq<string>, more: seq<string>)
    requires later != []
    ensures var parts := [first] + later;
      && parts[|parts| - 1] == later[|later| - 1]
      && parts[..|parts| - 1] + more == [first] + (later[..|later| - 1] + more)
  {
    var parts := [first] + later;
    assert parts[..|parts| - 1] == [first] + later[..|later| - 1];
  }

  lemma IndexStays(a: string, b: string, i: nat)
    requires Strings.Index(a, BLANK_LINE) == i
    ensures Strings.Index(a + b, BLANK_LINE) == i
  {
    Strings.OccursInPrefix(a, b, BLANK_LINE, i);
    forall j: nat | j < i ensures !Strings.OccursAt(a + b, BLANK_LINE, j) {
      Strings.OccursInPrefix(a, b, BLANK_LINE, j);
    }
  }

  lemma {:induction false} ReadPartsAppend(a: seq<string>, b: seq<string>)
    ensures ReadParts(a + b) == ReadParts(a) + ReadParts(b)
  {
    if b == [] {
      assert a + b == a;
    } else {
      assert (a + b)[..|a + b| - 1] == a + b[..|b| - 1];
      ReadPartsAppend(a, b[..|b| - 1]);
    }
  }

  // What `Read` makes of the parts of a stream.
  function ReadSplit(parts: seq<string>): (seq<Frame>, string)
    requires parts != []
  {
    (ReadParts(parts[..|parts| - 1]), parts[|parts| - 1])
  }

  lemma ReadSplitAppend(first: seq<string>, later: seq<string>)
    requires later != []
    ensures ReadSplit(first + later) == (ReadParts(first) + ReadSplit(later).0, ReadSplit(later).1)
  {
    assert (first + later)[..|first + later| - 1] == first + later[..|later| - 1];
    ReadPartsAppend(first, later[..|later| - 1]);
  }

  lemma ReadOn(a: string, b: string)
    ensures var (frames, leftover) := Read(a);
      Read(a + b) == (frames + Read(leftover + b).0, Read(leftover + b).1)
  {
    var parts := Split(a, BLANK_LINE);
    SplitOn(a, b);
    ReadSplitAppend(parts[..|parts| - 1], Split(parts[|parts| - 1] + b, BLANK_LINE));
    assert Read(a + b) == ReadSplit(Split(a + b, BLANK_LINE));
  }

  // ----- the round trip -----

  lemma NoBreak(s: string, c: char, i: nat)
    requires c !in s && i < |s|
    ensures s[i] != c
  {
  }

  // Text without a line break is one line; a line before a break is cut off.
  lemma SplitLine(line: string, rest: string)
    requires '\n' !in line
    ensures Split(line, "\n") == [line]
    ensures Split(line + "\n" + rest, "\n") == [line] + Split(rest, "\n")
  {
    var s := line + "\n" + rest;
    forall i: nat | i < |line| ensures !Strings.OccursAt(line, "\n", i) && !Strings.OccursAt(s, "\n", i) {
      NoBreak(line, '\n', i);
      assert s[i] == line[i];
      Strings.Mismatch(line, "\n", i, 0);
      Strings.Mismatch(s, "\n", i, 0);
    }
    assert s[|line|..|line| + 1] == "\n";
    assert Strings.OccursAt(s, "\n", |line|);
    assert s[..|line|] == line && s[|line| + 1..] == rest;
  }

  lemma LinesOf(f: Frame)
    requires Writable(f)
    ensures Split("event: " + f.event + "\ndata: " + f.data, "\n") == ["event: " + f.event, "data: " + f.data]
  {
    var first, second := "event: " + f.event, "data: " + f.data;
    SplitLine(first, second);
    SplitLine(second, "");
    assert "event: " + f.event + "\ndata: " + f.data == first + "\n" + second;
  }

  lemma PrefixedLine(pat: string, rest: string)
    ensures Strings.HasPrefix(pat + rest, pat) && (pat + rest)[|pat|..] == rest
  {
  }

  lemma PartRead(f: Frame)
    requires Writable(f)
    ensures ReadPart("event: " + f.event + "\ndata: " + f.data) == [f]
  {
    var part := "event: " + f.event + "\ndata: " + f.data;
    var first, second := "event: " + f.event, "data: " + f.data;
    LinesOf(f);
    PrefixedLine("event: ", f.event);
    PrefixedLine("data: ", f.data);
    Strings.Mismatch(second, "event: ", 0, 0);
    var lines := [first, second];
    assert lines[..1] == [first] && [first][..0] == [];
    assert ReadLines([first]) == Frame(f.event, "");
    assert ReadLines(lines) == f;
    assert part[0] == 'e' && part[0] in part;
  }

  // A written frame is cut off exactly at its end.
  lemma FrameCut(f: Frame, rest: string)
    requires Writable(f)
    ensures var part := "event: " + f.event + "\ndata: " + f.data;
      Split(Written(f) + rest, BLANK_LINE) == [part] + Split(rest, BLANK_LINE)
  {
    var head, part := "event: " + f.event, "event: " + f.event + "\ndata: " + f.data;
    var s := Written(f) + rest;
    assert s == part + BLANK_LINE + rest;
    forall i: nat | i < |part| ensures !Strings.OccursAt(s, BLANK_LINE, i) {
      if i < |head| {
        NoBreak(head, '\n', i);
        assert s[i] == head[i];
        Strings.Mismatch(s, BLANK_LINE, i, 0);
      } else if i == |head| {
        assert s[i + 1] == 'd';
        Strings.Mismatch(s, BLANK_LINE, i, 1);
      } else {
        var line := "data: " + f.data;
        assert part == head + "\n" + line;
        NoBreak(line, '\n', i - |head| - 1);
        assert s[i] == part[i] == line[i - |head| - 1];
        Strings.Mismatch(s, BLANK_LINE, i, 0);
      }
    }
    assert s[|part|..|part| + 2] == BLANK_LINE;
    assert Strings.OccursAt(s, BLANK_LINE, |part|);
    assert s[..|part|] == part && s[|part| + 2..] == rest;
  }

  lemma ReadWritten(f: Frame, rest: string)
    requires Writable(f)
    ensures Read(Written(f) + rest) == ([f] + Read(rest).0, Read(rest).1)
  {
    var part := "event: " + f.event + "\ndata: " + f.data;
    FrameCut(f, rest);
    PartRead(f);
    ReadSplitAppend([part], Split(rest, BLANK_LINE));
    assert [part][..0] == [];
    assert ReadParts([part]) == [f];
    assert Read(Written(f) + rest) == ReadSplit(Split(Written(f) + rest, BLANK_LINE));
  }

  /** What the server writes is read back, frame for frame, with nothing left over; by ReadStream this
      holds for every way of cutting the stream into chunks. */
  lemma {:induction false} RoundTrip(frames: seq<Frame>)
    requires forall i :: 0 <= i < |frames| ==> Writable(frames[i])
    ensures Read(WrittenAll(frames)) == (frames, "")
  {
    if frames == [] {
      ReadNothing();
    } else {
      RoundTrip(frames[1..]);
      ReadWritten(frames[0], WrittenAll(frames[1..]));
      assert frames == [frames[0]] + frames[1..];
    }
  }

  // ----- the format -----

  function Joined(parts: seq<string>, sep: string): string
    requires parts != []
  {
    if |parts| == 1 then parts[0] else parts[0] + sep + Joined(parts[1..], sep)
  }

  /** Splitting cuts a text at its separators: joined with them the parts are the text, and no part holds one. */
  lemma {:induction false} SplitMeaning(s: string, sep: string)
    requires sep != ""
    ensures Joined(Split(s, sep), sep) == s
    ensures forall k :: 0 <= k < |Split(s, sep)| ==> !Strings.Occurs(Split(s, sep)[k], sep)
    decreases |s|
  {
    var i := Strings.Index(s, sep);
    if i >= 0 {
      var rest := s[i + |sep|..];
      SplitMeaning(rest, sep);
      var parts := Split(s, sep);
      assert parts[1..] == Split(rest, sep);
      assert s == s[..i] + sep + rest;
      if x :| Strings.OccursAt(s[..i], sep, x) {
        assert s[..i][x..x + |sep|] == s[x..x + |sep|];
        assert Strings.OccursAt(s, sep, x);
      }
    }
  }

  /** One frame on the wire: an event line, a data line and a blank line. */
  lemma FrameMeaning(event: string, data: string)
    requires '\n' !in event && '\n' !in data && data != ""
    ensures WrittenAll([Frame(event, data)]) == "event: " + event + "\ndata: " + data + "\n\n"
    ensures Read("event: " + event + "\ndata: " + data + "\n\n") == ([Frame(event, data)], "")
  {
    var f := Frame(event, data);
    assert WrittenAll([f][1..]) == "" && WrittenAll([f]) == Written(f);
    RoundTrip([f]);
  }

  /** What the lines of a part make of a frame: the last event and the last data count, an event is a message unless
      it says otherwise, and other lines do not matter. */
  lemma LineMeaning(lines: seq<string>, line: string, x: string)
    ensures ReadLines([]) == Frame("message", "")
    ensures ReadLines(lines + ["event: " + x]) == ReadLines(lines).(event := x)
    ensures ReadLines(lines + ["data: " + x]) == ReadLines(lines).(data := x)
    ensures !Strings.HasPrefix(line, "event: ") && !Strings.HasPrefix(line, "data: ") ==>
      ReadLines(lines + [line]) == ReadLines(lines)
  {
    PrefixedLine("event: ", x);
    PrefixedLine("data: ", x);
    Strings.Mismatch("data: " + x, "event: ", 0, 0);
    assert forall l: string :: (lines + [l])[..|lines|] == lines;
  }

  predicate WhiteSpace(c: char) {
    || '\t' <= c <= '\r'
    || c in {' ', '\U{00A0}', '\U{1680}', '\U{2028}', '\U{2029}', '\U{202F}', '\U{205F}', '\U{3000}', '\U{FEFF}'}
    || '\U{2000}' <= c <= '\U{200A}'
  }

  /** A part that is white space as JavaScript sees it, or has no data, holds no frame. */
  lemma PartMeaning(part: string)
    ensures ReadPart(part) ==
      if (forall c :: c in part ==> WhiteSpace(c)) || ReadLines(Split(part, "\n")).data == "" then []
      else [ReadLines(Split(part, "\n"))]
  {
    assert IsBlank(part) <==> forall c :: c in part ==> WhiteSpace(c);
  }
}
