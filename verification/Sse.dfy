/**
 * Server-sent events: the server's formatter, the client's block splitter and event parser
 * (sections 9.2.5 and 9.2.6 of the WHATWG HTML Standard).
 */
module Sse {
  import opened Events

  // ----- strings, as the two languages treat them -----

  function ReplaceCrLf(s: string): string {
    if s == "" then ""
    else if |s| >= 2 && s[0] == '\r' && s[1] == '\n' then "\n" + ReplaceCrLf(s[2..])
    else [s[0]] + ReplaceCrLf(s[1..])
  }

  function ReplaceCr(s: string): string {
    if s == "" then ""
    else [if s[0] == '\r' then '\n' else s[0]] + ReplaceCr(s[1..])
  }

  /** Both replacements in one scan; `TwoReplacements` shows that this is what the code computes. */
  function Normalize(s: string): string {
    if s == "" then ""
    else if s[0] != '\r' then [s[0]] + Normalize(s[1..])
    else if |s| >= 2 && s[1] == '\n' then "\n" + Normalize(s[2..])
    else "\n" + Normalize(s[1..])
  }

  /** Splitting at a separator, leftmost matches first. */
  function Split(s: string, separator: string): (parts: seq<string>)
    requires separator != ""
    ensures parts != []
  {
    if s == "" then [""]
    else if separator <= s then [""] + Split(s[|separator|..], separator)
    else
      var rest := Split(s[1..], separator);
      [[s[0]] + rest[0]] + rest[1..]
  }

  function Join(parts: seq<string>, separator: string): string
    requires parts != []
  {
    if |parts| == 1 then parts[0] else parts[0] + separator + Join(parts[1..], separator)
  }

  /** What the client's `trim` removes; the first range holds tab, the line ends and the two feeds. */
  predicate White(c: char) {
    || '\t' <= c <= '\r' || c == ' '
    || c == '\U{00A0}' || c == '\U{FEFF}' || c == '\U{1680}' || '\U{2000}' <= c <= '\U{200A}'
    || c == '\U{2028}' || c == '\U{2029}' || c == '\U{202F}' || c == '\U{205F}' || c == '\U{3000}'
  }

  function TrimLeft(s: string): string {
    if s != "" && White(s[0]) then TrimLeft(s[1..]) else s
  }

  function TrimRight(s: string): string {
    if s != "" && White(s[|s| - 1]) then TrimRight(s[..|s| - 1]) else s
  }

  function Trim(s: string): string {
    TrimRight(TrimLeft(s))
  }

  function Digit(d: nat): char
    requires d < 10
  {
    '0' + d as char
  }

  function Decimal(n: int): string
    decreases n < 0, if n < 0 then -n else n
  {
    if n < 0 then "-" + Decimal(-n)
    else if n < 10 then [Digit(n)]
    else Decimal(n / 10) + [Digit(n % 10)]
  }

  // ----- the server -----

  const KEEP_ALIVE := ": keep-alive\n\n"

  function HeadLines(event: Option<string>, id: Option<int>): seq<string> {
    (if id.Some? then ["id: " + Decimal(id.value)] else []) +
    (if event.Some? && event.value != "" then ["event: " + event.value] else [])
  }

  function DataLines(lines: seq<string>): (r: seq<string>)
    ensures |r| == |lines|
  {
    seq(|lines|, i requires 0 <= i < |lines| => "data: " + lines[i])
  }

  /** The lines of a frame. */
  function Lines(data: string, event: Option<string>, id: Option<int>): seq<string> {
    HeadLines(event, id) + DataLines(Split(Normalize(data), "\n"))
  }

  function Terminated(lines: seq<string>): string {
    if lines == [] then "" else Terminated(lines[..|lines| - 1]) + lines[|lines| - 1] + "\n"
  }

  lemma TerminatedSnoc(lines: seq<string>, line: string)
    ensures Terminated(lines + [line]) == Terminated(lines) + line + "\n"
  {
    assert (lines + [line])[..|lines|] == lines;
  }

  /** `format_sse_event`. */
  method FormatSseEvent(data: string, event: Option<string>, id: Option<int>) returns (payload: string)
    ensures payload == Terminated(Lines(data, event, id)) + "\n"
  {
    ghost var done: seq<string> := [];
    payload := "";
    if id.Some? {
      TerminatedSnoc(done, "id: " + Decimal(id.value));
      payload := payload + ("id: " + Decimal(id.value)) + "\n";
      done := done + ["id: " + Decimal(id.value)];
    }
    if event.Some? && event.value != "" {
      TerminatedSnoc(done, "event: " + event.value);
      payload := payload + ("event: " + event.value) + "\n";
      done := done + ["event: " + event.value];
    }
    assert done == HeadLines(event, id);
    payload := FormatData(payload, done, Split(Normalize(data), "\n"));
    payload := payload + "\n";
  }

  /** The loop of the formatter. */
  method FormatData(head: string, ghost done: seq<string>, lines: seq<string>) returns (payload: string)
    requires head == Terminated(done)
    ensures payload == Terminated(done + DataLines(lines))
  {
    payload := head;
    var i := 0;
    assert done + DataLines(lines[..0]) == done;
    while i < |lines|
      invariant 0 <= i <= |lines|
      invariant payload == Terminated(done + DataLines(lines[..i]))
    {
      TerminatedSnoc(done + DataLines(lines[..i]), "data: " + lines[i]);
      assert done + DataLines(lines[..i]) + ["data: " + lines[i]] == done + DataLines(lines[..i + 1]);
      payload := payload + ("data: " + lines[i]) + "\n";
      i := i + 1;
    }
    assert lines[..i] == lines;
  }

  // ----- the client -----

  datatype Blocks = Blocks(events: seq<string>, rest: string)

  function BlocksOf(parts: seq<string>): Blocks
    requires parts != []
  {
    Blocks(parts[..|parts| - 1], parts[|parts| - 1])
  }

  /** `splitSseBlocks`. */
  function SplitBlocks(buffer: string): Blocks {
    BlocksOf(Split(Normalize(buffer), "\n\n"))
  }

  datatype Parsed = Parsed(id: string, event: string, data: string)

  /** The parser's loop variables. */
  datatype Fields = Fields(id: string, event: string, data: seq<string>)

  const NO_FIELDS := Fields("", "message", [])

  function ParseLine(f: Fields, line: string): Fields {
    if Trim(line) == "" then f
    else if "event:" <= line then f.(event := Trim(line[6..]))
    else if "id:" <= line then f.(id := Trim(line[3..]))
    else if "data:" <= line then
      var raw := line[5..];
      f.(data := f.data + [if " " <= raw then raw[1..] else raw])
    else f
  }

  function ParseLines(lines: seq<string>): Fields {
    if lines == [] then NO_FIELDS else ParseLine(ParseLines(lines[..|lines| - 1]), lines[|lines| - 1])
  }

  function JoinData(data: seq<string>): string {
    if data == [] then "" else Join(data, "\n")
  }

  function Parse(raw: string): Parsed {
    var f := ParseLines(Split(Normalize(raw), "\n"));
    Parsed(f.id, f.event, JoinData(f.data))
  }

  /** `parseSseEvent`. */
  method ParseSseEvent(raw: string) returns (parsed: Parsed)
    ensures parsed == Parse(raw)
  {
    var lines := Split(Normalize(raw), "\n");
    var event, id, dataLines := "message", "", [];
    var i := 0;
    assert lines[..0] == [];
    while i < |lines|
      invariant 0 <= i <= |lines|
      invariant Fields(id, event, dataLines) == ParseLines(lines[..i])
    {
      assert lines[..i + 1][..i] == lines[..i];
      var line := lines[i];
      i := i + 1;
      if Trim(line) == "" {
        continue;
      }
      if "event:" <= line {
        event := Trim(line[6..]);
        continue;
      }
      if "id:" <= line {
        id := Trim(line[3..]);
        continue;
      }
      if "data:" <= line {
        var raw := line[5..];
        dataLines := dataLines + [if " " <= raw then raw[1..] else raw];
      }
    }
    assert lines[..i] == lines;
    parsed := Parsed(id, event, JoinData(dataLines));
  }

  /** The value of a string of decimal digits; the empty string counts as 0. */
  function DigitsValue(s: string): Option<nat> {
    if s == "" then Some(0)
    else
      var c := s[|s| - 1];
      match DigitsValue(s[..|s| - 1])
      case Some(v) => if '0' <= c <= '9' then Some(10 * v + (c as int - '0' as int)) else None
      case None => None
  }

  /** `getSseEventSequence`. */
  function EventSequence(id: string): Option<nat> {
    match DigitsValue(id)
    case Some(v) => if v > 0 then Some(v) else None
    case None => None
  }

  // ----- normalization -----

  predicate Without(s: string, c: char) {
    forall i :: 0 <= i < |s| ==> s[i] != c
  }

  lemma {:induction false} TwoReplacements(s: string)
    ensures Normalize(s) == ReplaceCr(ReplaceCrLf(s))
    decreases |s|
  {
    if s != "" {
      var t := ReplaceCrLf(s);
      if |s| >= 2 && s[0] == '\r' && s[1] == '\n' {
        assert t[1..] == ReplaceCrLf(s[2..]);
        TwoReplacements(s[2..]);
      } else {
        assert t[1..] == ReplaceCrLf(s[1..]);
        TwoReplacements(s[1..]);
      }
    }
  }

  lemma {:induction false} NormalizeRemovesCr(s: string)
    ensures Without(Normalize(s), '\r')
    ensures Without(s, '\r') ==> Normalize(s) == s
    decreases |s|
  {
    if s != "" {
      if s[0] == '\r' && |s| >= 2 && s[1] == '\n' {
        NormalizeRemovesCr(s[2..]);
      } else {
        NormalizeRemovesCr(s[1..]);
        assert s == [s[0]] + s[1..];
      }
    }
  }

  predicate CrLfAt(s: string, i: int) {
    0 <= i < |s| - 1 && s[i] == '\r' && s[i + 1] == '\n'
  }

  /** Normalizing piecewise is normalizing the whole unless a CR LF is torn apart. */
  lemma {:induction false} NormalizeConcat(a: string, b: string)
    requires !CrLfAt(a + b, |a| - 1)
    ensures Normalize(a + b) == Normalize(a) + Normalize(b)
    decreases |a|
  {
    if a == "" {
      Neutral(b);
      Neutral(Normalize(b));
    } else if !CrLfAt(a, 0) {
      TailOfConcat(a, b, 1);
      assert a[0] == '\r' ==> !CrLfAt(a + b, 0);
      NormalizeConcat(a[1..], b);
      Assoc(if a[0] == '\r' then "\n" else [a[0]], Normalize(a[1..]), Normalize(b));
    } else {
      TailOfConcat(a, b, 2);
      NormalizeConcat(a[2..], b);
      Assoc("\n", Normalize(a[2..]), Normalize(b));
    }
  }

  lemma TailOfConcat(a: string, b: string, n: nat)
    requires n <= |a|
    ensures (a + b)[n..] == a[n..] + b
    ensures forall i :: 0 <= i < n ==> (a + b)[i] == a[i]
  {
  }

  // ----- splitting -----

  lemma JoinCons(head: string, tail: seq<string>, separator: string)
    requires tail != []
    ensures Join([head] + tail, separator) == head + separator + Join(tail, separator)
  {
    assert ([head] + tail)[1..] == tail;
  }

  lemma JoinPrefixed(c: char, parts: seq<string>, separator: string)
    requires parts != []
    ensures Join([[c] + parts[0]] + parts[1..], separator) == [c] + Join(parts, separator)
  {
    var first := [c] + parts[0];
    if |parts| == 1 {
      assert [first] + parts[1..] == [first];
    } else {
      JoinCons(first, parts[1..], separator);
      Assoc([c], parts[0], separator);
      Assoc([c], parts[0] + separator, Join(parts[1..], separator));
    }
  }

  /** What splitting does at a separator, and in front of any other character. */
  lemma SplitAtSeparator(text: string, separator: string)
    requires separator != "" && separator <= text
    ensures Split(text, separator) == [""] + Split(text[|separator|..], separator)
  {
  }

  lemma SplitAtOther(text: string, separator: string)
    requires separator != "" && text != "" && !(separator <= text)
    ensures var rest := Split(text[1..], separator); Split(text, separator) == [[text[0]] + rest[0]] + rest[1..]
  {
  }

  lemma JoinAtSeparator(s: string, separator: string)
    requires separator != "" && separator <= s
    requires Join(Split(s[|separator|..], separator), separator) == s[|separator|..]
    ensures Join(Split(s, separator), separator) == s
  {
    var tail := s[|separator|..];
    SplitAtSeparator(s, separator);
    JoinCons("", Split(tail, separator), separator);
    Neutral(separator);
    assert s == separator + tail;
  }

  lemma {:induction false} JoinSplit(s: string, separator: string)
    requires separator != ""
    ensures Join(Split(s, separator), separator) == s
    decreases |s|
  {
    if s != "" {
      if separator <= s {
        JoinSplit(s[|separator|..], separator);
        JoinAtSeparator(s, separator);
      } else {
        JoinSplit(s[1..], separator);
        SplitAtOther(s, separator);
        JoinPrefixed(s[0], Split(s[1..], separator), separator);
        assert s == [s[0]] + s[1..];
      }
    }
  }

  lemma {:induction false} SplitShort(s: string, separator: string)
    requires separator != "" && |s| < |separator|
    ensures Split(s, separator) == [s]
    decreases |s|
  {
    if s != "" {
      SplitShort(s[1..], separator);
      assert s == [s[0]] + s[1..];
    }
  }

  lemma NotAPrefix(separator: string, x: string, y: string)
    requires |x| >= |separator|
    ensures separator <= x + y <==> separator <= x
  {
    assert (x + y)[..|separator|] == x[..|separator|];
  }

  /** Putting a character in front of the first of several parts leaves the last one alone. */
  lemma PrefixedFront(c: char, parts: seq<string>, more: seq<string>)
    requires |parts| > 1 && more != []
    ensures var prefixed := [[c] + parts[0]] + parts[1..];
            var resumed := parts[..|parts| - 1] + more;
            && prefixed[|prefixed| - 1] == parts[|parts| - 1]
            && prefixed[..|prefixed| - 1] + more == [[c] + resumed[0]] + resumed[1..]
  {
  }

  /** Splitting x + y resumes from the last part of x. */
  ghost predicate Resumes(x: string, y: string, separator: string)
    requires separator != ""
  {
    var parts := Split(x, separator);
    Split(x + y, separator) == parts[..|parts| - 1] + Split(parts[|parts| - 1] + y, separator)
  }

  lemma DropFront(x: string, y: string, n: nat)
    requires n <= |x|
    ensures (x + y)[n..] == x[n..] + y
  {
  }

  lemma ResumesBehindSeparator(x: string, y: string, separator: string)
    requires separator != "" && separator <= x && Resumes(x[|separator|..], y, separator)
    ensures Resumes(x, y, separator)
  {
    var tail := Split(x[|separator|..], separator);
    var last := |tail| - 1;
    NotAPrefix(separator, x, y);
    SplitAtSeparator(x, separator);
    SplitAtSeparator(x + y, separator);
    DropFront(x, y, |separator|);
    assert ([""] + tail)[..last + 1] == [""] + tail[..last];
    Assoc([""], tail[..last], Split(tail[last] + y, separator));
  }

  lemma ResumesBehindOther(x: string, y: string, separator: string)
    requires separator != "" && |x| >= |separator| && !(separator <= x) && Resumes(x[1..], y, separator)
    ensures Resumes(x, y, separator)
  {
    var rest := Split(x[1..], separator);
    if |rest| == 1 {
      JoinSplit(x, separator);
    } else {
      NotAPrefix(separator, x, y);
      SplitAtOther(x, separator);
      SplitAtOther(x + y, separator);
      DropFront(x, y, 1);
      PrefixedFront(x[0], rest, Split(rest[|rest| - 1] + y, separator));
    }
  }

  /** Splitting can be resumed from the last part. */
  lemma {:induction false} SplitConcat(x: string, y: string, separator: string)
    requires separator != ""
    ensures var parts := Split(x, separator); var last := |parts| - 1;
            Split(x + y, separator) == parts[..last] + Split(parts[last] + y, separator)
    decreases |x|
  {
    if |x| < |separator| {
      SplitShort(x, separator);
    } else if separator <= x {
      SplitConcat(x[|separator|..], y, separator);
      ResumesBehindSeparator(x, y, separator);
    } else {
      SplitConcat(x[1..], y, separator);
      ResumesBehindOther(x, y, separator);
    }
  }

  /** The last part holds no separator. */
  lemma LastPartWhole(x: string, separator: string)
    requires separator != ""
    ensures var parts := Split(x, separator); Split(parts[|parts| - 1], separator) == [parts[|parts| - 1]]
  {
    SplitConcat(x, "", separator);
    var parts := Split(x, separator);
    var last := |parts| - 1;
    assert x + "" == x && parts[last] + "" == parts[last];
    assert parts[last..] == [parts[last]];
    assert (parts[..last] + Split(parts[last], separator))[last..] == Split(parts[last], separator);
  }

  lemma {:induction false} PartsWithout(s: string, separator: string, c: char)
    requires separator != "" && Without(s, c)
    ensures forall i :: 0 <= i < |Split(s, separator)| ==> Without(Split(s, separator)[i], c)
    decreases |s|
  {
    if s != "" {
      if separator <= s {
        PartsWithout(s[|separator|..], separator, c);
      } else {
        PartsWithout(s[1..], separator, c);
      }
    }
  }

  // ----- chunks -----

  /** Feeding chunks one after another, each appended to what the last split left over. */
  function FeedAll(rest: string, chunks: seq<string>): Blocks
    decreases |chunks|
  {
    if chunks == [] then Blocks([], rest)
    else
      var b := SplitBlocks(rest + chunks[0]);
      var more := FeedAll(b.rest, chunks[1..]);
      Blocks(b.events + more.events, more.rest)
  }

  /** The reader loop of the client. */
  method FeedStream(chunks: seq<string>) returns (blocks: seq<string>, buffer: string)
    ensures Blocks(blocks, buffer) == FeedAll("", chunks)
  {
    blocks, buffer := [], "";
    var i := 0;
    assert chunks[0..] == chunks;
    while i < |chunks|
      invariant 0 <= i <= |chunks|
      invariant var more := FeedAll(buffer, chunks[i..]);
                FeedAll("", chunks) == Blocks(blocks + more.events, more.rest)
    {
      assert chunks[i..][1..] == chunks[i + 1..];
      var b := SplitBlocks(buffer + chunks[i]);
      var more := FeedAll(b.rest, chunks[i + 1..]);
      Assoc(blocks, b.events, more.events);
      blocks := blocks + b.events;
      buffer := b.rest;
      i := i + 1;
    }
  }

  function Concat(chunks: seq<string>): string {
    if chunks == [] then "" else chunks[0] + Concat(chunks[1..])
  }

  function NormalizeEach(chunks: seq<string>): string {
    if chunks == [] then "" else Normalize(chunks[0]) + NormalizeEach(chunks[1..])
  }

  /**
   * What is left over from a split can be fed again: it has no CR and no blank line, and normalizing it changes
   * nothing.
   */
  lemma FeedStep(rest: string, chunk: string)
    requires Without(rest, '\r')
    ensures SplitBlocks(rest + chunk) == BlocksOf(Split(rest + Normalize(chunk), "\n\n"))
    ensures var last := SplitBlocks(rest + chunk).rest; Without(last, '\r') && Split(last, "\n\n") == [last]
  {
    NormalizeConcat(rest, chunk);
    NormalizeRemovesCr(rest);
    NormalizeRemovesCr(rest + chunk);
    LastPartWhole(rest + Normalize(chunk), "\n\n");
    PartsWithout(rest + Normalize(chunk), "\n\n", '\r');
  }

  lemma BlocksOfConcat(front: seq<string>, parts: seq<string>)
    requires parts != []
    ensures BlocksOf(front + parts) == Blocks(front + BlocksOf(parts).events, BlocksOf(parts).rest)
  {
    assert (front + parts)[..|front + parts| - 1] == front + parts[..|parts| - 1];
  }

  lemma SplitResumes(text: string, tail: string)
    ensures var b := BlocksOf(Split(text, "\n\n"));
            var more := BlocksOf(Split(b.rest + tail, "\n\n"));
            BlocksOf(Split(text + tail, "\n\n")) == Blocks(b.events + more.events, more.rest)
  {
    SplitConcat(text, tail, "\n\n");
    var b := BlocksOf(Split(text, "\n\n"));
    BlocksOfConcat(b.events, Split(b.rest + tail, "\n\n"));
  }

  /** Feeding chunks is splitting the concatenation of the chunks normalized one by one. */
  lemma {:induction false} FeedSplitsOnce(rest: string, chunks: seq<string>)
    requires Without(rest, '\r') && Split(rest, "\n\n") == [rest]
    ensures FeedAll(rest, chunks) == BlocksOf(Split(rest + NormalizeEach(chunks), "\n\n"))
    decreases |chunks|
  {
    if chunks == [] {
      assert rest + "" == rest;
    } else {
      var head, tail := Normalize(chunks[0]), NormalizeEach(chunks[1..]);
      FeedStep(rest, chunks[0]);
      var b := SplitBlocks(rest + chunks[0]);
      FeedSplitsOnce(b.rest, chunks[1..]);
      var more := FeedAll(b.rest, chunks[1..]);
      assert FeedAll(rest, chunks) == Blocks(b.events + more.events, more.rest);
      SplitResumes(rest + head, tail);
      Assoc(rest, head, tail);
    }
  }

  lemma {:induction false} NormalizeEachWithoutCrLf(chunks: seq<string>)
    requires forall i :: !CrLfAt(Concat(chunks), i)
    ensures NormalizeEach(chunks) == Normalize(Concat(chunks))
    decreases |chunks|
  {
    if chunks != [] {
      var text, tail := Concat(chunks), Concat(chunks[1..]);
      NormalizeConcat(chunks[0], tail);
      forall i ensures !CrLfAt(tail, i) {
        assert CrLfAt(tail, i) ==> CrLfAt(text, i + |chunks[0]|);
      }
      NormalizeEachWithoutCrLf(chunks[1..]);
    }
  }

  /** A CR LF torn apart is seen as two line ends. */
  lemma TornCrLf(text: string, i: nat)
    requires CrLfAt(text, i)
    ensures Concat([text[..i + 1], text[i + 1..]]) == text
    ensures FeedAll("", [text[..i + 1], text[i + 1..]]) != SplitBlocks(text)
  {
    var before, a, b, after := text[..i], text[..i + 1], text[i + 1..], text[i + 2..];
    assert [a, b][1..] == [b] && [b][1..] == [];
    assert Concat([b]) == b + "" == b;
    assert NormalizeEach([b]) == Normalize(b) + NormalizeEach([b][1..]) == Normalize(b) + "" == Normalize(b);
    assert text == a + b;
    FeedSplitsOnce("", [a, b]);
    assert "" + NormalizeEach([a, b]) == Normalize(a) + Normalize(b);
    assert a == before + "\r" && text == before + text[i..];
    NormalizeConcat(before, "\r");
    NormalizeConcat(before, text[i..]);
    assert text[i..][2..] == after && b[1..] == after;
    assert Normalize("\r") == "\n";
    assert |Normalize(a) + Normalize(b)| == |Normalize(text)| + 1;
    JoinSplit(Normalize(a) + Normalize(b), "\n\n");
    JoinSplit(Normalize(text), "\n\n");
    BlocksDetermineParts(Split(Normalize(a) + Normalize(b), "\n\n"), Split(Normalize(text), "\n\n"));
  }

  lemma BlocksDetermineParts(p: seq<string>, q: seq<string>)
    requires p != [] && q != []
    ensures BlocksOf(p) == BlocksOf(q) ==> p == q
  {
    assert p == p[..|p| - 1] + [p[|p| - 1]];
    assert q == q[..|q| - 1] + [q[|q| - 1]];
  }

  /**
   * Chunk invariance: however a text is cut, feeding the chunks yields the blocks and the rest of the whole
   * text, if and only if the text holds no CR LF.
   */
  lemma ChunkInvarianceExactly(text: string)
    ensures (forall chunks :: Concat(chunks) == text ==> FeedAll("", chunks) == SplitBlocks(text))
            <==> (forall i :: !CrLfAt(text, i))
  {
    if forall i :: !CrLfAt(text, i) {
      forall chunks | Concat(chunks) == text ensures FeedAll("", chunks) == SplitBlocks(text) {
        NormalizeEachWithoutCrLf(chunks);
        FeedSplitsOnce("", chunks);
        assert "" + NormalizeEach(chunks) == Normalize(text);
      }
    } else {
      var i: int :| CrLfAt(text, i);
      TornCrLf(text, i);
    }
  }

  // ----- frames and keep-alives -----

  /** What the server sends: formatted events, and comments in between. */
  datatype Item = Frame(data: string, event: Option<string>, id: Option<int>) | Ping

  /** An event name that is a single line without white space at its ends; all names in use are. */
  predicate Name(e: string) {
    e != "" && !White(e[0]) && !White(e[|e| - 1]) && Without(e, '\n') && Without(e, '\r')
  }

  predicate Sendable(item: Item) {
    item.Frame? && item.event.Some? && item.event.value != "" ==> Name(item.event.value)
  }

  function ItemText(item: Item): string {
    match item
    case Frame(data, event, id) => Terminated(Lines(data, event, id)) + "\n"
    case Ping => KEEP_ALIVE
  }

  function StreamText(items: seq<Item>): string {
    if items == [] then "" else ItemText(items[0]) + StreamText(items[1..])
  }

  /** What the client should see of an item. */
  function Seen(item: Item): Parsed {
    match item
    case Frame(data, event, id) =>
      Parsed(if id.Some? then Decimal(id.value) else "",
             if event.Some? && event.value != "" then event.value else "message",
             Normalize(data))
    case Ping => Parsed("", "message", "")
  }

  function ItemLines(item: Item): (lines: seq<string>)
    ensures lines != []
  {
    match item
    case Frame(data, event, id) => Lines(data, event, id)
    case Ping => [": keep-alive"]
  }

  predicate Line(l: string) {
    l != "" && Without(l, '\n') && Without(l, '\r')
  }

  predicate AllLines(lines: seq<string>) {
    forall i :: 0 <= i < |lines| ==> Line(lines[i])
  }

  lemma {:induction false} DecimalIsPlain(n: int)
    ensures Decimal(n) != ""
    ensures forall i :: 0 <= i < |Decimal(n)| ==> Decimal(n)[i] == '-' || '0' <= Decimal(n)[i] <= '9'
    decreases n < 0, if n < 0 then -n else n
  {
    if n < 0 {
      DecimalIsPlain(-n);
    } else if n >= 10 {
      DecimalIsPlain(n / 10);
    }
  }

  lemma {:induction false} DecimalValue(n: nat)
    ensures DigitsValue(Decimal(n)) == Some(n)
  {
    var s := Decimal(n);
    if n >= 10 {
      DecimalValue(n / 10);
      assert s[..|s| - 1] == Decimal(n / 10);
      assert s[|s| - 1] == Digit(n % 10);
    } else {
      assert s[..0] == "";
    }
  }

  /** The client reads back the number the server wrote, and takes 0 and less as no number. */
  lemma {:induction false} SequenceRoundTrip(n: nat)
    ensures EventSequence(Decimal(n)) == if n > 0 then Some(n) else None
  {
    DecimalValue(n);
  }

  lemma {:induction false} SplitKeepsOutNewlines(s: string)
    ensures forall i :: 0 <= i < |Split(s, "\n")| ==> Without(Split(s, "\n")[i], '\n')
    decreases |s|
  {
    if s != "" {
      SplitKeepsOutNewlines(s[1..]);
    }
  }

  lemma HeadIsLines(event: Option<string>, id: Option<int>)
    requires event.Some? && event.value != "" ==> Name(event.value)
    ensures AllLines(HeadLines(event, id))
  {
    if id.Some? {
      DecimalIsPlain(id.value);
      assert Line("id: " + Decimal(id.value));
    }
    if event.Some? && event.value != "" {
      assert Line("event: " + event.value);
    }
  }

  lemma DataIsLines(data: string)
    ensures AllLines(DataLines(Split(Normalize(data), "\n")))
  {
    var parts := Split(Normalize(data), "\n");
    SplitKeepsOutNewlines(Normalize(data));
    NormalizeRemovesCr(data);
    PartsWithout(Normalize(data), "\n", '\r');
    forall i | 0 <= i < |parts| ensures Line("data: " + parts[i]) {
      var part := parts[i];
      assert Without(part, '\n') && Without(part, '\r');
    }
  }

  lemma LinesConcat(a: seq<string>, b: seq<string>)
    requires AllLines(a)
    requires AllLines(b)
    ensures AllLines(a + b)
  {
    forall i | 0 <= i < |a + b| ensures Line((a + b)[i]) {
      if i < |a| {
        assert Line(a[i]);
      } else {
        assert Line(b[i - |a|]);
      }
    }
  }

  lemma LinesAreLines(item: Item)
    requires Sendable(item)
    ensures AllLines(ItemLines(item))
  {
    if item.Frame? {
      HeadIsLines(item.event, item.id);
      DataIsLines(item.data);
      LinesConcat(HeadLines(item.event, item.id), DataLines(Split(Normalize(item.data), "\n")));
    }
  }

  lemma {:induction false} TerminatedIsJoin(lines: seq<string>)
    requires lines != []
    ensures Terminated(lines) == Join(lines, "\n") + "\n"
    decreases |lines|
  {
    var n := |lines| - 1;
    if n == 0 {
      assert lines[..0] == [];
      assert Terminated(lines) == "" + lines[0] + "\n";
    } else {
      TerminatedIsJoin(lines[..n]);
      JoinSnoc(lines[..n], lines[n]);
      assert lines[..n] + [lines[n]] == lines;
    }
  }

  lemma {:induction false} JoinSnoc(lines: seq<string>, line: string)
    requires lines != []
    ensures Join(lines + [line], "\n") == Join(lines, "\n") + "\n" + line
    decreases |lines|
  {
    var all := lines + [line];
    if |lines| == 1 {
      assert all[1..] == [line];
    } else {
      JoinSnoc(lines[1..], line);
      assert all[1..] == lines[1..] + [line];
    }
  }

  /** A text that neither holds nor can complete a blank line. */
  predicate OneBlock(b: string) {
    && b != "" && b[0] != '\n' && b[|b| - 1] != '\n'
    && forall i :: 0 <= i < |b| - 1 ==> b[i] != '\n' || b[i + 1] != '\n'
  }

  lemma {:induction false} JoinIsOneBlock(lines: seq<string>)
    requires lines != [] && AllLines(lines)
    ensures OneBlock(Join(lines, "\n")) && Without(Join(lines, "\n"), '\r')
    decreases |lines|
  {
    assert Line(lines[0]);
    if |lines| > 1 {
      JoinIsOneBlock(lines[1..]);
    }
  }

  lemma {:induction false} SplitJoin(lines: seq<string>)
    requires lines != [] && forall i :: 0 <= i < |lines| ==> Without(lines[i], '\n')
    ensures Split(Join(lines, "\n"), "\n") == lines
    decreases |lines|
  {
    if |lines| == 1 {
      SplitLine(lines[0], "");
      assert lines[0] + "" == lines[0];
    } else {
      SplitJoin(lines[1..]);
      var tail := Join(lines[1..], "\n");
      SplitLine(lines[0], "\n" + tail);
      assert lines[0] + ("\n" + tail) == lines[0] + "\n" + tail;
      assert ("\n" + tail)[1..] == tail;
      assert Split("\n" + tail, "\n") == [""] + lines[1..];
      assert lines[0] + "" == lines[0];
      assert lines == [lines[0]] + lines[1..];
    }
  }

  /** A piece without newlines stays in front of the first part. */
  lemma {:induction false} SplitLine(l: string, tail: string)
    requires Without(l, '\n')
    ensures Split(l + tail, "\n") == [l + Split(tail, "\n")[0]] + Split(tail, "\n")[1..]
    decreases |l|
  {
    var parts := Split(tail, "\n");
    if l == "" {
      assert l + tail == tail && l + parts[0] == parts[0];
    } else {
      SplitLine(l[1..], tail);
      assert (l + tail)[1..] == l[1..] + tail;
      assert [l[0]] + (l[1..] + parts[0]) == l + parts[0];
      assert ([l[1..] + parts[0]] + parts[1..])[1..] == parts[1..];
    }
  }

  lemma {:induction false} SplitAfterBlock(b: string, tail: string)
    requires forall i :: 0 <= i < |b| - 1 ==> b[i] != '\n' || b[i + 1] != '\n'
    requires b != "" ==> b[|b| - 1] != '\n'
    ensures Split(b + "\n\n" + tail, "\n\n") == [b] + Split(tail, "\n\n")
    decreases |b|
  {
    var text := b + "\n\n" + tail;
    if b == "" {
      assert text[2..] == tail;
    } else {
      SplitAfterBlock(b[1..], tail);
      assert text[1..] == b[1..] + "\n\n" + tail;
      assert text[0] == b[0] && (|b| > 1 ==> text[1] == b[1]);
      var rest := Split(text[1..], "\n\n");
      assert rest == [b[1..]] + Split(tail, "\n\n");
      assert [b[0]] + b[1..] == b;
    }
  }

  // ----- parsing a block -----

  lemma {:induction false} TrimRightKeepsHead(s: string)
    requires s != "" && !White(s[0])
    ensures TrimRight(s) != ""
    decreases |s|
  {
    if White(s[|s| - 1]) {
      TrimRightKeepsHead(s[..|s| - 1]);
    }
  }

  lemma TrimNotBlank(s: string)
    requires s != "" && !White(s[0])
    ensures Trim(s) != ""
  {
    TrimRightKeepsHead(s);
  }

  lemma TrimPadded(e: string)
    requires e != "" && !White(e[0]) && !White(e[|e| - 1])
    ensures Trim(" " + e) == e
  {
    assert (" " + e)[1..] == e;
    assert TrimLeft(" " + e) == TrimLeft(e) == e;
  }

  lemma ParseLineSnoc(lines: seq<string>, line: string)
    ensures ParseLines(lines + [line]) == ParseLine(ParseLines(lines), line)
  {
    assert (lines + [line])[..|lines|] == lines;
  }

  lemma ParseDataLine(f: Fields, l: string)
    ensures ParseLine(f, "data: " + l) == f.(data := f.data + [l])
  {
    var line := "data: " + l;
    TrimNotBlank(line);
    assert line[0] == 'd' && line[..5] == "data:";
    assert line[5..] == " " + l && (" " + l)[1..] == l;
    assert !("event:" <= line) && !("id:" <= line);
  }

  lemma DataLinesSnoc(lines: seq<string>)
    requires lines != []
    ensures DataLines(lines) == DataLines(lines[..|lines| - 1]) + ["data: " + lines[|lines| - 1]]
  {
  }

  lemma ParseOneMore(head: seq<string>, front: seq<string>, last: string)
    requires ParseLines(head + DataLines(front)) == ParseLines(head).(data := ParseLines(head).data + front)
    ensures ParseLines(head + (DataLines(front) + ["data: " + last])) ==
            ParseLines(head).(data := ParseLines(head).data + (front + [last]))
  {
    Assoc(head, DataLines(front), ["data: " + last]);
    ParseLineSnoc(head + DataLines(front), "data: " + last);
    ParseDataLine(ParseLines(head + DataLines(front)), last);
    Assoc(ParseLines(head).data, front, [last]);
  }

  lemma {:induction false} ParseDataLines(head: seq<string>, lines: seq<string>)
    ensures ParseLines(head + DataLines(lines)) == ParseLines(head).(data := ParseLines(head).data + lines)
    decreases |lines|
  {
    if lines == [] {
      assert DataLines(lines) == [];
      Neutral(head);
      Neutral(ParseLines(head).data);
    } else {
      var front, last := lines[..|lines| - 1], lines[|lines| - 1];
      ParseDataLines(head, front);
      ParseOneMore(head, front, last);
      DataLinesSnoc(lines);
      Unsnoc(lines);
    }
  }

  lemma ParseIdLine(f: Fields, n: int)
    ensures ParseLine(f, "id: " + Decimal(n)) == f.(id := Decimal(n))
  {
    var line := "id: " + Decimal(n);
    DecimalIsPlain(n);
    TrimNotBlank(line);
    assert line[0] == 'i' && line[..3] == "id:" && line[3..] == " " + Decimal(n);
    assert !("event:" <= line);
    TrimPadded(Decimal(n));
  }

  lemma ParseEventLine(f: Fields, e: string)
    requires Name(e)
    ensures ParseLine(f, "event: " + e) == f.(event := e)
  {
    var line := "event: " + e;
    TrimNotBlank(line);
    assert line[0] == 'e' && line[..6] == "event:" && line[6..] == " " + e;
    TrimPadded(e);
  }

  lemma ParseHead(event: Option<string>, id: Option<int>)
    requires event.Some? && event.value != "" ==> Name(event.value)
    ensures ParseLines(HeadLines(event, id)) ==
            Fields(if id.Some? then Decimal(id.value) else "",
                   if event.Some? && event.value != "" then event.value else "message", [])
  {
    var first := if id.Some? then ["id: " + Decimal(id.value)] else [];
    if id.Some? {
      ParseLineSnoc([], first[0]);
      ParseIdLine(NO_FIELDS, id.value);
      assert [] + [first[0]] == first;
    }
    if event.Some? && event.value != "" {
      ParseLineSnoc(first, "event: " + event.value);
      ParseEventLine(ParseLines(first), event.value);
    } else {
      assert HeadLines(event, id) == first;
    }
  }

  lemma ParseBlock(lines: seq<string>)
    requires lines != [] && AllLines(lines)
    ensures Parse(Join(lines, "\n")) == var f := ParseLines(lines); Parsed(f.id, f.event, JoinData(f.data))
  {
    JoinIsOneBlock(lines);
    NormalizeRemovesCr(Join(lines, "\n"));
    SplitJoin(lines);
  }

  lemma ParsePing()
    ensures ParseLines([": keep-alive"]) == NO_FIELDS
  {
    ParseLineSnoc([], ": keep-alive");
    assert [] + [": keep-alive"] == [": keep-alive"];
  }

  /** Parsing the lines of an item gives back its id, its event name and its data. */
  lemma ParseItem(item: Item)
    requires Sendable(item)
    ensures Parse(Join(ItemLines(item), "\n")) == Seen(item)
  {
    LinesAreLines(item);
    ParseBlock(ItemLines(item));
    match item {
      case Frame(data, event, id) =>
        ParseHead(event, id);
        ParseDataLines(HeadLines(event, id), Split(Normalize(data), "\n"));
        assert [] + Split(Normalize(data), "\n") == Split(Normalize(data), "\n");
        JoinSplit(Normalize(data), "\n");
      case Ping =>
        ParsePing();
    }
  }

  lemma ItemTextIsBlock(item: Item)
    requires Sendable(item)
    ensures ItemText(item) == Join(ItemLines(item), "\n") + "\n\n"
    ensures OneBlock(Join(ItemLines(item), "\n")) && Without(Join(ItemLines(item), "\n"), '\r')
    ensures Without(ItemText(item), '\r')
  {
    LinesAreLines(item);
    JoinIsOneBlock(ItemLines(item));
    var block := Join(ItemLines(item), "\n");
    match item {
      case Frame(data, event, id) =>
        TerminatedIsJoin(ItemLines(item));
        Assoc(block, "\n", "\n");
      case Ping =>
        assert block == ": keep-alive";
    }
    assert ItemText(item) == block + "\n\n";
  }

  function BlocksFor(items: seq<Item>): (r: seq<string>)
    ensures |r| == |items|
  {
    seq(|items|, i requires 0 <= i < |items| => Join(ItemLines(items[i]), "\n"))
  }

  lemma {:induction false} StreamWithoutCr(items: seq<Item>)
    requires forall i :: 0 <= i < |items| ==> Sendable(items[i])
    ensures Without(StreamText(items), '\r')
    decreases |items|
  {
    if items != [] {
      ItemTextIsBlock(items[0]);
      StreamWithoutCr(items[1..]);
    }
  }

  lemma BlocksForStep(items: seq<Item>)
    requires items != []
    ensures BlocksFor(items) == [Join(ItemLines(items[0]), "\n")] + BlocksFor(items[1..])
  {
  }

  lemma {:induction false} SplitStream(items: seq<Item>)
    requires forall i :: 0 <= i < |items| ==> Sendable(items[i])
    ensures Split(StreamText(items), "\n\n") == BlocksFor(items) + [""]
    decreases |items|
  {
    if items == [] {
      assert BlocksFor(items) == [];
    } else {
      var block, tail := Join(ItemLines(items[0]), "\n"), StreamText(items[1..]);
      ItemTextIsBlock(items[0]);
      SplitStream(items[1..]);
      SplitAfterBlock(block, tail);
      BlocksForStep(items);
      Assoc([block], BlocksFor(items[1..]), [""]);
    }
  }

  /**
   * Round trip through any cut: whatever the data, and however the text of frames and keep-alives is cut
   * into chunks, the client's blocks parse to exactly the ids, names and newline-normalized data that were
   * sent, one block an item, and nothing is left over.
   */
  lemma {:induction false} StreamRoundTrip(items: seq<Item>, chunks: seq<string>)
    requires forall i :: 0 <= i < |items| ==> Sendable(items[i])
    requires Concat(chunks) == StreamText(items)
    ensures var b := FeedAll("", chunks);
            && b.rest == "" && |b.events| == |items|
            && forall i :: 0 <= i < |items| ==> Parse(b.events[i]) == Seen(items[i])
  {
    var text := StreamText(items);
    SplitStream(items);
    StreamWithoutCr(items);
    NormalizeRemovesCr(text);
    ChunkInvarianceExactly(text);
    assert forall i :: !CrLfAt(text, i);
    assert FeedAll("", chunks) == SplitBlocks(text);
    assert (BlocksFor(items) + [""])[..|items|] == BlocksFor(items);
    forall i | 0 <= i < |items| ensures Parse(BlocksFor(items)[i]) == Seen(items[i]) {
      ParseItem(items[i]);
    }
  }

  /** The names under which a run's events are sent. */
  function KindName(kind: Kind): string {
    match kind
    case Metadata => "metadata"
    case Progress => "progress"
    case Token => "token"
    case Artifact => "artifact"
    case ArtifactTrace => "artifact_trace"
    case Approval => "approval"
    case Suggestions => "suggestions"
    case Error => "error"
    case Done => "done"
  }

  lemma KindNamesAreNames(kind: Kind)
    ensures Name(KindName(kind))
  {
    var name := KindName(kind);
    assert forall i :: 0 <= i < |name| ==> 'a' <= name[i] <= 'z' || name[i] == '_';
  }

  // ----- white space and fields, for every text -----

  /** The white space that `trim` removes, by code points. */
  lemma WhiteExactly(c: char)
    ensures White(c) <==>
              c as int in {0x9, 0xA, 0xB, 0xC, 0xD, 0x20, 0xA0, 0x1680, 0x2000, 0x2001, 0x2002, 0x2003, 0x2004, 0x2005,
                           0x2006, 0x2007, 0x2008, 0x2009, 0x200A, 0x2028, 0x2029, 0x202F, 0x205F, 0x3000, 0xFEFF}
  {
  }

  predicate AllWhite(s: string) {
    forall i :: 0 <= i < |s| ==> White(s[i])
  }

  lemma {:induction false} TrimLeftExactly(s: string) returns (left: string)
    ensures s == left + TrimLeft(s) && AllWhite(left)
    ensures TrimLeft(s) != "" ==> !White(TrimLeft(s)[0])
    decreases |s|
  {
    if s != "" && White(s[0]) {
      var more := TrimLeftExactly(s[1..]);
      left := [s[0]] + more;
      assert s == [s[0]] + s[1..];
    } else {
      left := "";
    }
  }

  lemma {:induction false} TrimRightExactly(s: string) returns (right: string)
    ensures s == TrimRight(s) + right && AllWhite(right)
    ensures TrimRight(s) != "" ==> !White(TrimRight(s)[|TrimRight(s)| - 1]) && TrimRight(s)[0] == s[0]
    decreases |s|
  {
    if s != "" && White(s[|s| - 1]) {
      var more := TrimRightExactly(s[..|s| - 1]);
      right := more + [s[|s| - 1]];
      assert s == s[..|s| - 1] + [s[|s| - 1]];
    } else {
      right := "";
    }
  }

  /** Trimming takes away white space at both ends, and leaves none there. */
  lemma TrimExactly(s: string) returns (left: string, right: string)
    ensures s == left + Trim(s) + right && AllWhite(left) && AllWhite(right)
    ensures Trim(s) != "" ==> !White(Trim(s)[0]) && !White(Trim(s)[|Trim(s)| - 1])
  {
    left := TrimLeftExactly(s);
    right := TrimRightExactly(TrimLeft(s));
    Assoc(left, Trim(s), right);
  }

  /** The value behind a field name, for every value: trimmed for names and numbers, short of one space for data. */
  lemma FieldLines(f: Fields, value: string)
    ensures ParseLine(f, "event:" + value) == f.(event := Trim(value))
    ensures ParseLine(f, "id:" + value) == f.(id := Trim(value))
    ensures ParseLine(f, "data:" + value) ==
            f.(data := f.data + [if value != "" && value[0] == ' ' then value[1..] else value])
  {
    var e, i, d := "event:" + value, "id:" + value, "data:" + value;
    TrimNotBlank(e);
    TrimNotBlank(i);
    TrimNotBlank(d);
    assert e[6..] == value && i[3..] == value && d[5..] == value;
    assert i[0] == 'i' && d[0] == 'd' && e[0] == 'e';
  }

  lemma {:induction false} WhiteIsTrimmed(s: string)
    requires AllWhite(s)
    ensures TrimLeft(s) == ""
    decreases |s|
  {
    if s != "" {
      WhiteIsTrimmed(s[1..]);
    }
  }

  /** A line that starts with none of the three names, or is blank, changes nothing. */
  lemma OtherLines(f: Fields, line: string)
    requires AllWhite(line) || !("event:" <= line || "id:" <= line || "data:" <= line)
    ensures ParseLine(f, line) == f
  {
    if AllWhite(line) {
      WhiteIsTrimmed(line);
    }
  }
}
