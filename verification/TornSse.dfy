/**
 * Frames of which only the first characters arrived: what the client's parser makes of them.
 */
module TornSse {
  import opened Events
  import opened Sse

  // ----- a text that ends anywhere -----

  /** Where line m starts in the joined text. */
  function Offset(lines: seq<string>, m: nat): nat
    requires m <= |lines|
  {
    if m == 0 then 0 else |lines[0]| + 1 + Offset(lines[1..], m - 1)
  }

  /** The lines before line m, and the first j characters of that line. */
  function CutAt(lines: seq<string>, m: nat, j: nat): (r: seq<string>)
    requires m < |lines| && j <= |lines[m]|
    ensures |r| == m + 1
  {
    lines[..m] + [lines[m][..j]]
  }

  lemma JoinStep(lines: seq<string>)
    requires |lines| > 1
    ensures Join(lines, "\n") == lines[0] + "\n" + Join(lines[1..], "\n")
  {
  }

  lemma CutStep(lines: seq<string>, m: nat, j: nat)
    requires 0 < m < |lines| && j <= |lines[m]|
    ensures CutAt(lines, m, j) == [lines[0]] + CutAt(lines[1..], m - 1, j)
  {
  }

  lemma LongerPrefix(head: string, a: string, b: string)
    requires a <= b
    ensures head + a <= head + b
  {
  }

  /** The cut lines join to a prefix of the text, and every prefix is of this kind. */
  lemma {:induction false} CutIsPrefix(lines: seq<string>, m: nat, j: nat)
    requires m < |lines| && j <= |lines[m]|
    ensures Join(CutAt(lines, m, j), "\n") <= Join(lines, "\n")
    ensures |Join(CutAt(lines, m, j), "\n")| == Offset(lines, m) + j
    decreases |lines|
  {
    if m == 0 {
      assert CutAt(lines, 0, j) == [lines[0][..j]];
    } else {
      CutStep(lines, m, j);
      CutIsPrefix(lines[1..], m - 1, j);
      JoinCons(lines[0], CutAt(lines[1..], m - 1, j), "\n");
      JoinStep(lines);
      LongerPrefix(lines[0] + "\n", Join(CutAt(lines[1..], m - 1, j), "\n"), Join(lines[1..], "\n"));
    }
  }

  lemma {:induction false} FindCut(lines: seq<string>, k: nat) returns (m: nat, j: nat)
    requires lines != [] && k <= |Join(lines, "\n")|
    ensures m < |lines| && j <= |lines[m]| && k == Offset(lines, m) + j
    ensures Join(lines, "\n")[..k] == Join(CutAt(lines, m, j), "\n")
    decreases |lines|
  {
    if k <= |lines[0]| {
      m, j := 0, k;
    } else {
      JoinStep(lines);
      var m', j' := FindCut(lines[1..], k - |lines[0]| - 1);
      m, j := m' + 1, j';
    }
    CutIsPrefix(lines, m, j);
  }

  /** How much of the text is missing behind a cut. */
  lemma {:induction false} MissingBehind(lines: seq<string>, m: nat, j: nat)
    requires m < |lines| && j <= |lines[m]|
    ensures var missing := |Join(lines, "\n")| - Offset(lines, m) - j;
            if m == |lines| - 1 then missing == |lines[m]| - j else missing > |lines[|lines| - 1]|
    decreases |lines|
  {
    if |lines| > 1 {
      JoinStep(lines);
      if m > 0 {
        MissingBehind(lines[1..], m - 1, j);
      } else {
        MissingBehind(lines[1..], 0, 0);
      }
    }
  }

  // ----- parsing a frame that was cut -----

  /** How many digits of the id the first k characters of a frame hold. */
  function DigitsRead(n: nat, k: nat): (r: nat)
    ensures r <= |Decimal(n)|
  {
    if k < 4 then 0 else if k - 4 < |Decimal(n)| then k - 4 else |Decimal(n)|
  }

  lemma ShortIdLine(line: string)
    requires line in {"", "i", "id", "id:", "id: "}
    ensures ParseLine(NO_FIELDS, line) == NO_FIELDS
  {
    assert " "[1..] == "" && TrimLeft("") == "" && TrimLeft(" ") == TrimLeft("");
    if line == "id:" {
      assert line[3..] == "";
    } else if line == "id: " {
      assert line[3..] == " ";
    }
  }

  lemma ShortIdPrefix(j: nat)
    requires j <= 4
    ensures "id: "[..j] in {"", "i", "id", "id:", "id: "}
  {
    assert "id: "[..0] == "" && "id: "[..1] == "i" && "id: "[..2] == "id" && "id: "[..3] == "id:"
           && "id: "[..4] == "id: ";
  }

  lemma DigitsLine(digits: string)
    requires digits != "" && forall i :: 0 <= i < |digits| ==> digits[i] == '-' || '0' <= digits[i] <= '9'
    ensures ParseLine(NO_FIELDS, "id: " + digits) == NO_FIELDS.(id := digits)
  {
    var line := "id: " + digits;
    TrimNotBlank(line);
    assert line[0] == 'i' && line[..3] == "id:" && line[3..] == " " + digits;
    TrimPadded(digits);
  }

  lemma CutBehind(head: string, tail: string, j: nat)
    requires j <= |head + tail|
    ensures (head + tail)[..j] == if j <= |head| then head[..j] else head + tail[..j - |head|]
  {
  }

  lemma CutIdLine(n: nat, j: nat)
    requires j <= |"id: " + Decimal(n)|
    ensures ParseLine(NO_FIELDS, ("id: " + Decimal(n))[..j]) == NO_FIELDS.(id := Decimal(n)[..DigitsRead(n, j)])
  {
    CutBehind("id: ", Decimal(n), j);
    if j <= 4 {
      ShortIdPrefix(j);
      ShortIdLine("id: "[..j]);
    } else {
      DecimalIsPlain(n);
      DigitsLine(Decimal(n)[..j - 4]);
    }
  }

  lemma CutEventLine(f: Fields, line: string)
    requires line == "" || line[0] == 'e'
    ensures ParseLine(f, line).id == f.id && ParseLine(f, line).data == f.data
  {
  }

  /** What is left of a data line once its first j characters are parsed. */
  function DataRead(x: string, j: nat): seq<string>
    requires j <= |"data: " + x|
  {
    if j < 5 then [] else [x[..if j < 6 then 0 else j - 6]]
  }

  lemma CutDataLine(f: Fields, x: string, j: nat)
    requires j <= |"data: " + x|
    ensures ParseLine(f, ("data: " + x)[..j]) == f.(data := f.data + DataRead(x, j))
  {
    var line := ("data: " + x)[..j];
    if j < 6 {
      assert line == "data: "[..j];
      if j == 0 {
        assert Trim("") == "";
      } else {
        TrimNotBlank(line);
      }
      assert j == 5 ==> line == "data:" && line[5..] == "";
      Neutral(f.data);
    } else {
      assert line == "data: " + x[..j - 6];
      ParseDataLine(f, x[..j - 6]);
    }
  }

  lemma LinesBefore(parts: seq<string>, i: nat)
    requires 0 < i < |parts|
    ensures Join(parts[..i], "\n") <= Join(parts, "\n") && |Join(parts[..i], "\n")| < |Join(parts, "\n")|
  {
    var last := parts[i - 1];
    MissingBehind(parts, i - 1, |last|);
    CutIsPrefix(parts, i - 1, |last|);
    assert last[..|last|] == last;
    assert CutAt(parts, i - 1, |last|) == parts[..i];
  }

  /** Data of which the first i lines, and the first j characters of the next data line, were parsed. */
  lemma DataReadIsPrefix(parts: seq<string>, i: nat, j: nat)
    requires i < |parts| && j <= |"data: " + parts[i]| && Join(parts, "\n") != ""
    ensures var read, all := JoinData(parts[..i] + DataRead(parts[i], j)), Join(parts, "\n");
            && read <= all
            && (read == all <==> AllRead(parts, i, j))
  {
    if j < 5 {
      Neutral(parts[..i]);
      if i > 0 {
        LinesBefore(parts, i);
      }
    } else {
      var c := if j < 6 then 0 else j - 6;
      MissingBehind(parts, i, c);
      CutIsPrefix(parts, i, c);
      assert parts[..i] + DataRead(parts[i], j) == CutAt(parts, i, c);
    }
  }

  /** The head of a frame that a run's stream holds: an id, and an event name unless it is empty. */
  lemma ParseOne(line: string)
    ensures ParseLines([line]) == ParseLine(NO_FIELDS, line)
  {
    Neutral([line]);
    ParseLineSnoc([], line);
  }

  /** An id line, and perhaps an event line. */
  predicate IsHead(head: seq<string>, n: nat) {
    && 1 <= |head| <= 2 && head[0] == "id: " + Decimal(n)
    && (|head| == 2 ==> head[1] != "" && head[1][0] == 'e')
  }

  lemma HeadShape(event: Option<string>, n: nat)
    ensures IsHead(HeadLines(event, Some(n)), n)
  {
  }

  /** What the first k characters of a frame parse to while they end in its head: digits of the id, and no data. */
  predicate OnlyHead(f: Fields, n: nat, k: nat) {
    f.data == [] && f.id == Decimal(n)[..DigitsRead(n, k)]
  }

  lemma CutIdAlone(n: nat, line: string, j: nat, cut: seq<string>)
    requires line == "id: " + Decimal(n) && j <= |line| && cut == [line[..j]]
    ensures OnlyHead(ParseLines(cut), n, j)
  {
    ParseOne(line[..j]);
    CutIdLine(n, j);
  }

  lemma CutBehindId(n: nat, first: string, line: string, cut: seq<string>)
    requires first == "id: " + Decimal(n) && (line == "" || line[0] == 'e') && cut == [first] + [line]
    ensures ParseLines(cut).data == [] && ParseLines(cut).id == Decimal(n)
  {
    ParseLineSnoc([first], line);
    ParseOne(first);
    ParseIdLine(NO_FIELDS, n);
    CutEventLine(ParseLines([first]), line);
  }

  lemma CutHead(n: nat, m: nat, j: nat, head: seq<string>, cut: seq<string>, f: Fields)
    requires IsHead(head, n) && m < |head| && j <= |head[m]|
    requires cut == CutAt(head, m, j) && f == ParseLines(cut)
    ensures OnlyHead(f, n, Offset(head, m) + j)
  {
    if m == 0 {
      CutIdAlone(n, head[0], j, cut);
    } else {
      CutBehindId(n, head[0], head[1][..j], cut);
      TailDigits(n, head, 1, j);
    }
  }

  lemma HeadBefore(head: seq<string>, tail: seq<string>, i: nat, j: nat)
    requires i < |tail| && j <= |tail[i]|
    ensures CutAt(head + tail, |head| + i, j) == (head + tail[..i]) + [tail[i][..j]]
  {
    assert (head + tail)[..|head| + i] == head + tail[..i];
  }

  lemma DataLinesTake(parts: seq<string>, i: nat)
    requires i <= |parts|
    ensures DataLines(parts)[..i] == DataLines(parts[..i])
  {
  }

  lemma CutTail(event: Option<string>, n: nat, parts: seq<string>, i: nat, j: nat)
    requires event.Some? && event.value != "" ==> Name(event.value)
    requires i < |parts| && j <= |DataLines(parts)[i]|
    ensures var head := HeadLines(event, Some(n));
            ParseLines(CutAt(head + DataLines(parts), |head| + i, j)) ==
            ParseLines(head).(data := parts[..i] + DataRead(parts[i], j))
  {
    var head, line := HeadLines(event, Some(n)), ("data: " + parts[i])[..j];
    HeadBefore(head, DataLines(parts), i, j);
    DataLinesTake(parts, i);
    ParseLineSnoc(head + DataLines(parts[..i]), line);
    ParseDataLines(head, parts[..i]);
    ParseHead(event, Some(n));
    Neutral(parts[..i]);
    CutDataLine(ParseLines(head + DataLines(parts[..i])), parts[i], j);
  }

  lemma OffsetOfHead(head: seq<string>, tail: seq<string>, m: nat)
    requires m <= |head|
    ensures Offset(head + tail, m) == Offset(head, m)
    decreases m
  {
    if m > 0 {
      assert (head + tail)[1..] == head[1..] + tail;
      OffsetOfHead(head[1..], tail, m - 1);
    }
  }

  lemma CutOfHead(head: seq<string>, tail: seq<string>, m: nat, j: nat)
    requires m < |head| && j <= |head[m]|
    ensures CutAt(head + tail, m, j) == CutAt(head, m, j)
  {
    assert (head + tail)[..m] == head[..m];
  }

  lemma CutOfLines(head: seq<string>, tail: seq<string>, m: nat, j: nat, lines: seq<string>)
    requires lines == head + tail && m < |head| && j <= |head[m]|
    ensures m < |lines| && lines[m] == head[m]
    ensures CutAt(lines, m, j) == CutAt(head, m, j) && Offset(lines, m) == Offset(head, m)
  {
    OffsetOfHead(head, tail, m);
    CutOfHead(head, tail, m, j);
  }

  /** Cut lines are still lines to the parser. */
  lemma CutParses(lines: seq<string>, m: nat, j: nat)
    requires AllLines(lines) && m < |lines| && j <= |lines[m]|
    ensures var f := ParseLines(CutAt(lines, m, j));
            Parse(Join(CutAt(lines, m, j), "\n")) == Parsed(f.id, f.event, JoinData(f.data))
  {
    var cut := CutAt(lines, m, j);
    forall i | 0 <= i < |cut| ensures Without(cut[i], '\n') {
      assert Line(lines[i]);
    }
    SplitJoin(cut);
    CutIsPrefix(lines, m, j);
    JoinIsOneBlock(lines);
    NormalizeRemovesCr(Join(cut, "\n"));
  }

  lemma CutFrameParses(data: string, event: Option<string>, n: nat, m: nat, j: nat, lines: seq<string>, p: Parsed)
    returns (f: Fields)
    requires Sendable(Frame(data, event, Some(n)))
    requires lines == HeadLines(event, Some(n)) + DataLines(Parts(data)) && m < |lines| && j <= |lines[m]|
    requires p == Parse(Join(CutAt(lines, m, j), "\n"))
    ensures f == ParseLines(CutAt(lines, m, j)) && p == Parsed(f.id, f.event, JoinData(f.data))
  {
    f := ParseLines(CutAt(lines, m, j));
    LinesAreLines(Frame(data, event, Some(n)));
    CutParses(lines, m, j);
  }

  /**
   * How far the end of a frame's text may be cut off without a loss: its two newlines, and the space before
   * empty data.
   */
  function Spare(parts: seq<string>): nat
    requires parts != []
  {
    if parts[|parts| - 1] == "" then 3 else 2
  }

  function Parts(data: string): (parts: seq<string>)
    ensures parts != []
  {
    Split(Normalize(data), "\n")
  }

  /** The first k characters of a frame's block, as the client parses them. */
  ghost predicate ReadsTo(data: string, event: Option<string>, n: nat, k: nat, p: Parsed) {
    var whole := Frame(data, event, Some(n));
    var complete := k + Spare(Parts(data)) >= |ItemText(whole)|;
    && p.id == Decimal(n)[..DigitsRead(n, k)]
    && p.data <= Normalize(data)
    && (p.data == Normalize(data) <==> complete)
    && (p == Seen(whole) <==> complete)
  }

  lemma DataIsThere(data: string)
    requires data != ""
    ensures Normalize(data) != "" && Join(Parts(data), "\n") == Normalize(data)
  {
    JoinSplit(Normalize(data), "\n");
  }

  /** `missing` characters of the block are not there; the two newlines behind it are not counted. */
  lemma Judge(data: string, event: Option<string>, n: nat, k: nat, missing: nat, p: Parsed)
    requires k + missing + 2 == |ItemText(Frame(data, event, Some(n)))|
    requires p.id == Decimal(n)[..DigitsRead(n, k)] && p.data <= Normalize(data)
    requires p.data == Normalize(data) <==> missing + 2 <= Spare(Parts(data))
    requires p.data == Normalize(data) ==> p == Seen(Frame(data, event, Some(n)))
    ensures ReadsTo(data, event, n, k, p)
  {
  }

  lemma TextLength(data: string, event: Option<string>, n: nat)
    requires Sendable(Frame(data, event, Some(n)))
    ensures |ItemText(Frame(data, event, Some(n)))| ==
              |Join(HeadLines(event, Some(n)) + DataLines(Parts(data)), "\n")| + 2
  {
    ItemTextIsBlock(Frame(data, event, Some(n)));
  }

  // A cut in the head.

  lemma HeadMissing(head: seq<string>, parts: seq<string>, m: nat, j: nat)
    requires m < |head| && j <= |head[m]| && parts != []
    ensures |Join(head + DataLines(parts), "\n")| - Offset(head + DataLines(parts), m) - j > 5
  {
    var lines := head + DataLines(parts);
    MissingBehind(lines, m, j);
    assert lines[|lines| - 1] == "data: " + parts[|parts| - 1];
  }

  lemma HeadRead(n: nat, head: seq<string>, tail: seq<string>, m: nat, j: nat, lines: seq<string>, f: Fields)
    requires IsHead(head, n) && m < |head| && j <= |head[m]| && lines == head + tail
    requires m < |lines| && j <= |lines[m]| && f == ParseLines(CutAt(lines, m, j))
    ensures OnlyHead(f, n, Offset(lines, m) + j)
  {
    CutOfLines(head, tail, m, j, lines);
    CutHead(n, m, j, head, CutAt(lines, m, j), f);
  }

  lemma JudgeHead(data: string, event: Option<string>, n: nat, k: nat, missing: nat, p: Parsed)
    requires data != "" && k + missing + 2 == |ItemText(Frame(data, event, Some(n)))| && missing > 5
    requires p.id == Decimal(n)[..DigitsRead(n, k)] && p.data == ""
    ensures ReadsTo(data, event, n, k, p)
  {
    DataIsThere(data);
    Judge(data, event, n, k, missing, p);
  }

  lemma HeadParsed(f: Fields, n: nat, k: nat, p: Parsed)
    requires OnlyHead(f, n, k) && p == Parsed(f.id, f.event, JoinData(f.data))
    ensures p.data == "" && p.id == Decimal(n)[..DigitsRead(n, k)]
  {
  }

  lemma HeadFields(event: Option<string>, n: nat, tail: seq<string>, m: nat, j: nat, lines: seq<string>, f: Fields)
    requires m < |HeadLines(event, Some(n))| && j <= |HeadLines(event, Some(n))[m]|
    requires lines == HeadLines(event, Some(n)) + tail
    requires m < |lines| && j <= |lines[m]| && f == ParseLines(CutAt(lines, m, j))
    ensures OnlyHead(f, n, Offset(lines, m) + j)
  {
    HeadShape(event, n);
    HeadRead(n, HeadLines(event, Some(n)), tail, m, j, lines, f);
  }

  lemma HeadRest(data: string, event: Option<string>, n: nat, head: seq<string>, m: nat, j: nat, lines: seq<string>)
    requires Sendable(Frame(data, event, Some(n))) && head == HeadLines(event, Some(n))
    requires lines == head + DataLines(Parts(data)) && m < |head| && j <= |head[m]|
    ensures |Join(lines, "\n")| - Offset(lines, m) - j > 5
    ensures |ItemText(Frame(data, event, Some(n)))| == |Join(lines, "\n")| + 2
  {
    HeadMissing(head, Parts(data), m, j);
    TextLength(data, event, n);
  }

  lemma CutInHead(data: string, event: Option<string>, n: nat, m: nat, j: nat, lines: seq<string>, p: Parsed)
    requires Sendable(Frame(data, event, Some(n))) && data != ""
    requires lines == HeadLines(event, Some(n)) + DataLines(Parts(data))
    requires m < |HeadLines(event, Some(n))| && j <= |HeadLines(event, Some(n))[m]|
    requires m < |lines| && j <= |lines[m]| && p == Parse(Join(CutAt(lines, m, j), "\n"))
    ensures ReadsTo(data, event, n, Offset(lines, m) + j, p)
  {
    var k := Offset(lines, m) + j;
    var f := CutFrameParses(data, event, n, m, j, lines, p);
    HeadFields(event, n, DataLines(Parts(data)), m, j, lines, f);
    HeadParsed(f, n, k, p);
    HeadRest(data, event, n, HeadLines(event, Some(n)), m, j, lines);
    JudgeHead(data, event, n, k, |Join(lines, "\n")| - k, p);
  }

  // A cut in the data.

  /** The first i lines of the data are read, and j characters of the next one; these are all. */
  predicate AllRead(parts: seq<string>, i: nat, j: nat) {
    i == |parts| - 1 && j >= 5 && (if j < 6 then 0 else j - 6) == |parts[i]|
  }

  lemma {:induction false} OffsetGrows(lines: seq<string>, m: nat)
    requires 0 < m <= |lines|
    ensures Offset(lines, m) > |lines[0]|
  {
  }

  lemma TailRead(event: Option<string>, n: nat, parts: seq<string>, i: nat, j: nat, lines: seq<string>, m: nat,
                 f: Fields)
    requires event.Some? && event.value != "" ==> Name(event.value)
    requires i < |parts| && j <= |DataLines(parts)[i]|
    requires lines == HeadLines(event, Some(n)) + DataLines(parts) && m == |HeadLines(event, Some(n))| + i
    requires f == ParseLines(CutAt(lines, m, j))
    ensures f == Fields(Decimal(n), if event.Some? && event.value != "" then event.value else "message",
                        parts[..i] + DataRead(parts[i], j))
  {
    CutTail(event, n, parts, i, j);
    ParseHead(event, Some(n));
  }

  lemma TailDigits(n: nat, lines: seq<string>, m: nat, j: nat)
    requires 0 < m <= |lines| && |lines[0]| == |Decimal(n)| + 4
    ensures DigitsRead(n, Offset(lines, m) + j) == |Decimal(n)|
    ensures Decimal(n)[..DigitsRead(n, Offset(lines, m) + j)] == Decimal(n)
  {
    OffsetGrows(lines, m);
    assert Decimal(n)[..|Decimal(n)|] == Decimal(n);
  }

  lemma TailMissing(head: seq<string>, parts: seq<string>, i: nat, j: nat)
    requires i < |parts| && j <= |DataLines(parts)[i]|
    ensures var lines := head + DataLines(parts);
            var missing := |Join(lines, "\n")| - Offset(lines, |head| + i) - j;
            missing >= 0 && (missing + 2 <= Spare(parts) <==> AllRead(parts, i, j))
  {
    var lines := head + DataLines(parts);
    MissingBehind(lines, |head| + i, j);
    assert lines[|lines| - 1] == "data: " + parts[|parts| - 1] && lines[|head| + i] == "data: " + parts[i];
  }

  lemma TailData(head: seq<string>, data: string, i: nat, j: nat, lines: seq<string>, m: nat)
    requires data != "" && i < |Parts(data)| && j <= |DataLines(Parts(data))[i]|
    requires lines == head + DataLines(Parts(data)) && m == |head| + i
    ensures var missing := |Join(lines, "\n")| - Offset(lines, m) - j;
            var read := JoinData(Parts(data)[..i] + DataRead(Parts(data)[i], j));
            && missing >= 0 && read <= Normalize(data)
            && (read == Normalize(data) <==> missing + 2 <= Spare(Parts(data)))
  {
    DataIsThere(data);
    TailMissing(head, Parts(data), i, j);
    DataReadIsPrefix(Parts(data), i, j);
  }

  lemma JudgeTail(data: string, event: Option<string>, n: nat, k: nat, missing: nat, p: Parsed, read: string)
    requires k + missing + 2 == |ItemText(Frame(data, event, Some(n)))|
    requires read <= Normalize(data) && (read == Normalize(data) <==> missing + 2 <= Spare(Parts(data)))
    requires Decimal(n)[..DigitsRead(n, k)] == Decimal(n)
    requires p == Seen(Frame(data, event, Some(n))).(data := read)
    ensures ReadsTo(data, event, n, k, p)
  {
    Judge(data, event, n, k, missing, p);
  }

  /** `lines` are the lines of a frame, and line m is the line of its i-th data line. */
  ghost predicate DataLineAt(data: string, event: Option<string>, n: nat, i: nat, j: nat, lines: seq<string>, m: nat) {
    && Sendable(Frame(data, event, Some(n))) && data != ""
    && i < |Parts(data)| && j <= |DataLines(Parts(data))[i]|
    && lines == HeadLines(event, Some(n)) + DataLines(Parts(data)) && m == |HeadLines(event, Some(n))| + i
    && m < |lines| && j <= |lines[m]|
  }

  lemma TailParsed(data: string, event: Option<string>, n: nat, i: nat, j: nat, lines: seq<string>, m: nat, p: Parsed)
    requires DataLineAt(data, event, n, i, j, lines, m) && p == Parse(Join(CutAt(lines, m, j), "\n"))
    ensures p == Seen(Frame(data, event, Some(n))).(data := JoinData(Parts(data)[..i] + DataRead(Parts(data)[i], j)))
  {
    var f := CutFrameParses(data, event, n, m, j, lines, p);
    TailRead(event, n, Parts(data), i, j, lines, m, f);
  }

  lemma TailIsRead(data: string, event: Option<string>, n: nat, i: nat, j: nat, lines: seq<string>, m: nat, p: Parsed)
    requires DataLineAt(data, event, n, i, j, lines, m) && p == Parse(Join(CutAt(lines, m, j), "\n"))
    ensures p == Seen(Frame(data, event, Some(n))).(data := p.data) && p.data <= Normalize(data)
    ensures var missing := |Join(lines, "\n")| - Offset(lines, m) - j;
            missing >= 0 && (p.data == Normalize(data) <==> missing + 2 <= Spare(Parts(data)))
  {
    TailParsed(data, event, n, i, j, lines, m, p);
    TailData(HeadLines(event, Some(n)), data, i, j, lines, m);
  }

  lemma TailLength(data: string, event: Option<string>, n: nat, lines: seq<string>)
    requires Sendable(Frame(data, event, Some(n)))
    requires lines == HeadLines(event, Some(n)) + DataLines(Parts(data))
    ensures |lines[0]| == |Decimal(n)| + 4
    ensures |ItemText(Frame(data, event, Some(n)))| == |Join(lines, "\n")| + 2
  {
    TextLength(data, event, n);
  }

  lemma CutInData(data: string, event: Option<string>, n: nat, i: nat, j: nat, lines: seq<string>, m: nat, p: Parsed)
    requires DataLineAt(data, event, n, i, j, lines, m) && p == Parse(Join(CutAt(lines, m, j), "\n"))
    ensures ReadsTo(data, event, n, Offset(lines, m) + j, p)
  {
    TailIsRead(data, event, n, i, j, lines, m, p);
    TailLength(data, event, n, lines);
    TailDigits(n, lines, m, j);
    var k := Offset(lines, m) + j;
    JudgeTail(data, event, n, k, |Join(lines, "\n")| - k, p, p.data);
  }

  /** Every line of a frame belongs to its head or is the line of one of its data lines. */
  lemma LineIsIn(head: seq<string>, tail: seq<string>, lines: seq<string>, m: nat)
    requires lines == head + tail && m < |lines|
    ensures if m < |head| then lines[m] == head[m] else m - |head| < |tail| && lines[m] == tail[m - |head|]
  {
  }

  lemma CutAtLine(data: string, event: Option<string>, n: nat, lines: seq<string>, m: nat, j: nat, p: Parsed)
    requires Sendable(Frame(data, event, Some(n))) && data != ""
    requires lines == HeadLines(event, Some(n)) + DataLines(Parts(data)) && m < |lines| && j <= |lines[m]|
    requires p == Parse(Join(CutAt(lines, m, j), "\n"))
    ensures ReadsTo(data, event, n, Offset(lines, m) + j, p)
  {
    LineIsIn(HeadLines(event, Some(n)), DataLines(Parts(data)), lines, m);
    var first := |HeadLines(event, Some(n))|;
    if m < first {
      CutInHead(data, event, n, m, j, lines, p);
    } else {
      CutInData(data, event, n, m - first, j, lines, m, p);
    }
  }

  lemma CutBlock(data: string, event: Option<string>, n: nat, lines: seq<string>, k: nat)
    requires Sendable(Frame(data, event, Some(n))) && data != ""
    requires lines == HeadLines(event, Some(n)) + DataLines(Parts(data)) && k <= |Join(lines, "\n")|
    ensures ReadsTo(data, event, n, k, Parse(Join(lines, "\n")[..k]))
  {
    var m, j := FindCut(lines, k);
    CutAtLine(data, event, n, lines, m, j, Parse(Join(lines, "\n")[..k]));
  }

  lemma {:induction false} SplitWhole(s: string)
    requires forall i :: 0 <= i < |s| - 1 ==> s[i] != '\n' || s[i + 1] != '\n'
    ensures Split(s, "\n\n") == [s]
    decreases |s|
  {
    if s != "" {
      SplitWhole(s[1..]);
      assert s == [s[0]] + s[1..];
    }
  }

  lemma NoBlankLine(block: string, p: string)
    requires OneBlock(block) && p <= block + "\n"
    ensures Split(p, "\n\n") == [p]
  {
    forall i | 0 <= i < |p| - 1 ensures p[i] != '\n' || p[i + 1] != '\n' {
      assert i < |block| && p[i] == block[i];
      assert i + 1 < |block| ==> p[i + 1] == block[i + 1];
    }
    SplitWhole(p);
  }

  lemma ShortOfBlankLine(block: string, text: string, k: nat)
    requires OneBlock(block) && text == block + "\n\n" && k < |text| && Without(text, '\r')
    ensures Without(text[..k], '\r') && Split(text[..k], "\n\n") == [text[..k]]
  {
    assert text[..k] <= block + "\n";
    NoBlankLine(block, text[..k]);
  }

  /** Short of its last newline the text of an item holds no blank line. */
  lemma NoBlockYet(item: Item, k: nat)
    requires Sendable(item) && k < |ItemText(item)|
    ensures Without(ItemText(item)[..k], '\r') && Split(ItemText(item)[..k], "\n\n") == [ItemText(item)[..k]]
    ensures SplitBlocks(ItemText(item)[..k]) == Blocks([], ItemText(item)[..k])
  {
    ItemTextIsBlock(item);
    ShortOfBlankLine(Join(ItemLines(item), "\n"), ItemText(item), k);
    NormalizeRemovesCr(ItemText(item)[..k]);
  }

  lemma SplitNewline(lines: seq<string>)
    requires lines != [] && AllLines(lines)
    ensures Split(Normalize(Join(lines, "\n") + "\n"), "\n") == lines + [""]
  {
    var text, all := Join(lines, "\n") + "\n", lines + [""];
    JoinSnoc(lines, "");
    Neutral(text);
    forall i | 0 <= i < |all| ensures Without(all[i], '\n') {
      assert i < |lines| ==> Line(lines[i]);
    }
    SplitJoin(all);
    JoinIsOneBlock(lines);
    NormalizeRemovesCr(text);
  }

  /** A last newline alone changes nothing. */
  lemma TrailingNewline(item: Item)
    requires Sendable(item)
    ensures Parse(Join(ItemLines(item), "\n") + "\n") == Parse(Join(ItemLines(item), "\n"))
  {
    var lines := ItemLines(item);
    LinesAreLines(item);
    ParseBlock(lines);
    SplitNewline(lines);
    ParseLineSnoc(lines, "");
    assert Trim("") == "";
  }

  /** With its first newline the block parses to the whole frame, too. */
  lemma TornLast(data: string, event: Option<string>, n: nat)
    requires Sendable(Frame(data, event, Some(n))) && data != ""
    ensures var block := Join(Lines(data, event, Some(n)), "\n");
            ReadsTo(data, event, n, |block| + 1, Parse(block + "\n"))
  {
    var whole := Frame(data, event, Some(n));
    TrailingNewline(whole);
    ParseItem(whole);
    IdIsWhole(data, event, n);
    TextLength(data, event, n);
    DataIsThere(data);
    assert Decimal(n)[..|Decimal(n)|] == Decimal(n);
  }

  /**
   * A text that ends anywhere inside a numbered frame: all of it stays in the buffer, it parses to as many
   * digits of the frame's id as have arrived and to a prefix of its data, and it parses to the frame itself
   * if and only if all of the data has arrived.
   */
  lemma TornFrame(data: string, event: Option<string>, n: nat, k: nat)
    requires Sendable(Frame(data, event, Some(n))) && data != "" && k < |ItemText(Frame(data, event, Some(n)))|
    ensures var p := ItemText(Frame(data, event, Some(n)))[..k];
            SplitBlocks(p) == Blocks([], p) && ReadsTo(data, event, n, k, Parse(p))
  {
    var whole := Frame(data, event, Some(n));
    NoBlockYet(whole, k);
    TornText(whole, k);
    if k <= |Join(Lines(data, event, Some(n)), "\n")| {
      CutBlock(data, event, n, Lines(data, event, Some(n)), k);
    } else {
      TornLast(data, event, n);
    }
  }

  lemma TornText(item: Item, k: nat)
    requires Sendable(item) && k < |ItemText(item)|
    ensures var block := Join(ItemLines(item), "\n");
            ItemText(item)[..k] == if k <= |block| then block[..k] else block + "\n"
    ensures k <= |Join(ItemLines(item), "\n")| + 1
  {
    ItemTextIsBlock(item);
  }

  lemma IdIsWhole(data: string, event: Option<string>, n: nat)
    ensures DigitsRead(n, |Join(Lines(data, event, Some(n)), "\n")|) == |Decimal(n)|
  {
    var lines := Lines(data, event, Some(n));
    JoinStep(lines);
    assert lines[0] == "id: " + Decimal(n);
  }

  /** Digits that are not all of a number make a number of at most a tenth of it. */
  lemma {:induction false} PartialNumber(n: nat, j: nat)
    requires j < |Decimal(n)|
    ensures DigitsValue(Decimal(n)[..j]).Some? && DigitsValue(Decimal(n)[..j]).value <= n / 10
    decreases n
  {
    var s := Decimal(n);
    if n < 10 {
      assert s[..j] == "";
    } else {
      var front := Decimal(n / 10);
      assert s[..j] == front[..j];
      if j < |front| {
        PartialNumber(n / 10, j);
      } else {
        assert front[..j] == front;
        DecimalValue(n / 10);
      }
    }
  }
}
