/**
 * The client's reader over the text of its connections: complete blocks, and at the end of a body that was
 * closed without an error also what is left over. Connections may break at any character.
 */
module ClientBody {
  import opened Events
  import opened EventStore
  import opened Subscription
  import Sse
  import TornSse

  /** The client's cursor, the numbered events it handled, and whether one of them closed the run. */
  datatype Taken = Taken(last: nat, handled: seq<Sse.Parsed>, closed: bool)

  predicate Stops(p: Sse.Parsed) {
    p.event == "done" || p.data == "[DONE]"
  }

  function TakeParsed(t: Taken, p: Sse.Parsed): Taken {
    match Sse.EventSequence(p.id)
    case None => t.(closed := Stops(p))
    case Some(n) => if n <= t.last then t else Taken(n, t.handled + [p], Stops(p))
  }

  function TakeBlock(t: Taken, block: string): Taken {
    if t.closed || Sse.Trim(block) == "" then t else TakeParsed(t, Sse.Parse(block))
  }

  function TakeBlocks(t: Taken, blocks: seq<string>): Taken {
    if blocks == [] then t else TakeBlock(TakeBlocks(t, blocks[..|blocks| - 1]), blocks[|blocks| - 1])
  }

  /** The branch behind the last chunk: what is left is handled like a block if it parses to a number. */
  function EndOfBody(t: Taken, rest: string): Taken {
    if t.closed || Sse.Trim(rest) == "" then t
    else
      var p := Sse.Parse(rest);
      if Sse.EventSequence(p.id).None? then t else TakeParsed(t, p)
  }

  /** A whole body; `clean` says that it ended, rather than broke with an error. */
  function ReadBody(t: Taken, b: Sse.Blocks, clean: bool): Taken {
    var taken := TakeBlocks(t, b.events);
    if clean then EndOfBody(taken, b.rest) else taken
  }

  /** The events without a number among these blocks: they are handled too, and leave the cursor alone. */
  function Plain(t: Taken, blocks: seq<string>): seq<Sse.Parsed> {
    if blocks == [] then []
    else
      var front, block := blocks[..|blocks| - 1], blocks[|blocks| - 1];
      Plain(t, front) + PlainIn(TakeBlocks(t, front), block)
  }

  function PlainIn(t: Taken, block: string): seq<Sse.Parsed> {
    if t.closed || Sse.Trim(block) == "" || Sse.EventSequence(Sse.Parse(block).id).Some? then [] else [Sse.Parse(block)]
  }

  /**
   * One more block of an open stream: blank ones are nothing; an event without a number is handled and may stop the
   * stream, but leaves the cursor; a numbered one counts exactly when it is above the cursor.
   */
  lemma BlockAnswer(t: Taken, block: string)
    requires !t.closed && Sse.Trim(block) != ""
    ensures var p := Sse.Parse(block);
            var stops := p.event == "done" || p.data == "[DONE]";
            match Sse.EventSequence(p.id)
            case None => TakeBlocks(t, [block]) == t.(closed := stops) && Plain(t, [block]) == [p]
            case Some(n) =>
              && Plain(t, [block]) == []
              && TakeBlocks(t, [block]) == if n <= t.last then t else Taken(n, t.handled + [p], stops)
  {
    assert [block][..0] == [];
  }

  lemma BlankBlock(t: Taken, block: string)
    requires Sse.Trim(block) == ""
    ensures TakeBlocks(t, [block]) == t && Plain(t, [block]) == []
  {
    assert [block][..0] == [];
  }

  lemma {:induction false} ClosedStays(t: Taken, blocks: seq<string>)
    requires t.closed
    ensures TakeBlocks(t, blocks) == t && Plain(t, blocks) == []
    decreases |blocks|
  {
    if blocks != [] {
      ClosedStays(t, blocks[..|blocks| - 1]);
    }
  }

  lemma {:induction false} TakeConcat(t: Taken, a: seq<string>, b: seq<string>)
    ensures TakeBlocks(t, a + b) == TakeBlocks(TakeBlocks(t, a), b)
    ensures Plain(t, a + b) == Plain(t, a) + Plain(TakeBlocks(t, a), b)
    decreases |b|
  {
    if b == [] {
      Neutral(a);
      Neutral(Plain(t, a));
    } else {
      var front := b[..|b| - 1];
      TakeConcat(t, a, front);
      Assoc(Plain(t, a), Plain(TakeBlocks(t, a), front), PlainIn(TakeBlocks(t, a + front), b[|b| - 1]));
      assert (a + b)[..|a + b| - 1] == a + front;
    }
  }

  lemma TakeNext(t: Taken, blocks: seq<string>, i: nat)
    requires i < |blocks|
    ensures TakeBlocks(t, blocks[..i + 1]) == TakeBlock(TakeBlocks(t, blocks[..i]), blocks[i])
    ensures Plain(t, blocks[..i + 1]) == Plain(t, blocks[..i]) + PlainIn(TakeBlocks(t, blocks[..i]), blocks[i])
  {
    assert blocks[..i + 1][..i] == blocks[..i];
  }

  lemma NothingBehindStop(t: Taken, a: seq<string>, b: seq<string>, blocks: seq<string>)
    requires TakeBlocks(t, a).closed && blocks == a + b
    ensures TakeBlocks(t, blocks) == TakeBlocks(t, a) && Plain(t, blocks) == Plain(t, a)
  {
    TakeConcat(t, a, b);
    ClosedStays(TakeBlocks(t, a), b);
    Neutral(Plain(t, a));
  }

  /** Blocks behind a stop are not looked at. */
  lemma StoppedAt(t: Taken, blocks: seq<string>, i: nat)
    requires i <= |blocks| && TakeBlocks(t, blocks[..i]).closed
    ensures TakeBlocks(t, blocks) == TakeBlocks(t, blocks[..i]) && Plain(t, blocks) == Plain(t, blocks[..i])
  {
    NothingBehindStop(t, blocks[..i], blocks[i..], blocks);
  }

  // ----- what the server wrote -----

  /**
   * What is used of the JSON encoder: it writes objects, each on one line, and a proper prefix of an object
   * is not one.
   */
  ghost predicate WritesObjects(json: Payload -> string) {
    && (forall p: Payload ::
          json(p) != "" && json(p)[0] == '{' && Sse.Without(json(p), '\n') && Sse.Without(json(p), '\r'))
    && (forall p: Payload, q: Payload :: json(p) <= json(q) ==> json(p) == json(q))
  }

  function ItemOf(json: Payload -> string, f: Frame): Sse.Item {
    match f
    case Stored(e) => Sse.Frame(json(e.event.payload), Some(Sse.KindName(e.event.kind)), Some(e.id))
    case Synthesised(sequence, status) => Sse.Frame(json(Terminal(status)), Some("done"), Some(sequence))
    case KeepAlive => Sse.Ping
  }

  function Items(json: Payload -> string, frames: seq<Frame>): (r: seq<Sse.Item>)
    ensures |r| == |frames|
  {
    seq(|frames|, i requires 0 <= i < |frames| => ItemOf(json, frames[i]))
  }

  function Wire(json: Payload -> string, frames: seq<Frame>): string {
    Sse.StreamText(Items(json, frames))
  }

  /** The events that a client sees when it handles these frames whole. */
  function SeenOf(json: Payload -> string, frames: seq<Frame>): (r: seq<Sse.Parsed>)
    ensures |r| == |frames|
  {
    if frames == [] then []
    else SeenOf(json, frames[..|frames| - 1]) + [Sse.Seen(ItemOf(json, frames[|frames| - 1]))]
  }

  function NumberOf(f: Frame): nat
    requires !f.KeepAlive?
  {
    if f.Stored? then f.entry.id else f.sequence
  }

  /** Ids of a stream and numbers of a finished row are positive. */
  predicate Positive(f: Frame) {
    !f.KeepAlive? ==> NumberOf(f) >= 1
  }

  predicate AllPositive(frames: seq<Frame>) {
    forall i :: 0 <= i < |frames| ==> Positive(frames[i])
  }

  function DataOf(json: Payload -> string, f: Frame): string
    requires !f.KeepAlive?
  {
    json(if f.Stored? then f.entry.event.payload else Terminal(f.status))
  }

  function NameOf(f: Frame): string
    requires !f.KeepAlive?
  {
    if f.Stored? then Sse.KindName(f.entry.event.kind) else "done"
  }

  lemma NameIsName(f: Frame)
    requires !f.KeepAlive?
    ensures Sse.Name(NameOf(f)) && NameOf(f) != ""
    ensures NameOf(f) == "done" <==> Closes(f)
  {
    Sse.KindNamesAreNames(if f.Stored? then f.entry.event.kind else Done);
  }

  lemma ItemIsFrame(json: Payload -> string, f: Frame)
    requires !f.KeepAlive?
    ensures ItemOf(json, f) == Sse.Frame(DataOf(json, f), Some(NameOf(f)), Some(NumberOf(f)))
    ensures Sse.Sendable(ItemOf(json, f))
  {
    NameIsName(f);
  }

  lemma ItemIsSendable(json: Payload -> string, f: Frame)
    ensures Sse.Sendable(ItemOf(json, f))
  {
    if !f.KeepAlive? {
      ItemIsFrame(json, f);
    }
  }

  lemma SeenFrame(json: Payload -> string, f: Frame)
    requires WritesObjects(json) && !f.KeepAlive?
    ensures Sse.Seen(ItemOf(json, f)) == Sse.Parsed(Sse.Decimal(NumberOf(f)), NameOf(f), DataOf(json, f))
    ensures Sse.Normalize(DataOf(json, f)) == DataOf(json, f) != ""
    ensures Sse.EventSequence(Sse.Decimal(NumberOf(f))) == if NumberOf(f) > 0 then Some(NumberOf(f)) else None
    ensures Stops(Sse.Seen(ItemOf(json, f))) <==> Closes(f)
  {
    ItemIsFrame(json, f);
    NameIsName(f);
    Sse.NormalizeRemovesCr(DataOf(json, f));
    Sse.SequenceRoundTrip(NumberOf(f));
    assert DataOf(json, f)[0] == '{' && "[DONE]"[0] == '[';
  }

  // ----- whole frames -----

  /** The text-level state that corresponds to frames handled behind events handled earlier. */
  function Image(json: Payload -> string, before: seq<Sse.Parsed>, a: Applied): Taken {
    Taken(a.last, before + SeenOf(json, a.frames), a.closed)
  }

  function ApplyStep(a: Applied, f: Frame): Applied {
    if a.closed || f.KeepAlive? || NumberOf(f) <= a.last then a
    else Applied(NumberOf(f), a.frames + [f], Closes(f))
  }

  lemma {:induction false} ApplySnoc(last: nat, frames: seq<Frame>, f: Frame)
    ensures Apply(last, frames + [f]) == ApplyStep(Apply(last, frames), f)
    decreases |frames|
  {
    var all := frames + [f];
    if frames == [] {
      assert all[1..] == [];
      assert [] + [f] == [f] && [f] + [] == [f];
    } else {
      var head, tail := frames[0], frames[1..];
      assert all[1..] == tail + [f];
      ApplySnoc(last, tail, f);
      if head.Stored? {
        ApplySnoc(head.entry.id, tail, f);
        Assoc([head], Apply(head.entry.id, tail).frames, [f]);
      }
    }
  }

  lemma SeenSnoc(json: Payload -> string, before: seq<Sse.Parsed>, frames: seq<Frame>, f: Frame)
    ensures before + SeenOf(json, frames + [f]) == (before + SeenOf(json, frames)) + [Sse.Seen(ItemOf(json, f))]
  {
    assert (frames + [f])[..|frames|] == frames;
    Assoc(before, SeenOf(json, frames), [Sse.Seen(ItemOf(json, f))]);
  }

  /** What a handled frame's parse does to the state. */
  lemma TakeSeen(json: Payload -> string, before: seq<Sse.Parsed>, a: Applied, f: Frame)
    requires WritesObjects(json) && Positive(f) && !f.KeepAlive? && !a.closed
    ensures TakeParsed(Image(json, before, a), Sse.Seen(ItemOf(json, f))) == Image(json, before, ApplyStep(a, f))
  {
    SeenFrame(json, f);
    SeenSnoc(json, before, a.frames, f);
  }

  lemma BlockIsNotBlank(item: Sse.Item)
    ensures Sse.Trim(Sse.Join(Sse.ItemLines(item), "\n")) != ""
  {
    var block := Sse.Join(Sse.ItemLines(item), "\n");
    assert Sse.ItemLines(item)[0] <= block;
    var first := Sse.ItemLines(item)[0];
    assert first != "" && block[0] == first[0] && first[0] in {'i', 'e', 'd', ':'};
    Sse.TrimNotBlank(block);
  }

  lemma TakeFrame(json: Payload -> string, before: seq<Sse.Parsed>, a: Applied, f: Frame)
    requires WritesObjects(json) && Positive(f)
    ensures TakeBlock(Image(json, before, a), Sse.Join(Sse.ItemLines(ItemOf(json, f)), "\n")) ==
            Image(json, before, ApplyStep(a, f))
  {
    if !a.closed {
      ItemIsSendable(json, f);
      BlockIsNotBlank(ItemOf(json, f));
      Sse.ParseItem(ItemOf(json, f));
      if f.KeepAlive? {
        assert Sse.DigitsValue("") == Some(0);
      } else {
        TakeSeen(json, before, a, f);
      }
    }
  }

  lemma ItemsFront(json: Payload -> string, frames: seq<Frame>)
    requires frames != []
    ensures Items(json, frames)[..|frames| - 1] == Items(json, frames[..|frames| - 1])
    ensures Items(json, frames)[|frames| - 1] == ItemOf(json, frames[|frames| - 1])
  {
  }

  lemma BlocksFront(items: seq<Sse.Item>)
    requires items != []
    ensures Sse.BlocksFor(items)[..|items| - 1] == Sse.BlocksFor(items[..|items| - 1])
    ensures Sse.BlocksFor(items)[|items| - 1] == Sse.Join(Sse.ItemLines(items[|items| - 1]), "\n")
  {
  }

  lemma {:induction false} TakeFrames(json: Payload -> string, before: seq<Sse.Parsed>, last: nat, frames: seq<Frame>)
    requires WritesObjects(json) && AllPositive(frames)
    ensures TakeBlocks(Taken(last, before, false), Sse.BlocksFor(Items(json, frames))) ==
            Image(json, before, Apply(last, frames))
    decreases |frames|
  {
    if frames == [] {
      Neutral(before);
    } else {
      var front, f := frames[..|frames| - 1], frames[|frames| - 1];
      var blocks := Sse.BlocksFor(Items(json, frames));
      TakeFrames(json, before, last, front);
      ApplySnoc(last, front, f);
      Unsnoc(frames);
      ItemsFront(json, frames);
      BlocksFront(Items(json, frames));
      TakeFrame(json, before, Apply(last, front), f);
    }
  }

  // ----- a text that ends anywhere -----

  function FrameText(json: Payload -> string, f: Frame): string {
    Sse.ItemText(ItemOf(json, f))
  }

  /** How many frames lie whole within the first k characters. */
  function Whole(json: Payload -> string, frames: seq<Frame>, k: nat): (c: nat)
    ensures c <= |frames|
    decreases |frames|
  {
    if frames == [] || k < |FrameText(json, frames[0])| then 0
    else 1 + Whole(json, frames[1..], k - |FrameText(json, frames[0])|)
  }

  /** How many characters of the next frame have arrived. */
  function Left(json: Payload -> string, frames: seq<Frame>, k: nat): (left: nat)
    ensures Whole(json, frames, k) < |frames| ==> left < |FrameText(json, frames[Whole(json, frames, k)])|
    decreases |frames|
  {
    if frames == [] || k < |FrameText(json, frames[0])| then k
    else Left(json, frames[1..], k - |FrameText(json, frames[0])|)
  }

  function LeftText(json: Payload -> string, frames: seq<Frame>, k: nat): string {
    var c := Whole(json, frames, k);
    if c < |frames| then FrameText(json, frames[c])[..Left(json, frames, k)] else ""
  }

  lemma WireStep(json: Payload -> string, frames: seq<Frame>)
    requires frames != []
    ensures Wire(json, frames) == FrameText(json, frames[0]) + Wire(json, frames[1..])
  {
    assert Items(json, frames)[1..] == Items(json, frames[1..]);
  }

  lemma TakeOfConcat<T>(a: seq<T>, b: seq<T>, k: nat)
    requires k <= |a + b|
    ensures (a + b)[..k] == if k < |a| then a[..k] else a + b[..k - |a|]
  {
  }

  lemma CutWireInFirst(json: Payload -> string, frames: seq<Frame>, k: nat)
    requires frames != [] && k < |FrameText(json, frames[0])| && k <= |Wire(json, frames)|
    ensures Wire(json, frames)[..k] == Wire(json, frames[..Whole(json, frames, k)]) + LeftText(json, frames, k)
  {
    WireStep(json, frames);
    TakeOfConcat(FrameText(json, frames[0]), Wire(json, frames[1..]), k);
    assert frames[..0] == [];
    Neutral(FrameText(json, frames[0])[..k]);
  }

  lemma LeftBehindFirst(json: Payload -> string, frames: seq<Frame>, k: nat)
    requires frames != [] && k >= |FrameText(json, frames[0])|
    ensures var rest, k' := frames[1..], k - |FrameText(json, frames[0])|;
            && Whole(json, frames, k) == 1 + Whole(json, rest, k')
            && LeftText(json, frames, k) == LeftText(json, rest, k')
  {
  }

  lemma WireOfOneMore(json: Payload -> string, frames: seq<Frame>, c: nat)
    requires frames != [] && c < |frames|
    ensures Wire(json, frames[..c + 1]) == FrameText(json, frames[0]) + Wire(json, frames[1..][..c])
  {
    assert frames[..c + 1][1..] == frames[1..][..c];
    WireStep(json, frames[..c + 1]);
  }

  lemma CutWireBehindFirst(json: Payload -> string, frames: seq<Frame>, k: nat)
    requires frames != [] && |FrameText(json, frames[0])| <= k <= |Wire(json, frames)|
    requires var rest, k' := frames[1..], k - |FrameText(json, frames[0])|;
             && k' <= |Wire(json, rest)|
             && Wire(json, rest)[..k'] == Wire(json, rest[..Whole(json, rest, k')]) + LeftText(json, rest, k')
    ensures Wire(json, frames)[..k] == Wire(json, frames[..Whole(json, frames, k)]) + LeftText(json, frames, k)
  {
    var first, rest := FrameText(json, frames[0]), frames[1..];
    var k' := k - |first|;
    LeftBehindFirst(json, frames, k);
    WireStep(json, frames);
    TakeOfConcat(first, Wire(json, rest), k);
    WireOfOneMore(json, frames, Whole(json, rest, k'));
    Assoc(first, Wire(json, rest[..Whole(json, rest, k')]), LeftText(json, rest, k'));
  }

  lemma {:induction false} CutWire(json: Payload -> string, frames: seq<Frame>, k: nat)
    requires k <= |Wire(json, frames)|
    ensures Wire(json, frames)[..k] == Wire(json, frames[..Whole(json, frames, k)]) + LeftText(json, frames, k)
    decreases |frames|
  {
    if frames == [] {
      Neutral("");
    } else {
      if k < |FrameText(json, frames[0])| {
        CutWireInFirst(json, frames, k);
      } else {
        WireStep(json, frames);
        CutWire(json, frames[1..], k - |FrameText(json, frames[0])|);
        CutWireBehindFirst(json, frames, k);
      }
    }
  }

  lemma {:induction false} SplitStreamTail(items: seq<Sse.Item>, tail: string)
    requires forall i :: 0 <= i < |items| ==> Sse.Sendable(items[i])
    ensures Sse.Split(Sse.StreamText(items) + tail, "\n\n") == Sse.BlocksFor(items) + Sse.Split(tail, "\n\n")
    decreases |items|
  {
    if items == [] {
      Neutral(tail);
      Neutral(Sse.Split(tail, "\n\n"));
    } else {
      var block, more := Sse.Join(Sse.ItemLines(items[0]), "\n"), Sse.StreamText(items[1..]);
      Sse.ItemTextIsBlock(items[0]);
      SplitStreamTail(items[1..], tail);
      Assoc(block + "\n\n", more, tail);
      Sse.SplitAfterBlock(block, more + tail);
      Sse.BlocksForStep(items);
      Assoc([block], Sse.BlocksFor(items[1..]), Sse.Split(tail, "\n\n"));
    }
  }

  lemma AllSendable(json: Payload -> string, frames: seq<Frame>)
    ensures forall i :: 0 <= i < |Items(json, frames)| ==> Sse.Sendable(Items(json, frames)[i])
  {
    forall i | 0 <= i < |frames| ensures Sse.Sendable(Items(json, frames)[i]) {
      ItemIsSendable(json, frames[i]);
    }
  }

  /** The client's blocks of a text that ends anywhere are those of the whole frames, and the rest is left over. */
  lemma SplitCut(json: Payload -> string, frames: seq<Frame>, k: nat)
    requires k <= |Wire(json, frames)|
    ensures Sse.Without(Wire(json, frames)[..k], '\r')
    ensures Sse.SplitBlocks(Wire(json, frames)[..k]) ==
            Sse.Blocks(Sse.BlocksFor(Items(json, frames[..Whole(json, frames, k)])), LeftText(json, frames, k))
  {
    var c, left := Whole(json, frames, k), LeftText(json, frames, k);
    var items, text := Items(json, frames[..c]), Wire(json, frames)[..k];
    AllSendable(json, frames);
    Sse.StreamWithoutCr(Items(json, frames));
    Sse.NormalizeRemovesCr(text);
    CutWire(json, frames, k);
    AllSendable(json, frames[..c]);
    SplitStreamTail(items, left);
    LeftIsWhole(json, frames, k);
    assert (Sse.BlocksFor(items) + [left])[..|items|] == Sse.BlocksFor(items);
  }

  lemma LeftIsWhole(json: Payload -> string, frames: seq<Frame>, k: nat)
    ensures Sse.Split(LeftText(json, frames, k), "\n\n") == [LeftText(json, frames, k)]
  {
    var c := Whole(json, frames, k);
    if c < |frames| {
      ItemIsSendable(json, frames[c]);
      TornSse.NoBlockYet(ItemOf(json, frames[c]), Left(json, frames, k));
    }
  }

  /** However the text was cut into chunks. */
  lemma AnyChunks(json: Payload -> string, frames: seq<Frame>, k: nat, chunks: seq<string>)
    requires k <= |Wire(json, frames)| && Sse.Concat(chunks) == Wire(json, frames)[..k]
    ensures Sse.FeedAll("", chunks) == Sse.SplitBlocks(Wire(json, frames)[..k])
  {
    SplitCut(json, frames, k);
    Sse.ChunkInvarianceExactly(Wire(json, frames)[..k]);
  }

  lemma {:induction false} PlainIsComment(json: Payload -> string, t: Taken, frames: seq<Frame>)
    requires WritesObjects(json) && AllPositive(frames)
    ensures forall p :: p in Plain(t, Sse.BlocksFor(Items(json, frames))) ==> p == Sse.Seen(Sse.Ping)
    decreases |frames|
  {
    if frames != [] {
      var f := frames[|frames| - 1];
      PlainIsComment(json, t, frames[..|frames| - 1]);
      ItemsFront(json, frames);
      BlocksFront(Items(json, frames));
      ItemIsSendable(json, f);
      Sse.ParseItem(ItemOf(json, f));
      if !f.KeepAlive? {
        SeenFrame(json, f);
      }
    }
  }

  /** Wherever a connection breaks off, what the client handles without a number are keep-alive comments. */
  lemma PlainEventsAreComments(json: Payload -> string, t: Taken, frames: seq<Frame>, k: nat)
    requires WritesObjects(json) && AllPositive(frames) && k <= |Wire(json, frames)|
    ensures forall p :: p in Plain(t, Sse.SplitBlocks(Wire(json, frames)[..k]).events) ==>
              p == Sse.Parsed("", "message", "")
  {
    SplitCut(json, frames, k);
    PlainIsComment(json, t, frames[..Whole(json, frames, k)]);
  }

  // ----- the end of a body -----

  lemma PartOfPing(left: nat)
    requires left < |Sse.KEEP_ALIVE|
    ensures Sse.EventSequence(Sse.Parse(Sse.KEEP_ALIVE[..left]).id) == None
  {
    var line := ": keep-alive";
    assert Sse.ItemLines(Sse.Ping) == [line] && Sse.ItemText(Sse.Ping) == Sse.KEEP_ALIVE;
    TornSse.TornText(Sse.Ping, left);
    assert Sse.DigitsValue("") == Some(0);
    if left <= |line| {
      PartOfComment(line[..left]);
    } else {
      TornSse.TrailingNewline(Sse.Ping);
      Sse.ParseItem(Sse.Ping);
    }
  }

  lemma PartOfComment(line: string)
    requires Sse.Without(line, '\n') && Sse.Without(line, '\r') && (line == "" || line[0] == ':')
    ensures Sse.Parse(line).id == ""
  {
    Sse.NormalizeRemovesCr(line);
    Sse.SplitLine(line, "");
    Neutral(line);
    Sse.ParseLineSnoc([], line);
    Neutral([line]);
    assert Sse.ParseLine(Sse.NO_FIELDS, line) == Sse.NO_FIELDS;
  }

  /** The number that the digits read so far make, if any. */
  function NumberRead(f: Frame, left: nat): Option<nat>
    requires !f.KeepAlive?
  {
    Sse.EventSequence(Sse.Decimal(NumberOf(f))[..TornSse.DigitsRead(NumberOf(f), left)])
  }

  /** All of the data has arrived; only newlines are missing. */
  predicate DataArrived(json: Payload -> string, f: Frame, left: nat) {
    left + 2 >= |FrameText(json, f)|
  }

  lemma {:induction false} LastPartOfLine(data: string)
    requires data != "" && Sse.Without(data, '\n') && Sse.Normalize(data) == data
    ensures TornSse.Spare(TornSse.Parts(data)) == 2
  {
    Sse.SplitLine(data, "");
    Neutral(data);
  }

  /** What the first characters of a run's frame parse to. */
  lemma TornParse(json: Payload -> string, f: Frame, left: nat)
    requires WritesObjects(json) && !f.KeepAlive? && left < |FrameText(json, f)|
    ensures var p := Sse.Parse(FrameText(json, f)[..left]);
            && Sse.EventSequence(p.id) == NumberRead(f, left)
            && p.data <= DataOf(json, f)
            && (p.data == DataOf(json, f) <==> DataArrived(json, f, left))
            && (p == Sse.Seen(ItemOf(json, f)) <==> DataArrived(json, f, left))
  {
    ItemIsFrame(json, f);
    SeenFrame(json, f);
    LastPartOfLine(DataOf(json, f));
    TornSse.TornFrame(DataOf(json, f), Some(NameOf(f)), NumberOf(f), left);
  }

  /** Some event of some run, as it is seen when its frame is handled whole. */
  ghost predicate IsEvent(json: Payload -> string, p: Sse.Parsed) {
    exists f: Frame :: !f.KeepAlive? && p == Sse.Seen(ItemOf(json, f))
  }

  /** Cut data is no data of any event, so a torn frame never looks like a whole one. */
  lemma CutDataIsNoEvent(json: Payload -> string, f: Frame, p: Sse.Parsed)
    requires WritesObjects(json) && !f.KeepAlive? && p.data <= DataOf(json, f) && p.data != DataOf(json, f)
    ensures !IsEvent(json, p)
  {
    forall g: Frame | !g.KeepAlive? ensures p != Sse.Seen(ItemOf(json, g)) {
      SeenFrame(json, g);
    }
  }

  lemma DigitsMakeText(json: Payload -> string, f: Frame, left: nat)
    requires !f.KeepAlive? && left < |FrameText(json, f)| && NumberRead(f, left).Some?
    ensures Sse.Trim(FrameText(json, f)[..left]) != ""
  {
    ItemIsFrame(json, f);
    assert Sse.DigitsValue("") == Some(0);
    assert left > 4;
    var item, p := ItemOf(json, f), FrameText(json, f)[..left];
    Sse.ItemTextIsBlock(item);
    assert Sse.ItemLines(item)[0] <= Sse.Join(Sse.ItemLines(item), "\n");
    assert p[0] == FrameText(json, f)[0] == Sse.ItemLines(item)[0][0] == 'i';
    Sse.TrimNotBlank(p);
  }

  /** The end of a body takes what is left over as an event that the frame is not. */
  predicate Damages(json: Payload -> string, last: nat, f: Frame, left: nat) {
    !f.KeepAlive? && NumberRead(f, left).Some? && NumberRead(f, left).value > last && !DataArrived(json, f, left)
  }

  /** One missing character is enough: any event above the cursor is damaged by losing the last one of its data. */
  lemma LastCharacterCounts(json: Payload -> string, last: nat, f: Frame)
    requires WritesObjects(json) && !f.KeepAlive? && NumberOf(f) > last
    ensures |FrameText(json, f)| >= 3 && Damages(json, last, f, |FrameText(json, f)| - 3)
  {
    ItemIsFrame(json, f);
    SeenFrame(json, f);
    var lines := Sse.ItemLines(ItemOf(json, f));
    Sse.ItemTextIsBlock(ItemOf(json, f));
    assert lines[0] == "id: " + Sse.Decimal(NumberOf(f)) && lines[1] == "event: " + NameOf(f);
    TornSse.JoinStep(lines);
    assert lines[1..][0] <= Sse.Join(lines[1..], "\n");
    assert Sse.Decimal(NumberOf(f))[..|Sse.Decimal(NumberOf(f))|] == Sse.Decimal(NumberOf(f));
  }

  /** The three things that the end of a body can do with a frame of which `left` characters have arrived. */
  lemma EndOfFrame(json: Payload -> string, before: seq<Sse.Parsed>, a: Applied, f: Frame, left: nat)
    requires WritesObjects(json) && Positive(f) && left < |FrameText(json, f)| && !a.closed
    ensures var p := FrameText(json, f)[..left];
            var t := EndOfBody(Image(json, before, a), p);
            if Damages(json, a.last, f, left)
            then !IsEvent(json, Sse.Parse(p)) && t.handled == Image(json, before, a).handled + [Sse.Parse(p)]
                 && t.last == NumberRead(f, left).value
            else t == Image(json, before, if DataArrived(json, f, left) then ApplyStep(a, f) else a)
  {
    if f.KeepAlive? {
      PartOfPing(left);
    } else {
      TornParse(json, f, left);
      var p := Sse.Parse(FrameText(json, f)[..left]);
      if NumberRead(f, left).Some? {
        DigitsMakeText(json, f, left);
      }
      if DataArrived(json, f, left) {
        SeenFrame(json, f);
        TakeSeen(json, before, a, f);
      } else {
        CutDataIsNoEvent(json, f, p);
      }
    }
  }

  /**
   * When a torn frame is taken at all: once the cursor is not below a tenth of its number, exactly when the
   * digits of the number are complete and the number is above the cursor.
   */
  lemma TakenExactly(json: Payload -> string, t: Taken, f: Frame, left: nat)
    requires WritesObjects(json) && !f.KeepAlive? && left < |FrameText(json, f)| && !t.closed
    ensures var t' := EndOfBody(t, FrameText(json, f)[..left]);
            && (t' != t <==> NumberRead(f, left).Some? && NumberRead(f, left).value > t.last)
            && (NumberOf(f) / 10 <= t.last ==>
                  (t' != t <==> left >= 4 + |Sse.Decimal(NumberOf(f))| && NumberOf(f) > t.last))
  {
    TornParse(json, f, left);
    if NumberRead(f, left).Some? {
      DigitsMakeText(json, f, left);
    }
    var read := TornSse.DigitsRead(NumberOf(f), left);
    if read < |Sse.Decimal(NumberOf(f))| {
      TornSse.PartialNumber(NumberOf(f), read);
    } else {
      assert Sse.Decimal(NumberOf(f))[..read] == Sse.Decimal(NumberOf(f));
      Sse.SequenceRoundTrip(NumberOf(f));
    }
    assert Sse.Decimal(NumberOf(f)) != "" by {
      Sse.DecimalIsPlain(NumberOf(f));
    }
  }

  // ----- one body -----

  /** The body ended inside a frame, and the end of it does damage. */
  predicate Damaged(json: Payload -> string, last: nat, frames: seq<Frame>, k: nat, clean: bool) {
    var c := Whole(json, frames, k);
    var a := Apply(last, frames[..c]);
    clean && !a.closed && c < |frames| && Damages(json, a.last, frames[c], Left(json, frames, k))
  }

  /** How many frames count as handled whole: at the end of a body also one whose data has all arrived. */
  function Effective(json: Payload -> string, frames: seq<Frame>, k: nat, clean: bool): (e: nat)
    ensures e <= |frames|
  {
    var c := Whole(json, frames, k);
    if clean && c < |frames| && DataArrived(json, frames[c], Left(json, frames, k)) then c + 1 else c
  }

  function BodyText(t: Taken, text: string, clean: bool): Taken {
    ReadBody(t, Sse.SplitBlocks(text), clean)
  }

  lemma BodyOfCut(json: Payload -> string, before: seq<Sse.Parsed>, last: nat, frames: seq<Frame>, k: nat, clean: bool)
    requires WritesObjects(json) && AllPositive(frames) && k <= |Wire(json, frames)|
    ensures var t := Image(json, before, Apply(last, frames[..Whole(json, frames, k)]));
            BodyText(Taken(last, before, false), Wire(json, frames)[..k], clean) ==
            if clean then EndOfBody(t, LeftText(json, frames, k)) else t
  {
    SplitCut(json, frames, k);
    TakeFrames(json, before, last, frames[..Whole(json, frames, k)]);
  }

  lemma OneFrameMore(last: nat, frames: seq<Frame>, c: nat)
    requires c < |frames|
    ensures Apply(last, frames[..c + 1]) == ApplyStep(Apply(last, frames[..c]), frames[c])
  {
    assert frames[..c + 1] == frames[..c] + [frames[c]];
    ApplySnoc(last, frames[..c], frames[c]);
  }

  /** The body ended where nothing is looked at any more: with an error, behind a frame, or behind a closing one. */
  lemma EndsAtFrame(json: Payload -> string, before: seq<Sse.Parsed>, last: nat, frames: seq<Frame>, k: nat,
                    clean: bool)
    requires WritesObjects(json) && AllPositive(frames) && k <= |Wire(json, frames)|
    requires !clean || Whole(json, frames, k) == |frames| || Apply(last, frames[..Whole(json, frames, k)]).closed
    ensures BodyText(Taken(last, before, false), Wire(json, frames)[..k], clean) ==
            Image(json, before, Apply(last, frames[..Effective(json, frames, k, clean)]))
  {
    var c := Whole(json, frames, k);
    BodyOfCut(json, before, last, frames, k, clean);
    if c < |frames| {
      OneFrameMore(last, frames, c);
    } else {
      assert Sse.Trim("") == "";
    }
  }

  lemma EndsInFrame(json: Payload -> string, before: seq<Sse.Parsed>, last: nat, frames: seq<Frame>, k: nat)
    returns (p: Sse.Parsed)
    requires WritesObjects(json) && AllPositive(frames) && k <= |Wire(json, frames)|
    requires Whole(json, frames, k) < |frames| && !Apply(last, frames[..Whole(json, frames, k)]).closed
    ensures var t := BodyText(Taken(last, before, false), Wire(json, frames)[..k], true);
            if Damaged(json, last, frames, k, true)
            then !IsEvent(json, p) && before <= t.handled && p in t.handled
            else t == Image(json, before, Apply(last, frames[..Effective(json, frames, k, true)]))
  {
    var c := Whole(json, frames, k);
    p := Sse.Parse(LeftText(json, frames, k));
    BodyOfCut(json, before, last, frames, k, true);
    EndOfFrame(json, before, Apply(last, frames[..c]), frames[c], Left(json, frames, k));
    OneFrameMore(last, frames, c);
  }

  // ----- any number of bodies -----

  /** One connection: how its cursors lag, what the server meets, how many characters arrive, and how it ends. */
  datatype Body = Body(
    afterLag: nat, headerLag: Option<nat>, looks: seq<Look>, limit: nat, arriving: nat, clean: bool)

  function AsAttempt(b: Body, arriving: nat): Attempt {
    Attempt(b.afterLag, b.headerLag, b.looks, b.limit, arriving)
  }

  function Served(last: nat, b: Body): seq<Frame> {
    Serve(Resume(last, AsAttempt(b, 0)), b.looks, b.limit).frames
  }

  /** The length of what arrives of the text that the server writes. */
  function Arrived(json: Payload -> string, last: nat, b: Body): (k: nat)
    ensures k <= |Wire(json, Served(last, b))|
  {
    var n := |Wire(json, Served(last, b))|;
    if b.arriving < n then b.arriving else n
  }

  function BodyOn(json: Payload -> string, t: Taken, b: Body): Taken {
    BodyText(t, Wire(json, Served(t.last, b))[..Arrived(json, t.last, b)], b.clean)
  }

  /** All that the client handles over any number of connections; it stops when an event closed the run. */
  function FollowBodies(json: Payload -> string, t: Taken, bodies: seq<Body>): Taken
    decreases |bodies|
  {
    if bodies == [] || t.closed then t else FollowBodies(json, BodyOn(json, t, bodies[0]), bodies[1..])
  }

  /** The connection, as one that breaks behind the frames that count as handled whole. */
  function Whittled(json: Payload -> string, last: nat, b: Body): Attempt {
    AsAttempt(b, Effective(json, Served(last, b), Arrived(json, last, b), b.clean))
  }

  function WhittleAll(json: Payload -> string, last: nat, bodies: seq<Body>): (attempts: seq<Attempt>)
    ensures |attempts| == |bodies|
    decreases |bodies|
  {
    if bodies == [] then []
    else
      var a := Whittled(json, last, bodies[0]);
      [a] + WhittleAll(json, Apply(last, Arriving(last, a)).last, bodies[1..])
  }

  /** No body that the client reads ends in a way that does damage. */
  predicate Undamaged(json: Payload -> string, last: nat, bodies: seq<Body>)
    decreases |bodies|
  {
    bodies == [] ||
    var a := Apply(last, Arriving(last, Whittled(json, last, bodies[0])));
    && !Damaged(json, last, Served(last, bodies[0]), Arrived(json, last, bodies[0]), bodies[0].clean)
    && (a.closed || Undamaged(json, a.last, bodies[1..]))
  }

  lemma PositiveConcat(a: seq<Frame>, b: seq<Frame>)
    requires AllPositive(a) && AllPositive(b)
    ensures AllPositive(a + b)
  {
  }

  lemma {:induction false} ServedPositive(final: Store, cursor: nat, looks: seq<Look>, limit: nat)
    requires AllEarlier(looks, final)
    ensures AllPositive(Serve(cursor, looks, limit).frames)
    decreases |looks|
  {
    if looks != [] && looks[0].reached {
      var sent := UpToDone(ReadAfter(looks[0].store, cursor, limit));
      if sent == [] {
        ServedPositive(final, cursor, looks[1..], limit);
      } else {
        ServedPositive(final, sent[|sent| - 1].id, looks[1..], limit);
        SentPositive(looks[0].store, final, cursor, limit);
        PositiveConcat(FramesOf(sent), Serve(sent[|sent| - 1].id, looks[1..], limit).frames);
      }
    }
  }

  lemma SentPositive(a: Store, final: Store, cursor: nat, limit: nat)
    requires Earlier(a, final) && UpToDone(ReadAfter(a, cursor, limit)) != []
    ensures AllPositive(FramesOf(UpToDone(ReadAfter(a, cursor, limit))))
  {
    SentAdvances(a, final, cursor, limit);
    SlicePositive(final, cursor, UpToDone(ReadAfter(a, cursor, limit)));
  }

  lemma SlicePositive(final: Store, cursor: nat, entries: seq<Entry>)
    requires WellFormed(final) && Above(final, cursor, entries)
    ensures AllPositive(FramesOf(entries))
  {
    forall i | 0 <= i < |entries| ensures Positive(FramesOf(entries)[i]) {
      assert entries[i] == final.stream[Passed(final, cursor) + i];
    }
  }

  lemma ServedIsPositive(final: Store, last: nat, b: Body)
    requires AllEarlier(b.looks, final)
    ensures AllPositive(Served(last, b))
  {
    ServedPositive(final, Resume(last, AsAttempt(b, 0)), b.looks, b.limit);
  }

  lemma TakeWithin<T>(s: seq<T>, n: nat)
    requires n <= |s|
    ensures Take(s, n) == s[..n]
  {
  }

  lemma CountArrives(last: nat, b: Body, count: nat)
    requires count <= |Served(last, b)|
    ensures Arriving(last, AsAttempt(b, count)) == Served(last, b)[..count]
  {
    TakeWithin(Served(last, b), count);
  }

  lemma WhittledArrives(json: Payload -> string, last: nat, b: Body)
    ensures Arriving(last, Whittled(json, last, b)) ==
            Served(last, b)[..Effective(json, Served(last, b), Arrived(json, last, b), b.clean)]
  {
    CountArrives(last, b, Effective(json, Served(last, b), Arrived(json, last, b), b.clean));
  }

  /** A body, seen at the grain of frames when its end does no damage. */
  lemma OneText(json: Payload -> string, before: seq<Sse.Parsed>, last: nat, frames: seq<Frame>, k: nat, clean: bool)
    returns (p: Sse.Parsed)
    requires WritesObjects(json) && AllPositive(frames) && k <= |Wire(json, frames)|
    ensures var t := BodyText(Taken(last, before, false), Wire(json, frames)[..k], clean);
            if Damaged(json, last, frames, k, clean) then !IsEvent(json, p) && before <= t.handled && p in t.handled
            else t == Image(json, before, Apply(last, frames[..Effective(json, frames, k, clean)]))
  {
    if clean && Whole(json, frames, k) < |frames| && !Apply(last, frames[..Whole(json, frames, k)]).closed {
      p := EndsInFrame(json, before, last, frames, k);
    } else {
      EndsAtFrame(json, before, last, frames, k, clean);
      p := Sse.Parsed("", "", "");
    }
  }

  lemma OneBody(json: Payload -> string, final: Store, before: seq<Sse.Parsed>, last: nat, b: Body)
    returns (p: Sse.Parsed)
    requires WritesObjects(json) && AllEarlier(b.looks, final)
    ensures var t := BodyOn(json, Taken(last, before, false), b);
            if Damaged(json, last, Served(last, b), Arrived(json, last, b), b.clean)
            then !IsEvent(json, p) && before <= t.handled && p in t.handled
            else t == Image(json, before, Apply(last, Arriving(last, Whittled(json, last, b))))
  {
    ServedIsPositive(final, last, b);
    WhittledArrives(json, last, b);
    p := OneText(json, before, last, Served(last, b), Arrived(json, last, b), b.clean);
  }

  lemma SeenOneMore(json: Payload -> string, a: seq<Frame>, b: seq<Frame>, f: Frame)
    requires SeenOf(json, a + b) == SeenOf(json, a) + SeenOf(json, b)
    ensures SeenOf(json, a + (b + [f])) == SeenOf(json, a) + SeenOf(json, b + [f])
  {
    Assoc(a, b, [f]);
    SeenSnoc(json, [], a + b, f);
    SeenSnoc(json, [], b, f);
    Neutral(SeenOf(json, (a + b) + [f]));
    Neutral(SeenOf(json, a + b));
    Neutral(SeenOf(json, b + [f]));
    Neutral(SeenOf(json, b));
    Assoc(SeenOf(json, a), SeenOf(json, b), [Sse.Seen(ItemOf(json, f))]);
  }

  lemma {:induction false} SeenConcat(json: Payload -> string, a: seq<Frame>, b: seq<Frame>)
    ensures SeenOf(json, a + b) == SeenOf(json, a) + SeenOf(json, b)
    decreases |b|
  {
    if b == [] {
      Neutral(a);
      Neutral(SeenOf(json, a));
    } else {
      SeenConcat(json, a, b[..|b| - 1]);
      SeenOneMore(json, a, b[..|b| - 1], b[|b| - 1]);
      Unsnoc(b);
    }
  }

  lemma ImageChain(json: Payload -> string, before: seq<Sse.Parsed>, first: Applied, rest: Applied)
    ensures Image(json, Image(json, before, first).handled, rest) ==
            Image(json, before, rest.(frames := first.frames + rest.frames))
  {
    SeenConcat(json, first.frames, rest.frames);
    Assoc(before, SeenOf(json, first.frames), SeenOf(json, rest.frames));
  }

  lemma {:induction false} UndamagedIsFollow(
      json: Payload -> string, final: Store, before: seq<Sse.Parsed>, last: nat, bodies: seq<Body>)
    requires WritesObjects(json) && forall i :: 0 <= i < |bodies| ==> AllEarlier(bodies[i].looks, final)
    requires Undamaged(json, last, bodies)
    ensures FollowBodies(json, Taken(last, before, false), bodies) ==
            Image(json, before, Follow(last, WhittleAll(json, last, bodies)))
    decreases |bodies|
  {
    if bodies == [] {
      Neutral(before);
    } else {
      var _ := OneBody(json, final, before, last, bodies[0]);
      var a := Apply(last, Arriving(last, Whittled(json, last, bodies[0])));
      if !a.closed {
        var rest := WhittleAll(json, a.last, bodies[1..]);
        UndamagedIsFollow(json, final, Image(json, before, a).handled, a.last, bodies[1..]);
        ImageChain(json, before, a, Follow(a.last, rest));
        assert WhittleAll(json, last, bodies)[1..] == rest;
      }
    }
  }

  lemma {:induction false} HandledStays(json: Payload -> string, final: Store, t: Taken, bodies: seq<Body>)
    requires WritesObjects(json) && forall i :: 0 <= i < |bodies| ==> AllEarlier(bodies[i].looks, final)
    ensures t.handled <= FollowBodies(json, t, bodies).handled
    decreases |bodies|
  {
    if bodies != [] && !t.closed {
      var _ := OneBody(json, final, t.handled, t.last, bodies[0]);
      HandledStays(json, final, BodyOn(json, t, bodies[0]), bodies[1..]);
    }
  }

  /** Every handled event is one that a whole frame would have shown. */
  ghost predicate AllEvents(json: Payload -> string, handled: seq<Sse.Parsed>) {
    forall i :: 0 <= i < |handled| ==> IsEvent(json, handled[i])
  }

  lemma {:induction false} DamageShows(
      json: Payload -> string, final: Store, before: seq<Sse.Parsed>, last: nat, bodies: seq<Body>)
    requires WritesObjects(json) && forall i :: 0 <= i < |bodies| ==> AllEarlier(bodies[i].looks, final)
    requires !Undamaged(json, last, bodies)
    ensures !AllEvents(json, FollowBodies(json, Taken(last, before, false), bodies).handled)
    decreases |bodies|
  {
    var p := OneBody(json, final, before, last, bodies[0]);
    var t := BodyOn(json, Taken(last, before, false), bodies[0]);
    if Damaged(json, last, Served(last, bodies[0]), Arrived(json, last, bodies[0]), bodies[0].clean) {
      HandledStays(json, final, t, bodies[1..]);
      StillThere(t.handled, FollowBodies(json, t, bodies[1..]).handled, p);
    } else {
      DamageShows(json, final, t.handled, t.last, bodies[1..]);
    }
  }

  lemma StillThere<T>(s: seq<T>, more: seq<T>, x: T)
    requires s <= more && x in s
    ensures x in more
  {
    var i :| 0 <= i < |s| && s[i] == x;
    assert more[i] == x;
  }

  /** Events of frames that a run's client handles: none of them a keep-alive. */
  lemma {:induction false} AppliedAreNumbered(last: nat, frames: seq<Frame>)
    ensures forall i :: 0 <= i < |Apply(last, frames).frames| ==> !Apply(last, frames).frames[i].KeepAlive?
    decreases |frames|
  {
    if frames != [] {
      AppliedAreNumbered(last, frames[1..]);
      if frames[0].Stored? {
        AppliedAreNumbered(frames[0].entry.id, frames[1..]);
      }
    }
  }

  lemma {:induction false} FollowedAreNumbered(last: nat, attempts: seq<Attempt>)
    ensures forall i :: 0 <= i < |Follow(last, attempts).frames| ==> !Follow(last, attempts).frames[i].KeepAlive?
    decreases |attempts|
  {
    if attempts != [] {
      var first := Apply(last, Arriving(last, attempts[0]));
      AppliedAreNumbered(last, Arriving(last, attempts[0]));
      if !first.closed {
        FollowedAreNumbered(first.last, attempts[1..]);
      }
    }
  }

  lemma {:induction false} NumberedAreEvents(json: Payload -> string, frames: seq<Frame>)
    requires forall i :: 0 <= i < |frames| ==> !frames[i].KeepAlive?
    ensures AllEvents(json, SeenOf(json, frames))
    decreases |frames|
  {
    if frames != [] {
      var f := frames[|frames| - 1];
      NumberedAreEvents(json, frames[..|frames| - 1]);
      assert !f.KeepAlive? && IsEvent(json, Sse.Seen(ItemOf(json, f)));
    }
  }

  lemma {:induction false} WhittledEarlier(json: Payload -> string, final: Store, last: nat, bodies: seq<Body>)
    requires forall i :: 0 <= i < |bodies| ==> AllEarlier(bodies[i].looks, final)
    ensures forall i :: 0 <= i < |bodies| ==> AllEarlier(WhittleAll(json, last, bodies)[i].looks, final)
    decreases |bodies|
  {
    if bodies != [] {
      var a := Apply(last, Arriving(last, Whittled(json, last, bodies[0])));
      WhittledEarlier(json, final, a.last, bodies[1..]);
    }
  }

  /**
   * Exactly-once delivery at the grain of characters. Over any connections, each broken at any character or
   * ended cleanly there: every event the client handles is a whole event of the run if and only if no body
   * ended cleanly between the last needed digit of a frame's number and the end of its data. And then the
   * client handles exactly the entries right above its start, each once, perhaps closed by one synthesised done.
   */
  lemma FollowTextExactly(json: Payload -> string, final: Store, last: nat, bodies: seq<Body>)
    requires WritesObjects(json) && WellFormed(final)
    requires forall i :: 0 <= i < |bodies| ==> AllEarlier(bodies[i].looks, final)
    ensures var t := FollowBodies(json, Taken(last, [], false), bodies);
            var a := Follow(last, WhittleAll(json, last, bodies));
            && (AllEvents(json, t.handled) <==> Undamaged(json, last, bodies))
            && (Undamaged(json, last, bodies) ==>
                  t == Taken(a.last, SeenOf(json, a.frames), a.closed) && ExactlyFrom(final, last, a))
  {
    if Undamaged(json, last, bodies) {
      var attempts := WhittleAll(json, last, bodies);
      UndamagedIsFollow(json, final, [], last, bodies);
      WhittledEarlier(json, final, last, bodies);
      FollowExactly(final, last, attempts);
      FollowedAreNumbered(last, attempts);
      NumberedAreEvents(json, Follow(last, attempts).frames);
      Neutral(SeenOf(json, Follow(last, attempts).frames));
    } else {
      DamageShows(json, final, [], last, bodies);
    }
  }

  /** The stream state that `handleStreamResponse` updates, and the events it handled, numbered and plain ones. */
  class BodyReader {
    var last: nat
    var handled: seq<Sse.Parsed>
    var plain: seq<Sse.Parsed>

    constructor (last: nat)
      ensures this.last == last && handled == [] && plain == []
    {
      this.last, handled, plain := last, [], [];
    }

    method HandleBlocks(blocks: seq<string>) returns (closed: bool)
      modifies this
      ensures Taken(last, handled, closed) == TakeBlocks(Taken(old(last), old(handled), false), blocks)
      ensures plain == old(plain) + Plain(Taken(old(last), old(handled), false), blocks)
    {
      ghost var start := Taken(last, handled, false);
      var i := 0;
      assert blocks[..0] == [];
      Neutral(plain);
      while i < |blocks|
        invariant 0 <= i <= |blocks|
        invariant Taken(last, handled, false) == TakeBlocks(start, blocks[..i])
        invariant plain == old(plain) + Plain(start, blocks[..i])
      {
        TakeNext(start, blocks, i);
        var block := blocks[i];
        Assoc(old(plain), Plain(start, blocks[..i]), PlainIn(Taken(last, handled, false), block));
        i := i + 1;
        if Sse.Trim(block) == "" {
          Neutral(plain);
          continue;
        }
        var p := Sse.Parse(block);
        var sequence := Sse.EventSequence(p.id);
        if sequence.Some? && sequence.value <= last {
          Neutral(plain);
          continue;
        }
        if sequence.Some? {
          Neutral(plain);
          last, handled := sequence.value, handled + [p];
        } else {
          plain := plain + [p];
        }
        if Stops(p) {
          StoppedAt(start, blocks, i);
          return true;
        }
      }
      assert blocks[..i] == blocks;
      closed := false;
    }

    method HandleRest(rest: string) returns (closed: bool)
      modifies `last, `handled
      ensures Taken(last, handled, closed) == EndOfBody(Taken(old(last), old(handled), false), rest)
    {
      closed := false;
      if Sse.Trim(rest) != "" {
        var p := Sse.Parse(rest);
        var sequence := Sse.EventSequence(p.id);
        if sequence.Some? && sequence.value > last {
          last, handled := sequence.value, handled + [p];
          closed := Stops(p);
        }
      }
    }

    /** The reader loop: every chunk, and behind the last one what is left. */
    method Read(chunks: seq<string>, clean: bool) returns (closed: bool)
      modifies this
      ensures Taken(last, handled, closed) ==
                ReadBody(Taken(old(last), old(handled), false), Sse.FeedAll("", chunks), clean)
      ensures plain == old(plain) + Plain(Taken(old(last), old(handled), false), Sse.FeedAll("", chunks).events)
    {
      ghost var start := Taken(last, handled, false);
      ghost var events := [];
      var buffer := "";
      var i := 0;
      assert chunks[0..] == chunks;
      Neutral(plain);
      while i < |chunks|
        invariant 0 <= i <= |chunks|
        invariant Taken(last, handled, false) == TakeBlocks(start, events)
        invariant plain == old(plain) + Plain(start, events)
        invariant var more := Sse.FeedAll(buffer, chunks[i..]);
                  Sse.FeedAll("", chunks) == Sse.Blocks(events + more.events, more.rest)
      {
        assert chunks[i..][1..] == chunks[i + 1..];
        var b := Sse.SplitBlocks(buffer + chunks[i]);
        ghost var more := Sse.FeedAll(b.rest, chunks[i + 1..]);
        Assoc(events, b.events, more.events);
        TakeConcat(start, events, b.events);
        Assoc(old(plain), Plain(start, events), Plain(TakeBlocks(start, events), b.events));
        closed := HandleBlocks(b.events);
        events := events + b.events;
        buffer := b.rest;
        i := i + 1;
        if closed {
          TakeConcat(start, events, more.events);
          ClosedStays(Taken(last, handled, true), more.events);
          Neutral(Plain(start, events));
          return;
        }
      }
      Neutral(events);
      closed := false;
      if clean {
        closed := HandleRest(buffer);
      }
    }
  }
}
