/**
 * Delivery of a run's events: the server loop that reads batches and looks at the row, and the client
 * that filters by its cursor and reconnects.
 */
module Subscription {
  import opened Events
  import opened EventStore
  import opened RunLifecycle
  import opened RunMachine

  datatype Frame = Stored(entry: Entry) | Synthesised(sequence: nat, status: Status) | KeepAlive

  /** What one turn of the loop meets: the store when it reads (or a failed read), the row when it looks. */
  datatype Look = Look(reached: bool, store: Store, row: Option<Row>)

  datatype Finish = Completed | TransportFailed | Disconnected

  datatype Session = Session(frames: seq<Frame>, cursor: nat, finish: Finish)

  function FramesOf(entries: seq<Entry>): (r: seq<Frame>)
    ensures |r| == |entries|
  {
    seq(|entries|, i requires 0 <= i < |entries| => Stored(entries[i]))
  }

  /** The entries up to and including the first done. */
  function UpToDone(entries: seq<Entry>): seq<Entry> {
    if entries == [] || entries[0].event.kind == Done then Take(entries, 1) else [entries[0]] + UpToDone(entries[1..])
  }

  predicate EndsInDone(entries: seq<Entry>) {
    entries != [] && entries[|entries| - 1].event.kind == Done
  }

  /** One connection: `looks` is all that happens before the client goes away. */
  function Serve(cursor: nat, looks: seq<Look>, limit: nat): Session
    decreases |looks|
  {
    if looks == [] then Session([], cursor, Disconnected)
    else if !looks[0].reached then Session([], cursor, TransportFailed)
    else
      var sent := UpToDone(ReadAfter(looks[0].store, cursor, limit));
      if sent != [] then
        var cursor' := sent[|sent| - 1].id;
        if EndsInDone(sent) then Session(FramesOf(sent), cursor', Completed)
        else
          var rest := Serve(cursor', looks[1..], limit);
          Session(FramesOf(sent) + rest.frames, rest.cursor, rest.finish)
      else
        match looks[0].row
        case Some(row) =>
          if Finished(row.status) then
            if cursor < row.sequence then Session([Synthesised(row.sequence, row.status)], row.sequence, Completed)
            else Session([], cursor, Completed)
          else var rest := Serve(cursor, looks[1..], limit); rest.(frames := [KeepAlive] + rest.frames)
        case None =>
          var rest := Serve(cursor, looks[1..], limit); rest.(frames := [KeepAlive] + rest.frames)
  }

  lemma {:induction false} UpToDoneIsPrefix(entries: seq<Entry>)
    ensures UpToDone(entries) <= entries
    ensures entries != [] ==> UpToDone(entries) != []
    ensures forall i :: 0 <= i < |UpToDone(entries)| - 1 ==> entries[i].event.kind != Done
    ensures !EndsInDone(UpToDone(entries)) ==> UpToDone(entries) == entries
  {
    if entries != [] && entries[0].event.kind != Done {
      UpToDoneIsPrefix(entries[1..]);
      var rest := UpToDone(entries[1..]);
      assert entries == [entries[0]] + entries[1..];
      forall i | 0 <= i < |UpToDone(entries)| - 1 ensures entries[i].event.kind != Done {
        if i > 0 {
          assert entries[i] == entries[1..][i - 1];
        }
      }
      if rest == [] {
        assert entries[1..] == [];
      }
    }
  }

  /** The inner loop of the generator: yields entries one by one and stops behind a done. */
  method SendBatch(cursor: nat, events: seq<Entry>) returns (frames: seq<Frame>, current: nat, closed: bool)
    ensures var sent := UpToDone(events);
            && frames == FramesOf(sent)
            && current == (if sent == [] then cursor else sent[|sent| - 1].id)
            && closed == EndsInDone(sent)
  {
    ghost var sent := UpToDone(events);
    UpToDoneIsPrefix(events);
    frames, current, closed := [], cursor, false;
    var i := 0;
    while i < |events|
      invariant 0 <= i <= |sent|
      invariant EndsInDone(sent) ==> i < |sent|
      invariant frames == FramesOf(sent[..i])
      invariant current == if i == 0 then cursor else sent[i - 1].id
    {
      current := events[i].id;
      frames := frames + [Stored(events[i])];
      assert FramesOf(sent[..i + 1]) == FramesOf(sent[..i]) + [Stored(events[i])];
      if events[i].event.kind == Done {
        assert sent[..i + 1] == sent;
        return frames, current, true;
      }
      i := i + 1;
    }
    assert sent[..i] == sent;
  }

  lemma Continue(start: nat, looks: seq<Look>, limit: nat, frames: seq<Frame>, current: nat, turn: nat,
                 more: seq<Frame>, current': nat)
    requires turn < |looks|
    requires var rest := Serve(current, looks[turn..], limit);
             Serve(start, looks, limit) == rest.(frames := frames + rest.frames)
    requires var rest := Serve(current', looks[turn + 1..], limit);
             Serve(current, looks[turn..], limit) == rest.(frames := more + rest.frames)
    ensures var rest := Serve(current', looks[turn + 1..], limit);
            Serve(start, looks, limit) == rest.(frames := frames + more + rest.frames)
  {
    Assoc(frames, more, Serve(current', looks[turn + 1..], limit).frames);
  }

  /** The generator: reads a batch, sends it, and looks at the row after an empty read. */
  method EventStream(start: nat, looks: seq<Look>, limit: nat)
    returns (frames: seq<Frame>, current: nat, finish: Finish)
    ensures Session(frames, current, finish) == Serve(start, looks, limit)
  {
    frames, current := [], start;
    var turn := 0;
    assert forall rest: seq<Frame> :: [] + rest == rest;
    while turn < |looks|
      invariant 0 <= turn <= |looks|
      invariant var rest := Serve(current, looks[turn..], limit);
                Serve(start, looks, limit) == rest.(frames := frames + rest.frames)
    {
      var look := looks[turn];
      assert looks[turn..][1..] == looks[turn + 1..];
      if !look.reached {
        return frames, current, TransportFailed;
      }
      var events := ReadAfter(look.store, current, limit);
      UpToDoneIsPrefix(events);
      var sent, current', closed := SendBatch(current, events);
      if closed {
        return frames + sent, current', Completed;
      }
      if events == [] {
        if look.row.Some? && Finished(look.row.value.status) {
          if current < look.row.value.sequence {
            var closing := Synthesised(look.row.value.sequence, look.row.value.status);
            return frames + [closing], closing.sequence, Completed;
          }
          return frames, current, Completed;
        }
        sent := [KeepAlive];
      }
      Continue(start, looks, limit, frames, current, turn, sent, current');
      frames, current := frames + sent, current';
      turn := turn + 1;
    }
    finish := Disconnected;
  }

  // ----- what one connection delivers -----

  /** `a` was the store at an earlier time than `final`; streams only grow while their keys live. */
  ghost predicate Earlier(a: Store, final: Store) {
    WellFormed(a) && WellFormed(final) && a.stream <= final.stream
  }

  ghost predicate AllEarlier(looks: seq<Look>, final: Store) {
    WellFormed(final) && forall i :: 0 <= i < |looks| && looks[i].reached ==> Earlier(looks[i].store, final)
  }

  lemma PassedAt(s: Store, i: nat)
    requires WellFormed(s) && i < |s.stream|
    ensures Passed(s, s.stream[i].id) == i + 1
  {
  }

  /** A cursor that lies within an earlier stream lies at the same place in the final one. */
  lemma PassedEarlier(a: Store, final: Store, cursor: nat)
    requires Earlier(a, final)
    ensures Passed(a, cursor) < |a.stream| ==> Passed(final, cursor) == Passed(a, cursor)
  {
    if a.stream != [] {
      assert a.stream[0] == final.stream[0];
    }
  }

  lemma TakeOfPrefix<T>(s: seq<T>, t: seq<T>, k: nat, n: nat)
    requires s <= t && k <= |s|
    ensures var taken := Take(s[k..], n);
            k + |taken| <= |t| && taken == t[k..k + |taken|] && (k == |s| ==> taken == [])
  {
  }

  lemma BatchIsSlice(a: Store, final: Store, cursor: nat, limit: nat)
    requires Earlier(a, final)
    ensures Above(final, cursor, ReadAfter(a, cursor, limit))
  {
    AfterIsSuffix(a, cursor);
    PassedEarlier(a, final, cursor);
    TakeOfPrefix(a.stream, final.stream, Passed(a, cursor), limit);
  }

  function Reached(from: nat, entries: seq<Entry>): nat {
    if entries == [] then from else entries[|entries| - 1].id
  }

  /** The entries are those of the final stream right above `from`, without a gap. */
  ghost predicate Above(final: Store, from: nat, entries: seq<Entry>)
    requires WellFormed(final)
  {
    var k := Passed(final, from);
    k + |entries| <= |final.stream| && entries == final.stream[k..k + |entries|]
  }

  /** The frames carry consecutive entries of the final stream from the cursor on; what closes a run comes last. */
  ghost predicate InOrder(final: Store, cursor: nat, frames: seq<Frame>)
    requires WellFormed(final)
    decreases |frames|
  {
    frames == [] ||
    match frames[0]
    case KeepAlive => InOrder(final, cursor, frames[1..])
    case Synthesised(_, _) => |frames| == 1
    case Stored(e) =>
      var k := Passed(final, cursor);
      k < |final.stream| && e == final.stream[k] && InOrder(final, e.id, frames[1..])
        && (e.event.kind == Done ==> |frames| == 1)
  }

  lemma AbovePrefix(final: Store, cursor: nat, entries: seq<Entry>, front: seq<Entry>)
    requires WellFormed(final) && Above(final, cursor, entries) && front <= entries
    ensures Above(final, cursor, front)
  {
  }

  lemma AboveStep(final: Store, cursor: nat, entries: seq<Entry>)
    requires WellFormed(final) && Above(final, cursor, entries) && entries != []
    ensures Above(final, cursor, [entries[0]]) && Above(final, entries[0].id, entries[1..])
  {
    PassedAt(final, Passed(final, cursor));
  }

  /** Only the last entry may be a done. */
  predicate OpenUpTo(entries: seq<Entry>) {
    forall i :: 0 <= i < |entries| - 1 ==> entries[i].event.kind != Done
  }

  lemma OpenStep(cursor: nat, entries: seq<Entry>)
    requires OpenUpTo(entries) && entries != []
    ensures var tail := entries[1..];
            && OpenUpTo(tail) && Reached(cursor, entries) == Reached(entries[0].id, tail)
            && (EndsInDone(tail) ==> EndsInDone(entries))
            && (entries[0].event.kind == Done ==> tail == [] && EndsInDone(entries))
  {
  }

  lemma FramesCons(entries: seq<Entry>, rest: seq<Frame>)
    requires entries != []
    ensures FramesOf(entries) + rest == [Stored(entries[0])] + (FramesOf(entries[1..]) + rest)
    ensures entries[1..] == [] ==> FramesOf(entries[1..]) + rest == rest
  {
  }

  lemma InOrderCons(final: Store, cursor: nat, e: Entry, rest: seq<Frame>)
    requires WellFormed(final) && Above(final, cursor, [e]) && InOrder(final, e.id, rest)
    requires e.event.kind == Done ==> rest == []
    ensures InOrder(final, cursor, [Stored(e)] + rest)
  {
    assert ([Stored(e)] + rest)[1..] == rest;
    assert e == [e][0] == final.stream[Passed(final, cursor)];
  }

  lemma {:induction false} SliceInOrder(final: Store, cursor: nat, entries: seq<Entry>, rest: seq<Frame>)
    requires WellFormed(final) && Above(final, cursor, entries)
    requires OpenUpTo(entries) && (EndsInDone(entries) ==> rest == [])
    requires InOrder(final, Reached(cursor, entries), rest)
    ensures InOrder(final, cursor, FramesOf(entries) + rest)
    decreases |entries|
  {
    if entries == [] {
      assert FramesOf(entries) + rest == rest;
    } else {
      var e, tail := entries[0], entries[1..];
      AboveStep(final, cursor, entries);
      OpenStep(cursor, entries);
      SliceInOrder(final, e.id, tail, rest);
      InOrderCons(final, cursor, e, FramesOf(tail) + rest);
      FramesCons(entries, rest);
    }
  }

  /** What a turn sends moves the cursor up, within the final stream. */
  lemma SentAdvances(a: Store, final: Store, cursor: nat, limit: nat)
    requires Earlier(a, final) && UpToDone(ReadAfter(a, cursor, limit)) != []
    ensures var sent := UpToDone(ReadAfter(a, cursor, limit));
            && Above(final, cursor, sent) && OpenUpTo(sent)
            && sent[|sent| - 1] in final.stream
            && cursor < sent[|sent| - 1].id <= final.counter
  {
    var batch := ReadAfter(a, cursor, limit);
    UpToDoneIsPrefix(batch);
    BatchIsSlice(a, final, cursor, limit);
    AbovePrefix(final, cursor, batch, UpToDone(batch));
    AboveLast(final, cursor, UpToDone(batch));
  }

  lemma AboveLast(final: Store, cursor: nat, entries: seq<Entry>)
    requires WellFormed(final) && Above(final, cursor, entries) && entries != []
    ensures entries[|entries| - 1] in final.stream && cursor < entries[|entries| - 1].id <= final.counter
  {
    assert entries[|entries| - 1] == final.stream[Passed(final, cursor) + |entries| - 1];
  }

  /**
   * A turn that finds nothing new: it keeps the connection alive as long as the run is not seen to be over, and a
   * connection ends without a word when the client is gone or Redis cannot be reached.
   */
  lemma ServeWaits(cursor: nat, looks: seq<Look>, limit: nat)
    ensures looks == [] ==> Serve(cursor, looks, limit) == Session([], cursor, Disconnected)
    ensures looks != [] && !looks[0].reached ==> Serve(cursor, looks, limit) == Session([], cursor, TransportFailed)
    ensures looks != [] && looks[0].reached && ReadAfter(looks[0].store, cursor, limit) == []
            && (looks[0].row.Some? ==> looks[0].row.value.status in {Queued, Running}) ==>
              var rest := Serve(cursor, looks[1..], limit);
              Serve(cursor, looks, limit) == Session([KeepAlive] + rest.frames, rest.cursor, rest.finish)
  {
    if looks != [] && looks[0].row.Some? {
      FinishedExactly(looks[0].row.value.status);
    }
  }

  /** A turn that finds something. */
  lemma ServeSent(cursor: nat, looks: seq<Look>, limit: nat)
    requires looks != [] && looks[0].reached && UpToDone(ReadAfter(looks[0].store, cursor, limit)) != []
    ensures var sent := UpToDone(ReadAfter(looks[0].store, cursor, limit));
            var rest := Serve(sent[|sent| - 1].id, looks[1..], limit);
            Serve(cursor, looks, limit) ==
            if EndsInDone(sent) then Session(FramesOf(sent), sent[|sent| - 1].id, Completed)
            else rest.(frames := FramesOf(sent) + rest.frames)
  {
  }

  /** A turn that sends something, followed by frames in order from where it ended. */
  lemma SentInOrder(final: Store, cursor: nat, looks: seq<Look>, limit: nat)
    requires AllEarlier(looks, final) && looks != [] && looks[0].reached
    requires UpToDone(ReadAfter(looks[0].store, cursor, limit)) != []
    requires var sent := UpToDone(ReadAfter(looks[0].store, cursor, limit));
             InOrder(final, sent[|sent| - 1].id, Serve(sent[|sent| - 1].id, looks[1..], limit).frames)
    ensures InOrder(final, cursor, Serve(cursor, looks, limit).frames)
  {
    var sent := UpToDone(ReadAfter(looks[0].store, cursor, limit));
    SentAdvances(looks[0].store, final, cursor, limit);
    ServeSent(cursor, looks, limit);
    if EndsInDone(sent) {
      SliceInOrder(final, cursor, sent, []);
      Neutral(FramesOf(sent));
    } else {
      SliceInOrder(final, cursor, sent, Serve(sent[|sent| - 1].id, looks[1..], limit).frames);
    }
  }

  lemma {:induction false} ServeInOrder(final: Store, cursor: nat, looks: seq<Look>, limit: nat)
    requires AllEarlier(looks, final)
    ensures InOrder(final, cursor, Serve(cursor, looks, limit).frames)
    decreases |looks|
  {
    if looks != [] && looks[0].reached {
      var sent := UpToDone(ReadAfter(looks[0].store, cursor, limit));
      if sent == [] {
        ServeInOrder(final, cursor, looks[1..], limit);
      } else {
        ServeInOrder(final, sent[|sent| - 1].id, looks[1..], limit);
        SentInOrder(final, cursor, looks, limit);
      }
    }
  }

  lemma {:induction false} CutInOrder(final: Store, cursor: nat, frames: seq<Frame>, n: nat)
    requires WellFormed(final) && InOrder(final, cursor, frames)
    ensures InOrder(final, cursor, Take(frames, n))
    decreases |frames|
  {
    if frames != [] && 0 < n < |frames| {
      var cursor' := if frames[0].Stored? then frames[0].entry.id else cursor;
      if !frames[0].Synthesised? {
        CutInOrder(final, cursor', frames[1..], n - 1);
        assert Take(frames, n)[1..] == Take(frames[1..], n - 1);
      }
    }
  }

  // ----- the client -----

  /** The client's cursor, the frames it handled, and whether one of them closed the run. */
  datatype Applied = Applied(last: nat, frames: seq<Frame>, closed: bool)

  function Apply(last: nat, frames: seq<Frame>): Applied
    decreases |frames|
  {
    if frames == [] then Applied(last, [], false)
    else
      var head, tail := frames[0], frames[1..];
      match head
      case KeepAlive => Apply(last, tail)
      case Synthesised(sequence, _) =>
        if sequence > last then Applied(sequence, [head], true) else Apply(last, tail)
      case Stored(e) =>
        if e.id <= last then Apply(last, tail)
        else if e.event.kind == Done then Applied(e.id, [head], true)
        else var rest := Apply(e.id, tail); rest.(frames := [head] + rest.frames)
  }

  /** The cursor a connection starts from: the query parameter, or the header when it is larger. */
  function StartCursor(after: nat, header: Option<int>): nat {
    if header.Some? && header.value > after then header.value else after
  }

  /**
   * One connection attempt: how far the two cursors it sends lag behind the client's, what the server
   * meets, and how many frames arrive before the connection is gone.
   */
  datatype Attempt = Attempt(afterLag: nat, headerLag: Option<nat>, looks: seq<Look>, limit: nat, arriving: nat)

  function Resume(last: nat, a: Attempt): nat {
    StartCursor(if a.afterLag < last then last - a.afterLag else 0,
                if a.headerLag.Some? then Some(last - a.headerLag.value) else None)
  }

  function Arriving(last: nat, a: Attempt): seq<Frame> {
    Take(Serve(Resume(last, a), a.looks, a.limit).frames, a.arriving)
  }

  /** Every pair of cursors at or below the client's own can be sent, and the connection starts from the higher one. */
  lemma ResumeExactly(last: nat, after: nat, header: nat, a: Attempt)
    requires after <= last && header <= last
    ensures Resume(last, a.(afterLag := last - after, headerLag := Some(last - header))) ==
            if after >= header then after else header
    ensures Resume(last, a.(afterLag := last - after, headerLag := None)) == after
    ensures Resume(last, a) <= last
  {
  }

  /** All that a client handles over any number of attempts; it stops when a frame closed the run. */
  function Follow(last: nat, attempts: seq<Attempt>): Applied
    decreases |attempts|
  {
    if attempts == [] then Applied(last, [], false)
    else
      var first := Apply(last, Arriving(last, attempts[0]));
      if first.closed then first
      else var rest := Follow(first.last, attempts[1..]); rest.(frames := first.frames + rest.frames)
  }

  /** The client object that `handleStreamResponse` updates. */
  class StreamState {
    var lastEventSequence: nat
    var handled: seq<Frame>

    constructor (last: nat)
      ensures lastEventSequence == last && handled == []
    {
      lastEventSequence, handled := last, [];
    }

    method HandleFrames(frames: seq<Frame>) returns (closed: bool)
      modifies this
      ensures var a := Apply(old(lastEventSequence), frames);
              lastEventSequence == a.last && handled == old(handled) + a.frames && closed == a.closed
    {
      var i := 0;
      assert frames[0..] == frames;
      assert forall rest: seq<Frame> :: handled + ([] + rest) == handled + rest;
      while i < |frames|
        invariant 0 <= i <= |frames|
        invariant var a, rest := Apply(old(lastEventSequence), frames), Apply(lastEventSequence, frames[i..]);
                  a.last == rest.last && a.closed == rest.closed && old(handled) + a.frames == handled + rest.frames
      {
        var frame := frames[i];
        ghost var rest := frames[i + 1..];
        assert frames[i..][1..] == rest;
        var sequence := if frame.Stored? then Some(frame.entry.id)
                        else if frame.Synthesised? then Some(frame.sequence) else None;
        if sequence.Some? && sequence.value > lastEventSequence {
          ghost var before := handled;
          handled := handled + [frame];
          lastEventSequence := sequence.value;
          if frame.Synthesised? || frame.entry.event.kind == Done {
            return true;
          }
          assert before + ([frame] + Apply(lastEventSequence, rest).frames) ==
                   handled + Apply(lastEventSequence, rest).frames;
        }
        i := i + 1;
      }
      assert handled + [] == handled;
      closed := false;
    }
  }

  // ----- exactly once, in order -----

  function Delivered(frames: seq<Frame>): seq<Entry> {
    if frames == [] then []
    else (if frames[0].Stored? then [frames[0].entry] else []) + Delivered(frames[1..])
  }

  /** The handled frames are the entries right above `from`, each once, perhaps closed by one synthesised done. */
  ghost predicate ExactlyFrom(final: Store, from: nat, a: Applied)
    requires WellFormed(final)
  {
    var entries := Delivered(a.frames);
    && Above(final, from, entries)
    && |entries| <= |a.frames| && a.frames[..|entries|] == FramesOf(entries)
    && (if |a.frames| == |entries|
        then a.last == Reached(from, entries) && a.closed == EndsInDone(entries)
        else |a.frames| == |entries| + 1 && a.frames[|entries|].Synthesised? && !EndsInDone(entries)
             && a.closed && a.last == a.frames[|entries|].sequence > Reached(from, entries))
  }

  lemma {:induction false} DeliveredConcat(a: seq<Frame>, b: seq<Frame>)
    ensures Delivered(a + b) == Delivered(a) + Delivered(b)
    decreases |a|
  {
    if a == [] {
      Neutral(b);
      Neutral(Delivered(b));
    } else {
      DeliveredConcat(a[1..], b);
      assert (a + b)[1..] == a[1..] + b;
      Assoc(if a[0].Stored? then [a[0].entry] else [], Delivered(a[1..]), Delivered(b));
    }
  }

  lemma ReachedPasses(final: Store, from: nat, entries: seq<Entry>)
    requires WellFormed(final) && Above(final, from, entries)
    ensures Passed(final, Reached(from, entries)) == Passed(final, from) + |entries|
  {
    if entries != [] {
      PassedAt(final, Passed(final, from) + |entries| - 1);
    }
  }

  lemma FramesChain(first: seq<Frame>, a: seq<Entry>, rest: seq<Frame>, b: seq<Entry>)
    requires first == FramesOf(a) && |b| <= |rest| && rest[..|b|] == FramesOf(b)
    ensures |first + rest| == |a + b| + (|rest| - |b|)
    ensures (first + rest)[..|a + b|] == FramesOf(a + b)
    ensures |rest| > |b| ==> (first + rest)[|a + b|] == rest[|b|]
  {
    assert (first + rest)[..|a + b|] == first + rest[..|b|];
    assert FramesOf(a) + FramesOf(b) == FramesOf(a + b);
  }

  lemma EntriesChain(final: Store, from: nat, a: seq<Entry>, b: seq<Entry>)
    requires WellFormed(final) && Above(final, from, a) && Above(final, Reached(from, a), b)
    ensures Above(final, from, a + b)
    ensures Reached(from, a + b) == Reached(Reached(from, a), b)
    ensures b != [] ==> EndsInDone(a + b) == EndsInDone(b)
    ensures b == [] ==> a + b == a
  {
    ReachedPasses(final, from, a);
  }

  /** Handling one more batch of frames after having handled `first`. */
  lemma ExactlyChain(final: Store, from: nat, first: Applied, rest: Applied)
    requires WellFormed(final) && ExactlyFrom(final, from, first) && !first.closed
    requires ExactlyFrom(final, first.last, rest)
    ensures ExactlyFrom(final, from, rest.(frames := first.frames + rest.frames))
  {
    var a, b := Delivered(first.frames), Delivered(rest.frames);
    DeliveredConcat(first.frames, rest.frames);
    assert first.frames == first.frames[..|a|];
    FramesChain(first.frames, a, rest.frames, b);
    EntriesChain(final, from, a, b);
  }

  /** The next entry above a cursor at or below `last` is, when it is above `last`, the next one above `last`. */
  lemma OneExactly(final: Store, cursor: nat, last: nat, e: Entry)
    requires WellFormed(final) && cursor <= last < e.id
    requires Passed(final, cursor) < |final.stream| && e == final.stream[Passed(final, cursor)]
    ensures ExactlyFrom(final, last, Applied(e.id, [Stored(e)], e.event.kind == Done))
  {
    var frames := [Stored(e)];
    assert frames[1..] == [];
    assert Delivered(frames) == [e];
    assert Above(final, last, [e]);
    assert frames[..1] == FramesOf([e]);
  }

  lemma {:induction false} ApplyExactly(final: Store, cursor: nat, last: nat, frames: seq<Frame>)
    requires WellFormed(final) && InOrder(final, cursor, frames) && cursor <= last
    ensures ExactlyFrom(final, last, Apply(last, frames))
    decreases |frames|
  {
    if frames != [] {
      var head, tail := frames[0], frames[1..];
      match head {
        case KeepAlive => ApplyExactly(final, cursor, last, tail);
        case Synthesised(sequence, _) =>
          assert tail == [];
          assert Delivered([head][1..]) == [];
        case Stored(e) =>
          if e.id <= last {
            ApplyExactly(final, e.id, last, tail);
          } else {
            OneExactly(final, cursor, last, e);
            if e.event.kind != Done {
              ApplyExactly(final, e.id, e.id, tail);
              ExactlyChain(final, last, Applied(e.id, [head], false), Apply(e.id, tail));
            }
          }
      }
    }
  }

  /**
   * Exactly-once delivery in order. Over any schedule of batched reads, lost connections and resumptions
   * at or below the client's cursor, the handled frames are exactly the entries right above where the
   * client started, each once; only a synthesised done may close them early.
   */
  lemma {:induction false} FollowExactly(final: Store, last: nat, attempts: seq<Attempt>)
    requires WellFormed(final) && forall i :: 0 <= i < |attempts| ==> AllEarlier(attempts[i].looks, final)
    ensures ExactlyFrom(final, last, Follow(last, attempts))
    decreases |attempts|
  {
    if attempts != [] {
      var a := attempts[0];
      ServeInOrder(final, Resume(last, a), a.looks, a.limit);
      CutInOrder(final, Resume(last, a), Serve(Resume(last, a), a.looks, a.limit).frames, a.arriving);
      ApplyExactly(final, Resume(last, a), last, Arriving(last, a));
      var first := Apply(last, Arriving(last, a));
      if !first.closed {
        FollowExactly(final, first.last, attempts[1..]);
        ExactlyChain(final, last, first, Follow(first.last, attempts[1..]));
      }
    }
  }

  lemma DoneEndsStream(final: Store, k: nat, entries: seq<Entry>)
    requires DoneIsLast(final) && EndsInDone(entries) && k + |entries| <= |final.stream|
    requires entries == final.stream[k..k + |entries|]
    ensures entries == final.stream[k..]
  {
    assert final.stream[k + |entries| - 1] == entries[|entries| - 1];
  }

  lemma ClosedByStored(final: Store, from: nat, a: Applied)
    requires WellFormed(final) && DoneIsLast(final) && ExactlyFrom(final, from, a) && a.closed
    requires a.frames != [] && a.frames[|a.frames| - 1].Stored?
    ensures a.frames == FramesOf(final.stream[Passed(final, from)..])
  {
    var entries := Delivered(a.frames);
    assert a.frames == a.frames[..|entries|];
    DoneEndsStream(final, Passed(final, from), entries);
  }

  /** A client whose run was closed by the stored done handled every entry above its start. */
  lemma {:induction false} StoredDoneMeansAll(final: Store, last: nat, attempts: seq<Attempt>)
    requires WellFormed(final) && DoneIsLast(final)
    requires forall i :: 0 <= i < |attempts| ==> AllEarlier(attempts[i].looks, final)
    requires var frames := Follow(last, attempts).frames;
             frames != [] && frames[|frames| - 1].Stored? && Follow(last, attempts).closed
    ensures Follow(last, attempts).frames == FramesOf(After(final.stream, last))
  {
    FollowExactly(final, last, attempts);
    AfterIsSuffix(final, last);
    ClosedByStored(final, last, Follow(last, attempts));
  }

  // ----- how a connection ends -----

  /** Stream and row once the run is finished under a fitting number, before or after its done event is written. */
  ghost predicate Numbered(store: Store, row: Row) {
    && WellFormed(store) && FromOne(store) && Finished(row.status)
    && DoneIsLast(store) && DonesAgree(store, row)
    && row.sequence == (if HasDone(store) then store.counter else store.counter + 1)
  }

  /** Every disciplined run finished from an answered snapshot is numbered so. */
  lemma DisciplinedRunIsNumbered(actions: seq<Action>)
    requires Exec(actions, true).Some?
    requires var w := Exec(actions, true).value; !Active(w.row) && w.exact && !w.expired
    ensures var w := Exec(actions, true).value; Numbered(w.store, w.row)
  {
    ExecIsOrderly(actions);
  }

  /**
   * A synthesised done loses nothing if and only if the cursor stands right below the row's number; the loop
   * does not compare the two, because its read and its look at the row are not one step.
   */
  lemma SynthesisedDoneSkipsExactly(final: Store, row: Row, cursor: nat)
    requires Numbered(final, row) && cursor < row.sequence
    ensures (forall i :: 0 <= i < |final.stream| && final.stream[i].id > cursor ==> final.stream[i].event.kind == Done)
            <==> cursor + 1 == row.sequence
  {
    var below := row.sequence - 2;
    if 0 <= below && cursor + 1 < row.sequence {
      assert final.stream[below].id == below + 1 > cursor;
      assert final.stream[below].event.kind != Done;
    }
  }

  /** Such a loss happens: the read finds nothing, then the run ends with two tokens, then the loop looks at the row. */
  lemma SynthesisedDoneMaySkip()
    ensures var row := Row(Succeeded, "ab", 3);
            var final := AppendAll(EMPTY, [Event(Token, Text("a")), Event(Token, Text("b"))]);
            && Numbered(final, row)
            && Earlier(EMPTY, final)
            && Serve(0, [Look(true, EMPTY, Some(row))], 1).frames == [Synthesised(3, Succeeded)]
  {
    AppendAllKeeps(EMPTY, [Event(Token, Text("a")), Event(Token, Text("b"))]);
    assert After(EMPTY.stream, 0) == [];
  }

  function Turns(store: Store, cursor: nat): nat {
    (if store.counter > cursor then store.counter - cursor else 0) + 1
  }

  predicate Closes(f: Frame) {
    f.Synthesised? || (f.Stored? && f.entry.event.kind == Done)
  }

  predicate Announces(f: Frame, row: Row) {
    f == Synthesised(row.sequence, row.status) || f == Stored(Entry(row.sequence, DoneEvent(row.status)))
  }

  /** Every turn reads, and finds the row as it was finished; the store may still grow. */
  predicate Settled(looks: seq<Look>, row: Row) {
    forall i :: 0 <= i < |looks| ==> looks[i].reached && looks[i].row == Some(row)
  }

  /**
   * Termination. Once the row is finished, and whatever is still being written meanwhile, the loop ends
   * within (last id - cursor) + 1 turns.
   */
  lemma {:induction false} SettledServeEnds(final: Store, row: Row, cursor: nat, looks: seq<Look>, limit: nat)
    requires AllEarlier(looks, final) && Settled(looks, row) && Finished(row.status) && limit >= 1
    requires |looks| >= Turns(final, cursor)
    ensures Serve(cursor, looks, limit).finish == Completed
    decreases |looks|
  {
    var sent := UpToDone(ReadAfter(looks[0].store, cursor, limit));
    if sent == [] {
      ServeNothing(cursor, looks, limit, row);
    } else {
      ServeSent(cursor, looks, limit);
      if !EndsInDone(sent) {
        SentAdvances(looks[0].store, final, cursor, limit);
        SettledServeEnds(final, row, sent[|sent| - 1].id, looks[1..], limit);
      }
    }
  }

  lemma {:induction false} ClosingComesLast(final: Store, cursor: nat, frames: seq<Frame>)
    requires WellFormed(final) && InOrder(final, cursor, frames)
    ensures forall i :: 0 <= i < |frames| - 1 ==> !Closes(frames[i])
    decreases |frames|
  {
    if |frames| > 1 {
      var rest := frames[1..];
      ClosingComesLast(final, if frames[0].Stored? then frames[0].entry.id else cursor, rest);
      forall i | 0 <= i < |frames| - 1 ensures !Closes(frames[i]) {
        assert i > 0 ==> frames[i] == rest[i - 1];
      }
    }
  }

  /** The rows that a connection found finished are all the same one. */
  predicate OneRow(looks: seq<Look>, row: Row) {
    forall i :: 0 <= i < |looks| && looks[i].row.Some? && Finished(looks[i].row.value.status) ==>
      looks[i].row == Some(row)
  }

  ghost predicate AllAnnounce(frames: seq<Frame>, row: Row) {
    forall i :: 0 <= i < |frames| && Closes(frames[i]) ==> Announces(frames[i], row)
  }

  lemma SliceAnnounces(final: Store, row: Row, cursor: nat, entries: seq<Entry>)
    requires WellFormed(final) && DonesAgree(final, row) && Above(final, cursor, entries)
    ensures AllAnnounce(FramesOf(entries), row)
  {
    var k := Passed(final, cursor);
    forall i | 0 <= i < |entries| && Closes(FramesOf(entries)[i]) ensures Announces(FramesOf(entries)[i], row) {
      assert entries[i] == final.stream[k + i];
    }
  }

  /** Done identity: stored or synthesised, whatever closes the run carries the row's number and status. */
  lemma {:induction false} ServeAnnounces(final: Store, row: Row, cursor: nat, looks: seq<Look>, limit: nat)
    requires AllEarlier(looks, final) && DonesAgree(final, row) && OneRow(looks, row)
    ensures AllAnnounce(Serve(cursor, looks, limit).frames, row)
    decreases |looks|
  {
    if looks != [] && looks[0].reached {
      var batch := ReadAfter(looks[0].store, cursor, limit);
      var sent := UpToDone(batch);
      UpToDoneIsPrefix(batch);
      if sent == [] {
        ServeAnnounces(final, row, cursor, looks[1..], limit);
      } else {
        SentAdvances(looks[0].store, final, cursor, limit);
        SliceAnnounces(final, row, cursor, sent);
        ServeAnnounces(final, row, sent[|sent| - 1].id, looks[1..], limit);
      }
    }
  }

  lemma OpenEntryIsBelow(final: Store, row: Row, entry: Entry)
    requires Numbered(final, row) && entry in final.stream && entry.event.kind != Done
    ensures entry.id < row.sequence
  {
    var i :| 0 <= i < |final.stream| && final.stream[i] == entry;
    if HasDone(final) {
      var j :| 0 <= j < |final.stream| && final.stream[j].event.kind == Done;
    }
  }

  lemma NothingAbove(a: Store, final: Store, row: Row, cursor: nat, limit: nat)
    requires Earlier(a, final) && Numbered(final, row) && cursor >= row.sequence
    ensures ReadAfter(a, cursor, limit) == []
  {
    BatchIsSlice(a, final, cursor, limit);
  }

  /** A turn that finds nothing but a finished row. */
  lemma ServeNothing(cursor: nat, looks: seq<Look>, limit: nat, row: Row)
    requires looks != [] && looks[0].reached && looks[0].row == Some(row) && Finished(row.status)
    requires UpToDone(ReadAfter(looks[0].store, cursor, limit)) == []
    ensures Serve(cursor, looks, limit).finish == Completed
    ensures Serve(cursor, looks, limit).frames ==
            if cursor < row.sequence then [Synthesised(row.sequence, row.status)] else []
  {
  }

  lemma SettledServeIsSilent(final: Store, row: Row, cursor: nat, looks: seq<Look>, limit: nat)
    requires AllEarlier(looks, final) && Settled(looks, row) && Numbered(final, row) && looks != []
    requires cursor >= row.sequence
    ensures Serve(cursor, looks, limit).frames == []
  {
    NothingAbove(looks[0].store, final, row, cursor, limit);
    ServeNothing(cursor, looks, limit, row);
  }

  predicate LastCloses(frames: seq<Frame>) {
    frames != [] && Closes(frames[|frames| - 1])
  }

  lemma ClosesAtLast(sent: seq<Entry>, rest: seq<Frame>)
    requires if rest == [] then EndsInDone(sent) else LastCloses(rest)
    ensures LastCloses(FramesOf(sent) + rest)
  {
  }

  /** A turn that sends something leads to a closing frame if it sends a done, or if the following turns do. */
  lemma SentCloses(cursor: nat, looks: seq<Look>, limit: nat, sent: seq<Entry>)
    requires looks != [] && looks[0].reached && sent == UpToDone(ReadAfter(looks[0].store, cursor, limit)) && sent != []
    requires EndsInDone(sent) || LastCloses(Serve(sent[|sent| - 1].id, looks[1..], limit).frames)
    ensures LastCloses(Serve(cursor, looks, limit).frames)
  {
    ServeSent(cursor, looks, limit);
    if EndsInDone(sent) {
      ClosesAtLast(sent, []);
      Neutral(FramesOf(sent));
    } else {
      ClosesAtLast(sent, Serve(sent[|sent| - 1].id, looks[1..], limit).frames);
    }
  }

  lemma {:induction false} SettledServeSpeaks(final: Store, row: Row, cursor: nat, looks: seq<Look>, limit: nat)
    requires AllEarlier(looks, final) && Settled(looks, row) && Numbered(final, row) && limit >= 1
    requires |looks| >= Turns(final, cursor) && cursor < row.sequence
    ensures LastCloses(Serve(cursor, looks, limit).frames)
    decreases |looks|
  {
    var sent := UpToDone(ReadAfter(looks[0].store, cursor, limit));
    if sent == [] {
      ServeNothing(cursor, looks, limit, row);
    } else {
      if !EndsInDone(sent) {
        SentAdvances(looks[0].store, final, cursor, limit);
        OpenEntryIsBelow(final, row, sent[|sent| - 1]);
        SettledServeSpeaks(final, row, sent[|sent| - 1].id, looks[1..], limit);
      }
      SentCloses(cursor, looks, limit, sent);
    }
  }

  /**
   * Where a connection starts: with query and header it sends no entry that either of them has, and skips none that
   * both of them miss.
   */
  lemma StartsAboveBoth(final: Store, after: nat, header: Option<int>, looks: seq<Look>, limit: nat)
    requires AllEarlier(looks, final)
    ensures var frames := Serve(StartCursor(after, header), looks, limit).frames;
            && (forall i :: 0 <= i < |frames| && frames[i].Stored? ==>
                  frames[i].entry.id > after && (header.Some? ==> frames[i].entry.id > header.value))
            && (frames != [] && frames[0].Stored? ==>
                  forall e :: e in final.stream && e.id > after && (header.Some? ==> e.id > header.value) ==>
                    frames[0].entry.id <= e.id)
  {
    var cursor := StartCursor(after, header);
    ServeInOrder(final, cursor, looks, limit);
    FramesAreAbove(final, cursor, Serve(cursor, looks, limit).frames);
  }

  lemma {:induction false} FramesAreAbove(final: Store, cursor: nat, frames: seq<Frame>)
    requires WellFormed(final) && InOrder(final, cursor, frames)
    ensures forall i :: 0 <= i < |frames| && frames[i].Stored? ==> frames[i].entry.id > cursor
    ensures frames != [] && frames[0].Stored? ==>
              forall e :: e in final.stream && e.id > cursor ==> frames[0].entry.id <= e.id
    decreases |frames|
  {
    if frames != [] {
      var rest := frames[1..];
      var next := if frames[0].Stored? then frames[0].entry.id else cursor;
      FramesAreAbove(final, next, rest);
      forall i | 0 < i < |frames| && frames[i].Stored? ensures frames[i].entry.id > cursor {
        assert frames[i] == rest[i - 1];
      }
    }
  }

  /** A settled connection sends a closing frame, as its last, exactly when it starts below the row's number. */
  lemma SettledServeCloses(final: Store, row: Row, cursor: nat, looks: seq<Look>, limit: nat)
    requires AllEarlier(looks, final) && Settled(looks, row) && Numbered(final, row) && limit >= 1
    requires |looks| >= Turns(final, cursor)
    ensures var frames := Serve(cursor, looks, limit).frames;
            if cursor < row.sequence then LastCloses(frames) else frames == []
  {
    if cursor < row.sequence {
      SettledServeSpeaks(final, row, cursor, looks, limit);
    } else {
      SettledServeIsSilent(final, row, cursor, looks, limit);
    }
  }

  /**
   * A subscriber of a finished run, while its done event may still be on the way: the loop ends within
   * (last id - cursor) + 1 turns; started below the row's number it sends one closing frame, as its last, with the
   * row's number and status, and started at or above it sends nothing.
   */
  lemma {:induction false} SubscriberTerminates(final: Store, row: Row, cursor: nat, looks: seq<Look>, limit: nat)
    requires AllEarlier(looks, final) && Settled(looks, row) && Numbered(final, row) && limit >= 1
    requires |looks| >= Turns(final, cursor)
    ensures var s := Serve(cursor, looks, limit);
            && s.finish == Completed
            && (forall i :: 0 <= i < |s.frames| - 1 ==> !Closes(s.frames[i]))
            && (if cursor < row.sequence then s.frames != [] && Announces(s.frames[|s.frames| - 1], row)
                else s.frames == [])
  {
    SettledServeEnds(final, row, cursor, looks, limit);
    ServeInOrder(final, cursor, looks, limit);
    ClosingComesLast(final, cursor, Serve(cursor, looks, limit).frames);
    ServeAnnounces(final, row, cursor, looks, limit);
    SettledServeCloses(final, row, cursor, looks, limit);
  }

  /** What a connection still has to say once nothing is written any more. */
  function Remaining(store: Store, row: Row, cursor: nat): seq<Frame> {
    var entries := After(store.stream, cursor);
    FramesOf(entries) +
    if EndsInDone(entries) || Reached(cursor, entries) >= row.sequence then []
    else [Synthesised(row.sequence, row.status)]
  }

  lemma NothingCut(entries: seq<Entry>)
    requires OpenUpTo(entries)
    ensures UpToDone(entries) == entries
  {
    UpToDoneIsPrefix(entries);
    var sent := UpToDone(entries);
    assert sent != [] ==> sent[|sent| - 1] == entries[|sent| - 1];
  }

  lemma TakeSlice<T>(s: seq<T>, k: nat, n: nat)
    requires k < |s| && n >= 1
    ensures var taken := Take(s[k..], n); taken != [] && k + |taken| <= |s| && taken == s[k..k + |taken|]
  {
  }

  lemma BatchIsPart(store: Store, cursor: nat, limit: nat) returns (end: nat)
    requires WellFormed(store) && limit >= 1 && After(store.stream, cursor) != []
    ensures Passed(store, cursor) < end <= |store.stream|
    ensures ReadAfter(store, cursor, limit) == store.stream[Passed(store, cursor)..end]
    ensures After(store.stream, cursor) == store.stream[Passed(store, cursor)..]
  {
    var k := Passed(store, cursor);
    AfterIsSuffix(store, cursor);
    TakeSlice(store.stream, k, limit);
    end := k + |Take(store.stream[k..], limit)|;
  }

  lemma BehindBatch(store: Store, cursor: nat, end: nat)
    requires WellFormed(store) && Passed(store, cursor) < end <= |store.stream|
    ensures After(store.stream, store.stream[end - 1].id) == store.stream[end..]
    ensures cursor < store.stream[end - 1].id <= store.counter
  {
    PassedAt(store, end - 1);
    AfterIsSuffix(store, store.stream[end - 1].id);
  }

  lemma BatchThenRest(store: Store, cursor: nat, limit: nat)
    requires WellFormed(store) && DoneIsLast(store) && limit >= 1
    requires After(store.stream, cursor) != []
    ensures var batch := ReadAfter(store, cursor, limit);
            && batch != [] && UpToDone(batch) == batch
            && cursor < batch[|batch| - 1].id <= store.counter
            && After(store.stream, cursor) == batch + After(store.stream, batch[|batch| - 1].id)
            && (EndsInDone(batch) ==> After(store.stream, cursor) == batch)
  {
    var end := BatchIsPart(store, cursor, limit);
    BehindBatch(store, cursor, end);
    SliceIsSent(store, Passed(store, cursor), end, ReadAfter(store, cursor, limit), After(store.stream, cursor),
                After(store.stream, store.stream[end - 1].id));
  }

  /** Of what is left from place k on, the batch up to `end` is sent whole, and nothing is left behind a done. */
  lemma SliceIsSent(store: Store, k: nat, end: nat, batch: seq<Entry>, all: seq<Entry>, rest: seq<Entry>)
    requires DoneIsLast(store) && k < end <= |store.stream|
    requires batch == store.stream[k..end] && all == store.stream[k..] && rest == store.stream[end..]
    ensures batch != [] && UpToDone(batch) == batch && batch[|batch| - 1] == store.stream[end - 1]
    ensures all == batch + rest && (EndsInDone(batch) ==> all == batch)
  {
    SliceIsOpen(store, k, end);
    SliceThenRest(store.stream, k, end);
    NothingCut(batch);
  }

  lemma SliceThenRest<T>(s: seq<T>, k: nat, end: nat)
    requires k < end <= |s|
    ensures s[k..] == s[k..end] + s[end..] && s[k..end][end - k - 1] == s[end - 1]
    ensures end == |s| ==> s[k..] == s[k..end]
  {
  }

  lemma SliceIsOpen(store: Store, k: nat, end: nat)
    requires DoneIsLast(store) && k < end <= |store.stream|
    ensures OpenUpTo(store.stream[k..end]) && (EndsInDone(store.stream[k..end]) ==> end == |store.stream|)
  {
    var slice := store.stream[k..end];
    forall i | 0 <= i < |slice| - 1 ensures slice[i].event.kind != Done {
      assert slice[i] == store.stream[k + i];
    }
    assert slice[|slice| - 1] == store.stream[end - 1];
  }

  lemma RepeatTail<T>(x: T, n: nat)
    requires n > 0
    ensures Repeat(x, n)[0] == x && Repeat(x, n)[1..] == Repeat(x, n - 1)
  {
  }

  lemma BatchMoves(store: Store, cursor: nat, limit: nat, batch: seq<Entry>)
    requires WellFormed(store) && DoneIsLast(store) && limit >= 1
    requires After(store.stream, cursor) != [] && batch == ReadAfter(store, cursor, limit)
    ensures batch != [] && cursor < batch[|batch| - 1].id <= store.counter
  {
    BatchThenRest(store, cursor, limit);
  }

  /** The session ended by itself and sent exactly what remained. */
  ghost predicate LeavesNothing(s: Session, store: Store, row: Row, cursor: nat) {
    s.finish == Completed && s.frames == Remaining(store, row, cursor)
  }

  lemma QuiescentTurn(store: Store, row: Row, cursor: nat, limit: nat, looks: seq<Look>, batch: seq<Entry>)
    requires WellFormed(store) && DoneIsLast(store) && Finished(row.status) && limit >= 1
    requires After(store.stream, cursor) != [] && batch == ReadAfter(store, cursor, limit) && batch != []
    requires looks != [] && looks[0] == Look(true, store, Some(row))
    requires EndsInDone(batch)
             || LeavesNothing(Serve(batch[|batch| - 1].id, looks[1..], limit), store, row, batch[|batch| - 1].id)
    ensures LeavesNothing(Serve(cursor, looks, limit), store, row, cursor)
  {
    BatchThenRest(store, cursor, limit);
    ServeOneBatch(store, row, cursor, limit, looks);
    if EndsInDone(batch) {
      Neutral(FramesOf(batch));
    } else {
      RemainingStep(store, row, cursor, batch);
    }
  }

  /**
   * When nothing is written any more either, the loop ends within (counter - cursor) + 1 turns, having sent
   * exactly the remaining entries and, when they hold no done and stop below the row's number, one
   * synthesised done.
   */
  lemma {:induction false} QuiescentServe(store: Store, row: Row, cursor: nat, limit: nat, n: nat)
    requires WellFormed(store) && DoneIsLast(store) && Finished(row.status) && limit >= 1
    requires n >= Turns(store, cursor)
    ensures LeavesNothing(Serve(cursor, Repeat(Look(true, store, Some(row)), n), limit), store, row, cursor)
    decreases n
  {
    var look := Look(true, store, Some(row));
    RepeatTail(look, n);
    if After(store.stream, cursor) == [] {
      NothingRemains(store, row, cursor, limit, Repeat(look, n));
    } else {
      var batch := ReadAfter(store, cursor, limit);
      BatchMoves(store, cursor, limit, batch);
      if !EndsInDone(batch) {
        QuiescentServe(store, row, batch[|batch| - 1].id, limit, n - 1);
      }
      QuiescentTurn(store, row, cursor, limit, Repeat(look, n), batch);
    }
  }

  /** A turn that finds entries sends the whole batch. */
  lemma ServeOneBatch(store: Store, row: Row, cursor: nat, limit: nat, looks: seq<Look>)
    requires looks != [] && looks[0] == Look(true, store, Some(row))
    requires var batch := ReadAfter(store, cursor, limit); batch != [] && UpToDone(batch) == batch
    ensures var batch := ReadAfter(store, cursor, limit);
            var cursor' := batch[|batch| - 1].id;
            var rest := Serve(cursor', looks[1..], limit);
            Serve(cursor, looks, limit) ==
            if EndsInDone(batch) then Session(FramesOf(batch), cursor', Completed)
            else rest.(frames := FramesOf(batch) + rest.frames)
  {
  }

  /** The last turn: an empty read and a finished row. */
  lemma NothingRemains(store: Store, row: Row, cursor: nat, limit: nat, looks: seq<Look>)
    requires After(store.stream, cursor) == [] && Finished(row.status)
    requires looks != [] && looks[0] == Look(true, store, Some(row))
    ensures var s := Serve(cursor, looks, limit);
            s.finish == Completed && s.frames == Remaining(store, row, cursor)
  {
    assert ReadAfter(store, cursor, limit) == [];
    assert [] + [Synthesised(row.sequence, row.status)] == [Synthesised(row.sequence, row.status)];
  }

  lemma RemainingStep(store: Store, row: Row, cursor: nat, batch: seq<Entry>)
    requires batch != [] && !EndsInDone(batch)
    requires After(store.stream, cursor) == batch + After(store.stream, batch[|batch| - 1].id)
    ensures Remaining(store, row, cursor) == FramesOf(batch) + Remaining(store, row, batch[|batch| - 1].id)
  {
    var entries, rest := After(store.stream, cursor), After(store.stream, batch[|batch| - 1].id);
    assert FramesOf(entries) == FramesOf(batch) + FramesOf(rest);
    assert EndsInDone(entries) == EndsInDone(rest);
  }

  /**
   * Done identity: of the remaining frames at most the last closes the run; one does exactly when the
   * cursor stands below the row's number, and stored or synthesised it carries the row's number and status.
   */
  lemma OneClosingFrame(store: Store, row: Row, cursor: nat)
    requires Numbered(store, row)
    ensures var frames := Remaining(store, row, cursor);
            && (forall i :: 0 <= i < |frames| - 1 ==> !Closes(frames[i]))
            && (if cursor < row.sequence then frames != [] && Announces(frames[|frames| - 1], row) else frames == [])
  {
    var n := Turns(store, cursor);
    var looks := Repeat(Look(true, store, Some(row)), n);
    QuiescentServe(store, row, cursor, 1, n);
    SubscriberTerminates(store, row, cursor, looks, 1);
  }

  // ----- snapshot, then replay -----

  lemma TwiceInTheMiddle(x: string, y: string, z: string)
    ensures (x + y) + (y + z) == x + (y + z) <==> y == ""
  {
    assert |(x + y) + (y + z)| == |x + (y + z)| + |y|;
    if y == "" {
      assert x + y == x;
    }
  }

  lemma TokensInThree(stream: seq<Entry>, a: nat, b: nat)
    requires a <= b <= |stream|
    ensures var x, y, z := Tokens(Bodies(stream[..a])), Tokens(Bodies(stream[a..b])), Tokens(Bodies(stream[b..]));
            && Tokens(Bodies(stream[..b])) == x + y
            && Tokens(Bodies(stream[a..])) == y + z
            && Tokens(Bodies(stream)) == x + (y + z)
  {
    assert Bodies(stream[..b]) == Bodies(stream[..a]) + Bodies(stream[a..b]);
    assert Bodies(stream[a..]) == Bodies(stream[a..b]) + Bodies(stream[b..]);
    assert Bodies(stream) == Bodies(stream[..a]) + Bodies(stream[a..]);
    TokensConcat(Bodies(stream[..a]), Bodies(stream[a..b]));
    TokensConcat(Bodies(stream[a..b]), Bodies(stream[b..]));
    TokensConcat(Bodies(stream[..a]), Bodies(stream[a..]));
  }

  /**
   * A live snapshot carries the text of a prefix at least as long as its number says. Followed by a replay
   * from that number it shows the full output exactly when no token text was written between its two reads.
   */
  lemma SnapshotThenReplay(first: Store, second: Store, final: Store)
    requires Earlier(first, second) && Earlier(second, final)
    requires SnapshotOf(first, second).Some?
    ensures var snapshot := SnapshotOf(first, second).value;
            && snapshot.sequence == first.counter
            && |first.stream| <= |second.stream| <= |final.stream|
            && snapshot.text == Tokens(Bodies(final.stream[..|second.stream|]))
            && (snapshot.text + Tokens(Bodies(After(final.stream, snapshot.sequence))) == final.output <==>
                Tokens(Bodies(final.stream[|first.stream|..|second.stream|])) == "")
  {
    var a, b := |first.stream|, |second.stream|;
    assert second.stream == final.stream[..b] && first.stream == final.stream[..a];
    assert Passed(final, first.counter) == a by {
      if first.stream != [] {
        assert first.stream[0] == final.stream[0];
      }
    }
    AfterIsSuffix(final, first.counter);
    TokensInThree(final.stream, a, b);
    TwiceInTheMiddle(Tokens(Bodies(final.stream[..a])), Tokens(Bodies(final.stream[a..b])),
                     Tokens(Bodies(final.stream[b..])));
  }

  lemma OneToken(text: string)
    ensures var e := Event(Token, Text(text));
            && AppendAll(EMPTY, [e]) == Store([Entry(1, e)], 1, text)
            && Tokens(Bodies([Entry(1, e)])) == text
  {
    var e := Event(Token, Text(text));
    TokensOne(e);
    Neutral(text);
    Neutral([Entry(1, e)]);
    assert EntriesAbove(0, [e]) == [Entry(1, e)];
    assert Bodies([Entry(1, e)]) == [e];
  }

  lemma AllAfterZero(entry: Entry)
    requires entry.id == 1
    ensures After([entry], 0) == [entry]
  {
    AfterPrefix([entry], 0, 0);
  }

  lemma OneTokenStore(token: Event, final: Store)
    requires token == Event(Token, Text("a")) && final == AppendAll(EMPTY, [token])
    ensures final == Store([Entry(1, token)], 1, "a") && WellFormed(final)
  {
    AppendAllKeeps(EMPTY, [token]);
    OneToken("a");
    assert final.stream == [Entry(1, token)];
  }

  lemma ReplayOfOne(token: Event)
    requires token == Event(Token, Text("a"))
    ensures Tokens(Bodies(After([Entry(1, token)], 0))) == "a"
  {
    AllAfterZero(Entry(1, token));
    OneToken("a");
  }

  /** It may: the counter is read, then a token is written, then the output is read; the token is shown twice. */
  lemma SnapshotShowsTwice()
    ensures var token := Event(Token, Text("a"));
            var final := AppendAll(EMPTY, [token]);
            && Earlier(EMPTY, final) && final.output == "a"
            && SnapshotOf(EMPTY, final) == Some(Snapshot(0, "a"))
            && "a" + Tokens(Bodies(After(final.stream, 0))) == "aa"
  {
    var token := Event(Token, Text("a"));
    OneTokenStore(token, AppendAll(EMPTY, [token]));
    ReplayOfOne(token);
  }
}
