/**
 How the message callback cuts the octets of a connection into requests, one per line, and what
 that owes to the way TCP happens to deliver the stream in chunks.
 */
module Framing {
  import opened Basics
  import opened Endian
  import opened Buffers

  /** What the callback does with one line: hands it on, or answers that it is too large. */
  datatype Item = Line(text: seq<Byte>) | TooLarge

  // ---------- lines of a stream ----------

  /** Where the first newline is; the length when there is none. */
  function Eol(s: seq<Byte>): (k: nat)
    ensures k <= |s| && NEWLINE !in s[..k]
    ensures k < |s| ==> s[k] == NEWLINE
  {
    if s == [] || s[0] == NEWLINE then 0 else 1 + Eol(s[1..])
  }

  ghost function Lines(s: seq<Byte>): seq<seq<Byte>>
    decreases |s|
  {
    if Eol(s) == |s| then [] else [s[..Eol(s)]] + Lines(s[Eol(s) + 1..])
  }

  /** What follows the last newline. */
  ghost function Tail(s: seq<Byte>): seq<Byte>
    decreases |s|
  {
    if Eol(s) == |s| then s else Tail(s[Eol(s) + 1..])
  }

  ghost function Items(lines: seq<seq<Byte>>, max: nat): seq<Item> {
    if lines == [] then []
    else if |lines[0]| > max then [TooLarge] + Items(lines[1..], max)
    else if lines[0] == [] then Items(lines[1..], max)
    else [Line(lines[0])] + Items(lines[1..], max)
  }

  ghost function Requests(lines: seq<seq<Byte>>): seq<Item> {
    if lines == [] then []
    else if lines[0] == [] then Requests(lines[1..])
    else [Line(lines[0])] + Requests(lines[1..])
  }

  ghost predicate Fit(lines: seq<seq<Byte>>, max: nat) {
    forall i :: 0 <= i < |lines| ==> |lines[i]| <= max
  }

  lemma EolIs(s: seq<Byte>, k: nat)
    requires FirstNewline(s, k)
    ensures Eol(s) == k
  {
  }

  /** Cutting a stream may stop anywhere and go on with what was left. */
  lemma {:induction false} LinesAppend(a: seq<Byte>, b: seq<Byte>)
    ensures Lines(a + b) == Lines(a) + Lines(Tail(a) + b)
    ensures Tail(a + b) == Tail(Tail(a) + b)
    decreases |a|
  {
    var k := Eol(a);
    if k < |a| {
      assert (a + b)[..k] == a[..k];
      EolIs(a + b, k);
      assert (a + b)[k + 1..] == a[k + 1..] + b;
      LinesAppend(a[k + 1..], b);
    }
  }

  lemma {:induction false} TailHasNoNewline(s: seq<Byte>)
    ensures NEWLINE !in Tail(s) && |Tail(s)| <= |s|
    decreases |s|
  {
    if Eol(s) < |s| {
      TailHasNoNewline(s[Eol(s) + 1..]);
    } else {
      assert s[..|s|] == s;
    }
  }

  lemma {:induction false} ItemsAppend(a: seq<seq<Byte>>, b: seq<seq<Byte>>, max: nat)
    ensures Items(a + b, max) == Items(a, max) + Items(b, max)
    decreases |a|
  {
    if a == [] {
      assert a + b == b;
    } else {
      assert (a + b)[1..] == a[1..] + b;
      ItemsAppend(a[1..], b, max);
    }
  }

  /** When all lines fit, the requests are the lines that are not empty. */
  lemma {:induction false} ItemsOfFitting(lines: seq<seq<Byte>>, max: nat)
    requires Fit(lines, max)
    ensures Items(lines, max) == Requests(lines)
    decreases |lines|
  {
    if lines != [] { ItemsOfFitting(lines[1..], max); }
  }

  // ---------- one callback ----------

  lemma NextLine(s: seq<Byte>, k: nat, max: nat)
    requires FirstNewline(s, k)
    ensures
      var here := if k > max then [TooLarge] else if k == 0 then [] else [Line(s[..k])];
      Items(Lines(s), max) == here + Items(Lines(s[k + 1..]), max)
    ensures Tail(s) == Tail(s[k + 1..])
  {
  }

  lemma NextItem(items: seq<Item>, s: seq<Byte>, k: nat, max: nat)
    requires FirstNewline(s, k)
    ensures
      var now := if k > max then items + [TooLarge] else if k == 0 then items else items + [Line(s[..k])];
      items + Items(Lines(s), max) == now + Items(Lines(s[k + 1..]), max)
    ensures Tail(s) == Tail(s[k + 1..])
  {
  }

  lemma NoLine(s: seq<Byte>, max: nat)
    requires NEWLINE !in s
    ensures Items(Lines(s), max) == [] && Tail(s) == s
  {
  }

  /**
   The loop of the callback: it takes every complete line off the buffer, keeps the rest, and closes
   the connection exactly when the rest is longer than a request may be.
   */
  method OnMessage(buf: Buffer, maxRequestBytes: nat) returns (items: seq<Item>, closed: bool)
    requires buf.Valid()
    modifies buf`readerIndex, buf`writerIndex
    ensures buf.Valid() && buf.Contents() == Tail(old(buf.Contents()))
    ensures items == Items(Lines(old(buf.Contents())), maxRequestBytes)
    ensures closed <==> |buf.Contents()| > maxRequestBytes
  {
    hide Lines, Tail, Items, FirstNewline, Eol, Buffer.Contents;
    items, closed := [], false;
    ghost var all := buf.Contents();
    while true
      invariant buf.Valid() && !closed
      invariant items + Items(Lines(buf.Contents()), maxRequestBytes) == Items(Lines(all), maxRequestBytes)
      invariant Tail(buf.Contents()) == Tail(all)
      decreases buf.ReadableBytes()
    {
      var eol := buf.FindEOL();
      if eol.None? {
        NoLine(buf.Contents(), maxRequestBytes);
        if buf.ReadableBytes() > maxRequestBytes {
          closed := true;
        }
        break;
      }
      NextItem(items, buf.Contents(), eol.value - buf.readerIndex, maxRequestBytes);
      if eol.value - buf.readerIndex > maxRequestBytes {
        buf.RetrieveUntil(eol.value + 1);
        items := items + [TooLarge];
        continue;
      }
      var line := buf.Peek()[..eol.value - buf.readerIndex];
      buf.RetrieveUntil(eol.value + 1);
      if line == [] { continue; }
      items := items + [Line(line)];
    }
  }

  // ---------- a whole connection ----------

  datatype Session = Session(items: seq<Item>, rest: seq<Byte>, closed: bool)

  const START := Session([], [], false)

  /** One read: the chunk joins what is in the buffer and the callback runs.  A closed connection reads no more. */
  ghost function Receive(st: Session, chunk: seq<Byte>, max: nat): Session {
    if st.closed then st
    else
      var s := st.rest + chunk;
      Session(st.items + Items(Lines(s), max), Tail(s), |Tail(s)| > max)
  }

  ghost function ReceiveAll(st: Session, chunks: seq<seq<Byte>>, max: nat): Session
    decreases |chunks|
  {
    if chunks == [] then st else ReceiveAll(Receive(st, chunks[0], max), chunks[1..], max)
  }

  ghost function Concat(chunks: seq<seq<Byte>>): seq<Byte> {
    if chunks == [] then [] else chunks[0] + Concat(chunks[1..])
  }

  ghost predicate Overflows(s: seq<Byte>, max: nat) {
    |Tail(s)| > max
  }

  /** How much of the stream is read before the connection is closed. */
  ghost function Seen(before: seq<Byte>, chunks: seq<seq<Byte>>, max: nat): (s: seq<Byte>)
    ensures before <= s <= before + Concat(chunks)
    ensures Overflows(s, max) || s == before + Concat(chunks)
    decreases |chunks|
  {
    if chunks == [] then before
    else if Overflows(before + chunks[0], max) then before + chunks[0]
    else
      assert before + chunks[0] + Concat(chunks[1..]) == before + Concat(chunks);
      Seen(before + chunks[0], chunks[1..], max)
  }

  lemma ClosedStays(st: Session, chunks: seq<seq<Byte>>, max: nat)
    requires st.closed
    ensures ReceiveAll(st, chunks, max) == st
    decreases |chunks|
  {
  }

  lemma {:induction false} ReceivedFrom(before: seq<Byte>, chunks: seq<seq<Byte>>, max: nat)
    requires !Overflows(before, max)
    ensures
      var seen := Seen(before, chunks, max);
      ReceiveAll(Session(Items(Lines(before), max), Tail(before), false), chunks, max)
      == Session(Items(Lines(seen), max), Tail(seen), Overflows(seen, max))
    decreases |chunks|
  {
    if chunks != [] {
      var now := before + chunks[0];
      LinesAppend(before, chunks[0]);
      ItemsAppend(Lines(before), Lines(Tail(before) + chunks[0]), max);
      var st := Receive(Session(Items(Lines(before), max), Tail(before), false), chunks[0], max);
      assert st == Session(Items(Lines(now), max), Tail(now), Overflows(now, max));
      if Overflows(now, max) {
        ClosedStays(st, chunks[1..], max);
      } else {
        ReceivedFrom(now, chunks[1..], max);
      }
    }
  }

  /** Chunk by chunk, the callback does what one pass over the octets read so far would do. */
  lemma Received(chunks: seq<seq<Byte>>, max: nat)
    ensures
      var seen := Seen([], chunks, max);
      ReceiveAll(START, chunks, max) == Session(Items(Lines(seen), max), Tail(seen), Overflows(seen, max))
  {
    assert Lines([]) == [] && Tail([]) == [];
    ReceivedFrom([], chunks, max);
  }

  lemma FirstLineAfter(t: seq<Byte>, rest: seq<Byte>)
    requires NEWLINE !in t
    ensures Lines(t + rest) == [] ==> Tail(t + rest) == t + rest
    ensures Lines(t + rest) != [] ==> |Lines(t + rest)[0]| >= |t|
  {
  }

  /** A part of a stream of fitting lines is too long at its end only inside what follows the last line. */
  lemma OverflowOnlyAtTheEnd(s: seq<Byte>, seen: seq<Byte>, max: nat)
    requires seen <= s && Fit(Lines(s), max) && Overflows(seen, max)
    ensures Lines(seen) == Lines(s) && Overflows(s, max)
  {
    var t, rest := Tail(seen), s[|seen|..];
    assert s == seen + rest;
    LinesAppend(seen, rest);
    TailHasNoNewline(seen);
    assert Lines(t + rest) != [] ==> Lines(s)[|Lines(seen)|] == Lines(t + rest)[0];
    FirstLineAfter(t, rest);
  }

  /** With fitting lines the requests and the closing are those of the whole stream. */
  lemma FittingStream(chunks: seq<seq<Byte>>, max: nat)
    requires Fit(Lines(Concat(chunks)), max)
    ensures ReceiveAll(START, chunks, max).items == Requests(Lines(Concat(chunks)))
    ensures ReceiveAll(START, chunks, max).closed <==> Overflows(Concat(chunks), max)
  {
    var s, seen := Concat(chunks), Seen([], chunks, max);
    Received(chunks, max);
    assert [] + s == s;
    if Overflows(seen, max) { OverflowOnlyAtTheEnd(s, seen, max); }
    ItemsOfFitting(Lines(s), max);
  }

  // ---------- requests and the stream that carries them ----------

  /** The stream that sends the lines: each followed by a newline. */
  ghost function Sent(lines: seq<seq<Byte>>): seq<Byte> {
    if lines == [] then [] else lines[0] + [NEWLINE] + Sent(lines[1..])
  }

  /** Cutting loses nothing: the lines and what follows them are the stream, and no line has a newline in it. */
  lemma {:induction false} LinesAreTheStream(s: seq<Byte>)
    ensures Sent(Lines(s)) + Tail(s) == s
    ensures forall i :: 0 <= i < |Lines(s)| ==> NEWLINE !in Lines(s)[i]
    decreases |s|
  {
    hide Lines, Tail, Eol, Sent;
    var k := Eol(s);
    LinesStep(s);
    TailStep(s);
    if k < |s| {
      var line, rest := s[..k], s[k + 1..];
      LinesAreTheStream(rest);
      SentStep(line, Lines(rest));
      assert s == (line + [NEWLINE]) + rest;
      var sent := Sent(Lines(rest));
      assert (line + [NEWLINE] + sent) + Tail(rest) == (line + [NEWLINE]) + (sent + Tail(rest));
    } else {
      NothingSent();
      assert [] + s == s;
    }
  }

  lemma TailStep(s: seq<Byte>)
    ensures Tail(s) == if Eol(s) == |s| then s else Tail(s[Eol(s) + 1..])
  {
    hide Eol;
  }

  lemma SentStep(line: seq<Byte>, lines: seq<seq<Byte>>)
    ensures Sent([line] + lines) == line + [NEWLINE] + Sent(lines)
  {
    assert ([line] + lines)[1..] == lines;
  }

  lemma NothingSent()
    ensures Sent([]) == []
  {
  }

  lemma {:induction false} SentIsCut(lines: seq<seq<Byte>>)
    requires forall i :: 0 <= i < |lines| ==> NEWLINE !in lines[i]
    ensures Lines(Sent(lines)) == lines && Tail(Sent(lines)) == []
    decreases |lines|
  {
    if lines != [] {
      var s, k := Sent(lines), |lines[0]|;
      SentIsCut(lines[1..]);
      assert s[..k] == lines[0] && s[k] == NEWLINE && s[k + 1..] == Sent(lines[1..]);
      EolIs(s, k);
    }
  }

  lemma {:induction false} RequestsOfFull(lines: seq<seq<Byte>>)
    requires forall i :: 0 <= i < |lines| ==> lines[i] != []
    ensures Requests(lines) == seq(|lines|, i requires 0 <= i < |lines| => Line(lines[i]))
  {
    if lines != [] { RequestsOfFull(lines[1..]); }
  }

  /** Requests that are sent as lines are the requests that arrive, in order, however the stream is cut on its way. */
  lemma SentIsReceived(lines: seq<seq<Byte>>, chunks: seq<seq<Byte>>, max: nat)
    requires forall i :: 0 <= i < |lines| ==> lines[i] != [] && NEWLINE !in lines[i] && |lines[i]| <= max
    requires Concat(chunks) == Sent(lines)
    ensures
      var end := ReceiveAll(START, chunks, max);
      end.items == seq(|lines|, i requires 0 <= i < |lines| => Line(lines[i])) && !end.closed
  {
    SentIsCut(lines);
    FittingStream(chunks, max);
    RequestsOfFull(lines);
  }

  lemma LongerBehind(s: seq<Byte>, t: seq<Byte>, k: nat, max: nat)
    requires FirstNewline(s, k) && FirstNewline(t, k) && s[..k] == t[..k]
    requires |Items(Lines(t[k + 1..]), max)| < |Items(Lines(s[k + 1..]), max)|
    ensures |Items(Lines(t), max)| < |Items(Lines(s), max)|
  {
  }

  lemma LongHere(s: seq<Byte>, max: nat)
    requires max < Eol(s) < |s|
    ensures Overflows(s[..max + 1], max) && Items(Lines(s[..max + 1]), max) == [] && Items(Lines(s), max) != []
  {
  }

  lemma FitCons(line: seq<Byte>, lines: seq<seq<Byte>>, max: nat)
    ensures Fit([line] + lines, max) <==> |line| <= max && Fit(lines, max)
  {
    assert ([line] + lines)[0] == line;
    assert forall i :: 0 <= i < |lines| ==> ([line] + lines)[i + 1] == lines[i];
  }

  lemma NothingFits(max: nat)
    ensures Fit([], max)
  {
  }

  lemma LinesStep(s: seq<Byte>)
    ensures Lines(s) == if Eol(s) == |s| then [] else [s[..Eol(s)]] + Lines(s[Eol(s) + 1..])
  {
    hide Eol;
  }

  lemma LaterLine(s: seq<Byte>, max: nat)
    requires !Fit(Lines(s), max)
    ensures Eol(s) < |s| && (Eol(s) <= max ==> !Fit(Lines(s[Eol(s) + 1..]), max))
  {
    hide Fit, Lines, Eol;
    LinesStep(s);
    NothingFits(max);
    if Eol(s) < |s| { FitCons(s[..Eol(s)], Lines(s[Eol(s) + 1..]), max); }
  }

  lemma CutBehind(s: seq<Byte>, k: nat, q: nat)
    requires FirstNewline(s, k) && q <= |s| - k - 1
    ensures s[..k + 1 + q][k + 1..] == s[k + 1..][..q] && s[..k + 1 + q][..k] == s[..k]
    ensures FirstNewline(s[..k + 1 + q], k)
  {
  }

  lemma OverflowsBehind(s: seq<Byte>, k: nat, q: nat, max: nat)
    requires FirstNewline(s, k) && q <= |s| - k - 1 && Overflows(s[k + 1..][..q], max)
    ensures Overflows(s[..k + 1 + q], max)
  {
    hide Tail, FirstNewline, Lines, Items;
    CutBehind(s, k, q);
    NextLine(s[..k + 1 + q], k, max);
  }

  /** A line that does not fit: some part of the stream would close the connection before it is answered. */
  lemma {:induction false} LongLine(s: seq<Byte>, max: nat) returns (q: nat)
    requires !Fit(Lines(s), max)
    ensures q <= |s| && Overflows(s[..q], max)
    ensures |Items(Lines(s[..q]), max)| < |Items(Lines(s), max)|
    decreases |s|
  {
    hide Items, Lines, Fit, Overflows;
    LaterLine(s, max);
    if Eol(s) > max {
      LongHere(s, max);
      q := max + 1;
    } else {
      var q' := LongLine(s[Eol(s) + 1..], max);
      q := Eol(s) + 1 + q';
      CutBehind(s, Eol(s), q');
      OverflowsBehind(s, Eol(s), q', max);
      LongerBehind(s, s[..q], Eol(s), max);
    }
  }

  lemma ConcatTwo(a: seq<Byte>, b: seq<Byte>)
    ensures Concat([a]) == a && Concat([a, b]) == a + b
  {
    assert [a][1..] == [] && [a, b][1..] == [b] && [b][1..] == [];
    assert a + [] == a && b + [] == b;
  }

  ghost predicate SameOutcome(a: Session, b: Session) {
    a.items == b.items && a.closed == b.closed
  }

  /** Two ways to cut a stream with a line that does not fit, which come to different ends. */
  lemma LongLineShows(s: seq<Byte>, max: nat) returns (c: seq<seq<Byte>>, d: seq<seq<Byte>>)
    requires !Fit(Lines(s), max)
    ensures Concat(c) == s && Concat(d) == s
    ensures !SameOutcome(ReceiveAll(START, c, max), ReceiveAll(START, d, max))
  {
    hide Lines, Tail, Items, Receive, ReceiveAll, Fit;
    var q := LongLine(s, max);
    c, d := [s], [s[..q], s[q..]];
    ConcatTwo(s, []);
    ConcatTwo(s[..q], s[q..]);
    assert s[..q] + s[q..] == s;
    Received(c, max);
    Received(d, max);
    assert [] + s == s && [] + s[..q] == s[..q];
    assert Seen([], d, max) == s[..q];
  }

  lemma FittingStreamsAgree(c: seq<seq<Byte>>, d: seq<seq<Byte>>, max: nat)
    requires Concat(c) == Concat(d) && Fit(Lines(Concat(c)), max)
    ensures SameOutcome(ReceiveAll(START, c, max), ReceiveAll(START, d, max))
  {
    FittingStream(c, max);
    FittingStream(d, max);
  }

  /**
   The way a stream is cut into chunks is invisible in the requests and in whether the connection is
   closed exactly when all its complete lines fit.
   */
  lemma ChunkingInvisibleExactly(s: seq<Byte>, max: nat)
    ensures Fit(Lines(s), max) <==>
      forall c, d :: Concat(c) == s && Concat(d) == s ==>
        SameOutcome(ReceiveAll(START, c, max), ReceiveAll(START, d, max))
  {
    hide *;
    if Fit(Lines(s), max) {
      forall c, d | Concat(c) == s && Concat(d) == s
        ensures SameOutcome(ReceiveAll(START, c, max), ReceiveAll(START, d, max))
      {
        FittingStreamsAgree(c, d, max);
      }
    } else {
      var c, d := LongLineShows(s, max);
    }
  }

  /** Between callbacks of a connection that was not closed, at most `max` octets wait in the buffer. */
  lemma BoundedRest(chunks: seq<seq<Byte>>, max: nat)
    ensures !ReceiveAll(START, chunks, max).closed ==> |ReceiveAll(START, chunks, max).rest| <= max
  {
    Received(chunks, max);
  }

  lemma Nothing(st: Session, max: nat)
    ensures ReceiveAll(st, [], max) == st
  {
  }

  lemma ReceiveNext(st: Session, chunks: seq<seq<Byte>>, i: nat, max: nat)
    requires i < |chunks|
    ensures ReceiveAll(st, chunks[i..], max) == ReceiveAll(Receive(st, chunks[i], max), chunks[i + 1..], max)
  {
  }

  /** Over any chunks, reads and callbacks on one buffer carry out the session. */
  method Serve(chunks: seq<seq<Byte>>, max: nat) returns (items: seq<Item>, closed: bool)
    ensures items == ReceiveAll(START, chunks, max).items && closed == ReceiveAll(START, chunks, max).closed
  {
    hide Lines, Tail, Items, ReceiveAll;
    var buf := new Buffer(INITIAL_SIZE);
    items, closed := [], false;
    var i := 0;
    assert chunks[0..] == chunks;
    while i < |chunks| && !closed
      invariant 0 <= i <= |chunks| && buf.Valid() && fresh(buf) && fresh(buf.buffer)
      invariant ReceiveAll(Session(items, buf.Contents(), closed), chunks[i..], max) == ReceiveAll(START, chunks, max)
    {
      ghost var st := Session(items, buf.Contents(), closed);
      ReceiveNext(st, chunks, i, max);
      buf.Append(chunks[i]);
      var more;
      more, closed := OnMessage(buf, max);
      items := items + more;
      assert Session(items, buf.Contents(), closed) == Receive(st, chunks[i], max);
      i := i + 1;
    }
    Nothing(Session(items, buf.Contents(), closed), max);
    assert i == |chunks| ==> chunks[i..] == [];
    if closed { ClosedStays(Session(items, buf.Contents(), closed), chunks[i..], max); }
  }
}
