/**
 tcp_parse_pkt and the consume loop of __tcp_rx as functions on the receive state, and what
 they mean for a whole connection.

 Two versions differ in one branch. The literal one copies only the current chunk into a new
 large block; the carrying one also copies the header bytes saved by earlier calls.
 */
module Reassembly {
  import opened Basics
  import opened Framing

  datatype Version = Literal | Carrying

  /** Bytes held back, and the announced frame size while a large block is being filled (else 0). */
  datatype RxState = RxState(buf: Bytes, large: nat)

  const EMPTY := RxState([], 0)

  /** One call: the state left behind, the frames delivered (at most one), the C return value. */
  datatype Call = Call(st: RxState, out: seq<Bytes>, ret: int)

  /** What the buffers rely on. It says nothing yet about the bytes being the right ones. */
  ghost predicate Sane(t: Template, st: RxState)
    requires ValidTemplate(t)
  {
    if !Framed(t) then st == EMPTY
    else if st.large > 0 then
      && |st.buf| < st.large
      && TCP_BUFFER_SIZE as int < st.large <= TCP_MAXIMUM_PACKET_SIZE as int + t.cb as int
    else
      var h := HeadOf(t, st.buf);
      h.Short? || (h.Whole? && |st.buf| < h.size <= TCP_BUFFER_SIZE as int)
  }

  /** The bytes held back are the beginning of one frame, in the mode its size calls for. */
  ghost predicate Faithful(t: Template, st: RxState)
    requires Framed(t)
  {
    Sane(t, st) && (st.large > 0 ==> HeadOf(t, st.buf) == Whole(st.large))
  }

  /** The announced size when these bytes begin with the header of a large frame. */
  ghost predicate HeadIsLarge(t: Template, s: Bytes)
    requires Framed(t)
  {
    var h := HeadOf(t, s);
    h.Whole? && h.size > TCP_BUFFER_SIZE as int
  }

  /** Chunk `d` completes the header of a large frame whose first bytes an earlier chunk brought. */
  ghost predicate TearsHeader(t: Template, held: Bytes, d: Bytes)
    requires Framed(t)
  {
    0 < |held| < t.cb as int && HeadIsLarge(t, held + d)
  }

  function ParseCall(v: Version, t: Template, st: RxState, d: Bytes): Call
    requires ValidTemplate(t)
  {
    if |d| == 0 then Call(st, [], -1)
    else if !Framed(t) then Call(EMPTY, [d], 0)
    else if st.large > 0 then
      var all := st.buf + d;
      if |all| < st.large then Call(RxState(all, st.large), [], 0)
      else Call(EMPTY, [all[..st.large]], |all| - st.large)
    else
      var all := st.buf + d;
      match HeadOf(t, all)
      case Short => Call(RxState(all, 0), [], 0)
      case Bad => Call(RxState(all[..t.cb], 0), [], -1)
      case Whole(n) =>
        if n > TCP_BUFFER_SIZE as int && v.Literal? then Call(RxState(d, n), [], 0)
        else if |all| >= n then Call(EMPTY, [all[..n]], |all| - n)
        else Call(RxState(all, if n > TCP_BUFFER_SIZE as int then n else 0), [], 0)
  }

  ghost predicate ChunkOk(d: Bytes) {
    0 < |d| <= TCP_BUFFER_SIZE as int
  }

  /** Memory safety and progress of one call, for both versions and whatever was torn before. */
  lemma CallIsSane(v: Version, t: Template, st: RxState, d: Bytes)
    requires ValidTemplate(t) && Sane(t, st) && ChunkOk(d)
    ensures var c := ParseCall(v, t, st, d);
      && c.ret < |d|
      && (c.ret >= 0 ==> Sane(t, c.st))
      && (c.ret > 0 ==> c.st == EMPTY)
      && (c.ret < 0 ==> c.ret == -1 && c.out == [] && c.st.large == 0 && |c.st.buf| == t.cb as int)
  {
    if Framed(t) && st.large == 0 && |st.buf| >= t.cb as int {
      HeadStable(t, st.buf, d);
    }
  }

  /** The chunk loop. `unread` is what remained of the chunk when a bad header stopped it. */
  datatype Run = Run(frames: seq<Bytes>, st: RxState, ok: bool, unread: Bytes)

  function Consume(v: Version, t: Template, st: RxState, d: Bytes): (r: Run)
    requires ValidTemplate(t) && Sane(t, st) && ChunkOk(d)
    ensures r.ok ==> Sane(t, r.st) && r.unread == []
    decreases |d|
  {
    CallIsSane(v, t, st, d);
    var c := ParseCall(v, t, st, d);
    if c.ret < 0 then Run([], c.st, false, (st.buf + d)[t.cb..])
    else if c.ret == 0 then Run(c.out, c.st, true, [])
    else
      var r := Consume(v, t, c.st, d[|d| - c.ret..]);
      Run(c.out + r.frames, r.st, r.ok, r.unread)
  }

  /** The receive side after one more chunk; a failed link stays failed and delivers nothing. */
  function Feed(v: Version, t: Template, r: Run, d: Bytes): (r': Run)
    requires ValidTemplate(t) && ChunkOk(d)
    requires r.ok ==> Sane(t, r.st) && r.unread == []
    ensures r'.ok ==> Sane(t, r'.st) && r'.unread == []
  {
    if !r.ok then r.(unread := r.unread + d)
    else
      var c := Consume(v, t, r.st, d);
      c.(frames := r.frames + c.frames)
  }

  const START := Run([], EMPTY, true, [])

  ghost predicate ChunksOk(chunks: seq<Bytes>) {
    forall i | 0 <= i < |chunks| :: ChunkOk(chunks[i])
  }

  /** A whole connection: what every chunk so far has led to. */
  function FeedAll(v: Version, t: Template, chunks: seq<Bytes>): (r: Run)
    requires ValidTemplate(t) && ChunksOk(chunks)
    ensures r.ok ==> Sane(t, r.st) && r.unread == []
  {
    if chunks == [] then START
    else
      var n := |chunks| - 1;
      Feed(v, t, FeedAll(v, t, chunks[..n]), chunks[n])
  }

  /** The frames delivered, the bytes received but not delivered, and whether the link is still up. */
  function Observed(r: Run): Parsed {
    Parsed(r.frames, r.st.buf + r.unread, r.ok)
  }

  // ---- One call and one chunk against the meaning of the stream ----

  /** A call removes at most one whole frame from the front of the held bytes plus the chunk. */
  ghost predicate CallMeans(t: Template, all: Bytes, d: Bytes, c: Call)
    requires Framed(t)
  {
    if c.ret < 0 then HeadOf(t, all).Bad?
    else
      && Faithful(t, c.st)
      && c.ret < |d| <= |all|
      && Residue(t, c.st.buf)
      && Concat(c.out) + c.st.buf == all[..|all| - c.ret]
      && |c.out| <= 1
      && AllFrames(t, c.out)
      && (c.out == [] ==> c.ret == 0)
      && (c.out != [] ==> c.st == EMPTY)
  }

  lemma FrontFrame(t: Template, all: Bytes)
    requires Framed(t) && HeadOf(t, all).Whole? && |all| >= HeadOf(t, all).size
    ensures IsFrame(t, all[..HeadOf(t, all).size])
  {
    var n := HeadOf(t, all).size;
    HeadStable(t, all[..n], all[n..]);
    assert all[..n] + all[n..] == all;
  }

  lemma CallMeansIt(v: Version, t: Template, st: RxState, d: Bytes)
    requires Framed(t) && Faithful(t, st) && ChunkOk(d)
    requires v.Literal? ==> !TearsHeader(t, st.buf, d)
    ensures CallMeans(t, st.buf + d, d, ParseCall(v, t, st, d))
  {
    var all, c := st.buf + d, ParseCall(v, t, st, d);
    if |st.buf| >= t.cb as int {
      HeadStable(t, st.buf, d);
    }
    if c.out != [] {
      FrontFrame(t, all);
      ConcatOne(c.out[0]);
    } else if c.ret == 0 {
      if st.buf == [] { assert all == d; }
      assert all[..|all|] == all;
    }
  }

  lemma KeptIsCut(t: Template, all: Bytes, d: Bytes, c: Call)
    requires Framed(t) && CallMeans(t, all, d, c) && c.ret == 0
    ensures Cut(t, all) == Parsed(c.out, c.st.buf, true)
  {
    assert all[..|all|] == all;
    CutUnique(t, c.out, c.st.buf);
  }

  lemma DeliveredIsCut(t: Template, all: Bytes, d: Bytes, c: Call)
    requires Framed(t) && CallMeans(t, all, d, c) && c.ret > 0
    requires all[|all| - |d|..] == d
    ensures var q := Cut(t, d[|d| - c.ret..]);
      Cut(t, all) == Parsed(c.out + q.frames, q.rest, q.ok)
  {
    var tail := d[|d| - c.ret..];
    assert tail == all[|all| - c.ret..];
    assert all == Concat(c.out) + tail;
    CutAfterFrames(t, c.out, tail);
  }

  /** What a call delivers or keeps is what cutting the held bytes plus the chunk gives. */
  ghost predicate CallRefines(t: Template, all: Bytes, d: Bytes, c: Call)
    requires Framed(t)
  {
    if c.ret > 0 then
      && c.ret < |d| && c.st == EMPTY
      && var q := Cut(t, d[|d| - c.ret..]);
         Cut(t, all) == Parsed(c.out + q.frames, q.rest, q.ok)
    else if c.ret == 0 then Faithful(t, c.st) && Cut(t, all) == Parsed(c.out, c.st.buf, true)
    else Cut(t, all) == Parsed([], all, false)
  }

  lemma MeaningRefines(t: Template, all: Bytes, d: Bytes, c: Call)
    requires Framed(t) && CallMeans(t, all, d, c)
    requires |d| <= |all| && all[|all| - |d|..] == d
    ensures CallRefines(t, all, d, c)
  {
    if c.ret > 0 {
      DeliveredIsCut(t, all, d, c);
    } else if c.ret == 0 {
      KeptIsCut(t, all, d, c);
    }
  }

  lemma CallRefinesIt(v: Version, t: Template, st: RxState, d: Bytes)
    requires Framed(t) && Faithful(t, st) && ChunkOk(d)
    requires v.Literal? ==> !TearsHeader(t, st.buf, d)
    ensures CallRefines(t, st.buf + d, d, ParseCall(v, t, st, d))
  {
    CallMeansIt(v, t, st, d);
    MeaningRefines(t, st.buf + d, d, ParseCall(v, t, st, d));
  }

  // The chunk loop inherits the meaning of its first call: one lemma for each way a call can end.

  lemma StoppedChunk(v: Version, t: Template, st: RxState, d: Bytes)
    requires Framed(t) && Sane(t, st) && ChunkOk(d)
    requires ParseCall(v, t, st, d).ret < 0
    ensures Observed(Consume(v, t, st, d)) == Parsed([], st.buf + d, false)
  {
  }

  lemma KeptChunk(v: Version, t: Template, st: RxState, d: Bytes)
    requires Framed(t) && Sane(t, st) && ChunkOk(d)
    requires ParseCall(v, t, st, d).ret == 0
    ensures var c, r := ParseCall(v, t, st, d), Consume(v, t, st, d);
      Observed(r) == Parsed(c.out, c.st.buf, true) && r.st == c.st
  {
  }

  lemma ContinuedChunk(v: Version, t: Template, st: RxState, d: Bytes)
    requires Framed(t) && Sane(t, st) && ChunkOk(d)
    requires var c := ParseCall(v, t, st, d); 0 < c.ret < |d| && c.st == EMPTY
    ensures var c := ParseCall(v, t, st, d);
      var r, q := Consume(v, t, st, d), Consume(v, t, EMPTY, d[|d| - c.ret..]);
      r == Run(c.out + q.frames, q.st, q.ok, q.unread)
  {
  }

  lemma {:induction false} ConsumeRefines(v: Version, t: Template, st: RxState, d: Bytes)
    requires Framed(t) && Faithful(t, st) && ChunkOk(d)
    requires v.Literal? ==> !TearsHeader(t, st.buf, d)
    ensures var r := Consume(v, t, st, d);
      && Observed(r) == Cut(t, st.buf + d)
      && (r.ok ==> Faithful(t, r.st))
    decreases |d|
  {
    CallRefinesIt(v, t, st, d);
    var ret := ParseCall(v, t, st, d).ret;
    if ret > 0 {
      var tail := d[|d| - ret..];
      assert [] + tail == tail;
      ConsumeRefines(v, t, EMPTY, tail);
      ContinuedChunk(v, t, st, d);
    } else if ret == 0 {
      KeptChunk(v, t, st, d);
    } else {
      StoppedChunk(v, t, st, d);
    }
  }

  lemma FeedRefines(v: Version, t: Template, r: Run, d: Bytes, s: Bytes)
    requires Framed(t) && ChunkOk(d)
    requires r.ok ==> Faithful(t, r.st) && r.unread == []
    requires Observed(r) == Cut(t, s)
    requires v.Literal? && r.ok ==> !TearsHeader(t, r.st.buf, d)
    ensures var r' := Feed(v, t, r, d);
      && Observed(r') == Cut(t, s + d)
      && (r'.ok ==> Faithful(t, r'.st))
  {
    CutExtends(t, s, d);
    if r.ok {
      assert r.st.buf + r.unread == r.st.buf;
      ConsumeRefines(v, t, r.st, d);
    } else {
      assert r.st.buf + (r.unread + d) == (r.st.buf + r.unread) + d;
    }
  }

  // ---- Whole connections ----

  lemma ConcatLast(chunks: seq<Bytes>)
    requires chunks != []
    ensures Concat(chunks) == Concat(chunks[..|chunks| - 1]) + chunks[|chunks| - 1]
  {
    var n := |chunks| - 1;
    assert chunks == chunks[..n] + [chunks[n]];
    ConcatSnoc(chunks[..n], chunks[n]);
  }

  /**
   The repaired receiver: for every stream and every cutting of it into chunks, the frames
   delivered, the bytes held back and the failure are those of the whole stream.
   */
  lemma {:induction false} CarryingRefines(t: Template, chunks: seq<Bytes>)
    requires Framed(t) && ChunksOk(chunks)
    ensures var r := FeedAll(Carrying, t, chunks);
      && Observed(r) == Cut(t, Concat(chunks))
      && (r.ok ==> Faithful(t, r.st))
    decreases |chunks|
  {
    if chunks == [] {
    } else {
      var n := |chunks| - 1;
      CarryingRefines(t, chunks[..n]);
      FeedRefines(Carrying, t, FeedAll(Carrying, t, chunks[..n]), chunks[n], Concat(chunks[..n]));
      ConcatLast(chunks);
    }
  }

  /** No chunk boundary falls inside the header of a large frame (told from the stream alone). */
  ghost predicate CleanCuts(t: Template, chunks: seq<Bytes>)
    requires Framed(t)
  {
    forall i {:trigger chunks[..i]} | 0 <= i < |chunks| && Cut(t, Concat(chunks[..i])).ok ::
      !TearsHeader(t, Cut(t, Concat(chunks[..i])).rest, chunks[i])
  }

  lemma CleanCutsPrefix(t: Template, chunks: seq<Bytes>)
    requires Framed(t) && chunks != []
    ensures var n := |chunks| - 1;
      CleanCuts(t, chunks) <==>
        && CleanCuts(t, chunks[..n])
        && var p := Cut(t, Concat(chunks[..n]));
           (p.ok ==> !TearsHeader(t, p.rest, chunks[n]))
  {
    var n := |chunks| - 1;
    forall i | 0 <= i < n
      ensures chunks[..n][..i] == chunks[..i] && chunks[..n][i] == chunks[i]
    {
    }
    if CleanCuts(t, chunks) {
      assert Cut(t, Concat(chunks[..n])).ok ==> !TearsHeader(t, Cut(t, Concat(chunks[..n])).rest, chunks[n]);
      forall i | 0 <= i < n && Cut(t, Concat(chunks[..n][..i])).ok
        ensures !TearsHeader(t, Cut(t, Concat(chunks[..n][..i])).rest, chunks[..n][i])
      {
        assert chunks[..n][..i] == chunks[..i] && chunks[..n][i] == chunks[i];
      }
    }
  }

  lemma {:induction false} LiteralRefines(t: Template, chunks: seq<Bytes>)
    requires Framed(t) && ChunksOk(chunks) && CleanCuts(t, chunks)
    ensures var r := FeedAll(Literal, t, chunks);
      && Observed(r) == Cut(t, Concat(chunks))
      && (r.ok ==> Faithful(t, r.st))
    decreases |chunks|
  {
    if chunks == [] {
    } else {
      var n := |chunks| - 1;
      CleanCutsPrefix(t, chunks);
      LiteralRefines(t, chunks[..n]);
      var r := FeedAll(Literal, t, chunks[..n]);
      assert r.ok ==> r.st.buf + r.unread == r.st.buf;
      FeedRefines(Literal, t, r, chunks[n], Concat(chunks[..n]));
      ConcatLast(chunks);
    }
  }

  /** How a stream is cut into chunks does not matter, not even for where the link fails. */
  lemma {:induction false} ChunkingIndependent(v: Version, t: Template, a: seq<Bytes>, b: seq<Bytes>)
    requires Framed(t) && ChunksOk(a) && ChunksOk(b) && Concat(a) == Concat(b)
    requires v.Literal? ==> CleanCuts(t, a) && CleanCuts(t, b)
    ensures Observed(FeedAll(v, t, a)) == Observed(FeedAll(v, t, b))
  {
    if v.Literal? {
      LiteralRefines(t, a);
      LiteralRefines(t, b);
    } else {
      CarryingRefines(t, a);
      CarryingRefines(t, b);
    }
  }

  // ---- The literal receiver after a torn header ----

  /** Bytes delivered or held. */
  function Accounted(r: Run): nat {
    |Concat(r.frames)| + |r.st.buf| + |r.unread|
  }

  /** The bytes a call on these held bytes and this chunk loses. */
  ghost function Lost(t: Template, st: RxState, d: Bytes): nat
    requires Framed(t)
  {
    if st.large == 0 && TearsHeader(t, st.buf, d) then |st.buf| else 0
  }

  /** A call accounts for every byte, except that a torn header loses the bytes saved before. */
  lemma CallAccounts(t: Template, st: RxState, d: Bytes)
    requires Framed(t) && Sane(t, st) && ChunkOk(d)
    ensures var c := ParseCall(Literal, t, st, d);
      if c.ret >= 0 then |Concat(c.out)| + |c.st.buf| + c.ret == |st.buf| + |d| - Lost(t, st, d)
      else Lost(t, st, d) == 0
  {
    var c := ParseCall(Literal, t, st, d);
    if c.out != [] {
      ConcatOne(c.out[0]);
    }
    if st.large == 0 && |st.buf| >= t.cb as int {
      HeadStable(t, st.buf, d);
    }
  }

  lemma {:induction false} ConsumeAccounts(t: Template, st: RxState, d: Bytes)
    requires Framed(t) && Sane(t, st) && ChunkOk(d)
    ensures Accounted(Consume(Literal, t, st, d)) == |st.buf| + |d| - Lost(t, st, d)
    decreases |d|
  {
    CallIsSane(Literal, t, st, d);
    CallAccounts(t, st, d);
    var ret := ParseCall(Literal, t, st, d).ret;
    if ret > 0 {
      var tail := d[|d| - ret..];
      ContinuedChunk(Literal, t, st, d);
      ConsumeAccounts(t, EMPTY, tail);
      ConcatAppend(ParseCall(Literal, t, st, d).out, Consume(Literal, t, EMPTY, tail).frames);
    } else if ret == 0 {
      KeptChunk(Literal, t, st, d);
    } else {
      StoppedChunk(Literal, t, st, d);
    }
  }

  /** Lost bytes never come back: the account falls short of the stream from then on. */
  lemma {:induction false} LiteralAccounts(t: Template, chunks: seq<Bytes>)
    requires Framed(t) && ChunksOk(chunks)
    ensures Accounted(FeedAll(Literal, t, chunks)) <= |Concat(chunks)|
    ensures !CleanCuts(t, chunks) ==> Accounted(FeedAll(Literal, t, chunks)) < |Concat(chunks)|
    decreases |chunks|
  {
    if chunks == [] {
    } else {
      var n := |chunks| - 1;
      var r := FeedAll(Literal, t, chunks[..n]);
      LiteralAccounts(t, chunks[..n]);
      CleanCutsPrefix(t, chunks);
      ConcatLast(chunks);
      if r.ok {
        ConsumeAccounts(t, r.st, chunks[n]);
        ConcatAppend(r.frames, Consume(Literal, t, r.st, chunks[n]).frames);
        if CleanCuts(t, chunks[..n]) {
          LiteralRefines(t, chunks[..n]);
          assert r.st.buf + r.unread == r.st.buf;
        }
      } else if CleanCuts(t, chunks[..n]) {
        LiteralRefines(t, chunks[..n]);
      }
    }
  }

  /** What a torn header costs: the new block has the announced size and starts with the chunk; the rest is gone. */
  lemma TornBlock(t: Template, chunks: seq<Bytes>, d: Bytes)
    requires Framed(t) && ChunksOk(chunks) && ChunkOk(d) && CleanCuts(t, chunks)
    requires Cut(t, Concat(chunks)).ok && TearsHeader(t, Cut(t, Concat(chunks)).rest, d)
    ensures var r, p := FeedAll(Literal, t, chunks), Cut(t, Concat(chunks));
      && r.st == RxState(p.rest, 0)
      && Feed(Literal, t, r, d) == Run(p.frames, RxState(d, HeadOf(t, p.rest + d).size), true, [])
  {
    HeldIsResidue(Literal, t, chunks);
    assert Cut(t, Concat(chunks)).frames + [] == Cut(t, Concat(chunks)).frames;
  }

  /**
   Exactly when the code as written reassembles the stream: if and only if no chunk boundary
   falls inside the header of a large frame.
   */
  lemma {:induction false} LiteralRefinesExactly(t: Template, chunks: seq<Bytes>)
    requires Framed(t) && ChunksOk(chunks)
    ensures Observed(FeedAll(Literal, t, chunks)) == Cut(t, Concat(chunks)) <==> CleanCuts(t, chunks)
  {
    if CleanCuts(t, chunks) {
      LiteralRefines(t, chunks);
    } else {
      LiteralAccounts(t, chunks);
      CutPartitions(t, Concat(chunks));
    }
  }

  /** A header split after its first byte is enough: that byte is gone and the block starts with byte two. */
  lemma LiteralTearsWitness()
    ensures var t := Template(4, None, Some((h: Bytes) => Some(TCP_BUFFER_SIZE)));
      var chunks: seq<Bytes> := [[7], [1, 2, 3]];
      && Framed(t) && ChunksOk(chunks)
      && FeedAll(Literal, t, chunks) == Run([], RxState([1, 2, 3], 0x11004), true, [])
      && Cut(t, Concat(chunks)) == Parsed([], [7, 1, 2, 3], true)
      && FeedAll(Carrying, t, chunks) == Run([], RxState([7, 1, 2, 3], 0x11004), true, [])
  {
  }

  lemma DropOfAppend(a: Bytes, b: Bytes, x: Bytes)
    requires a + x <= a + b
    ensures x <= b
  {
    assert (a + x)[|a|..] == x && (a + b)[|a|..] == b;
    assert (a + b)[..|a + x|] == a + x;
  }

  lemma AlignedRest(fs: seq<Bytes>, done: seq<Bytes>, rest: Bytes, d: Bytes)
    requires done <= fs && (Concat(done) + rest) + d <= Concat(fs)
    ensures rest + d <= Concat(fs[|done|..])
  {
    assert fs == done + fs[|done|..];
    ConcatAppend(done, fs[|done|..]);
    Assoc(Concat(done), rest, d);
    DropOfAppend(Concat(done), Concat(fs[|done|..]), rest + d);
  }

  /** What is held and what comes next begin the frames not yet cut. */
  lemma RestOfStream(t: Template, fs: seq<Bytes>, a: Bytes, d: Bytes)
    requires Framed(t) && AllFrames(t, fs) && a + d <= Concat(fs)
    ensures var p := Cut(t, a);
      |p.frames| <= |fs| && p.rest + d <= Concat(fs[|p.frames|..])
  {
    assert a <= Concat(fs) by {
      assert (a + d)[..|a|] == a;
    }
    CutPrefix(t, fs, a);
    CutPartitions(t, a);
    AlignedRest(fs, Cut(t, a).frames, Cut(t, a).rest, d);
  }

  lemma HeadOfFrames(t: Template, fs: seq<Bytes>, x: Bytes)
    requires Framed(t) && AllFrames(t, fs) && x <= Concat(fs) && |x| >= t.cb as int
    ensures fs != [] && HeadOf(t, x) == Whole(|fs[0]|)
  {
    assert x + Concat(fs)[|x|..] == Concat(fs);
    HeadStable(t, x, Concat(fs)[|x|..]);
    assert IsFrame(t, fs[0]);
    HeadStable(t, fs[0], Concat(fs[1..]));
  }

  /** A stream of frames that fit the packet buffer is never torn, wherever it is cut. */
  lemma {:induction false} SmallFramesAreClean(t: Template, fs: seq<Bytes>, chunks: seq<Bytes>)
    requires Framed(t) && AllFrames(t, fs) && Concat(chunks) <= Concat(fs)
    requires forall i | 0 <= i < |fs| :: |fs[i]| <= TCP_BUFFER_SIZE as int
    ensures CleanCuts(t, chunks)
  {
    forall i | 0 <= i < |chunks|
      ensures !TearsHeader(t, Cut(t, Concat(chunks[..i])).rest, chunks[i])
    {
      UpTo(chunks, i);
      NotTorn(t, fs, Concat(chunks[..i]), chunks[i]);
    }
  }

  lemma UpTo(chunks: seq<Bytes>, i: nat)
    requires i < |chunks|
    ensures Concat(chunks[..i]) + chunks[i] <= Concat(chunks)
  {
    var d, more := chunks[i], chunks[i + 1..];
    assert chunks == chunks[..i] + ([d] + more);
    ConcatAppend(chunks[..i], [d] + more);
    ConcatCons(d, more);
    Assoc(Concat(chunks[..i]), d, Concat(more));
  }

  lemma NotTorn(t: Template, fs: seq<Bytes>, a: Bytes, d: Bytes)
    requires Framed(t) && AllFrames(t, fs) && a + d <= Concat(fs)
    requires forall i | 0 <= i < |fs| :: |fs[i]| <= TCP_BUFFER_SIZE as int
    ensures !TearsHeader(t, Cut(t, a).rest, d)
  {
    RestOfStream(t, fs, a, d);
    var k, x := |Cut(t, a).frames|, Cut(t, a).rest + d;
    if |x| >= t.cb as int {
      HeadOfFrames(t, fs[k..], x);
    }
  }

  // ---- Large blocks and delivery modes ----

  /** A link that is up holds the residue of its stream, in a large block exactly when that begins a large frame. */
  lemma HeldIsResidue(v: Version, t: Template, chunks: seq<Bytes>)
    requires Framed(t) && ChunksOk(chunks)
    requires v.Literal? ==> CleanCuts(t, chunks)
    ensures var r, p := FeedAll(v, t, chunks), Cut(t, Concat(chunks));
      && r.ok == p.ok && r.frames == p.frames
      && (r.ok ==> Faithful(t, r.st) && r.unread == [] && r.st.buf == p.rest)
  {
    if v.Literal? {
      LiteralRefines(t, chunks);
    } else {
      CarryingRefines(t, chunks);
    }
    var r := FeedAll(v, t, chunks);
    assert r.st.buf + [] == r.st.buf;
  }

  /** `need` bytes of the chunk complete the open block of `r`. */
  ghost predicate BlockCompleted(v: Version, t: Template, r: Run, r': Run, d: Bytes, need: nat)
    requires Framed(t) && need <= |d| && ChunkOk(d)
  {
    var f := r.st.buf + d[..need];
    && |f| == r.st.large && IsFrame(t, f)
    && if |d| == need then r' == Run(r.frames + [f], EMPTY, true, [])
       else
         var q := Consume(v, t, EMPTY, d[need..]);
         r' == Run((r.frames + [f]) + q.frames, q.st, q.ok, q.unread)
  }

  lemma OpenBlockTakes(v: Version, t: Template, r: Run, d: Bytes)
    requires Framed(t) && ChunkOk(d) && r.ok && Faithful(t, r.st) && r.unread == [] && r.st.large > 0
    ensures var r', need := Feed(v, t, r, d), r.st.large - |r.st.buf|;
      if |d| < need then r' == r.(st := RxState(r.st.buf + d, r.st.large))
      else BlockCompleted(v, t, r, r', d, need)
  {
    var need := r.st.large - |r.st.buf|;
    if |d| >= need {
      assert (r.st.buf + d)[..r.st.large] == r.st.buf + d[..need];
      HeadStable(t, r.st.buf, d[..need]);
      if |d| > need {
        Assoc(r.frames, [r.st.buf + d[..need]], Consume(v, t, EMPTY, d[need..]).frames);
      }
    }
  }

  /**
   The life of a large block, for every connection. A block is open exactly while the bytes received but
   not delivered begin with the header of a large frame; it then holds all of them, at least the header
   and fewer than the frame, and it has the announced size. The chunk that completes it delivers exactly
   the announced bytes and starts the next frame with the leftover.
   */
  lemma {:induction false} LargeBlockLifeCycle(v: Version, t: Template, chunks: seq<Bytes>, d: Bytes)
    requires Framed(t) && ChunksOk(chunks) && ChunkOk(d)
    requires v.Literal? ==> CleanCuts(t, chunks)
    requires FeedAll(v, t, chunks).ok
    ensures var r, p := FeedAll(v, t, chunks), Cut(t, Concat(chunks));
      && r.st.buf == p.rest
      && (r.st.large > 0 <==> HeadIsLarge(t, p.rest))
      && (r.st.large > 0 ==> t.cb as int <= |r.st.buf| < r.st.large && HeadOf(t, p.rest) == Whole(r.st.large))
    ensures var r, r' := FeedAll(v, t, chunks), Feed(v, t, FeedAll(v, t, chunks), d);
      var need := r.st.large - |r.st.buf|;
      r.st.large > 0 ==>
        if |d| < need then r' == r.(st := RxState(r.st.buf + d, r.st.large))
        else BlockCompleted(v, t, r, r', d, need)
  {
    HeldIsResidue(v, t, chunks);
    if FeedAll(v, t, chunks).st.large > 0 {
      OpenBlockTakes(v, t, FeedAll(v, t, chunks), d);
    }
  }

  /** Without a template every chunk is handed over as it came. */
  lemma {:induction false} UnframedPassesThrough(v: Version, t: Template, chunks: seq<Bytes>)
    requires ValidTemplate(t) && !Framed(t) && ChunksOk(chunks)
    ensures FeedAll(v, t, chunks) == Run(chunks, EMPTY, true, [])
    decreases |chunks|
  {
    if chunks == [] {
    } else {
      var n := |chunks| - 1;
      UnframedPassesThrough(v, t, chunks[..n]);
      assert chunks == chunks[..n] + [chunks[n]];
    }
  }

  /** What the callback is handed, then: the chunks. */
  lemma UnframedPayloads(t: Template, fully: bool, chunks: seq<Bytes>)
    requires ValidTemplate(t) && (t.cb == 0 || t.parser.None?)
    ensures Payloads(t, fully, chunks) == chunks
  {
  }

  lemma PayloadsOfFrames(t: Template, fs: seq<Bytes>)
    requires Framed(t) && AllFrames(t, fs)
    ensures Payloads(t, true, fs) == fs
    ensures forall i | 0 <= i < |fs| :: fs[i] == fs[i][..t.cb] + Payloads(t, false, fs)[i]
  {
  }

  /**
   The delivery modes: with LINKATTR_TCP_FULLY_RECEIVE the deliveries and the bytes held back are
   the stream; without it they are the same frames, each short of exactly its header.
   */
  lemma {:induction false} DeliveryModesAgree(v: Version, t: Template, chunks: seq<Bytes>)
    requires Framed(t) && ChunksOk(chunks)
    requires v.Literal? ==> CleanCuts(t, chunks)
    ensures var r := FeedAll(v, t, chunks);
      && Concat(Payloads(t, true, r.frames)) + Observed(r).rest == Concat(chunks)
      && AllFrames(t, r.frames)
      && forall i | 0 <= i < |r.frames| ::
           r.frames[i] == r.frames[i][..t.cb] + Payloads(t, false, r.frames)[i]
  {
    if v.Literal? {
      LiteralRefines(t, chunks);
    } else {
      CarryingRefines(t, chunks);
    }
    var p := Cut(t, Concat(chunks));
    CutPartitions(t, Concat(chunks));
    PayloadsOfFrames(t, p.frames);
  }
}
