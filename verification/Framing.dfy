/**
 The protocol template and the meaning of a framed byte stream: take the header bytes,
 ask the template's parser for the payload size, cut the frame, repeat.
 Nothing here knows about buffers, chunks or calls.
 */
module Framing {
  import opened Basics

  const TCP_BUFFER_SIZE: int32 := 0x11000
  const TCP_MAXIMUM_PACKET_SIZE: int32 := 50 * 0x10_0000
  const TCP_MAXIMUM_TEMPLATE_SIZE: int32 := 32

  /** `tst_t`. A callback that returns a negative value is a `None`. */
  datatype Template = Template(
    cb: int32,
    builder: Option<int32 -> Option<Bytes>>,
    parser: Option<Bytes -> Option<int32>>)

  predicate ValidTemplate(t: Template) {
    0 <= t.cb <= TCP_MAXIMUM_TEMPLATE_SIZE
  }

  predicate Framed(t: Template) {
    ValidTemplate(t) && t.cb != 0 && t.parser.Some?
  }

  /** What the first bytes of a stream say about its first frame. */
  datatype Head = Short | Bad | Whole(size: nat)

  function HeadOf(t: Template, s: Bytes): (h: Head)
    requires Framed(t)
    ensures h.Short? <==> |s| < t.cb as int
    ensures h.Whole? ==> (t.cb as int) < h.size <= TCP_MAXIMUM_PACKET_SIZE as int + t.cb as int
  {
    if |s| < t.cb as int then
      Short
    else
      match t.parser.value(s[..t.cb])
      case None => Bad
      case Some(n) =>
        if n > TCP_MAXIMUM_PACKET_SIZE || n <= 0 then Bad else Whole(n as int + t.cb as int)
  }

  ghost predicate IsFrame(t: Template, f: Bytes)
    requires Framed(t)
  {
    HeadOf(t, f) == Whole(|f|)
  }

  /** The parser rejects the header, or announces a payload outside 1..50<<20. */
  ghost predicate Rejected(t: Template, s: Bytes)
    requires Framed(t)
  {
    && |s| >= t.cb as int
    && match t.parser.value(s[..t.cb])
       case None => true
       case Some(n) => n <= 0 || n > 52_428_800
  }

  /** The parser announces, from the header alone, exactly the payload that follows it. */
  ghost predicate Announced(t: Template, f: Bytes)
    requires Framed(t)
  {
    && 1 <= |f| - t.cb as int <= 52_428_800
    && t.parser.value(f[..t.cb]) == Some((|f| - t.cb as int) as int32)
  }

  /** Bad headers and frames, told from what the parser answers. */
  lemma ParserDecides(t: Template, s: Bytes)
    requires Framed(t)
    ensures HeadOf(t, s).Bad? <==> Rejected(t, s)
    ensures IsFrame(t, s) <==> Announced(t, s)
  {
  }

  ghost predicate AllFrames(t: Template, fs: seq<Bytes>)
    requires Framed(t)
  {
    forall i | 0 <= i < |fs| :: IsFrame(t, fs[i])
  }

  lemma AllFramesAppend(t: Template, a: seq<Bytes>, b: seq<Bytes>)
    requires Framed(t) && AllFrames(t, a) && AllFrames(t, b)
    ensures AllFrames(t, a + b)
  {
  }

  /** No frame can be cut off the front of `s`: a header is missing, bad, or announces more bytes. */
  ghost predicate Residue(t: Template, s: Bytes)
    requires Framed(t)
  {
    match HeadOf(t, s)
    case Short => true
    case Bad => true
    case Whole(n) => |s| < n
  }

  /** `ok` is false when the stream runs into a header that no frame can start with. */
  datatype Parsed = Parsed(frames: seq<Bytes>, rest: Bytes, ok: bool)

  function Cut(t: Template, s: Bytes): Parsed
    requires Framed(t)
    decreases |s|
  {
    match HeadOf(t, s)
    case Short => Parsed([], s, true)
    case Bad => Parsed([], s, false)
    case Whole(n) =>
      if |s| < n then
        Parsed([], s, true)
      else
        var p := Cut(t, s[n..]);
        Parsed([s[..n]] + p.frames, p.rest, p.ok)
  }

  lemma HeadStable(t: Template, s: Bytes, more: Bytes)
    requires Framed(t) && |s| >= t.cb as int
    ensures HeadOf(t, s + more) == HeadOf(t, s)
  {
    assert (s + more)[..t.cb] == s[..t.cb];
  }

  lemma CutOneFrame(t: Template, f: Bytes, tail: Bytes)
    requires Framed(t) && IsFrame(t, f)
    ensures var q := Cut(t, tail);
      Cut(t, f + tail) == Parsed([f] + q.frames, q.rest, q.ok)
  {
    HeadStable(t, f, tail);
    assert (f + tail)[|f|..] == tail && (f + tail)[..|f|] == f;
  }

  /** Cutting loses and invents nothing, and what it cuts are frames. */
  lemma {:induction false} CutPartitions(t: Template, s: Bytes)
    requires Framed(t)
    ensures var p := Cut(t, s);
      && Concat(p.frames) + p.rest == s
      && AllFrames(t, p.frames)
      && Residue(t, p.rest)
      && (p.ok <==> !HeadOf(t, p.rest).Bad?)
    decreases |s|
  {
    var h := HeadOf(t, s);
    if h.Whole? && |s| >= h.size {
      var f, tail := s[..h.size], s[h.size..];
      CutPartitions(t, tail);
      FirstFramePartitions(t, s, f, tail);
    } else {
      assert [] + s == s;
    }
  }

  lemma FirstFramePartitions(t: Template, s: Bytes, f: Bytes, tail: Bytes)
    requires Framed(t) && s == f + tail && HeadOf(t, s) == Whole(|f|)
    requires Concat(Cut(t, tail).frames) + Cut(t, tail).rest == tail
    requires AllFrames(t, Cut(t, tail).frames)
    ensures AllFrames(t, Cut(t, s).frames)
    ensures Concat(Cut(t, s).frames) + Cut(t, s).rest == s
    ensures Cut(t, s).rest == Cut(t, tail).rest && Cut(t, s).ok == Cut(t, tail).ok
  {
    var p := Cut(t, tail);
    assert |f| >= t.cb as int;
    HeadStable(t, f, tail);
    CutOneFrame(t, f, tail);
    ConcatCons(f, p.frames);
    Assoc(f, Concat(p.frames), p.rest);
    AllFramesAppend(t, [f], p.frames);
  }

  lemma {:induction false} CutAfterFrames(t: Template, fs: seq<Bytes>, tail: Bytes)
    requires Framed(t) && AllFrames(t, fs)
    ensures var q := Cut(t, tail);
      Cut(t, Concat(fs) + tail) == Parsed(fs + q.frames, q.rest, q.ok)
    decreases |fs|
  {
    var q := Cut(t, tail);
    if fs == [] {
      assert Concat(fs) + tail == tail;
      assert fs + q.frames == q.frames;
    } else {
      var f, gs := fs[0], fs[1..];
      CutAfterFrames(t, gs, tail);
      CutOneFrame(t, f, Concat(gs) + tail);
      Assoc(f, Concat(gs), tail);
      Assoc([f], gs, q.frames);
      assert fs == [f] + gs;
    }
  }

  /** ... and there is no other way to cut it: together with CutPartitions, Cut is the decomposition. */
  lemma CutUnique(t: Template, fs: seq<Bytes>, rest: Bytes)
    requires Framed(t) && AllFrames(t, fs) && Residue(t, rest)
    ensures Cut(t, Concat(fs) + rest) == Parsed(fs, rest, !HeadOf(t, rest).Bad?)
  {
    CutAfterFrames(t, fs, rest);
    assert fs + [] == fs;
  }

  /** Cutting can be resumed from the residue; after a bad header nothing more is cut. */
  lemma CutExtends(t: Template, a: Bytes, b: Bytes)
    requires Framed(t)
    ensures var p := Cut(t, a);
      Cut(t, a + b) ==
        if !p.ok then Parsed(p.frames, p.rest + b, false)
        else
          var q := Cut(t, p.rest + b);
          Parsed(p.frames + q.frames, q.rest, q.ok)
  {
    var p := Cut(t, a);
    CutPartitions(t, a);
    Assoc(Concat(p.frames), p.rest, b);
    if p.ok {
      CutAfterFrames(t, p.frames, p.rest + b);
    } else {
      HeadStable(t, p.rest, b);
      CutUnique(t, p.frames, p.rest + b);
    }
  }

  /** A prefix of a stream of frames cuts into a prefix of those frames. */
  lemma CutPrefix(t: Template, fs: seq<Bytes>, s: Bytes)
    requires Framed(t) && AllFrames(t, fs)
    requires s <= Concat(fs)
    ensures Cut(t, s).ok && Cut(t, s).frames <= fs
    ensures s == Concat(fs) ==> Cut(t, s) == Parsed(fs, [], true)
  {
    var more := Concat(fs)[|s|..];
    assert s + more == Concat(fs) + [];
    CutUnique(t, fs, []);
    CutExtends(t, s, more);
    if s == Concat(fs) {
      assert s == Concat(fs) + [];
    }
  }

  /** Only announced frames, one after the other, precede a header that is rejected. */
  ghost predicate BadHeaderAfter(t: Template, s: Bytes, fs: seq<Bytes>, bad: Bytes)
    requires Framed(t)
  {
    s == Concat(fs) + bad && (forall i | 0 <= i < |fs| :: Announced(t, fs[i])) && Rejected(t, bad)
  }

  lemma AnnouncedFrames(t: Template, fs: seq<Bytes>)
    requires Framed(t)
    ensures AllFrames(t, fs) <==> forall i | 0 <= i < |fs| :: Announced(t, fs[i])
  {
    forall i | 0 <= i < |fs|
      ensures IsFrame(t, fs[i]) <==> Announced(t, fs[i])
    {
      ParserDecides(t, fs[i]);
    }
  }

  /** A stream fails exactly when it contains a header at a frame boundary that is rejected. */
  lemma FailsExactly(t: Template, s: Bytes)
    requires Framed(t)
    ensures !Cut(t, s).ok <==> exists fs, bad :: BadHeaderAfter(t, s, fs, bad)
    ensures forall fs, bad :: BadHeaderAfter(t, s, fs, bad) ==> Cut(t, s) == Parsed(fs, bad, false)
  {
    var p := Cut(t, s);
    CutPartitions(t, s);
    AnnouncedFrames(t, p.frames);
    ParserDecides(t, p.rest);
    assert !p.ok ==> BadHeaderAfter(t, s, p.frames, p.rest);
    forall fs, bad | BadHeaderAfter(t, s, fs, bad)
      ensures p == Parsed(fs, bad, false)
    {
      AnnouncedFrames(t, fs);
      ParserDecides(t, bad);
      CutUnique(t, fs, bad);
    }
  }

  /** A stream of announced frames cuts into them, and what is left is short of the next one. */
  lemma CutsExactly(t: Template, s: Bytes, fs: seq<Bytes>, rest: Bytes)
    requires Framed(t) && s == Concat(fs) + rest && forall i | 0 <= i < |fs| :: Announced(t, fs[i])
    requires |rest| < t.cb as int
          || (t.parser.value(rest[..t.cb]).Some?
              && 1 <= t.parser.value(rest[..t.cb]).value <= 52_428_800
              && |rest| - t.cb as int < t.parser.value(rest[..t.cb]).value as int)
    ensures Cut(t, s) == Parsed(fs, rest, true)
  {
    AnnouncedFrames(t, fs);
    ParserDecides(t, rest);
    CutUnique(t, fs, rest);
  }

  // ---- What the application is handed ----

  /** ncb_post_recvdata is given the whole frame, or the frame without its header. */
  function Payload(t: Template, fully: bool, f: Bytes): Bytes {
    if fully || !Framed(t) || |f| < t.cb as int then f else f[t.cb..]
  }

  function Payloads(t: Template, fully: bool, fs: seq<Bytes>): (r: seq<Bytes>)
    ensures |r| == |fs| && forall i | 0 <= i < |fs| :: r[i] == Payload(t, fully, fs[i])
  {
    seq(|fs|, i requires 0 <= i < |fs| => Payload(t, fully, fs[i]))
  }

  lemma PayloadsOne(t: Template, fully: bool, f: Bytes)
    ensures Payloads(t, fully, [f]) == [Payload(t, fully, f)]
  {
  }

  lemma PayloadsAppend(t: Template, fully: bool, a: seq<Bytes>, b: seq<Bytes>)
    ensures Payloads(t, fully, a + b) == Payloads(t, fully, a) + Payloads(t, fully, b)
  {
  }

  // ---- Building packets (the builder branch of tcp_write) ----

  predicate SendableSize(n: int) {
    0 < n <= TCP_MAXIMUM_PACKET_SIZE as int
  }

  /** The template's two callbacks agree: the parser reads back the size the builder wrote. */
  ghost predicate RoundTrips(t: Template) {
    && Framed(t) && t.builder.Some?
    && forall n: int32 | SendableSize(n as int) ::
         && t.builder.value(n).Some?
         && |t.builder.value(n).value| == t.cb as int
         && t.parser.value(t.builder.value(n).value) == Some(n)
  }

  /** The packet for a payload; with no builder, or when told not to build, it is the payload. */
  function BuildPacket(t: Template, noBuild: bool, payload: Bytes): Option<Bytes>
    requires SendableSize(|payload|)
  {
    if t.builder.None? || noBuild then Some(payload)
    else
      match t.builder.value(|payload| as int32)
      case None => None
      case Some(header) => Some(header + payload)
  }

  /** The bytes of a packet: the builder's header before the payload, or the payload; no header, no packet. */
  lemma PacketBytes(t: Template, noBuild: bool, payload: Bytes)
    requires 1 <= |payload| <= 52_428_800
    ensures SendableSize(|payload|)
    ensures t.builder.None? || noBuild ==> BuildPacket(t, noBuild, payload) == Some(payload)
    ensures t.builder.Some? && !noBuild ==>
      match t.builder.value(|payload| as int32)
      case None => BuildPacket(t, noBuild, payload) == None
      case Some(header) => BuildPacket(t, noBuild, payload) == Some(header + payload)
  {
  }

  /** Every packet tcp_write builds is one frame, and stripping the header gives the payload back. */
  lemma BuiltIsFrame(t: Template, payload: Bytes)
    requires RoundTrips(t) && SendableSize(|payload|)
    ensures var p := BuildPacket(t, false, payload);
      && p.Some? && IsFrame(t, p.value)
      && Payload(t, false, p.value) == payload
  {
  }
}
