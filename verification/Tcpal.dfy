/** tcpal.c and the receive half of tcpio.c: the parser and its loops on the buffers they update. */
module Tcpal {
  import opened Basics
  import opened Framing
  import opened Reassembly

  /** The C library's memcpy on disjoint arrays. */
  method Memcpy(dst: array<byte>, to: nat, src: array<byte>, from: nat, n: nat)
    requires dst != src
    requires to + n <= dst.Length && from + n <= src.Length
    modifies dst
    ensures dst[..] == old(dst[..to]) + src[from..from + n] + old(dst[to + n..])
  {
    for i := 0 to n
      invariant forall k | 0 <= k < dst.Length ::
        dst[k] == if to <= k < to + i then src[from + (k - to)] else old(dst[k])
    {
      dst[to + i] := src[from + i];
    }
  }

  /** What recv(2) answers. */
  datatype Received = Data(bytes: Bytes) | Shutdown | Interrupted | WouldBlock | Failed

  predicate FromKernel(o: Received) {
    o.Data? ==> 0 < |o.bytes| <= TCP_BUFFER_SIZE as int
  }

  /** What __tcp_rx returns for an answer without data. */
  function ReturnFor(o: Received): int32
    requires !o.Data?
  {
    match o
    case Shutdown => -ECONNRESET
    case Interrupted => 0
    case WouldBlock => EAGAIN
    case Failed => -1
  }

  /** The chunks among a sequence of answers. */
  function ChunksOf(answers: seq<Received>): (r: seq<Bytes>)
    ensures (forall i | 0 <= i < |answers| :: FromKernel(answers[i])) ==> ChunksOk(r)
  {
    if answers == [] then []
    else
      var n := |answers| - 1;
      ChunksOf(answers[..n]) + match answers[n] case Data(b) => [b] case _ => []
  }

  lemma ChunksOfNext(answers: seq<Received>, n: nat, h: seq<Bytes>)
    requires n < |answers|
    ensures var seen := h + ChunksOf(answers[..n]);
      h + ChunksOf(answers[..n + 1]) == if answers[n].Data? then seen + [answers[n].bytes] else seen
  {
    assert answers[..n + 1][..n] == answers[..n];
  }

  predicate GoesOn(o: Received) {
    o.Data? || o.Interrupted?
  }

  /** How many recv calls it takes to reach an answer that ends the reading. */
  function Reads(answers: seq<Received>): nat {
    if answers == [] then 0
    else if GoesOn(answers[0]) then 1 + Reads(answers[1..])
    else 1
  }

  /** What tcp_rx returns when no parse fails: a socket with nothing more to say answers EAGAIN. */
  function StopOf(answers: seq<Received>): int32 {
    if answers == [] then EAGAIN
    else if GoesOn(answers[0]) then StopOf(answers[1..])
    else ReturnFor(answers[0])
  }

  /** `n` calls read past data and signals only; the last one, or nothing more to say, gives the answer. */
  ghost predicate ReadTo(answers: seq<Received>, n: nat, ret: int32) {
    && n <= |answers|
    && (forall i | 0 <= i < n - 1 :: answers[i].Data? || answers[i].Interrupted?)
    && if n == 0 || answers[n - 1].Data? || answers[n - 1].Interrupted? then n == |answers| && ret == 11
       else ret == if answers[n - 1].WouldBlock? then 11 else if answers[n - 1].Shutdown? then -104 else -1
  }

  lemma {:induction false} ReadsExactly(answers: seq<Received>)
    ensures ReadTo(answers, Reads(answers), StopOf(answers))
    decreases |answers|
  {
    if answers == [] {
    } else if answers[0].Data? || answers[0].Interrupted? {
      ReadsExactly(answers[1..]);
      assert forall i | 1 <= i < |answers| :: answers[i] == answers[1..][i - 1];
    }
  }

  /** The first `n` answers go on, and the reading does not end before them. */
  ghost predicate ReadSoFar(answers: seq<Received>, n: nat) {
    n <= |answers| && n + Reads(answers[n..]) == Reads(answers) && StopOf(answers[n..]) == StopOf(answers)
  }

  lemma ReadOn(answers: seq<Received>, n: nat)
    requires n < |answers| && ReadSoFar(answers, n)
    ensures n + 1 <= Reads(answers)
    ensures if GoesOn(answers[n]) then ReadSoFar(answers, n + 1)
            else ReadTo(answers, n + 1, ReturnFor(answers[n]))
  {
    ReadsExactly(answers);
    assert answers[n..][1..] == answers[n + 1..];
  }

  lemma ReadAll(answers: seq<Received>)
    requires ReadSoFar(answers, |answers|)
    ensures ReadTo(answers, |answers|, EAGAIN)
  {
    ReadsExactly(answers);
  }

  lemma FeedAllNext(v: Version, t: Template, fully: bool, h: seq<Bytes>, b: Bytes)
    requires ValidTemplate(t) && ChunksOk(h) && ChunkOk(b) && FeedAll(v, t, h).ok
    ensures ChunksOk(h + [b])
    ensures var r, r' := FeedAll(v, t, h), FeedAll(v, t, h + [b]);
      var c := Consume(v, t, r.st, b);
      && r'.st == c.st && r'.ok == c.ok
      && Payloads(t, fully, r'.frames) == Payloads(t, fully, r.frames) + Payloads(t, fully, c.frames)
  {
    assert (h + [b])[..|h|] == h;
    var r := FeedAll(v, t, h);
    PayloadsAppend(t, fully, r.frames, Consume(v, t, r.st, b).frames);
  }

  /** The receive half of the network control block. `delivered` is what the callback was handed. */
  class NcbRx {
    const version: Version
    const template: Template
    const fully: bool
    const packet: array<byte>
    const rxBuffer: array<byte>
    var rxParseOffset: int32
    var lbdata: array?<byte>
    var lboffset: int32
    var lbsize: int32
    var delivered: seq<Bytes>

    ghost predicate Shape()
      reads this, lbdata
    {
      && ValidTemplate(template)
      && packet.Length == rxBuffer.Length == TCP_BUFFER_SIZE as int
      && packet != rxBuffer && lbdata != packet && lbdata != rxBuffer
      && 0 <= rxParseOffset <= TCP_BUFFER_SIZE
      && (if lbdata == null then lboffset == lbsize == 0
          else lbdata.Length == lbsize as int && 0 <= lboffset < lbsize && rxParseOffset == 0)
    }

    /** The abstraction: the bytes held back and the size of the large block being filled. */
    ghost function State(): RxState
      requires Shape()
      reads this, packet, lbdata
    {
      if lbdata != null then RxState(lbdata[..lboffset], lbsize as nat)
      else RxState(packet[..rxParseOffset], 0)
    }

    ghost predicate Valid()
      reads this, packet, lbdata
    {
      Shape() && Sane(template, State())
    }

    /** The present state, the return value and the callback log are those of one parser call. */
    ghost predicate DidCall(st: RxState, d: Bytes, ret: int32, before: seq<Bytes>)
      requires Shape()
      reads this, packet, lbdata
    {
      var c := ParseCall(version, template, st, d);
      ret as int == c.ret && State() == c.st && delivered == before + Payloads(template, fully, c.out)
    }

    constructor (version: Version, template: Template, fully: bool)
      requires ValidTemplate(template)
      ensures Valid() && State() == EMPTY && delivered == []
      ensures this.version == version && this.template == template && this.fully == fully
      ensures fresh(packet) && fresh(rxBuffer)
    {
      this.version, this.template, this.fully := version, template, fully;
      packet := new byte[TCP_BUFFER_SIZE as int];
      rxBuffer := new byte[TCP_BUFFER_SIZE as int];
      rxParseOffset, lboffset, lbsize := 0, 0, 0;
      lbdata := null;
      delivered := [];
    }

    predicate LbMarked()
      reads this
    {
      lbdata != null && lbsize > 0
    }

    method PostRecvdata(src: array<byte>, from: nat, cb: int32)
      requires 0 <= cb && from + cb as int <= src.Length
      modifies this`delivered
      ensures delivered == old(delivered) + [src[from..from + cb as int]]
    {
      delivered := delivered + [src[from..from + cb as int]];
    }

    method ParseMarkedLb(data: array<byte>, at: nat, cpcb: int32) returns (ret: int32)
      requires Shape() && Framed(template) && LbMarked() && template.cb <= lbsize
      requires lbsize <= TCP_MAXIMUM_PACKET_SIZE + template.cb
      requires 0 < cpcb <= TCP_BUFFER_SIZE && at + cpcb as int <= data.Length
      requires data != packet && data != lbdata
      modifies this, lbdata
      ensures Shape() && (lbdata == old(lbdata) || lbdata == null) && rxParseOffset == old(rxParseOffset)
      ensures var all := old(lbdata[..lboffset]) + data[at..at + cpcb as int];
        var size := old(lbsize) as int;
        if |all| < size then
          && ret == 0 && lbdata == old(lbdata) && lbsize == old(lbsize)
          && lbdata[..lboffset] == all && delivered == old(delivered)
        else
          && ret as int == |all| - size && lbdata == null
          && delivered == old(delivered) + [Payload(template, fully, all[..size])]
    {
      ghost var all := lbdata[..lboffset] + data[at..at + cpcb as int];
      if cpcb + lboffset < lbsize {
        Memcpy(lbdata, lboffset as int, data, at, cpcb as int);
        lboffset := lboffset + cpcb;
        assert lbdata[..lboffset] == all;
        return 0;
      }
      var overplus := lbsize - lboffset;
      Memcpy(lbdata, lboffset as int, data, at, overplus as int);
      TakeOfAppend(old(lbdata[..lboffset]), data[at..at + cpcb as int], lbsize as int);
      assert data[at..at + cpcb as int][..overplus] == data[at..at + overplus as int];
      assert lbdata[..] == all[..lbsize];
      if fully {
        PostRecvdata(lbdata, 0, lbsize);
      } else {
        PostRecvdata(lbdata, template.cb as int, lbsize - template.cb);
      }
      lbdata := null;
      lboffset := 0;
      lbsize := 0;
      return cpcb - overplus;
    }

    /** Lines 68-79: take from the chunk what the header still lacks. */
    method CompleteHeader(data: array<byte>, at: nat, cpcb: int32) returns (used: int32)
      requires Valid() && Framed(template) && !LbMarked()
      requires 0 < cpcb <= TCP_BUFFER_SIZE && at + cpcb as int <= data.Length && data != packet
      requires rxParseOffset + cpcb >= template.cb
      modifies this`rxParseOffset, packet
      ensures Shape() && 0 <= used <= cpcb
      ensures rxParseOffset == if old(rxParseOffset) < template.cb then template.cb else old(rxParseOffset)
      ensures used == rxParseOffset - old(rxParseOffset)
      ensures packet[..rxParseOffset] == old(packet[..rxParseOffset]) + data[at..at + used as int]
    {
      used := 0;
      if rxParseOffset < template.cb {
        used := template.cb - rxParseOffset;
        Memcpy(packet, rxParseOffset as int, data, at, used as int);
        rxParseOffset := template.cb;
      }
    }

    /** Lines 81-101: the whole length the header in `packet` announces, if it is acceptable. */
    method ReadHeader() returns (total: Option<int32>)
      requires Shape() && Framed(template) && rxParseOffset >= template.cb
      ensures match HeadOf(template, packet[..rxParseOffset])
        case Whole(n) => total.Some? && total.value as int == n
        case _ => total == None
    {
      assert packet[..rxParseOffset][..template.cb] == packet[..template.cb];
      var parsed := template.parser.value(packet[..template.cb]);
      if parsed.None? {
        return None;
      }
      var userDataSize := parsed.value;
      if userDataSize > TCP_MAXIMUM_PACKET_SIZE || userDataSize <= 0 {
        return None;
      }
      return Some(userDataSize + template.cb);
    }

    /** Lines 103-121: open a large block. The carrying version first copies the saved header bytes. */
    method BeginLarge(total: int32, held: int32, data: array<byte>, at: nat, cpcb: int32, ghost buf: Bytes)
      returns (ret: int32)
      requires Shape() && Framed(template) && !LbMarked()
      requires TCP_BUFFER_SIZE < total <= TCP_MAXIMUM_PACKET_SIZE + template.cb
      requires 0 <= held < template.cb && packet[..held] == buf && 0 < cpcb <= TCP_BUFFER_SIZE
      requires at + cpcb as int <= data.Length && data != packet
      requires HeadOf(template, buf + data[at..at + cpcb as int]) == Whole(total as int)
      modifies this
      ensures Shape() && (lbdata == null || fresh(lbdata))
      ensures DidCall(RxState(buf, 0), data[at..at + cpcb as int], ret, old(delivered))
    {
      lbdata := new byte[total as int];
      lbsize := total;
      rxParseOffset := 0;
      if version.Literal? {
        Memcpy(lbdata, 0, data, at, cpcb as int);
        lboffset := cpcb;
        assert lbdata[..lboffset] == data[at..at + cpcb as int];
        return 0;
      }
      Memcpy(lbdata, 0, packet, 0, held as int);
      lboffset := held;
      assert lbdata[..lboffset] == buf;
      ret := ParseMarkedLb(data, at, cpcb);
      if lbdata == null {
        PayloadsOne(template, fully, (buf + data[at..at + cpcb as int])[..total]);
      }
    }

    /** Lines 124-141: the chunk completes a frame that fits the packet buffer. */
    method FinishPacket(total: int32, used: int32, data: array<byte>, at: nat, cpcb: int32, ghost all: Bytes)
      returns (ret: int32)
      requires Shape() && Framed(template) && !LbMarked()
      requires template.cb <= rxParseOffset < total <= TCP_BUFFER_SIZE && template.cb < total
      requires 0 <= used <= cpcb <= TCP_BUFFER_SIZE && at + cpcb as int <= data.Length && data != packet
      requires packet[..rxParseOffset] + data[at + used as int..at + cpcb as int] == all
      requires |all| >= total as int
      modifies this, packet
      ensures Shape() && lbdata == null && State() == EMPTY
      ensures ret as int == |all| - total as int
      ensures delivered == old(delivered) + [Payload(template, fully, all[..total])]
    {
      var from, overplus := at + used as int, cpcb - used;
      var need := total - rxParseOffset;
      Memcpy(packet, rxParseOffset as int, data, from, need as int);
      TakeOfAppend(old(packet[..rxParseOffset]), data[from..from + overplus as int], total as int);
      assert data[from..from + overplus as int][..need] == data[from..from + need as int];
      assert packet[..total] == all[..total];
      ret := overplus - need;
      if fully {
        PostRecvdata(packet, 0, total);
      } else {
        PostRecvdata(packet, template.cb as int, total - template.cb);
      }
      rxParseOffset := 0;
    }

    /** Lines 123-147: finish a frame that fits the packet buffer, or keep what there is of it. */
    method FillPacket(total: int32, used: int32, data: array<byte>, at: nat, cpcb: int32, ghost buf: Bytes)
      returns (ret: int32)
      requires Shape() && Framed(template) && !LbMarked()
      requires template.cb <= rxParseOffset < total <= TCP_BUFFER_SIZE
      requires 0 <= used <= cpcb && 0 < cpcb <= TCP_BUFFER_SIZE && at + cpcb as int <= data.Length && data != packet
      requires packet[..rxParseOffset] + data[at + used as int..at + cpcb as int] == buf + data[at..at + cpcb as int]
      requires HeadOf(template, buf + data[at..at + cpcb as int]) == Whole(total as int)
      modifies this, packet
      ensures Shape() && lbdata == null
      ensures DidCall(RxState(buf, 0), data[at..at + cpcb as int], ret, old(delivered))
    {
      ghost var all := buf + data[at..at + cpcb as int];
      var overplus := cpcb - used;
      if rxParseOffset + overplus >= total {
        ret := FinishPacket(total, used, data, at, cpcb, all);
        PayloadsOne(template, fully, all[..total]);
      } else {
        Memcpy(packet, rxParseOffset as int, data, at + used as int, overplus as int);
        rxParseOffset := rxParseOffset + overplus;
        assert packet[..rxParseOffset] == all;
        ret := 0;
      }
    }

    /** Lines 68-147: no large block is open and the header can be completed. */
    method ParseUnmarked(data: array<byte>, at: nat, cpcb: int32) returns (ret: int32)
      requires Valid() && Framed(template) && !LbMarked()
      requires 0 < cpcb <= TCP_BUFFER_SIZE && at + cpcb as int <= data.Length && data != packet
      requires rxParseOffset + cpcb >= template.cb
      modifies this, packet
      ensures Shape() && (lbdata == null || fresh(lbdata))
      ensures DidCall(old(State()), data[at..at + cpcb as int], ret, old(delivered))
    {
      ghost var buf, d := State().buf, data[at..at + cpcb as int];
      var held := rxParseOffset;
      var used := CompleteHeader(data, at, cpcb);
      HeaderKnown(buf, d, used as int, packet[..rxParseOffset], data, at);
      var size := ReadHeader();
      if size.None? {
        return -1;
      }
      if size.value > TCP_BUFFER_SIZE {
        assert packet[..held] == packet[..rxParseOffset][..held] == buf;
        ret := BeginLarge(size.value, held, data, at, cpcb, buf);
      } else {
        ret := FillPacket(size.value, used, data, at, cpcb, buf);
      }
    }

    /** tcp_parse_pkt. Only the large-block branch depends on the version. */
    method ParsePkt(data: array<byte>, at: nat, cpcb: int32) returns (ret: int32)
      requires Valid()
      requires 0 <= cpcb <= TCP_BUFFER_SIZE && at + cpcb as int <= data.Length
      requires data != packet && data != lbdata
      modifies this, packet, lbdata
      ensures Shape() && (lbdata == old(lbdata) || lbdata == null || fresh(lbdata))
      ensures DidCall(old(State()), data[at..at + cpcb as int], ret, old(delivered))
      ensures cpcb == 0 ==> ret == -1 && State() == old(State()) && delivered == old(delivered)
    {
      if 0 == cpcb {
        return -1;
      }
      if 0 == template.cb || template.parser.None? {
        PostRecvdata(data, at, cpcb);
        rxParseOffset := 0;
        PayloadsOne(template, fully, data[at..at + cpcb as int]);
        return 0;
      }
      if LbMarked() {
        ghost var all := State().buf + data[at..at + cpcb as int];
        if |all| >= State().large {
          PayloadsOne(template, fully, all[..State().large]);
        }
        ret := ParseMarkedLb(data, at, cpcb);
        return;
      }
      if rxParseOffset + cpcb < template.cb {
        Memcpy(packet, rxParseOffset as int, data, at, cpcb as int);
        rxParseOffset := rxParseOffset + cpcb;
        assert packet[..rxParseOffset] == old(State()).buf + data[at..at + cpcb as int];
        return 0;
      }
      ret := ParseUnmarked(data, at, cpcb);
    }

    /** The bytes up to `rxParseOffset` are the front of the held bytes plus the chunk. */
    lemma HeaderKnown(buf: Bytes, d: Bytes, used: nat, front: Bytes, data: array<byte>, at: nat)
      requires Framed(template) && at + |d| <= data.Length && d == data[at..at + |d|]
      requires used <= |d| && front == buf + data[at..at + used] && |front| >= template.cb as int
      ensures front == (buf + d)[..|front|]
      ensures HeadOf(template, buf + d) == HeadOf(template, front)
      ensures |buf| >= template.cb as int ==> HeadOf(template, front) == HeadOf(template, buf)
      ensures front + data[at + used..at + |d|] == buf + d
    {
      assert data[at..at + used] == d[..used] && data[at + used..at + |d|] == d[used..];
      TakeOfAppend(buf, d, |front|);
      assert front + d[used..] == buf + d;
      HeadStable(template, front, d[used..]);
      if |buf| >= template.cb as int {
        HeadStable(template, buf, data[at..at + used]);
      }
    }

    /** The buffers and the callback log are what receiving these chunks since the start leads to. */
    ghost predicate Tracks(chunks: seq<Bytes>)
      reads this, packet, lbdata
    {
      && Shape() && ChunksOk(chunks)
      && var r := FeedAll(version, template, chunks);
         && State() == r.st
         && delivered == Payloads(template, fully, r.frames)
    }

    /** ... and the link has not failed. */
    ghost predicate Up(chunks: seq<Bytes>)
      reads this, packet, lbdata
    {
      Tracks(chunks) && FeedAll(version, template, chunks).ok
    }

    /** __tcp_rx: one recv and the loop over what it brought. `h` is what was received before. */
    method RxOnce(o: Received, ghost h: seq<Bytes>, ghost h': seq<Bytes>) returns (ret: int32)
      requires FromKernel(o) && Up(h)
      requires h' == if o.Data? then h + [o.bytes] else h
      modifies this, packet, rxBuffer, lbdata
      ensures lbdata == old(lbdata) || lbdata == null || fresh(lbdata)
      ensures Tracks(h')
      ensures o.Data? ==> ret == if Up(h') then 0 else -1
      ensures !o.Data? ==> Up(h') && ret == ReturnFor(o)
      ensures o.WouldBlock? ==> ret == 11
      ensures o.Interrupted? ==> ret == 0
      ensures o.Shutdown? ==> ret == -104
      ensures o.Failed? ==> ret == -1
    {
      if o.Data? {
        FeedAllNext(version, template, fully, h, o.bytes);
        ret := RxData(o.bytes);
      } else {
        ret := ReturnFor(o);
      }
    }

    /** recv has written `b` into the receive buffer. */
    method RxData(b: Bytes) returns (ret: int32)
      requires Valid() && ChunkOk(b)
      modifies this, packet, rxBuffer, lbdata
      ensures Shape() && (lbdata == old(lbdata) || lbdata == null || fresh(lbdata))
      ensures var r := Consume(version, template, old(State()), b);
        && State() == r.st && ret == (if r.ok then 0 else -1)
        && delivered == old(delivered) + Payloads(template, fully, r.frames)
    {
      forall i | 0 <= i < |b| {
        rxBuffer[i] := b[i];
      }
      assert rxBuffer[..|b|] == b;
      ret := ParseAll(|b| as int32, b);
    }

    /** One turn of the loop: what is delivered now and what the rest of the chunk will deliver. */
    method ParseTurn(offset: int32, cpcb: int32, ghost d: Bytes) returns (overplus: int32)
      requires Valid() && 0 <= offset && 0 < cpcb && offset as int + cpcb as int <= rxBuffer.Length
      requires d == rxBuffer[offset..offset as int + cpcb as int]
      modifies this, packet, lbdata
      ensures Shape() && (lbdata == old(lbdata) || lbdata == null || fresh(lbdata))
      ensures overplus < cpcb
      ensures var r := Consume(version, template, old(State()), d);
        if overplus > 0 then
          && Valid()
          && var q := Consume(version, template, State(), d[cpcb - overplus..]);
             && q.st == r.st && q.ok == r.ok
             && delivered + Payloads(template, fully, q.frames) == old(delivered) + Payloads(template, fully, r.frames)
        else
          && State() == r.st && (overplus == 0 <==> r.ok)
          && delivered == old(delivered) + Payloads(template, fully, r.frames)
    {
      ghost var st := State();
      overplus := ParsePkt(rxBuffer, offset as int, cpcb);
      TurnPayloads(st, d, old(delivered));
    }

    lemma TurnPayloads(st: RxState, d: Bytes, before: seq<Bytes>)
      requires ValidTemplate(template) && Sane(template, st) && ChunkOk(d)
      ensures var c, r := ParseCall(version, template, st, d), Consume(version, template, st, d);
        var after := before + Payloads(template, fully, c.out);
        && c.ret < |d|
        && if c.ret > 0 then
             && Sane(template, c.st)
             && var q := Consume(version, template, c.st, d[|d| - c.ret..]);
                && q.st == r.st && q.ok == r.ok
                && after + Payloads(template, fully, q.frames) == before + Payloads(template, fully, r.frames)
           else
             c.st == r.st && (c.ret == 0 <==> r.ok) && after == before + Payloads(template, fully, r.frames)
    {
      CallIsSane(version, template, st, d);
      var c := ParseCall(version, template, st, d);
      if c.ret > 0 {
        var q := Consume(version, template, EMPTY, d[|d| - c.ret..]);
        PayloadsAppend(template, fully, c.out, q.frames);
        Assoc(before, Payloads(template, fully, c.out), Payloads(template, fully, q.frames));
      }
    }

    /** Lines 196-210 of tcpio.c. The parser is never called with zero bytes and the loop ends. */
    method ParseAll(recvcb: int32, ghost b: Bytes) returns (ret: int32)
      requires Valid() && 0 < recvcb <= TCP_BUFFER_SIZE && rxBuffer[..recvcb] == b
      modifies this, packet, lbdata
      ensures Shape() && (lbdata == old(lbdata) || lbdata == null || fresh(lbdata))
      ensures var r := Consume(version, template, old(State()), b);
        && State() == r.st && ret == (if r.ok then 0 else -1)
        && delivered == old(delivered) + Payloads(template, fully, r.frames)
    {
      var offset, cpcb := 0, recvcb;
      ghost var whole, d := Consume(version, template, State(), b), b;
      while true
        invariant 0 < cpcb <= recvcb && offset == recvcb - cpcb
        invariant d == rxBuffer[offset..recvcb]
        invariant Valid() && (lbdata == old(lbdata) || lbdata == null || fresh(lbdata))
        invariant var r := Consume(version, template, State(), d);
          && r.st == whole.st && r.ok == whole.ok
          && delivered + Payloads(template, fully, r.frames) == old(delivered) + Payloads(template, fully, whole.frames)
        decreases cpcb
      {
        var overplus := ParseTurn(offset, cpcb, d);
        if overplus < 0 {
          return -1;
        }
        d := d[cpcb - overplus..];
        offset := offset + (cpcb - overplus);
        cpcb := overplus;
        if overplus == 0 {
          return 0;
        }
      }
    }

    /** One turn of tcp_rx: its value ends the reading unless it is 0. */
    method RxTurn(answers: seq<Received>, n: nat, ghost h: seq<Bytes>, ghost seen: seq<Bytes>)
      returns (ret: int32, ghost seen': seq<Bytes>)
      requires n < |answers| && FromKernel(answers[n]) && ReadSoFar(answers, n)
      requires Up(seen) && seen == h + ChunksOf(answers[..n])
      modifies this, packet, rxBuffer, lbdata
      ensures lbdata == old(lbdata) || lbdata == null || fresh(lbdata)
      ensures seen' == h + ChunksOf(answers[..n + 1]) && Tracks(seen')
      ensures ret == 0 ==> Up(seen') && ReadSoFar(answers, n + 1)
      ensures ret != 0 && Up(seen') ==> ReadTo(answers, n + 1, ret)
      ensures ret != 0 && !Up(seen') ==> n + 1 <= Reads(answers) && answers[n].Data? && ret == -1
    {
      ChunksOfNext(answers, n, h);
      ReadOn(answers, n);
      seen' := if answers[n].Data? then seen + [answers[n].bytes] else seen;
      ret := RxOnce(answers[n], seen, seen');
    }

    /** tcp_rx: read until something other than data or a signal comes back. */
    method Rx(answers: seq<Received>, ghost h: seq<Bytes>) returns (ret: int32, n: nat, ghost seen: seq<Bytes>)
      requires forall i | 0 <= i < |answers| :: FromKernel(answers[i])
      requires Up(h)
      modifies this, packet, rxBuffer, lbdata
      ensures n <= |answers| && seen == h + ChunksOf(answers[..n]) && Tracks(seen)
      ensures Up(seen) ==> ReadTo(answers, n, ret)
      ensures !Up(seen) ==> 0 < n <= Reads(answers) && answers[n - 1].Data? && ret == -1
    {
      n, seen := 0, h;
      assert answers[0..] == answers && h + ChunksOf(answers[..0]) == h;
      while n < |answers|
        invariant ReadSoFar(answers, n) && Up(seen) && seen == h + ChunksOf(answers[..n])
        invariant lbdata == old(lbdata) || lbdata == null || fresh(lbdata)
      {
        ret, seen := RxTurn(answers, n, h, seen);
        n := n + 1;
        if ret != 0 {
          return;
        }
      }
      ReadAll(answers);
      ret := EAGAIN;
    }
  }
}
