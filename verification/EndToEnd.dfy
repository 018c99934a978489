/** tcp_write at one end, the callback at the other: messages arrive once, whole and in order. */
module EndToEnd {
  import opened Basics
  import opened Framing
  import opened Reassembly
  import opened Tcpal
  import opened TxProtocol
  import opened TxInvariant
  import opened TxTheorems
  import opened TxWakeUp
  import opened TxProgress

  /** Packets tcp_write may begin on a link that frames with `t`. */
  ghost predicate Built(t: Template, packet: Bytes) {
    exists m: Bytes :: SendableSize(|m|) && BuildPacket(t, false, m) == Some(packet)
  }

  ghost predicate WritersBuild(t: Template, es: seq<Event>, l: nat) {
    forall i | 0 <= i < |es| :: es[i].WriteBegin? && es[i].l == l ==> Built(t, es[i].packet)
  }

  /** The packets accepted so far and the one being written. */
  function Packets(ls: LinkState): seq<Bytes> {
    ls.written + if ls.writer.Idle? then [] else [ls.writer.node.data]
  }

  /** The messages those packets were built from. */
  function Messages(t: Template, ls: LinkState): seq<Bytes> {
    Payloads(t, false, Packets(ls))
  }

  lemma MessagesAreWhatWasWritten(t: Template, ls: LinkState)
    requires RoundTrips(t) && Wrote(ls, p => Built(t, p))
    ensures |Messages(t, ls)| == |Packets(ls)|
    ensures AllFrames(t, Packets(ls))
    ensures forall i | 0 <= i < |Packets(ls)| ::
      SendableSize(|Messages(t, ls)[i]|) && BuildPacket(t, false, Messages(t, ls)[i]) == Some(Packets(ls)[i])
  {
  }

  lemma SentIsOfPackets(s0: Sys, es: seq<Event>, s: Sys, l: nat)
    requires Reached(s0, es, s) && l in s.links && NothingTorn(s.links[l])
    ensures s.links[l].k.sent <= Concat(Packets(s.links[l]))
  {
    var ls := s.links[l];
    StreamConservation(s0, es, s, l);
    ConcatAppend(ls.written, if ls.writer.Idle? then [] else [ls.writer.node.data]);
    ConcatOne(InFlight(ls.writer));
  }

  lemma RunBuilt(t: Template, s0: Sys, es: seq<Event>, s: Sys, l: nat)
    requires Reached(s0, es, s) && l in s.links && WritersBuild(t, es, l)
    ensures Wrote(s.links[l], p => Built(t, p))
  {
    LinksStay(s0, es);
    RunWrote(s0, es, l, p => Built(t, p));
  }

  /**
   For every interleaving of writer, epoll thread and worker, every behaviour of the sending kernel and
   every failing call, and every cutting into chunks of what has reached the receiver: unless a partly
   sent packet was given up, the payloads delivered are a prefix of the messages written, and all of
   them once their bytes have arrived. The receiver as written needs its chunk boundaries to be clean.
   */
  lemma {:induction false} ExactlyOnceInOrder(v: Version, t: Template, s0: Sys, es: seq<Event>, s: Sys, l: nat,
                                              chunks: seq<Bytes>)
    requires Reached(s0, es, s) && l in s.links && NothingTorn(s.links[l])
    requires RoundTrips(t) && WritersBuild(t, es, l)
    requires ChunksOk(chunks) && Concat(chunks) <= s.links[l].k.sent
    requires v.Literal? ==> CleanCuts(t, chunks)
    ensures Wrote(s.links[l], p => Built(t, p))
    ensures var ls, r := s.links[l], FeedAll(v, t, chunks);
      && r.ok
      && Payloads(t, false, r.frames) <= Messages(t, ls)
      && Payloads(t, true, r.frames) <= Packets(ls)
      && (Concat(chunks) == Concat(Packets(ls)) ==>
            && r.st == EMPTY && r.frames == Packets(ls)
            && Payloads(t, false, r.frames) == Messages(t, ls) && Payloads(t, true, r.frames) == Packets(ls))
  {
    var ls := s.links[l];
    RunBuilt(t, s0, es, s, l);
    MessagesAreWhatWasWritten(t, ls);
    SentIsOfPackets(s0, es, s, l);
    CutPrefix(t, Packets(ls), Concat(chunks));
    HeldIsResidue(v, t, chunks);
    var r := FeedAll(v, t, chunks);
    PayloadsPrefix(t, false, r.frames, Packets(ls));
    PayloadsPrefix(t, true, r.frames, Packets(ls));
    PayloadsOfFrames(t, Packets(ls));
    if Concat(chunks) == Concat(Packets(ls)) {
      EmptyHeld(t, r);
    }
  }

  /** At rest, when the wire has been carried over, every message has been delivered. */
  lemma {:induction false} AllOnceDrained(v: Version, t: Template, s0: Sys, es: seq<Event>, s: Sys, l: nat,
                                          chunks: seq<Bytes>)
    requires ReachedWell(s0, es, s, l) && NothingTorn(s.links[l])
    requires !s.links[l].dead && Quiescent(s, l)
    requires RoundTrips(t) && WritersBuild(t, es, l)
    requires ChunksOk(chunks) && Concat(chunks) == s.links[l].k.sent
    requires v.Literal? ==> CleanCuts(t, chunks)
    ensures var r := FeedAll(v, t, chunks);
      r.ok && r.st == EMPTY && Payloads(t, false, r.frames) == Messages(t, s.links[l])
  {
    QuiescentIsDrained(s0, es, s, l);
    assert Packets(s.links[l]) == s.links[l].written;
    ExactlyOnceInOrder(v, t, s0, es, s, l, chunks);
  }

  /**
   From any state reached with good answers for the link, let the run go on, with new messages if there are
   any, until it can go no further, and let the network carry the wire over: the payloads delivered are
   exactly the messages written.
   */
  lemma {:induction false} EverythingArrives(v: Version, t: Template, s0: Sys, es: seq<Event>, s: Sys, more: seq<Event>,
                                             s': Sys, l: nat, chunks: seq<Bytes>)
    requires ReachedWell(s0, es, s, l) && Goes(s, more, s') && AllReliable(s, more, l)
    requires l in s'.links && !s'.links[l].dead && AtRest(s')
    requires TearsNothing(s0, es, l) && TearsNothing(s, more, l)
    requires RoundTrips(t) && WritersBuild(t, es, l) && WritersBuild(t, more, l)
    requires ChunksOk(chunks) && Concat(chunks) == s'.links[l].k.sent
    requires v.Literal? ==> CleanCuts(t, chunks)
    ensures var r := FeedAll(v, t, chunks);
      r.ok && r.st == EMPTY && Payloads(t, false, r.frames) == Messages(t, s'.links[l])
  {
    RunsAppend(s0, es, more);
    AllReliableAppend(s0, es, more, l);
    ReachedWakeful(s0, es + more, s', l);
    RestIsQuiescent(s', l);
    NothingTornInTheEnd(s0, es, s, more, l);
    AllOnceDrained(v, t, s0, es + more, s', l, chunks);
  }

  lemma NothingTornInTheEnd(s0: Sys, es: seq<Event>, s: Sys, more: seq<Event>, l: nat)
    requires Reached(s0, es, s) && l in s.links && Runs(s, more)
    requires TearsNothing(s0, es, l) && TearsNothing(s, more, l)
    ensures l in After(s, more).links && NothingTorn(After(s, more).links[l])
  {
    InitialInv(s0);
    LinksStay(s0, es);
    TornExactly(s0, es, l);
    RunKeepsInv(s0, es);
    TornExactly(s, more, l);
  }

  lemma PayloadsPrefix(t: Template, fully: bool, a: seq<Bytes>, b: seq<Bytes>)
    requires a <= b
    ensures Payloads(t, fully, a) <= Payloads(t, fully, b)
  {
  }

  lemma EmptyHeld(t: Template, r: Run)
    requires Framed(t) && r.ok && Faithful(t, r.st) && Observed(r).rest == []
    ensures r.st == EMPTY
  {
  }

  /** If every packet fits the packet buffer, the receiver as written needs no condition. */
  lemma {:induction false} SmallMessagesAlwaysArrive(t: Template, s0: Sys, es: seq<Event>, s: Sys, l: nat,
                                                     chunks: seq<Bytes>)
    requires Reached(s0, es, s) && l in s.links && NothingTorn(s.links[l])
    requires RoundTrips(t) && WritersBuild(t, es, l)
    requires forall i | 0 <= i < |Packets(s.links[l])| :: |Packets(s.links[l])[i]| <= TCP_BUFFER_SIZE as int
    requires ChunksOk(chunks) && Concat(chunks) <= s.links[l].k.sent
    ensures CleanCuts(t, chunks)
    ensures Payloads(t, false, FeedAll(Literal, t, chunks).frames) <= Messages(t, s.links[l])
  {
    RunBuilt(t, s0, es, s, l);
    MessagesAreWhatWasWritten(t, s.links[l]);
    SentIsOfPackets(s0, es, s, l);
    SmallFramesAreClean(t, Packets(s.links[l]), chunks);
    ExactlyOnceInOrder(Literal, t, s0, es, s, l, chunks);
  }

  /** The same for the callback log of a receiver whose buffers have taken in these chunks. */
  lemma {:induction false} CallbackLog(rx: NcbRx, s0: Sys, es: seq<Event>, s: Sys, l: nat, chunks: seq<Bytes>)
    requires rx.Tracks(chunks) && Concat(chunks) <= (if l in s.links then s.links[l].k.sent else [])
    requires Reached(s0, es, s) && l in s.links && NothingTorn(s.links[l])
    requires RoundTrips(rx.template) && WritersBuild(rx.template, es, l)
    requires rx.version.Literal? ==> CleanCuts(rx.template, chunks)
    ensures rx.Up(chunks)
    ensures var all := if rx.fully then Packets(s.links[l]) else Messages(rx.template, s.links[l]);
      rx.delivered <= all && (Concat(chunks) == Concat(Packets(s.links[l])) ==> rx.delivered == all)
  {
    ExactlyOnceInOrder(rx.version, rx.template, s0, es, s, l, chunks);
  }

  /** Without a template the callback is handed every chunk as it came. */
  lemma {:induction false} CallbackPassesThrough(rx: NcbRx, chunks: seq<Bytes>)
    requires rx.Tracks(chunks) && (rx.template.cb == 0 || rx.template.parser.None?)
    ensures rx.Up(chunks) && rx.delivered == chunks && rx.State() == EMPTY
  {
    UnframedPassesThrough(rx.version, rx.template, chunks);
    UnframedPayloads(rx.template, rx.fully, chunks);
  }
}
