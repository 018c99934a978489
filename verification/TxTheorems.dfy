/** What the transmit protocol guarantees over whole runs. */
module TxTheorems {
  import opened Basics
  import opened TxQueue
  import opened TxProtocol
  import opened TxInvariant

  /** A state some run leads to, with every thread interleaved in any way and any call failing. */
  ghost predicate Reached(s0: Sys, es: seq<Event>, s: Sys) {
    Initial(s0) && Runs(s0, es) && s == After(s0, es)
  }

  lemma ReachedInv(s0: Sys, es: seq<Event>, s: Sys)
    requires Reached(s0, es, s)
    ensures Inv(s)
  {
    InitialInv(s0);
    RunKeepsInv(s0, es);
  }

  /**
   No byte is lost, repeated or reordered. The stream carries the accepted packets and nothing else
   if and only if no packet was given up after a part of it had gone out.
   */
  lemma StreamConservation(s0: Sys, es: seq<Event>, s: Sys, l: nat)
    requires Reached(s0, es, s) && l in s.links
    ensures Conserved(s.links[l])
    ensures Exact(s.links[l]) <==> s.links[l].parts == s.links[l].written
    ensures s.links[l].k.sent <= Concat(s.links[l].parts) + InFlight(s.links[l].writer)
  {
    ReachedInv(s0, es, s);
    var ls := s.links[l];
    assert LinkOk(ls, OnThis(s.worker, l));
    ExactIffNothingTorn(ls);
    Assoc(ls.k.sent, Tails(ls.fifo.list), Unsent(ls.writer));
  }

  /** tcp_write returns an error for the packet it was working on. */
  predicate Refuses(s: Sys, e: Event)
    requires Enabled(s, e)
  {
    || (e.WriteSend? && TxnStep(s.links[e.l].writer.node, e.a).Broken?)
    || (e.WriteQueue? && QueueOn(s.links[e.l].fifo, s.links[e.l].writer.node, e.ctl).ret < 0)
  }

  /**
   A packet that tcp_write refuses leaves no trace on the stream if and only if none of it had gone
   out. With a full queue (-EBUSY) none ever had.
   */
  lemma RejectionTearsExactly(s0: Sys, es: seq<Event>, s: Sys, e: Event)
    requires Reached(s0, es, s) && Enabled(s, e) && Refuses(s, e)
    ensures var ls, ls' := s.links[e.l], Apply(s, e).links[e.l];
      && ls'.writer.Idle? && ls'.written == ls.written
      && ls'.k == ls.k && ls'.fifo == ls.fifo
      && (Exact(ls) ==> (Exact(ls') <==> ls.writer.node.offset == 0))
      && (ls.writer.node.offset == 0 ==> ls' == ls.(writer := Idle))
      && (ls.fifo.list != [] ==> ls.writer.node.offset == 0)
  {
    ReachedInv(s0, es, s);
    assert LinkOk(s.links[e.l], OnThis(s.worker, e.l));
    RefusedOk(s.links[e.l], e);
  }

  lemma RefusedOk(ls: LinkState, e: Event)
    requires StreamOk(ls) && Coupled(ls.fifo) && WriterOk(ls)
    requires (e.WriteSend? && ls.writer.Direct? && TxnStep(ls.writer.node, e.a).Broken?)
          || (e.WriteQueue? && ls.writer.Queueing? && QueueOn(ls.fifo, ls.writer.node, e.ctl).ret < 0)
    ensures var ls' := if e.WriteSend? then SendWrite(ls, e.a) else QueueWrite(ls, e.ctl);
      && ls' == GiveUp(ls)
      && (Exact(ls) ==> (Exact(ls') <==> ls.writer.node.offset == 0))
      && (ls.writer.node.offset == 0 ==> ls' == ls.(writer := Idle))
      && (ls.fifo.list != [] ==> ls.writer.node.offset == 0)
  {
    ExactIffNothingTorn(ls);
    GiveUpOk(ls);
    assert ls.writer.node.offset == 0 ==> ls.parts + [] == ls.parts;
  }

  // ---- What is not excluded ----

  lemma {:induction false} NotFound(list: seq<Node>, addr: nat)
    requires forall i | 0 <= i < |list| :: list[i].addr != addr
    ensures Find(list, addr) == |list|
  {
  }

  lemma {:induction false} FreshAddress(list: seq<Node>) returns (addr: nat)
    ensures forall i | 0 <= i < |list| :: list[i].addr < addr
    decreases |list|
  {
    if list == [] {
      addr := 0;
    } else {
      var rest := FreshAddress(list[1..]);
      addr := if list[0].addr < rest then rest else list[0].addr + 1;
      assert forall i | 1 <= i < |list| :: list[i] == list[1..][i - 1];
    }
  }

  /**
   Runs leave nothing out: in every state the kernel may do anything, a writer may begin or go on with any
   answer the kernel can give and any answer of epoll_ctl, and every event may be fetched, passed on or lost.
   */
  lemma NothingExcluded(s: Sys, l: nat, packet: Bytes)
    requires l in s.links && packet != []
    ensures forall e | e in {KernelDrains(l), KernelFills(l), KernelSignals(l), KernelReceives(l)} :: Enabled(s, e)
    ensures var ls := s.links[l];
      match ls.writer
      case Idle => exists addr :: Enabled(s, WriteBegin(l, packet, addr))
      case Entered(_) => Enabled(s, WriteCheck(l))
      case Direct(_) =>
        forall a: SendAnswer | (a.Again? ==> ls.k.full) && (a.Took? ==> !ls.k.full) :: Enabled(s, WriteSend(l, a))
      case Queueing(_) => forall ctl: int | ctl <= 0 :: Enabled(s, WriteQueue(l, ctl))
    ensures s.links[l].k.pending && !s.links[l].fetched ==> Enabled(s, EpollFetch(l))
    ensures s.links[l].fetched ==> Enabled(s, EpollDrop(l)) && (s.pool.Active? ==> Enabled(s, EpollTask(l)))
  {
    if s.links[l].writer.Idle? {
      var addr := FreshAddress(s.links[l].fifo.list);
      NotFound(s.links[l].fifo.list, addr);
      assert Enabled(s, WriteBegin(l, packet, addr));
    }
  }

  lemma CheckedSends(ls: LinkState, k: nat)
    requires ls.writer.Entered? && ls.writer.node.offset == 0 && NodeOk(ls.writer.node) && !ls.fifo.blocking
    ensures var data := ls.writer.node.data;
      SendWrite(CheckWrite(ls), Took(k)).k.sent == ls.k.sent + data[..if k < |data| then k + 1 else |data|]
  {
  }

  /** A writer that finds nothing queued sends directly, and what the kernel takes is the front of its packet. */
  lemma DirectFirst(s0: Sys, es: seq<Event>, s: Sys, l: nat, k: nat)
    requires Reached(s0, es, s) && l in s.links && s.links[l].writer.Entered?
    ensures var ls, s1 := s.links[l], Apply(s, WriteCheck(l));
      if ls.fifo.list != [] then s1.links[l].writer == Queueing(ls.writer.node)
      else s1.links[l].writer == Direct(ls.writer.node)
    ensures var ls, s1, data := s.links[l], Apply(s, WriteCheck(l)), s.links[l].writer.node.data;
      ls.fifo.list == [] && !ls.k.full ==>
        && Enabled(s1, WriteSend(l, Took(k)))
        && Apply(s1, WriteSend(l, Took(k))).links[l].k.sent
          == ls.k.sent + data[..if k < |data| then k + 1 else |data|]
  {
    ReachedInv(s0, es, s);
    var ls := s.links[l];
    assert LinkOk(ls, OnThis(s.worker, l));
    if !ls.fifo.blocking {
      CheckedSends(ls, k);
      assert Apply(s, WriteCheck(l)).links[l] == CheckWrite(ls);
    }
  }

  // ---- When nothing is torn ----

  /** The stream has no part of a packet that was given up. */
  ghost predicate NothingTorn(ls: LinkState) {
    ls.parts == ls.written
  }

  /** tcp_write refuses on link `l` a packet that has begun to go out. */
  predicate Tears(s: Sys, e: Event, l: nat)
    requires Enabled(s, e)
  {
    Refuses(s, e) && e.l == l && s.links[l].writer.node.offset > 0
  }

  ghost predicate TearsNothing(s: Sys, es: seq<Event>, l: nat)
    requires Runs(s, es)
    decreases |es|
  {
    es == [] || (!Tears(s, es[0], l) && TearsNothing(Apply(s, es[0]), es[1..], l))
  }

  lemma AcceptTears(ls: LinkState)
    requires !ls.writer.Idle?
    ensures NothingTorn(Accept(ls)) <==> NothingTorn(ls)
  {
    var data := ls.writer.node.data;
    assert (ls.parts + [data])[..|ls.parts|] == ls.parts && (ls.written + [data])[..|ls.written|] == ls.written;
  }

  lemma GiveUpTears(ls: LinkState)
    requires StreamOk(ls) && !ls.writer.Idle? && NodeOk(ls.writer.node)
    requires ls.writer.node.offset > 0 ==> ls.fifo.list == []
    ensures NothingTorn(GiveUp(ls)) <==> NothingTorn(ls) && ls.writer.node.offset == 0
  {
    GiveUpOk(ls);
    ExactIffNothingTorn(GiveUp(ls));
    ExactIffNothingTorn(ls);
    ConcatSnoc(ls.parts, Gone(ls.writer.node));
    assert ls.writer.node.offset == 0 ==> ls.parts + [] == ls.parts;
  }

  lemma WriterTears(s: Sys, e: Event)
    requires Inv(s) && Enabled(s, e) && (e.WriteSend? || e.WriteQueue?)
    ensures NothingTorn(Apply(s, e).links[e.l]) <==> NothingTorn(s.links[e.l]) && !Tears(s, e, e.l)
  {
    var ls := s.links[e.l];
    assert LinkOk(ls, OnThis(s.worker, e.l));
    if Refuses(s, e) {
      RefusedOk(ls, e);
      GiveUpTears(ls);
    } else if e.WriteQueue? {
      QueueKeeps(ls.fifo, ls.writer.node, e.ctl);
      AcceptTears(ls.(fifo := QueueOn(ls.fifo, ls.writer.node, e.ctl).fifo));
    } else {
      AcceptTears(ls);
    }
  }

  lemma StepTears(s: Sys, e: Event, l: nat)
    requires Inv(s) && Enabled(s, e) && l in s.links
    ensures l in Apply(s, e).links
    ensures NothingTorn(Apply(s, e).links[l]) <==> NothingTorn(s.links[l]) && !Tears(s, e, l)
  {
    if (e.WriteSend? || e.WriteQueue?) && e.l == l {
      WriterTears(s, e);
    } else {
      OthersTearNothing(s, e, l);
    }
  }

  lemma OthersTearNothing(s: Sys, e: Event, l: nat)
    requires l in s.links && Enabled(s, e) && ((e.WriteSend? || e.WriteQueue?) ==> e.l != l)
    ensures l in Apply(s, e).links
    ensures Apply(s, e).links[l].written == s.links[l].written && Apply(s, e).links[l].parts == s.links[l].parts
  {
  }

  /** Over every run: the stream is free of torn packets if and only if no step of the run tore one. */
  lemma {:induction false} TornExactly(s: Sys, es: seq<Event>, l: nat)
    requires Inv(s) && Runs(s, es) && l in s.links
    ensures l in After(s, es).links
    ensures NothingTorn(After(s, es).links[l]) <==> NothingTorn(s.links[l]) && TearsNothing(s, es, l)
    decreases |es|
  {
    if es == [] {
    } else {
      StepTears(s, es[0], l);
      StepKeepsInv(s, es[0]);
      TornExactly(Apply(s, es[0]), es[1..], l);
    }
  }

  /** A packet refused with -EBUSY has left no trace: none of its bytes is on the wire or queued. */
  lemma RejectionNeverTears(s0: Sys, es: seq<Event>, s: Sys, l: nat, ctl: int)
    requires Reached(s0, es, s) && Enabled(s, WriteQueue(l, ctl))
    requires s.links[l].fifo.size >= MAXIMUM_FIFO_SIZE as int
    ensures var ls := s.links[l];
      && ls.writer.node.offset == 0
      && Apply(s, WriteQueue(l, ctl)).links[l] == ls.(writer := Idle)
      && ls.k.sent + Tails(ls.fifo.list) == Concat(ls.parts)
  {
    ReachedInv(s0, es, s);
    assert LinkOk(s.links[l], OnThis(s.worker, l));
    BusyOk(s.links[l], ctl);
  }

  lemma BusyOk(ls: LinkState, ctl: int)
    requires StreamOk(ls) && Coupled(ls.fifo) && WriterOk(ls) && ls.writer.Queueing?
    requires ls.fifo.size >= MAXIMUM_FIFO_SIZE as int
    ensures ls.writer.node.offset == 0 && QueueWrite(ls, ctl) == ls.(writer := Idle)
    ensures ls.k.sent + Tails(ls.fifo.list) == Concat(ls.parts)
  {
    assert ls.parts + [] == ls.parts;
    CancelRight(ls.k.sent + Tails(ls.fifo.list), Concat(ls.parts), ls.writer.node.data);
  }

  /** What fifo_pop removes is the node fifo_top returned, sent to its last byte. */
  lemma WorkerRetiresWhatItSent(s0: Sys, es: seq<Event>, s: Sys)
    requires Reached(s0, es, s) && s.worker.Popping?
    ensures s.worker.task.hld in s.links
    ensures var p := PopFrom(s.links[s.worker.task.hld].fifo);
      p.node.Some? && p.node.value.addr == s.worker.addr && p.node.value.offset == |p.node.value.data|
  {
    ReachedInv(s0, es, s);
    var l := s.worker.task.hld;
    assert OnThis(s.worker, l) == s.worker && LinkOk(s.links[l], s.worker);
    WorkerPopOk(s.links[l], s.worker.task, s.worker.addr, 0);
  }

  /** The worker never follows a dangling pointer: it can always go on sending. */
  lemma WorkerNeverDangles(s0: Sys, es: seq<Event>, s: Sys)
    requires Reached(s0, es, s) && s.worker.Sending?
    ensures Enabled(s, WorkerSend(Intr))
    ensures Enabled(s, WorkerSend(if s.links[s.worker.task.hld].k.full then Again else Took(0)))
    ensures Find(s.links[s.worker.task.hld].fifo.list, s.worker.addr) == 0
  {
    ReachedInv(s0, es, s);
    var l := s.worker.task.hld;
    assert OnThis(s.worker, l) == s.worker && LinkOk(s.links[l], s.worker);
    WorkerSendShape(s.links[l], s.worker.task, s.worker.addr, Intr);
  }

  /**
   Every task ever made is in exactly one place, so none is freed twice. None is forgotten before the
   worker thread has ended, and then at most one.
   */
  lemma TaskOwnership(s0: Sys, es: seq<Event>, s: Sys, id: nat)
    requires Reached(s0, es, s)
    ensures Ids(s.tasks)[id] + InHand(s.worker)[id] + s.freed[id] + s.leaked[id] == if id < s.nextTask then 1 else 0
    ensures !s.pool.Ended? ==> s.leaked == multiset{}
    ensures |s.leaked| <= 1
  {
    ReachedInv(s0, es, s);
    IssuedOnce(s.nextTask, id);
    assert (Ids(s.tasks) + InHand(s.worker) + s.freed + s.leaked)[id] == Issued(s.nextTask)[id];
  }

  /**
   __wp_run takes a task before it looks at `actived`: a task is leaked if and only if the worker comes
   back to a non-empty list after the pool has been told to stop, and then it is the one in front.
   */
  lemma StopLeaksExactly(s0: Sys, es: seq<Event>, s: Sys, e: Event)
    requires Reached(s0, es, s) && Enabled(s, e)
    ensures Apply(s, e).leaked != s.leaked <==> s.pool.Stopping? && e.WorkerTake?
    ensures s.pool.Stopping? && e.WorkerTake? ==> Apply(s, e).leaked == multiset{s.tasks[0].id}
  {
    ReachedInv(s0, es, s);
    if e.WorkerPop? {
      WorkerPopStep(s, e.ctl);
    }
    StepLeaks(s, e);
  }

  lemma {:induction false} LinksStay(s: Sys, es: seq<Event>)
    requires Runs(s, es)
    ensures After(s, es).links.Keys == s.links.Keys
    decreases |es|
  {
    if es == [] {
    } else {
      StepLinksStay(s, es[0]);
      LinksStay(Apply(s, es[0]), es[1..]);
    }
  }

  lemma StepLinksStay(s: Sys, e: Event)
    requires Enabled(s, e)
    ensures Apply(s, e).links.Keys == s.links.Keys
  {
  }

  // ---- Fairness ----

  function Takes(es: seq<Event>): nat {
    if es == [] then 0 else (if es[0].WorkerTake? then 1 else 0) + Takes(es[1..])
  }

  lemma StepShifts(s: Sys, e: Event, k: nat)
    requires Enabled(s, e) && e != PoolClears && k < |s.tasks| && (e.WorkerTake? ==> k > 0)
    ensures var k' := if e.WorkerTake? then k - 1 else k;
      k' < |Apply(s, e).tasks| && Apply(s, e).tasks[k'] == s.tasks[k]
  {
  }

  /**
   A task at position k stays behind exactly the tasks that were before it: whatever else happens,
   and however often links queue themselves again, it is at the front after exactly k takes. (Only the
   clean-up after the thread's end throws tasks away.)
   */
  lemma {:induction false} RoundRobin(s: Sys, es: seq<Event>, k: nat)
    requires Runs(s, es) && k < |s.tasks| && Takes(es) <= k && PoolClears !in es
    ensures var s' := After(s, es);
      k - Takes(es) < |s'.tasks| && s'.tasks[k - Takes(es)] == s.tasks[k]
    decreases |es|
  {
    if es == [] {
    } else {
      StepShifts(s, es[0], k);
      RoundRobin(Apply(s, es[0]), es[1..], if es[0].WorkerTake? then k - 1 else k);
    }
  }

  // ---- Only what writers began is ever written ----

  ghost predicate Wrote(ls: LinkState, good: Bytes -> bool) {
    && (forall i | 0 <= i < |ls.written| :: good(ls.written[i]))
    && (!ls.writer.Idle? ==> good(ls.writer.node.data))
  }

  lemma WriterWrote(ls: LinkState, e: Event, good: Bytes -> bool)
    requires Wrote(ls, good)
    ensures e.WriteBegin? && good(e.packet) ==> Wrote(BeginWrite(ls, e.packet, e.addr), good)
    ensures e.WriteCheck? && ls.writer.Entered? ==> Wrote(CheckWrite(ls), good)
    ensures e.WriteSend? && ls.writer.Direct? ==> Wrote(SendWrite(ls, e.a), good)
    ensures e.WriteQueue? && ls.writer.Queueing? ==> Wrote(QueueWrite(ls, e.ctl), good)
  {
  }

  /** What is not a step of the link's writer leaves the writer and its packets alone. */
  lemma OthersWriteNothing(s: Sys, e: Event, l: nat)
    requires l in s.links && Enabled(s, e)
    requires (e.WriteBegin? || e.WriteCheck? || e.WriteSend? || e.WriteQueue?) ==> e.l != l
    ensures l in Apply(s, e).links
    ensures Apply(s, e).links[l].written == s.links[l].written && Apply(s, e).links[l].writer == s.links[l].writer
  {
  }

  lemma StepWrote(s: Sys, e: Event, l: nat, good: Bytes -> bool)
    requires l in s.links && Wrote(s.links[l], good) && Enabled(s, e)
    requires e.WriteBegin? && e.l == l ==> good(e.packet)
    ensures l in Apply(s, e).links && Wrote(Apply(s, e).links[l], good)
  {
    if (e.WriteBegin? || e.WriteCheck? || e.WriteSend? || e.WriteQueue?) && e.l == l {
      WriterWrote(s.links[l], e, good);
    } else {
      OthersWriteNothing(s, e, l);
    }
  }

  lemma {:induction false} RunWrote(s: Sys, es: seq<Event>, l: nat, good: Bytes -> bool)
    requires l in s.links && Wrote(s.links[l], good) && Runs(s, es)
    requires forall i | 0 <= i < |es| :: es[i].WriteBegin? && es[i].l == l ==> good(es[i].packet)
    ensures l in After(s, es).links && Wrote(After(s, es).links[l], good)
    decreases |es|
  {
    if es == [] {
    } else {
      StepWrote(s, es[0], l, good);
      RunWrote(Apply(s, es[0]), es[1..], l, good);
    }
  }
}
