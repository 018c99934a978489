/**
 A second writer on one link. tcp_write takes its place in the stream in one critical section
 (fifo_is_blocking) and queues in another (fifo_queue), so writers have to take turns themselves.
 */
module TwoWriters {
  import opened TxQueue
  import opened TxProtocol
  import opened TxInvariant
  import opened TxTheorems

  /** The machine with a second writer, `other`, on link `l`: it runs the same code on the same state. */
  datatype Duo = Duo(s: Sys, l: nat, other: Writer)

  datatype DuoEvent = First(e: Event) | Second(e: Event)

  /** The two writers of the link change places. */
  function Swap(d: Duo): Duo
    requires d.l in d.s.links
  {
    var ls := d.s.links[d.l];
    Duo(Put(d.s, d.l, ls.(writer := d.other)), d.l, ls.writer)
  }

  /** A step of a writer of link `l`. */
  predicate Writes(e: Event, l: nat) {
    (e.WriteBegin? || e.WriteCheck? || e.WriteSend? || e.WriteQueue?) && e.l == l
  }

  /** malloc gives the two writers different nodes. */
  predicate Apart(d: Duo, e: Event) {
    e.WriteBegin? && e.l == d.l && !d.other.Idle? ==> e.addr != d.other.node.addr
  }

  predicate DuoEnabled(d: Duo, de: DuoEvent) {
    && d.l in d.s.links
    && match de
       case First(e) => Enabled(d.s, e) && Apart(d, e)
       case Second(e) => Writes(e, d.l) && Enabled(Swap(d).s, e) && Apart(Swap(d), e)
  }

  function DuoApply(d: Duo, de: DuoEvent): Duo
    requires DuoEnabled(d, de)
  {
    match de
    case First(e) => d.(s := Apply(d.s, e))
    case Second(e) =>
      var d' := Swap(d).(s := Apply(Swap(d).s, e));
      StepLinksStay(Swap(d).s, e);
      Swap(d')
  }

  ghost predicate DuoRuns(d: Duo, es: seq<DuoEvent>)
    decreases |es|
  {
    es == [] || (DuoEnabled(d, es[0]) && DuoRuns(DuoApply(d, es[0]), es[1..]))
  }

  function DuoAfter(d: Duo, es: seq<DuoEvent>): Duo
    requires DuoRuns(d, es)
    decreases |es|
  {
    if es == [] then d else DuoAfter(DuoApply(d, es[0]), es[1..])
  }

  // ---- Writers that take turns are one writer ----

  /** No writer begins while the other one is still at it. */
  predicate TakesTurn(d: Duo, de: DuoEvent)
    requires DuoEnabled(d, de)
  {
    de.e.WriteBegin? && de.e.l == d.l ==>
      if de.First? then d.other.Idle? else d.s.links[d.l].writer.Idle?
  }

  ghost predicate TakeTurns(d: Duo, es: seq<DuoEvent>)
    requires DuoRuns(d, es)
    decreases |es|
  {
    es == [] || (TakesTurn(d, es[0]) && TakeTurns(DuoApply(d, es[0]), es[1..]))
  }

  ghost predicate OneActive(d: Duo) {
    d.l in d.s.links && (d.other.Idle? || d.s.links[d.l].writer.Idle?)
  }

  /** The one-writer machine the pair amounts to while at most one of them is active. */
  function Solo(d: Duo): Sys
    requires d.l in d.s.links
  {
    if d.other.Idle? then d.s else Swap(d).s
  }

  lemma SwapTwice(d: Duo)
    requires d.l in d.s.links
    ensures Swap(d).l in Swap(d).s.links && Swap(Swap(d)) == d
  {
  }

  /** What is not a step of a writer of link `l` does not look at that writer. */
  ghost predicate Commutes(d: Duo, e: Event)
    requires d.l in d.s.links && Enabled(d.s, e)
  {
    && Enabled(Swap(d).s, e)
    && d.l in Apply(d.s, e).links
    && Apply(d.s, e).links[d.l].writer == d.s.links[d.l].writer
    && Apply(Swap(d).s, e) == Swap(d.(s := Apply(d.s, e))).s
  }

  /** Changing link `m` and changing the writer of link `l` can be done in either order. */
  lemma PutCommutes(links: map<nat, LinkState>, l: nat, o: Writer, m: nat, new0: LinkState, new1: LinkState)
    requires l in links && m in links
    requires new1 == if m == l then new0.(writer := o) else new0
    ensures links[l := links[l].(writer := o)][m := new1]
      == links[m := new0][l := links[m := new0][l].(writer := o)]
  {
  }

  lemma OtherLinkCommutes(d: Duo, e: Event)
    requires d.l in d.s.links && Enabled(d.s, e) && !Writes(e, d.l)
    requires e.WriteBegin? || e.WriteCheck? || e.WriteSend? || e.WriteQueue?
    ensures Commutes(d, e)
  {
    PutCommutes(d.s.links, d.l, d.other, e.l, Apply(d.s, e).links[e.l], Apply(d.s, e).links[e.l]);
  }

  lemma KernelCommutes(d: Duo, e: Event)
    requires d.l in d.s.links && Enabled(d.s, e)
    requires e.KernelDrains? || e.KernelFills? || e.KernelSignals? || e.KernelReceives?
    ensures Commutes(d, e)
  {
    var m := e.l;
    PutCommutes(d.s.links, d.l, d.other, m, Apply(d.s, e).links[m], Apply(Swap(d).s, e).links[m]);
  }

  lemma EpollCommutes(d: Duo, e: Event)
    requires d.l in d.s.links && Enabled(d.s, e) && (e.EpollFetch? || e.EpollTask? || e.EpollDrop?)
    ensures Commutes(d, e)
  {
    var m := e.l;
    PutCommutes(d.s.links, d.l, d.other, m, Apply(d.s, e).links[m], Apply(Swap(d).s, e).links[m]);
  }

  lemma WorkerMoveCommutes(d: Duo, e: Event)
    requires d.l in d.s.links && Enabled(d.s, e)
    requires e.WorkerTake? || e.WorkerRequeue? || e.WorkerFree? || e.WorkerTop? || Shuts(e)
    ensures Commutes(d, e)
  {
  }

  lemma WorkerRefusesCommutes(d: Duo)
    requires d.l in d.s.links && Enabled(d.s, WorkerRefuses)
    ensures Commutes(d, WorkerRefuses)
  {
    var m := d.s.worker.task.hld;
    PutCommutes(d.s.links, d.l, d.other, m,
                Apply(d.s, WorkerRefuses).links[m], Apply(Swap(d).s, WorkerRefuses).links[m]);
  }

  lemma WorkerSendCommutes(d: Duo, a: SendAnswer)
    requires d.l in d.s.links && Enabled(d.s, WorkerSend(a))
    ensures Commutes(d, WorkerSend(a))
  {
    var m := d.s.worker.task.hld;
    PutCommutes(d.s.links, d.l, d.other, m,
                Apply(d.s, WorkerSend(a)).links[m], Apply(Swap(d).s, WorkerSend(a)).links[m]);
  }

  lemma WorkerPopCommutes(d: Duo, ctl: int)
    requires d.l in d.s.links && Enabled(d.s, WorkerPop(ctl))
    ensures Commutes(d, WorkerPop(ctl))
  {
    var m := d.s.worker.task.hld;
    PutCommutes(d.s.links, d.l, d.other, m,
                Apply(d.s, WorkerPop(ctl)).links[m], Apply(Swap(d).s, WorkerPop(ctl)).links[m]);
  }

  lemma SwapCommutes(d: Duo, e: Event)
    requires d.l in d.s.links && Enabled(d.s, e) && !Writes(e, d.l)
    ensures Commutes(d, e)
  {
    if e.KernelDrains? || e.KernelFills? || e.KernelSignals? || e.KernelReceives? {
      KernelCommutes(d, e);
    } else if Outside(e) {
      EpollCommutes(d, e);
    } else if e.WorkerSend? {
      WorkerSendCommutes(d, e.a);
    } else if e.WorkerPop? {
      WorkerPopCommutes(d, e.ctl);
    } else if e.WriteBegin? || e.WriteCheck? || e.WriteSend? || e.WriteQueue? {
      OtherLinkCommutes(d, e);
    } else if e.WorkerRefuses? {
      WorkerRefusesCommutes(d);
    } else {
      WorkerMoveCommutes(d, e);
    }
  }

  /** The step of the pair is the step of the one writer it amounts to. */
  ghost predicate IsSoloStep(d: Duo, de: DuoEvent)
    requires d.l in d.s.links && DuoEnabled(d, de)
  {
    var d' := DuoApply(d, de);
    && OneActive(d') && d'.l == d.l
    && Enabled(Solo(d), de.e) && Apply(Solo(d), de.e) == Solo(d')
  }

  lemma FirstStepAlone(d: Duo, e: Event)
    requires DuoEnabled(d, First(e)) && d.other.Idle?
    ensures IsSoloStep(d, First(e))
  {
  }

  lemma FirstStepBeside(d: Duo, e: Event)
    requires OneActive(d) && DuoEnabled(d, First(e)) && TakesTurn(d, First(e)) && !d.other.Idle?
    ensures IsSoloStep(d, First(e))
  {
    SwapCommutes(d, e);
  }

  /** Seen from the other side, the second writer is the first. */
  lemma SecondStep(d: Duo, e: Event)
    requires OneActive(d) && DuoEnabled(d, Second(e)) && TakesTurn(d, Second(e))
    ensures IsSoloStep(d, Second(e))
  {
    StepLinksStay(Swap(d).s, e);
    SwapTwice(Swap(d).(s := Apply(Swap(d).s, e)));
    SwapKeeps(d);
    SwapKeeps(DuoApply(d, Second(e)));
  }

  lemma SwapKeeps(d: Duo)
    requires d.l in d.s.links
    ensures d.other == d.s.links[d.l].writer ==> Swap(d) == d
  {
  }

  lemma TurnIsStep(d: Duo, de: DuoEvent)
    requires OneActive(d) && DuoEnabled(d, de) && TakesTurn(d, de)
    ensures IsSoloStep(d, de)
  {
    if de.Second? {
      SecondStep(d, de.e);
    } else if d.other.Idle? {
      FirstStepAlone(d, de.e);
    } else {
      FirstStepBeside(d, de.e);
    }
  }

  function Steps(es: seq<DuoEvent>): seq<Event> {
    if es == [] then [] else [es[0].e] + Steps(es[1..])
  }

  /** Every run of two writers that take turns is a run of one writer. */
  lemma {:induction false} TurnsAreOneWriter(d: Duo, es: seq<DuoEvent>)
    requires OneActive(d) && DuoRuns(d, es) && TakeTurns(d, es)
    ensures OneActive(DuoAfter(d, es)) && DuoAfter(d, es).l == d.l
    ensures Runs(Solo(d), Steps(es)) && After(Solo(d), Steps(es)) == Solo(DuoAfter(d, es))
    decreases |es|
  {
    if es == [] {
    } else {
      TurnIsStep(d, es[0]);
      TurnsAreOneWriter(DuoApply(d, es[0]), es[1..]);
      assert Steps(es)[0] == es[0].e && Steps(es)[1..] == Steps(es[1..]);
    }
  }

  /** So everything proved of one writer holds for them; the stream, for one thing, is conserved. */
  lemma TurnsConserve(d: Duo, es: seq<DuoEvent>)
    requires Initial(d.s) && d.l in d.s.links && d.other.Idle? && DuoRuns(d, es) && TakeTurns(d, es)
    ensures var d' := DuoAfter(d, es);
      && d'.l == d.l && d'.l in d'.s.links && d.l in Solo(d').links && Reached(d.s, Steps(es), Solo(d'))
      && Conserved(Solo(d').links[d.l])
  {
    TurnsAreOneWriter(d, es);
    LinksStay(d.s, Steps(es));
    StreamConservation(d.s, Steps(es), Solo(DuoAfter(d, es)), d.l);
  }

  // ---- Writers that do not take turns ----

  ghost predicate DuoGoes(d: Duo, es: seq<DuoEvent>, d': Duo) {
    DuoRuns(d, es) && DuoAfter(d, es) == d'
  }

  lemma {:induction false} DuoGoesOn(d: Duo, a: seq<DuoEvent>, d1: Duo, b: seq<DuoEvent>, d2: Duo)
    requires DuoGoes(d, a, d1) && DuoGoes(d1, b, d2)
    ensures DuoGoes(d, a + b, d2)
    decreases |a|
  {
    if a == [] {
      assert a + b == b;
    } else {
      assert (a + b)[0] == a[0] && (a + b)[1..] == a[1..] + b;
      DuoGoesOn(DuoApply(d, a[0]), a[1..], d1, b, d2);
    }
  }

  lemma DuoGoesTwo(d: Duo, a: DuoEvent, b: DuoEvent)
    requires DuoEnabled(d, a) && DuoEnabled(DuoApply(d, a), b)
    ensures DuoGoes(d, [a, b], DuoApply(DuoApply(d, a), b))
  {
    var d1 := DuoApply(d, a);
    var d2 := DuoApply(d1, b);
    assert [b][1..] == [] && DuoRuns(d2, []) && DuoAfter(d2, []) == d2;
    assert DuoGoes(d1, [b], d2);
    assert [a, b][1..] == [b];
  }

  /** The pair with another state of the link and of the second writer. */
  function On(d: Duo, ls: LinkState, other: Writer): Duo {
    Duo(Put(d.s, d.l, ls), d.l, other)
  }

  lemma FirstGoes(d: Duo, e: Event, ls': LinkState)
    requires DuoEnabled(d, First(e)) && (Writes(e, d.l) || e == KernelDrains(d.l)) && !e.WriteBegin?
    requires ls' == Apply(d.s, e).links[d.l]
    ensures DuoGoes(d, [First(e)], On(d, ls', d.other))
  {
  }

  lemma SecondGoes(d: Duo, e: Event, ls': LinkState)
    requires DuoEnabled(d, Second(e)) && !e.WriteBegin?
    requires ls' == Apply(Swap(d).s, e).links[d.l]
    ensures DuoGoes(d, [Second(e)], On(d, ls'.(writer := d.s.links[d.l].writer), ls'.writer))
  {
  }

  /** tcp_write has begun and the packet is not queued; `n` is its node. */
  predicate Unqueued(w: Writer, n: Node) {
    w == Entered(n) || w == Direct(n)
  }

  /** Both writers have found the link not blocking, and there is room. */
  lemma BothDirect(d: Duo, a: Node, b: Node) returns (es: seq<DuoEvent>, d': Duo)
    requires d.l in d.s.links && d.s.links[d.l].fifo == NO_FIFO
    requires Unqueued(d.s.links[d.l].writer, a) && Unqueued(d.other, b)
    ensures var ls := d.s.links[d.l];
      && DuoGoes(d, es, d')
      && d' == On(d, ls.(k := Drains(ls.k), writer := Direct(a)), Direct(b))
  {
    var ls := d.s.links[d.l];
    var l1 := ls.(writer := Direct(a));
    var d1, d2, es1, es2 := On(d, l1, d.other), On(d, l1, Direct(b)), [], [];
    if ls.writer.Entered? {
      es1 := [First(WriteCheck(d.l))];
      FirstGoes(d, WriteCheck(d.l), l1);
    } else {
      StandsStill(d);
    }
    if d.other.Entered? {
      es2 := [Second(WriteCheck(d.l))];
      SecondGoes(d1, WriteCheck(d.l), ls.(writer := Direct(b)));
      assert On(d1, l1, Direct(b)) == d2;
    } else {
      StandsStill(d1);
    }
    DuoGoesOn(d, es1, d1, es2, d2);
    var l3 := ls.(k := Drains(ls.k), writer := Direct(a));
    d' := On(d, l3, Direct(b));
    FirstGoes(d2, KernelDrains(d.l), l3);
    assert On(d2, l3, Direct(b)) == d';
    es := es1 + es2 + [First(KernelDrains(d.l))];
    DuoGoesOn(d, es1 + es2, d2, [First(KernelDrains(d.l))], d');
  }

  lemma StandsStill(d: Duo)
    requires d.l in d.s.links
    ensures DuoGoes(d, [], On(d, d.s.links[d.l], d.other))
  {
  }

  lemma OneByteSent(ls: LinkState, n: Node)
    requires ls.writer == Direct(n) && n.offset + 2 <= |n.data|
    ensures SendWrite(ls, Took(0))
      == ls.(k := ls.k.(sent := ls.k.sent + n.data[n.offset..n.offset + 1]),
             writer := Direct(n.(offset := n.offset + 1)))
  {
  }

  lemma RestSent(ls: LinkState, n: Node)
    requires ls.writer == Direct(n) && NodeOk(n)
    ensures SendWrite(ls, Took(|n.data|)) == Accept(ls.(k := ls.k.(sent := ls.k.sent + n.data[n.offset..])))
  {
  }

  /** The link after one byte of `a`, the rest of `b` and the rest of `a` have been sent. */
  lemma SendsInterleave(ls: LinkState, a: Node, b: Node) returns (l1: LinkState, l2: LinkState, l3: LinkState)
    requires a.offset + 2 <= |a.data| && NodeOk(b) && ls.writer == Direct(a) && !ls.k.full
    ensures l1 == SendWrite(ls, Took(0)) && l1.writer.Direct? && !l1.k.full
    ensures l2 == SendWrite(l1.(writer := Direct(b)), Took(|b.data|)) && l2.writer.Idle? && !l2.k.full
    ensures l3 == SendWrite(l2.(writer := l1.writer), Took(|a.data|)) && l3.writer.Idle?
    ensures l3.k.sent == ls.k.sent + a.data[a.offset..a.offset + 1] + Tail(b) + a.data[a.offset + 1..]
    ensures l3.written == ls.written + [b.data] + [a.data]
  {
    l1 := SendWrite(ls, Took(0));
    OneByteSent(ls, a);
    l2 := SendWrite(l1.(writer := Direct(b)), Took(|b.data|));
    RestSent(l1.(writer := Direct(b)), b);
    RestSent(l2.(writer := l1.writer), l1.writer.node);
    l3 := SendWrite(l2.(writer := l1.writer), Took(|a.data|));
  }

  /**
   Whenever two writers overlap before either packet is queued, and one of them still has two bytes to
   send, the run can go on so that the other packet ends up in the middle of it.
   */
  lemma OverlapTears(d: Duo, a: Node, b: Node) returns (es: seq<DuoEvent>, d': Duo)
    requires d.l in d.s.links && d.s.links[d.l].fifo == NO_FIFO
    requires Unqueued(d.s.links[d.l].writer, a) && Unqueued(d.other, b)
    requires a.offset + 2 <= |a.data| && NodeOk(b)
    ensures DuoGoes(d, es, d') && d'.l in d'.s.links
    ensures var ls, ls' := d.s.links[d.l], d'.s.links[d'.l];
      && ls'.k.sent == ls.k.sent + a.data[a.offset..a.offset + 1] + Tail(b) + a.data[a.offset + 1..]
      && ls'.written == ls.written + [b.data] + [a.data]
      && ls'.writer.Idle? && d'.other.Idle?
  {
    var es1, d1 := BothDirect(d, a, b);
    var ls := d1.s.links[d.l];
    var l1, l2, l3 := SendsInterleave(ls, a, b);
    var s1, s2, s3 := WriteSend(d.l, Took(0)), WriteSend(d.l, Took(|b.data|)), WriteSend(d.l, Took(|a.data|));
    var d2, d3 := On(d, l1, Direct(b)), On(d, l2.(writer := l1.writer), Idle);
    d' := On(d, l3, Idle);
    FirstGoes(d1, s1, l1);
    assert On(d1, l1, Direct(b)) == d2;
    SecondGoes(d2, s2, l2);
    assert On(d2, l2.(writer := l1.writer), Idle) == d3;
    FirstGoes(d3, s3, l3);
    assert On(d3, l3, Idle) == d';
    DuoGoesOn(d1, [First(s1)], d2, [Second(s2)], d3);
    DuoGoesOn(d1, [First(s1)] + [Second(s2)], d3, [First(s3)], d');
    es := es1 + ([First(s1)] + [Second(s2)] + [First(s3)]);
    DuoGoesOn(d, es1, d1, [First(s1)] + [Second(s2)] + [First(s3)], d');
  }

  const A: Node := Node(0, [1, 2], 0)
  const B: Node := Node(1, [3], 0)
  const TASK: Task := Task(0, 0)

  function Pair(ls: LinkState, tasks: seq<Task>, worker: Worker, next: nat, other: Writer): Duo {
    Duo(Sys(map[0 := ls], tasks, worker, Active, next, multiset{}, multiset{}), 0, other)
  }

  /** A begins on a fresh link. */
  const TEAR0 := Pair(FRESH_LINK, [], Waiting, 0, Idle)
  const TEAR1 := Pair(FRESH_LINK.(writer := Direct(A)), [], Waiting, 0, Idle)

  /** One of its two bytes is sent, then there is no room. */
  const HALF_SENT := FRESH_LINK.(k := Kernel([1], true, false, false), writer := Direct(A.(offset := 1)))
  const TEAR2 := Pair(HALF_SENT, [], Waiting, 0, Idle)

  /** EAGAIN; room appears before A gets to fifo_queue. */
  const GAP := HALF_SENT.(k := Kernel([1], false, false, false), writer := Queueing(A.(offset := 1)))
  const TEAR3 := Pair(GAP, [], Waiting, 0, Idle)

  /** B finds the link not blocking. */
  const TEAR4 := Pair(GAP, [], Waiting, 0, Direct(B))

  /** B has sent its packet, and A is queued. */
  const QUEUED := GAP.(
    k := Kernel([1, 3], false, true, true), writer := Idle, fifo := FifoState([A.(offset := 1)], 1, true),
    written := [[3], [1, 2]], parts := [[3], [1, 2]])
  const TEAR5 := Pair(QUEUED, [], Waiting, 0, Idle)

  /** The worker sends the rest of A and retires it. */
  const SERVED := QUEUED.(k := Kernel([1, 3], false, true, false))
  const TEAR6 := Pair(SERVED, [TASK], Waiting, 1, Idle)
  const TEAR7 := Pair(SERVED, [], Sending(TASK, 0), 1, Idle)
  const TORN := SERVED.(k := Kernel([1, 3, 2], false, false, false), fifo := NO_FIFO)
  const TEAR8 := Pair(TORN, [], Requeueing(TASK), 1, Idle)

  function TearsUntilGap(): seq<DuoEvent> {
    [First(WriteBegin(0, [1, 2], 0)), First(WriteCheck(0))]
    + ([First(WriteSend(0, Took(0))), First(KernelFills(0))]
    + [First(WriteSend(0, Again)), First(KernelDrains(0))])
  }

  function TearsInGap(): seq<DuoEvent> {
    [Second(WriteBegin(0, [3], 1)), Second(WriteCheck(0))]
    + [Second(WriteSend(0, Took(0))), First(WriteQueue(0, 0))]
  }

  function TearsAfterGap(): seq<DuoEvent> {
    [First(EpollFetch(0)), First(EpollTask(0))]
    + ([First(WorkerTake), First(WorkerTop)]
    + [First(WorkerSend(Took(0))), First(WorkerPop(0))])
  }

  function TearingRun(): seq<DuoEvent> {
    TearsUntilGap() + (TearsInGap() + TearsAfterGap())
  }

  lemma ABegins()
    ensures DuoGoes(TEAR0, [First(WriteBegin(0, [1, 2], 0)), First(WriteCheck(0))], TEAR1)
  {
  }

  lemma AIsHalfSent()
    ensures DuoGoes(TEAR1, [First(WriteSend(0, Took(0))), First(KernelFills(0))], TEAR2)
  {
    assert [] + A.data[0..1] == [1];
    DuoGoesTwo(TEAR1, First(WriteSend(0, Took(0))), First(KernelFills(0)));
  }

  lemma AMeetsEagain()
    ensures DuoGoes(TEAR2, [First(WriteSend(0, Again)), First(KernelDrains(0))], TEAR3)
  {
  }

  lemma BBegins()
    ensures DuoGoes(TEAR3, [Second(WriteBegin(0, [3], 1)), Second(WriteCheck(0))], TEAR4)
  {
  }

  /** B is done, and A still waits to be queued. */
  const PASSED := GAP.(k := Kernel([1, 3], false, false, false), written := [[3]], parts := [[3]])

  lemma BIsSent()
    ensures SendWrite(GAP.(writer := Direct(B)), Took(0)) == PASSED.(writer := Idle)
  {
  }

  lemma AIsQueued()
    ensures QueueWrite(PASSED, 0) == QUEUED
  {
  }

  lemma BIsSentAndAQueued()
    ensures DuoGoes(TEAR4, [Second(WriteSend(0, Took(0))), First(WriteQueue(0, 0))], TEAR5)
  {
    BIsSent();
    AIsQueued();
    assert DuoApply(TEAR4, Second(WriteSend(0, Took(0)))) == Pair(PASSED, [], Waiting, 0, Idle);
    DuoGoesTwo(TEAR4, Second(WriteSend(0, Took(0))), First(WriteQueue(0, 0)));
  }

  lemma TheTaskComes()
    ensures DuoGoes(TEAR5, [First(EpollFetch(0)), First(EpollTask(0))], TEAR6)
  {
  }

  lemma TheWorkerTakesIt()
    ensures DuoGoes(TEAR6, [First(WorkerTake), First(WorkerTop)], TEAR7)
  {
  }

  const SENT := SERVED.(k := Kernel([1, 3, 2], false, true, false), fifo := FifoState([A.(offset := 2)], 1, true))

  lemma AIsSent()
    ensures SendQueued(SERVED, 0, Took(0)) == SENT && PopQueued(SENT, 0) == TORN
  {
  }

  lemma AIsRetired()
    ensures DuoGoes(TEAR7, [First(WorkerSend(Took(0))), First(WorkerPop(0))], TEAR8)
  {
    AIsSent();
    assert DuoApply(TEAR7, First(WorkerSend(Took(0)))) == Pair(SENT, [], Popping(TASK, 0), 1, Idle);
    DuoGoesTwo(TEAR7, First(WorkerSend(Took(0))), First(WorkerPop(0)));
  }

  lemma UntilGap()
    ensures DuoGoes(TEAR0, TearsUntilGap(), TEAR3)
  {
    ABegins();
    AIsHalfSent();
    AMeetsEagain();
    var a, b, c := [First(WriteBegin(0, [1, 2], 0)), First(WriteCheck(0))],
      [First(WriteSend(0, Took(0))), First(KernelFills(0))], [First(WriteSend(0, Again)), First(KernelDrains(0))];
    DuoGoesOn(TEAR1, b, TEAR2, c, TEAR3);
    DuoGoesOn(TEAR0, a, TEAR1, b + c, TEAR3);
  }

  lemma InGap()
    ensures DuoGoes(TEAR3, TearsInGap(), TEAR5)
  {
    BBegins();
    BIsSentAndAQueued();
    DuoGoesOn(TEAR3, [Second(WriteBegin(0, [3], 1)), Second(WriteCheck(0))], TEAR4,
              [Second(WriteSend(0, Took(0))), First(WriteQueue(0, 0))], TEAR5);
  }

  lemma AfterGap()
    ensures DuoGoes(TEAR5, TearsAfterGap(), TEAR8)
  {
    TheTaskComes();
    TheWorkerTakesIt();
    AIsRetired();
    var a, b, c := [First(EpollFetch(0)), First(EpollTask(0))], [First(WorkerTake), First(WorkerTop)],
      [First(WorkerSend(Took(0))), First(WorkerPop(0))];
    DuoGoesOn(TEAR6, b, TEAR7, c, TEAR8);
    DuoGoesOn(TEAR5, a, TEAR6, b + c, TEAR8);
  }

  lemma TearingRuns()
    ensures DuoGoes(TEAR0, TearingRun(), TEAR8)
  {
    UntilGap();
    InGap();
    AfterGap();
    DuoGoesOn(TEAR3, TearsInGap(), TEAR5, TearsAfterGap(), TEAR8);
    DuoGoesOn(TEAR0, TearsUntilGap(), TEAR3, TearsInGap() + TearsAfterGap(), TEAR8);
  }

  /**
   A sends one byte and meets EAGAIN, room appears, B finds the link not blocking and sends its packet,
   then A is queued and its rest sent. Both packets are accepted, everything is sent, and the wire
   carries neither A B nor B A.
   */
  lemma TwoWritersTear()
    ensures Initial(TEAR0.s) && TEAR0.other.Idle?
    ensures DuoGoes(TEAR0, TearingRun(), TEAR8)
    ensures TEAR8.s.links == map[0 := TORN] && TEAR8.other.Idle?
    ensures TORN.written == [B.data, A.data] && TORN.parts == TORN.written
    ensures TORN.fifo == NO_FIFO && TORN.writer.Idle?
    ensures TORN.k.sent == [1, 3, 2] && TORN.k.sent != A.data + B.data && TORN.k.sent != B.data + A.data
  {
    TearingRuns();
    assert A.data + B.data == [1, 2, 3] && B.data + A.data == [3, 1, 2];
  }
}
