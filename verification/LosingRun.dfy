/**
 Runs of the machine, from one established link with nothing written, in which a single failure does
 harm: an epoll_ctl or a wp_queued that fails, a send that fails half-way, an order to stop.
 */
module LosingRun {
  import opened Basics
  import opened TxQueue
  import opened TxProtocol
  import opened TxInvariant
  import opened LostWakeUp

  /** A packet finds no room and asks to be queued. */
  function NoRoom(packet: Bytes): seq<Event> {
    [WriteBegin(0, packet, 0), WriteCheck(0), KernelFills(0), WriteSend(0, Again)]
  }

  /** Room appears, and its event becomes a task that reaches fifo_top. */
  function Signal(): seq<Event> {
    [KernelDrains(0), EpollFetch(0), EpollTask(0), WorkerTake, WorkerTop]
  }

  /** The worker retires the only packet, fails to withdraw EPOLLOUT, and finds nothing more to do. */
  function Retire(): seq<Event> {
    [WorkerSend(Took(0)), WorkerPop(-1), WorkerRequeue, WorkerTake, WorkerTop, WorkerFree]
  }

  function LosingRun(): seq<Event> {
    NoRoom([1]) + [WriteQueue(0, 0)] + (Signal() + Retire())
    + (NoRoom([2]) + (Signal() + [WorkerFree, WriteQueue(0, 0)]))
  }

  lemma GoesTwo(s: Sys, a: Event, b: Event)
    requires Enabled(s, a) && Enabled(Apply(s, a), b)
    ensures Goes(s, [a, b], Apply(Apply(s, a), b))
  {
    GoesOne(s, a);
    GoesOne(Apply(s, a), b);
    GoesOn(s, [a], Apply(s, a), [b], Apply(Apply(s, a), b));
    assert [a] + [b] == [a, b];
  }

  function OneLink(ls: LinkState, tasks: seq<Task>, w: Worker, next: nat, freed: multiset<nat>): Sys {
    Sys(map[0 := ls], tasks, w, Active, next, freed, multiset{})
  }

  lemma NoRoomGoes(ls: LinkState, packet: Bytes, next: nat, freed: multiset<nat>)
    requires ls.writer.Idle? && ls.fifo == NO_FIFO && packet != []
    ensures var ls' := ls.(k := ls.k.(full := true), writer := Queueing(Node(0, packet, 0)));
      Goes(OneLink(ls, [], Waiting, next, freed), NoRoom(packet), OneLink(ls', [], Waiting, next, freed))
  {
    var s := OneLink(ls, [], Waiting, next, freed);
    var n := Node(0, packet, 0);
    var s2 := OneLink(ls.(writer := Direct(n)), [], Waiting, next, freed);
    var s4 := OneLink(ls.(k := ls.k.(full := true), writer := Queueing(n)), [], Waiting, next, freed);
    assert Goes(s, [WriteBegin(0, packet, 0), WriteCheck(0)], s2) by {
      GoesTwo(s, WriteBegin(0, packet, 0), WriteCheck(0));
    }
    assert Goes(s2, [KernelFills(0), WriteSend(0, Again)], s4) by {
      GoesTwo(s2, KernelFills(0), WriteSend(0, Again));
    }
    GoesOn(s, [WriteBegin(0, packet, 0), WriteCheck(0)], s2, [KernelFills(0), WriteSend(0, Again)], s4);
    assert [WriteBegin(0, packet, 0), WriteCheck(0)] + [KernelFills(0), WriteSend(0, Again)] == NoRoom(packet);
  }

  lemma EventGoes(ls: LinkState, next: nat, freed: multiset<nat>)
    requires ls.k.full && ls.k.armed && !ls.fetched
    ensures Goes(OneLink(ls, [], Waiting, next, freed), [KernelDrains(0), EpollFetch(0)],
                 OneLink(ls.(k := ls.k.(full := false, pending := false), fetched := true), [], Waiting, next, freed))
  {
  }

  lemma TaskIsTaken(ls: LinkState, next: nat, freed: multiset<nat>)
    requires ls.fetched
    ensures Goes(OneLink(ls, [], Waiting, next, freed), [EpollTask(0), WorkerTake],
                 OneLink(ls.(fetched := false), [], Taken(Task(next, 0)), next + 1, freed))
  {
  }

  lemma TopGoes(ls: LinkState, t: Task, next: nat, freed: multiset<nat>)
    requires t.hld == 0
    ensures var list := ls.fifo.list;
      Goes(OneLink(ls, [], Taken(t), next, freed), [WorkerTop],
           OneLink(ls, [], if list == [] then Freeing(t) else Sending(t, list[0].addr), next, freed))
  {
  }

  lemma SignalGoes(ls: LinkState, next: nat, freed: multiset<nat>)
    requires ls.k.full && ls.k.armed && !ls.fetched
    ensures var ls' := ls.(k := ls.k.(full := false, pending := false));
      var t, list := Task(next, 0), ls.fifo.list;
      Goes(OneLink(ls, [], Waiting, next, freed), Signal(),
           OneLink(ls', [], if list == [] then Freeing(t) else Sending(t, list[0].addr), next + 1, freed))
  {
    var ls' := ls.(k := ls.k.(full := false, pending := false));
    var t, list := Task(next, 0), ls.fifo.list;
    var s, s2 := OneLink(ls, [], Waiting, next, freed), OneLink(ls'.(fetched := true), [], Waiting, next, freed);
    var s4 := OneLink(ls', [], Taken(t), next + 1, freed);
    var s5 := OneLink(ls', [], if list == [] then Freeing(t) else Sending(t, list[0].addr), next + 1, freed);
    EventGoes(ls, next, freed);
    assert ls'.(fetched := true).(fetched := false) == ls';
    TaskIsTaken(ls'.(fetched := true), next, freed);
    TopGoes(ls', t, next + 1, freed);
    GoesOn(s, [KernelDrains(0), EpollFetch(0)], s2, [EpollTask(0), WorkerTake], s4);
    GoesOn(s, [KernelDrains(0), EpollFetch(0)] + [EpollTask(0), WorkerTake], s4, [WorkerTop], s5);
    assert [KernelDrains(0), EpollFetch(0)] + [EpollTask(0), WorkerTake] + [WorkerTop] == Signal();
  }

  // The states of the link on the way, and the segments between them.

  /** The first packet is queued behind a full kernel. */
  const QUEUED_LINK := FRESH_LINK.(
    k := Kernel([], true, true, false), fifo := FifoState([Node(0, [1], 0)], 1, true), written := [[1]], parts := [[1]])

  /** It has been sent and popped; EPOLLOUT stays armed behind it. */
  const OVERARMED_LINK := FRESH_LINK.(k := Kernel([1], false, true, false), written := [[1]], parts := [[1]])

  /** The second packet is queued, and nobody knows. */
  const STRANDED_LINK := OVERARMED_LINK.(
    fifo := FifoState([Node(0, [2], 0)], 1, true), written := [[1], [2]], parts := [[1], [2]])

  lemma FirstQueued()
    ensures Goes(OneLink(FRESH_LINK, [], Waiting, 0, multiset{}), NoRoom([1]) + [WriteQueue(0, 0)],
                 OneLink(QUEUED_LINK, [], Waiting, 0, multiset{}))
  {
    var asks := FRESH_LINK.(k := Kernel([], true, false, false), writer := Queueing(Node(0, [1], 0)));
    var s0, s1 := OneLink(FRESH_LINK, [], Waiting, 0, multiset{}), OneLink(asks, [], Waiting, 0, multiset{});
    var s2 := OneLink(QUEUED_LINK, [], Waiting, 0, multiset{});
    NoRoomGoes(FRESH_LINK, [1], 0, multiset{});
    assert QueueWrite(asks, 0) == QUEUED_LINK;
    GoesOne(s1, WriteQueue(0, 0));
    assert Apply(s1, WriteQueue(0, 0)) == s2;
    GoesOn(s0, NoRoom([1]), s1, [WriteQueue(0, 0)], s2);
  }

  /** The worker has sent it. */
  const SENT_LINK := QUEUED_LINK.(
    k := Kernel([1], false, true, false), fifo := FifoState([Node(0, [1], 1)], 1, true))

  lemma FirstSent(ls: LinkState)
    requires ls == QUEUED_LINK.(k := Kernel([], false, true, false))
    ensures SendQueued(ls, 0, Took(0)) == SENT_LINK && PopQueued(SENT_LINK, -1) == OVERARMED_LINK
  {
  }

  lemma SendAndPop(ls: LinkState)
    requires ls == QUEUED_LINK.(k := Kernel([], false, true, false))
    ensures Goes(OneLink(ls, [], Sending(Task(0, 0), 0), 1, multiset{}), [WorkerSend(Took(0)), WorkerPop(-1)],
                 OneLink(OVERARMED_LINK, [], Requeueing(Task(0, 0)), 1, multiset{}))
  {
    FirstSent(ls);
    var s := OneLink(ls, [], Sending(Task(0, 0), 0), 1, multiset{});
    var s1 := OneLink(SENT_LINK, [], Popping(Task(0, 0), 0), 1, multiset{});
    assert Apply(s, WorkerSend(Took(0))) == s1;
    GoesTwo(s, WorkerSend(Took(0)), WorkerPop(-1));
  }

  /** The task comes round again, finds the queue empty and is freed. */
  lemma NothingLeft(ls: LinkState)
    requires ls.fifo == NO_FIFO
    ensures Goes(OneLink(ls, [], Requeueing(Task(0, 0)), 1, multiset{}),
                 [WorkerRequeue, WorkerTake] + [WorkerTop, WorkerFree],
                 OneLink(ls, [], Waiting, 1, multiset{0}))
  {
    var t := Task(0, 0);
    var s, s2 := OneLink(ls, [], Requeueing(t), 1, multiset{}), OneLink(ls, [], Taken(t), 1, multiset{});
    GoesTwo(s, WorkerRequeue, WorkerTake);
    GoesTwo(s2, WorkerTop, WorkerFree);
    GoesOn(s, [WorkerRequeue, WorkerTake], s2, [WorkerTop, WorkerFree], OneLink(ls, [], Waiting, 1, multiset{0}));
  }

  lemma FirstRetired()
    ensures Goes(OneLink(QUEUED_LINK, [], Waiting, 0, multiset{}), Signal() + Retire(),
                 OneLink(OVERARMED_LINK, [], Waiting, 1, multiset{0}))
  {
    var ls, t := QUEUED_LINK.(k := Kernel([], false, true, false)), Task(0, 0);
    var s2, s3 := OneLink(QUEUED_LINK, [], Waiting, 0, multiset{}), OneLink(ls, [], Sending(t, 0), 1, multiset{});
    var s4 := OneLink(OVERARMED_LINK, [], Requeueing(t), 1, multiset{});
    var s5 := OneLink(OVERARMED_LINK, [], Waiting, 1, multiset{0});
    var send, end := [WorkerSend(Took(0)), WorkerPop(-1)], [WorkerRequeue, WorkerTake] + [WorkerTop, WorkerFree];
    SignalGoes(QUEUED_LINK, 0, multiset{});
    SendAndPop(ls);
    NothingLeft(OVERARMED_LINK);
    GoesOn(s3, send, s4, end, s5);
    assert send + end == Retire();
    GoesOn(s2, Signal(), s3, Retire(), s5);
  }

  lemma SecondQueued(ls: LinkState)
    requires ls == OVERARMED_LINK.(writer := Queueing(Node(0, [2], 0)))
    ensures Goes(OneLink(ls, [], Freeing(Task(1, 0)), 2, multiset{0}), [WorkerFree, WriteQueue(0, 0)],
                 OneLink(STRANDED_LINK, [], Waiting, 2, multiset{0, 1}))
  {
    assert QueueWrite(ls, 0) == STRANDED_LINK;
    GoesTwo(OneLink(ls, [], Freeing(Task(1, 0)), 2, multiset{0}), WorkerFree, WriteQueue(0, 0));
  }

  /** The second packet finds no room; the event for it comes before it is queued, and no other does. */
  lemma SecondPacket()
    ensures Goes(OneLink(OVERARMED_LINK, [], Waiting, 1, multiset{0}),
                 NoRoom([2]) + (Signal() + [WorkerFree, WriteQueue(0, 0)]),
                 OneLink(STRANDED_LINK, [], Waiting, 2, multiset{0, 1}))
  {
    var l6 := OVERARMED_LINK.(writer := Queueing(Node(0, [2], 0)));
    var l5 := l6.(k := Kernel([1], true, true, false));
    var s4, s5 := OneLink(OVERARMED_LINK, [], Waiting, 1, multiset{0}), OneLink(l5, [], Waiting, 1, multiset{0});
    var s6 := OneLink(l6, [], Freeing(Task(1, 0)), 2, multiset{0});
    var s := OneLink(STRANDED_LINK, [], Waiting, 2, multiset{0, 1});
    NoRoomGoes(OVERARMED_LINK, [2], 1, multiset{0});
    SignalGoes(l5, 1, multiset{0});
    SecondQueued(l6);
    GoesOn(s5, Signal(), s6, [WorkerFree, WriteQueue(0, 0)], s);
    GoesOn(s4, NoRoom([2]), s5, Signal() + [WorkerFree, WriteQueue(0, 0)], s);
  }

  /**
   One link, one writer, two packets, and one epoll_ctl that fails in fifo_pop: the second packet is
   accepted and stays queued, with room in the kernel.
   */
  lemma FailedDisarmLosesWakeUp()
    ensures var s0 := OneLink(FRESH_LINK, [], Waiting, 0, multiset{});
      && Initial(s0) && Runs(s0, LosingRun())
      && var s := After(s0, LosingRun());
         Stranded(s, 0) && s.links[0].written == [[1], [2]] && s.links[0].k.sent == [1]
  {
    var s0, s2 := OneLink(FRESH_LINK, [], Waiting, 0, multiset{}), OneLink(QUEUED_LINK, [], Waiting, 0, multiset{});
    var s5 := OneLink(OVERARMED_LINK, [], Waiting, 1, multiset{0});
    var s := OneLink(STRANDED_LINK, [], Waiting, 2, multiset{0, 1});
    FirstQueued();
    FirstRetired();
    SecondPacket();
    GoesOn(s0, NoRoom([1]) + [WriteQueue(0, 0)], s2, Signal() + Retire(), s5);
    GoesOn(s0, NoRoom([1]) + [WriteQueue(0, 0)] + (Signal() + Retire()), s5,
           NoRoom([2]) + (Signal() + [WorkerFree, WriteQueue(0, 0)]), s);
  }

  // ---- A wp_queued that fails ----

  function DroppingRun(): seq<Event> {
    NoRoom([1]) + [WriteQueue(0, 0)] + ([KernelDrains(0), EpollFetch(0)] + [EpollDrop(0)])
  }

  lemma EventDropped()
    ensures var ls := QUEUED_LINK.(k := Kernel([], false, true, false));
      Goes(OneLink(ls.(fetched := true), [], Waiting, 0, multiset{}), [EpollDrop(0)],
           OneLink(ls, [], Waiting, 0, multiset{}))
  {
  }

  /** The one event for a queued packet is fetched, and the task for it cannot be made. */
  lemma DroppedEventLosesWakeUp()
    ensures var s0 := OneLink(FRESH_LINK, [], Waiting, 0, multiset{});
      && Initial(s0) && Runs(s0, DroppingRun())
      && var s := After(s0, DroppingRun());
         Stranded(s, 0) && s.links[0].written == [[1]] && s.links[0].k.sent == []
  {
    var ls := QUEUED_LINK.(k := Kernel([], false, true, false));
    var s0, s2 := OneLink(FRESH_LINK, [], Waiting, 0, multiset{}), OneLink(QUEUED_LINK, [], Waiting, 0, multiset{});
    var s4, s := OneLink(ls.(fetched := true), [], Waiting, 0, multiset{}), OneLink(ls, [], Waiting, 0, multiset{});
    FirstQueued();
    EventGoes(QUEUED_LINK, 0, multiset{});
    EventDropped();
    GoesOn(s2, [KernelDrains(0), EpollFetch(0)], s4, [EpollDrop(0)], s);
    GoesOn(s0, NoRoom([1]) + [WriteQueue(0, 0)], s2, [KernelDrains(0), EpollFetch(0)] + [EpollDrop(0)], s);
  }

  // ---- A send that fails half-way ----

  function TornRun(): seq<Event> {
    [WriteBegin(0, [1, 2], 0), WriteCheck(0)] + [WriteSend(0, Took(0)), WriteSend(0, Broke)]
  }

  lemma TwoSends(l2: LinkState, l3: LinkState, l4: LinkState)
    requires l2.writer.Direct? && CanAnswer(l2.k, Took(0)) && l3 == SendWrite(l2, Took(0))
    requires l3.writer.Direct? && l4 == SendWrite(l3, Broke)
    ensures Goes(OneLink(l2, [], Waiting, 0, multiset{}), [WriteSend(0, Took(0)), WriteSend(0, Broke)],
                 OneLink(l4, [], Waiting, 0, multiset{}))
  {
  }

  lemma BeginAndCheck(packet: Bytes)
    requires packet != []
    ensures Goes(OneLink(FRESH_LINK, [], Waiting, 0, multiset{}), [WriteBegin(0, packet, 0), WriteCheck(0)],
                 OneLink(FRESH_LINK.(writer := Direct(Node(0, packet, 0))), [], Waiting, 0, multiset{}))
  {
    GoesTwo(OneLink(FRESH_LINK, [], Waiting, 0, multiset{}), WriteBegin(0, packet, 0), WriteCheck(0));
  }

  /** One of two bytes has gone when send fails: tcp_write reports the error, and the byte stays. */
  lemma RefusalTears()
    ensures var s0 := OneLink(FRESH_LINK, [], Waiting, 0, multiset{});
      && Initial(s0) && Runs(s0, TornRun())
      && var ls := After(s0, TornRun()).links[0];
         ls.k.sent == [1] && ls.parts == [[1]] && ls.written == [] && ls.writer.Idle? && !ls.dead && !Exact(ls)
  {
    var n := Node(0, [1, 2], 0);
    var l2 := FRESH_LINK.(writer := Direct(n));
    var l3 := FRESH_LINK.(k := Kernel([1], false, false, false), writer := Direct(n.(offset := 1)));
    var l4 := FRESH_LINK.(k := Kernel([1], false, false, false), parts := [[1]]);
    BeginAndCheck([1, 2]);
    OneByteGoes(l2, l3, l4);
    TwoSends(l2, l3, l4);
    GoesOn(OneLink(FRESH_LINK, [], Waiting, 0, multiset{}), [WriteBegin(0, [1, 2], 0), WriteCheck(0)],
           OneLink(l2, [], Waiting, 0, multiset{}), [WriteSend(0, Took(0)), WriteSend(0, Broke)],
           OneLink(l4, [], Waiting, 0, multiset{}));
    assert WholeStream(l4) == [1];
  }

  lemma OneByteGoes(l2: LinkState, l3: LinkState, l4: LinkState)
    requires l2 == FRESH_LINK.(writer := Direct(Node(0, [1, 2], 0)))
    requires l3 == FRESH_LINK.(k := Kernel([1], false, false, false), writer := Direct(Node(0, [1, 2], 1)))
    requires l4 == FRESH_LINK.(k := Kernel([1], false, false, false), parts := [[1]])
    ensures SendWrite(l2, Took(0)) == l3 && SendWrite(l3, Broke) == l4
  {
    var data: Bytes := [1, 2];
    assert [] + data[0..1] == [1] && data[..1] == [1];
    var parts: seq<Bytes> := [];
    assert parts + [[1]] == [[1]];
  }

  // ---- An order to stop ----

  function StoppingRun(): seq<Event> {
    NoRoom([1]) + [WriteQueue(0, 0)]
    + ([KernelDrains(0), EpollFetch(0)] + ([EpollTask(0), PoolStops] + [WorkerTake]))
  }

  lemma TaskAndStop(ls: LinkState)
    requires ls.fetched
    ensures Goes(OneLink(ls, [], Waiting, 0, multiset{}), [EpollTask(0), PoolStops],
                 OneLink(ls.(fetched := false), [Task(0, 0)], Waiting, 1, multiset{}).(pool := Stopping))
  {
  }

  lemma LastTake(ls: LinkState)
    ensures Goes(OneLink(ls, [Task(0, 0)], Waiting, 1, multiset{}).(pool := Stopping), [WorkerTake],
                 OneLink(ls, [], Waiting, 1, multiset{}).(pool := Ended, leaked := multiset{0}))
  {
  }

  /** The worker takes the only task, sees that it is to stop, and leaves with the task in its hand. */
  lemma StopLeaks()
    ensures var s0 := OneLink(FRESH_LINK, [], Waiting, 0, multiset{});
      && Initial(s0) && Runs(s0, StoppingRun())
      && var s := After(s0, StoppingRun());
         s.pool.Ended? && s.nextTask == 1 && s.tasks == [] && s.worker.Waiting? && s.freed == multiset{}
         && s.leaked == multiset{0}
  {
    var ls := QUEUED_LINK.(k := Kernel([], false, true, false));
    var s0, s2 := OneLink(FRESH_LINK, [], Waiting, 0, multiset{}), OneLink(QUEUED_LINK, [], Waiting, 0, multiset{});
    var s4 := OneLink(ls.(fetched := true), [], Waiting, 0, multiset{});
    var s6 := OneLink(ls, [Task(0, 0)], Waiting, 1, multiset{}).(pool := Stopping);
    var s := OneLink(ls, [], Waiting, 1, multiset{}).(pool := Ended, leaked := multiset{0});
    FirstQueued();
    EventGoes(QUEUED_LINK, 0, multiset{});
    assert ls.(fetched := true).(fetched := false) == ls;
    TaskAndStop(ls.(fetched := true));
    LastTake(ls);
    GoesOn(s4, [EpollTask(0), PoolStops], s6, [WorkerTake], s);
    GoesOn(s2, [KernelDrains(0), EpollFetch(0)], s4, [EpollTask(0), PoolStops] + [WorkerTake], s);
    GoesOn(s0, NoRoom([1]) + [WriteQueue(0, 0)], s2,
           [KernelDrains(0), EpollFetch(0)] + ([EpollTask(0), PoolStops] + [WorkerTake]), s);
  }
}
