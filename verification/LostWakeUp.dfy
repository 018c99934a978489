/**
 What the two ignored answers decide: epoll_ctl's in fifo_pop (fifo.c) and wp_queued's in the epoll
 thread (io.c).
 */
module LostWakeUp {
  import opened TxQueue
  import opened TxProtocol
  import opened TxInvariant
  import opened TxTheorems
  import opened TxWakeUp

  // ---- Putting runs together ----

  /** The two ignored answers are good, whichever link they concern. */
  ghost predicate Good(s: Sys, e: Event) {
    forall l :: Reliable(s, e, l)
  }

  /** A run in which they always are. */
  ghost predicate Leads(s: Sys, es: seq<Event>, s': Sys) {
    Runs(s, es) && (forall l :: AllReliable(s, es, l)) && After(s, es) == s'
  }

  lemma LeadsOn(s: Sys, a: seq<Event>, s1: Sys, b: seq<Event>, s2: Sys)
    requires Leads(s, a, s1) && Leads(s1, b, s2)
    ensures Leads(s, a + b, s2)
  {
    RunsAppend(s, a, b);
    forall l
      ensures AllReliable(s, a + b, l)
    {
      AllReliableAppend(s, a, b, l);
    }
  }

  lemma OneStep(s: Sys, e: Event)
    requires Enabled(s, e) && Good(s, e)
    ensures Leads(s, [e], Apply(s, e))
  {
    GoesOne(s, e);
    forall l
      ensures AllReliable(s, [e], l)
    {
      assert Reliable(s, e, l) && [e][1..] == [];
    }
  }

  lemma OneMore(s: Sys, es: seq<Event>, s1: Sys, e: Event)
    requires Leads(s, es, s1) && Enabled(s1, e) && Good(s1, e)
    ensures Leads(s, es + [e], Apply(s1, e))
  {
    OneStep(s1, e);
    LeadsOn(s, es, s1, [e], Apply(s1, e));
  }

  lemma InvOn(s: Sys, l: nat)
    requires Inv(s) && l in s.links
    ensures LinkOk(s.links[l], OnThis(s.worker, l))
  {
  }

  // ---- A stranded queue ----

  /** Packets are queued, EPOLLOUT is armed, the kernel has room, and no event is on its way. */
  ghost predicate Asleep(ls: LinkState) {
    && Coupled(ls.fifo) && WriterOk(ls) && ls.k.armed
    && !ls.dead && ls.fifo.list != [] && !ls.fetched && !ls.k.full && !ls.k.pending
  }

  /** Nor has the worker anything to do with this link: nobody will come for its packets. */
  ghost predicate Stranded(s: Sys, l: nat) {
    l in s.links && Asleep(s.links[l]) && !HasTask(s.tasks, l) && OnThis(s.worker, l).Waiting?
  }

  /** A writer can only queue behind what is there already, and that arms nothing. */
  lemma AsleepWrite(ls: LinkState, e: Event)
    requires Asleep(ls)
    ensures e.WriteBegin? && e.packet != [] ==> Asleep(BeginWrite(ls, e.packet, e.addr))
    ensures e.WriteCheck? && ls.writer.Entered? ==> Asleep(CheckWrite(ls))
    ensures !ls.writer.Direct?
    ensures e.WriteQueue? && ls.writer.Queueing? ==> Asleep(QueueWrite(ls, e.ctl)) && QueueWrite(ls, e.ctl).k == ls.k
  {
  }

  /** The peer sends something, the buffer fills by itself although nothing is sent, or an event has no cause. */
  predicate Rouses(e: Event, l: nat) {
    e == KernelReceives(l) || e == KernelFills(l) || e == KernelSignals(l)
  }

  lemma AsleepStep(s: Sys, e: Event, l: nat)
    requires l in s.links && Asleep(s.links[l])
    requires OnThis(s.worker, l).Waiting? && Enabled(s, e)
    requires !Rouses(e, l)
    ensures Asleep(Apply(s, e).links[l]) && Apply(s, e).links[l].k == s.links[l].k
  {
    AsleepWrite(s.links[l], e);
  }

  /** Tasks for this link come from its own events and from the worker on it. */
  lemma NoTaskComes(s: Sys, e: Event, l: nat)
    requires !HasTask(s.tasks, l) && OnThis(s.worker, l).Waiting? && Enabled(s, e) && e != EpollTask(l)
    ensures !HasTask(Apply(s, e).tasks, l) && OnThis(Apply(s, e).worker, l).Waiting?
  {
  }

  lemma StrandedStep(s: Sys, e: Event, l: nat)
    requires Stranded(s, l) && Enabled(s, e)
    requires !Rouses(e, l)
    ensures Stranded(Apply(s, e), l) && Apply(s, e).links[l].k == s.links[l].k
  {
    StepLinksStay(s, e);
    AsleepStep(s, e, l);
    NoTaskComes(s, e, l);
  }

  /**
   Until the peer sends something, or the kernel signals without cause, a stranded queue stays stranded:
   later packets only queue behind it, and no byte moves.
   */
  lemma {:induction false} StrandedStays(s: Sys, es: seq<Event>, l: nat)
    requires Stranded(s, l) && Runs(s, es)
    requires forall i | 0 <= i < |es| :: !Rouses(es[i], l)
    ensures Stranded(After(s, es), l) && After(s, es).links[l].k == s.links[l].k
    decreases |es|
  {
    if es == [] {
    } else {
      StrandedStep(s, es[0], l);
      StrandedStays(Apply(s, es[0]), es[1..], l);
    }
  }

  /** Data from the peer brings the missing event along. */
  lemma PeerRouses(s: Sys, l: nat)
    requires Stranded(s, l)
    ensures !AwakeOn(s, l) && AwakeOn(Apply(s, KernelReceives(l)), l)
  {
  }

  // ---- After a failed withdrawal: from any state to a stranded queue ----

  /** EPOLLOUT is armed although nothing is queued: the next request for it will be a repetition. */
  ghost predicate Overarmed(s: Sys, l: nat) {
    s.pool.Active? && l in s.links && !s.links[l].dead && s.links[l].fifo.list == [] && s.links[l].k.armed
  }

  /** A step of the writer, the kernel or the epoll thread that queues nothing on this link. */
  predicate Harmless(e: Event) {
    !e.EpollDrop? && (e.WriteBegin? || e.WriteCheck? || (e.WriteSend? && e.a.Again?) || Outside(e))
  }

  lemma OverarmedStays(s: Sys, e: Event, l: nat)
    requires Overarmed(s, l) && Enabled(s, e) && Harmless(e)
    ensures Overarmed(Apply(s, e), l) && Apply(s, e).worker == s.worker
  {
  }

  lemma Overstep(s: Sys, es: seq<Event>, s1: Sys, e: Event, l: nat)
    requires Leads(s, es, s1) && Overarmed(s1, l) && Enabled(s1, e) && Harmless(e)
    ensures Leads(s, es + [e], Apply(s1, e)) && Overarmed(Apply(s1, e), l)
    ensures Apply(s1, e).worker == s1.worker
  {
    OneMore(s, es, s1, e);
    OverarmedStays(s1, e, l);
  }

  /** A writer that finds no packet queued and no room ends up asking to be queued. */
  lemma WriterAsks(s: Sys, l: nat) returns (es: seq<Event>, s': Sys)
    requires Overarmed(s, l) && WriterOk(s.links[l])
    ensures Leads(s, es, s') && Overarmed(s', l) && s'.worker == s.worker
    ensures s'.links[l].writer.Queueing?
  {
    es, s' := [], s;
    if s'.links[l].writer.Idle? {
      var e := WriteBegin(l, [0], 0);
      Overstep(s, es, s', e, l);
      es, s' := es + [e], Apply(s', e);
    }
    if s'.links[l].writer.Entered? {
      var e := WriteCheck(l);
      Overstep(s, es, s', e, l);
      es, s' := es + [e], Apply(s', e);
    }
    if s'.links[l].writer.Direct? {
      var es1, s1 := DirectAsks(s', l);
      LeadsOn(s, es, s', es1, s1);
      es, s' := es + es1, s1;
    }
  }

  lemma DirectAsks(s: Sys, l: nat) returns (es: seq<Event>, s': Sys)
    requires Overarmed(s, l) && s.links[l].writer.Direct? && NodeOk(s.links[l].writer.node)
    ensures Leads(s, es, s') && Overarmed(s', l) && s'.worker == s.worker
    ensures s'.links[l].writer.Queueing?
  {
    var fill, send := KernelFills(l), WriteSend(l, Again);
    var s1 := Apply(s, fill);
    OneStep(s, fill);
    OverarmedStays(s, fill, l);
    Overstep(s, [fill], s1, send, l);
    es, s' := [fill] + [send], Apply(s1, send);
  }

  /** The kernel gets room, and every event of this link is turned into a task. */
  lemma EventsGo(s: Sys, l: nat) returns (es: seq<Event>, s': Sys)
    requires Overarmed(s, l) && s.links[l].writer.Queueing?
    ensures Leads(s, es, s') && Overarmed(s', l) && s'.worker == s.worker
    ensures var ls := s'.links[l]; ls.writer.Queueing? && !ls.k.full && !ls.k.pending && !ls.fetched
  {
    var drain, fetch, task := KernelDrains(l), EpollFetch(l), EpollTask(l);
    Overstep(s, [], s, drain, l);
    es, s' := [] + [drain], Apply(s, drain);
    if s'.links[l].fetched {
      Overstep(s, es, s', task, l);
      es, s' := es + [task], Apply(s', task);
    }
    if s'.links[l].k.pending {
      Overstep(s, es, s', fetch, l);
      es, s' := es + [fetch], Apply(s', fetch);
      Overstep(s, es, s', task, l);
      es, s' := es + [task], Apply(s', task);
    }
  }

  /** The worker's way through one task of a queue with nothing in it, or with no room in the kernel. */
  lemma TaskGoes(s: Sys) returns (es: seq<Event>, s': Sys)
    requires s.pool.Active? && s.worker.Waiting? && s.tasks != [] && s.tasks[0].hld in s.links
    requires var ls := s.links[s.tasks[0].hld];
      ls.fifo.list == [] || (ls.k.full && NodeOk(ls.fifo.list[0]))
    ensures Leads(s, es, s') && s'.worker.Waiting? && s'.tasks == s.tasks[1..] && s'.links == s.links
    ensures s'.pool.Active?
  {
    var s1 := Apply(s, WorkerTake);
    var s2 := Apply(s1, WorkerTop);
    OneStep(s, WorkerTake);
    OneMore(s, [WorkerTake], s1, WorkerTop);
    es, s' := [WorkerTake] + [WorkerTop], s2;
    if s2.worker.Sending? {
      var l := s2.worker.task.hld;
      assert Find(s2.links[l].fifo.list, s2.worker.addr) == 0;
      OneMore(s, es, s2, WorkerSend(Again));
      es, s' := es + [WorkerSend(Again)], Apply(s2, WorkerSend(Again));
      assert s'.links == s2.links[l := s2.links[l]] == s.links;
    }
    OneMore(s, es, s', WorkerFree);
    es, s' := es + [WorkerFree], Apply(s', WorkerFree);
  }

  /** Tasks are for existing links, and the head of a queue still owes bytes. */
  ghost predicate Servable(s: Sys) {
    && s.pool.Active? && (forall t | t in s.tasks :: t.hld in s.links)
    && forall m | m in s.links && s.links[m].fifo.list != [] :: NodeOk(s.links[m].fifo.list[0])
  }

  /** The same queues; the links with nothing queued are untouched. */
  ghost predicate SameQueues(s: Sys, s': Sys) {
    && s'.pool.Active? && s'.links.Keys == s.links.Keys
    && forall m | m in s.links ::
         && s'.links[m].fifo == s.links[m].fifo
         && (s.links[m].fifo.list == [] ==> s'.links[m] == s.links[m])
  }

  lemma FirstTaskGoes(s: Sys) returns (es: seq<Event>, s': Sys)
    requires Servable(s) && s.worker.Waiting? && s.tasks != []
    ensures Leads(s, es, s') && SameQueues(s, s') && s'.worker.Waiting? && s'.tasks == s.tasks[1..]
  {
    var m := s.tasks[0].hld;
    assert s.tasks[0] in s.tasks;
    if s.links[m].fifo.list == [] {
      es, s' := TaskGoes(s);
    } else {
      var fill := KernelFills(m);
      OneStep(s, fill);
      var es1, s1 := TaskGoes(Apply(s, fill));
      LeadsOn(s, [fill], Apply(s, fill), es1, s1);
      es, s' := [fill] + es1, s1;
    }
  }

  lemma TasksGo(s: Sys) returns (es: seq<Event>, s': Sys)
    requires Servable(s) && s.worker.Waiting?
    ensures Leads(s, es, s') && SameQueues(s, s') && s'.worker.Waiting? && s'.tasks == []
    decreases |s.tasks|
  {
    if s.tasks == [] {
      es, s' := [], s;
    } else {
      var es1, s1 := FirstTaskGoes(s);
      assert forall t | t in s1.tasks :: t in s.tasks;
      var es2, s2 := TasksGo(s1);
      LeadsOn(s, es1, s1, es2, s2);
      es, s' := es1 + es2, s2;
    }
  }

  lemma InvServable(s: Sys)
    requires Inv(s) && s.pool.Active? && s.worker.Waiting?
    ensures Servable(s)
  {
    forall m | m in s.links && s.links[m].fifo.list != []
      ensures NodeOk(s.links[m].fifo.list[0])
    {
      assert OnThis(s.worker, m) == Waiting && LinkOk(s.links[m], Waiting);
    }
  }

  lemma InvAfter(s: Sys, es: seq<Event>, s': Sys)
    requires Inv(s) && Leads(s, es, s')
    ensures Inv(s')
  {
    RunKeepsInv(s, es);
  }

  /** The repeated request for EPOLLOUT gives no event: the packet is stranded. */
  lemma RepeatedRequest(s: Sys, l: nat)
    requires Overarmed(s, l) && s.worker.Waiting? && s.tasks == [] && s.links[l].writer.Queueing?
    requires !s.links[l].k.full && !s.links[l].k.pending && !s.links[l].fetched
    requires Coupled(s.links[l].fifo) && WriterOk(s.links[l])
    ensures Leads(s, [WriteQueue(l, 0)], Apply(s, WriteQueue(l, 0))) && Stranded(Apply(s, WriteQueue(l, 0)), l)
  {
    OneStep(s, WriteQueue(l, 0));
  }

  /** From every state with a repeated request to come, a packet can be stranded. */
  lemma OverarmedStrands(s: Sys, l: nat) returns (es: seq<Event>, s': Sys)
    requires Inv(s) && Overarmed(s, l) && s.worker.Waiting?
    ensures Leads(s, es, s') && Stranded(s', l)
  {
    InvOn(s, l);
    var es1, s1 := WriterAsks(s, l);
    var es2, s2 := EventsGo(s1, l);
    LeadsOn(s, es1, s1, es2, s2);
    InvAfter(s, es1 + es2, s2);
    InvServable(s2);
    var es3, s3 := TasksGo(s2);
    LeadsOn(s, es1 + es2, s2, es3, s3);
    InvOn(s2, l);
    RepeatedRequest(s3, l);
    s' := Apply(s3, WriteQueue(l, 0));
    es := es1 + es2 + es3 + [WriteQueue(l, 0)];
    LeadsOn(s, es1 + es2 + es3, s3, [WriteQueue(l, 0)], s');
  }

  // ---- Exactly when the wake-up survives ----

  /** However the run goes on, with good answers for this link from here, it is never forgotten. */
  ghost predicate WakesForEver(s: Sys, l: nat) {
    forall more: seq<Event> | Runs(s, more) && AllReliable(s, more, l) ::
      var s' := After(s, more);
      l in s'.links && (s'.links[l].dead || AwakeOn(s', l))
  }

  lemma WakefulForEver(s: Sys, l: nat)
    requires Inv(s) && WakeOn(s, l)
    ensures WakesForEver(s, l)
  {
    forall more: seq<Event> | Runs(s, more) && AllReliable(s, more, l)
      ensures l in After(s, more).links && (After(s, more).links[l].dead || AwakeOn(After(s, more), l))
    {
      RunWakes(s, more, l);
    }
  }

  lemma StrandedIsForgotten(s: Sys, es: seq<Event>, s': Sys, l: nat)
    requires Leads(s, es, s') && Stranded(s', l)
    ensures !WakesForEver(s, l)
  {
  }

  /**
   When the worker pops the last node of a live link, the answer of epoll_ctl that fifo_pop ignores
   decides: every continuation keeps the wake-ups of the link if and only if it is 0. A failure can
   always be continued, with good answers only, to a queue that is stranded.
   */
  lemma DisarmDecides(s0: Sys, es: seq<Event>, s: Sys, ctl: int)
    requires AboutToDisarm(s) && ctl <= 0
    requires ReachedWell(s0, es, s, s.worker.task.hld) && !s.links[s.worker.task.hld].dead
    ensures WakesForEver(Apply(s, WorkerPop(ctl)), s.worker.task.hld) <==> ctl == 0
  {
    var l, s1 := s.worker.task.hld, Apply(s, WorkerPop(ctl));
    ReachedWakeful(s0, es, s, l);
    StepKeepsInv(s, WorkerPop(ctl));
    if ctl == 0 {
      StepWakes(s, WorkerPop(0), l);
      WakefulForEver(s1, l);
    } else {
      FailedDisarm(s, ctl);
      OneStep(s1, WorkerRequeue);
      var s2 := Apply(s1, WorkerRequeue);
      StepKeepsInv(s1, WorkerRequeue);
      var more, s' := OverarmedStrands(s2, l);
      LeadsOn(s1, [WorkerRequeue], s2, more, s');
      StrandedIsForgotten(s1, [WorkerRequeue] + more, s', l);
    }
  }

  lemma FailedDisarm(s: Sys, ctl: int)
    requires Inv(s) && AboutToDisarm(s) && ctl < 0
    ensures var s1, l := Apply(s, WorkerPop(ctl)), s.worker.task.hld;
      s1.worker == Requeueing(s.worker.task) && s1.links.Keys == s.links.Keys && s1.pool == s.pool
      && s1.links[l].fifo.list == [] && s1.links[l].k.armed && s1.links[l].dead == s.links[l].dead
  {
    var l := s.worker.task.hld;
    assert OnThis(s.worker, l) == s.worker && LinkOk(s.links[l], s.worker);
    PopKeeps(s.links[l].fifo);
  }

  lemma DropAwake(s: Sys, l: nat)
    requires LinksOk(s) && WakeOn(s, l) && Enabled(s, EpollDrop(l)) && !s.links[l].dead
    ensures var ls := s.links[l];
      AwakeOn(Apply(s, EpollDrop(l)), l) <==>
        || ls.fifo.list == []
        || HasTask(s.tasks, l)
        || (!s.worker.Waiting? && !s.worker.Freeing? && s.worker.task.hld == l)
        || ls.k.full || ls.k.pending
    ensures AwakeOn(Apply(s, EpollDrop(l)), l) ==> WakeOn(Apply(s, EpollDrop(l)), l)
  {
  }

  lemma DroppedInVain(s: Sys, l: nat)
    requires l in s.links && !s.links[l].dead && !AwakeOn(s, l)
    ensures !WakesForEver(s, l)
  {
    assert Runs(s, []) && AllReliable(s, [], l) && After(s, []) == s;
  }

  lemma DropDecides(s: Sys, l: nat)
    requires Inv(s) && WakeOn(s, l) && Enabled(s, EpollDrop(l)) && !s.links[l].dead
    ensures WakesForEver(Apply(s, EpollDrop(l)), l) <==> AwakeOn(Apply(s, EpollDrop(l)), l)
  {
    DropAwake(s, l);
    if AwakeOn(Apply(s, EpollDrop(l)), l) {
      StepKeepsInv(s, EpollDrop(l));
      WakefulForEver(Apply(s, EpollDrop(l)), l);
    } else {
      DroppedInVain(Apply(s, EpollDrop(l)), l);
    }
  }

  /**
   When wp_queued fails for a fetched event, the packets of a live link are forgotten at once or not at
   all: not if nothing is queued, another task or the worker is there, or the kernel will signal again.
   */
  lemma DroppedEventDecides(s0: Sys, es: seq<Event>, s: Sys, l: nat)
    requires ReachedWell(s0, es, s, l) && Enabled(s, EpollDrop(l)) && !s.links[l].dead
    ensures var ls := s.links[l];
      WakesForEver(Apply(s, EpollDrop(l)), l) <==>
        || ls.fifo.list == []
        || HasTask(s.tasks, l)
        || (!s.worker.Waiting? && !s.worker.Freeing? && s.worker.task.hld == l)
        || ls.k.full || ls.k.pending
  {
    ReachedWakeful(s0, es, s, l);
    DropDecides(s, l);
    DropAwake(s, l);
  }
}
