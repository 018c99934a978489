/**
 Wake-ups, link by link: while epoll_ctl answers 0 when fifo_pop withdraws EPOLLOUT from a link, and
 wp_queued succeeds for it, no packet queued on this link is ever forgotten.
 */
module TxWakeUp {
  import opened Basics
  import opened TxQueue
  import opened TxProtocol
  import opened TxInvariant
  import opened TxTheorems

  ghost predicate HasTask(tasks: seq<Task>, l: nat) {
    exists t :: t in tasks && t.hld == l
  }

  lemma AddedTask(tasks: seq<Task>, t: Task, l: nat)
    ensures HasTask(tasks + [t], l) <==> HasTask(tasks, l) || t.hld == l
  {
  }

  /** Somebody will come back for a non-empty queue. */
  ghost predicate Awake(ls: LinkState, w: Worker, queued: bool) {
    ls.fifo.list != [] ==>
      || queued
      || w.Taken? || w.Sending? || w.Popping? || w.Requeueing?
      || ls.fetched
      || (ls.k.armed && (ls.k.full || ls.k.pending))
  }

  /** EPOLLOUT is asked for only while packets are queued, so asking for it is never a repetition. */
  ghost predicate Wake(ls: LinkState, w: Worker, queued: bool) {
    (ls.k.armed ==> ls.fifo.blocking) && (!ls.dead ==> Awake(ls, w, queued))
  }

  ghost predicate AwakeOn(s: Sys, l: nat)
    requires l in s.links
  {
    Awake(s.links[l], OnThis(s.worker, l), HasTask(s.tasks, l))
  }

  ghost predicate WakeOn(s: Sys, l: nat) {
    l in s.links && s.pool.Active? && Wake(s.links[l], OnThis(s.worker, l), HasTask(s.tasks, l))
  }

  /** The worker is about to pop the only node of its queue, so fifo_pop will call epoll_ctl. */
  predicate AboutToDisarm(s: Sys) {
    s.worker.Popping? && OnLink(s) && PopFrom(s.links[s.worker.task.hld].fifo).disarms
  }

  /**
   The two answers the source ignores are good where they concern link `l`: epoll_ctl's in fifo_pop and
   wp_queued's; and nobody stops the pool. The other links may fare as they like.
   */
  predicate Reliable(s: Sys, e: Event, l: nat) {
    && (e.WorkerPop? && AboutToDisarm(s) && s.worker.task.hld == l ==> e.ctl == 0)
    && e != EpollDrop(l) && !e.PoolStops?
  }

  ghost predicate AllReliable(s: Sys, es: seq<Event>, l: nat)
    requires Runs(s, es)
    decreases |es|
  {
    es == [] || (Reliable(s, es[0], l) && AllReliable(Apply(s, es[0]), es[1..], l))
  }

  lemma {:induction false} AllReliableAppend(s: Sys, a: seq<Event>, b: seq<Event>, l: nat)
    requires Runs(s, a) && Runs(After(s, a), b) && AllReliable(s, a, l) && AllReliable(After(s, a), b, l)
    ensures Runs(s, a + b) && AllReliable(s, a + b, l)
    decreases |a|
  {
    if a == [] {
      assert a + b == b;
    } else {
      assert (a + b)[0] == a[0] && (a + b)[1..] == a[1..] + b;
      AllReliableAppend(Apply(s, a[0]), a[1..], b, l);
    }
  }

  // ---- One link ----

  lemma WriterWakes(ls: LinkState, w: Worker, queued: bool, e: Event)
    requires Shape(ls, w) && Wake(ls, w, queued)
    ensures e.WriteBegin? ==> Wake(BeginWrite(ls, e.packet, e.addr), w, queued)
    ensures e.WriteCheck? && ls.writer.Entered? ==> Wake(CheckWrite(ls), w, queued)
    ensures e.WriteSend? && ls.writer.Direct? ==> Wake(SendWrite(ls, e.a), w, queued)
    ensures e.WriteQueue? && ls.writer.Queueing? ==> Wake(QueueWrite(ls, e.ctl), w, queued)
  {
  }

  lemma KernelWakes(ls: LinkState, w: Worker, queued: bool)
    requires Shape(ls, w) && Wake(ls, w, queued)
    ensures Wake(ls.(k := Drains(ls.k)), w, queued)
    ensures Wake(ls.(k := ls.k.(full := true)), w, queued)
    ensures Wake(ls.(k := ls.k.(pending := true)), w, queued)
    ensures Wake(ls.(k := Receives(ls.k)), w, queued)
    ensures Wake(ls.(k := ls.k.(pending := false), fetched := true), w, queued)
    ensures Wake(ls.(fetched := false), w, true)
  {
  }

  lemma WorkerSendWakes(ls: LinkState, task: Task, addr: nat, a: SendAnswer, queued: bool)
    requires Shape(ls, Sending(task, addr)) && Wake(ls, Sending(task, addr), queued) && CanAnswer(ls.k, a)
    ensures Wake(SendQueued(ls, 0, a), AfterSend(task, addr, ls.fifo.list[0], a), queued)
  {
  }

  lemma WorkerPopWakes(ls: LinkState, task: Task, addr: nat, ctl: int, queued: bool)
    requires Shape(ls, Popping(task, addr)) && Wake(ls, Popping(task, addr), queued)
    requires PopFrom(ls.fifo).disarms ==> ctl == 0
    ensures Wake(PopQueued(ls, ctl), Requeueing(task), queued)
  {
  }

  // ---- The whole system ----

  /** A step elsewhere: this link and the worker's place on it stay, and no task of it goes away. */
  lemma BystanderWakes(s: Sys, s': Sys, l: nat)
    requires WakeOn(s, l) && l in s'.links && s'.links[l] == s.links[l] && s'.pool == s.pool
    requires OnThis(s'.worker, l) == OnThis(s.worker, l) && (HasTask(s.tasks, l) ==> HasTask(s'.tasks, l))
    ensures WakeOn(s', l)
  {
  }

  lemma WriterStepWakes(s: Sys, e: Event, l: nat)
    requires LinksOk(s) && WakeOn(s, l) && Enabled(s, e)
    requires e.WriteBegin? || e.WriteCheck? || e.WriteSend? || e.WriteQueue?
    ensures WakeOn(Apply(s, e), l)
  {
    if e.l == l {
      WriterWakes(s.links[l], OnThis(s.worker, l), HasTask(s.tasks, l), e);
    } else {
      BystanderWakes(s, Apply(s, e), l);
    }
  }

  lemma OutsideStepWakes(s: Sys, e: Event, l: nat)
    requires LinksOk(s) && WakeOn(s, l) && Enabled(s, e) && Outside(e) && e != EpollDrop(l)
    ensures WakeOn(Apply(s, e), l)
  {
    if e.EpollTask? {
      AddedTask(s.tasks, Task(s.nextTask, e.l), l);
    }
    if e.l == l {
      KernelWakes(s.links[l], OnThis(s.worker, l), HasTask(s.tasks, l));
    } else {
      BystanderWakes(s, Apply(s, e), l);
    }
  }

  lemma WorkerTakeWakes(s: Sys, l: nat)
    requires WakeOn(s, l) && Enabled(s, WorkerTake)
    ensures WakeOn(Apply(s, WorkerTake), l)
  {
  }

  lemma WorkerEndWakes(s: Sys, e: Event, l: nat)
    requires WakeOn(s, l) && Enabled(s, e) && (e.WorkerRequeue? || e.WorkerFree?)
    ensures WakeOn(Apply(s, e), l)
  {
  }

  lemma WorkerOnLinkWakes(s: Sys, e: Event, l: nat)
    requires LinksOk(s) && WakeOn(s, l) && Enabled(s, e) && Reliable(s, e, l)
    requires e.WorkerRefuses? || e.WorkerTop? || e.WorkerSend? || e.WorkerPop?
    requires s.worker.task.hld == l
    ensures WakeOn(Apply(s, e), l)
  {
    var task, ls, q := s.worker.task, s.links[l], HasTask(s.tasks, l);
    assert OnThis(s.worker, l) == s.worker && LinkOk(ls, s.worker);
    if e.WorkerSend? {
      WorkerSendShape(ls, task, s.worker.addr, e.a);
      WorkerSendWakes(ls, task, s.worker.addr, e.a, q);
    } else if e.WorkerPop? {
      WorkerPopOk(ls, task, s.worker.addr, e.ctl);
      WorkerPopWakes(ls, task, s.worker.addr, e.ctl, q);
    }
  }

  lemma WorkerElsewhereWakes(s: Sys, e: Event, l: nat)
    requires LinksOk(s) && WakeOn(s, l) && Enabled(s, e)
    requires e.WorkerRefuses? || e.WorkerTop? || e.WorkerSend? || e.WorkerPop?
    requires s.worker.task.hld != l
    ensures WakeOn(Apply(s, e), l)
  {
    BystanderWakes(s, Apply(s, e), l);
  }

  lemma StepWakes(s: Sys, e: Event, l: nat)
    requires Inv(s) && WakeOn(s, l) && Enabled(s, e) && Reliable(s, e, l)
    ensures WakeOn(Apply(s, e), l)
  {
    if Outside(e) {
      OutsideStepWakes(s, e, l);
    } else if e.WriteBegin? || e.WriteCheck? || e.WriteSend? || e.WriteQueue? {
      WriterStepWakes(s, e, l);
    } else if e.WorkerTake? {
      WorkerTakeWakes(s, l);
    } else if e.WorkerRequeue? || e.WorkerFree? {
      WorkerEndWakes(s, e, l);
    } else if e.WorkerRefuses? || e.WorkerTop? || e.WorkerSend? || e.WorkerPop? {
      if s.worker.task.hld == l {
        WorkerOnLinkWakes(s, e, l);
      } else {
        WorkerElsewhereWakes(s, e, l);
      }
    }
  }

  lemma {:induction false} RunWakes(s: Sys, es: seq<Event>, l: nat)
    requires Inv(s) && WakeOn(s, l) && Runs(s, es) && AllReliable(s, es, l)
    ensures WakeOn(After(s, es), l)
    decreases |es|
  {
    if es == [] {
    } else {
      StepKeepsInv(s, es[0]);
      StepWakes(s, es[0], l);
      RunWakes(Apply(s, es[0]), es[1..], l);
    }
  }

  /** A state some run leads to in which the two ignored answers were good for link `l`. */
  ghost predicate ReachedWell(s0: Sys, es: seq<Event>, s: Sys, l: nat) {
    Reached(s0, es, s) && l in s.links && AllReliable(s0, es, l)
  }

  lemma ReachedWakeful(s0: Sys, es: seq<Event>, s: Sys, l: nat)
    requires ReachedWell(s0, es, s, l)
    ensures Inv(s) && WakeOn(s, l)
  {
    InitialInv(s0);
    LinksStay(s0, es);
    RunKeepsInv(s0, es);
    RunWakes(s0, es, l);
  }

  /** A non-empty queue always has a task, the worker, a fetched event, or an event to come. */
  lemma NoLostWakeUp(s0: Sys, es: seq<Event>, s: Sys, l: nat)
    requires ReachedWell(s0, es, s, l) && !s.links[l].dead
    requires s.links[l].fifo.list != []
    ensures var ls := s.links[l];
      || HasTask(s.tasks, l)
      || (!s.worker.Waiting? && !s.worker.Freeing? && s.worker.task.hld == l)
      || ls.fetched
      || (ls.k.armed && (ls.k.full || ls.k.pending))
  {
    ReachedWakeful(s0, es, s, l);
  }

  /** Nobody has anything left to do for this link, and the kernel has room. */
  ghost predicate Quiescent(s: Sys, l: nat)
    requires l in s.links
  {
    var ls := s.links[l];
    && !HasTask(s.tasks, l) && OnThis(s.worker, l).Waiting?
    && ls.writer.Idle? && !ls.fetched && !ls.k.pending && !ls.k.full
  }

  lemma QuiescentLinkIsDrained(s: Sys, l: nat)
    requires Inv(s) && WakeOn(s, l) && !s.links[l].dead && Quiescent(s, l)
    ensures s.links[l].fifo == NO_FIFO && !s.links[l].k.armed
    ensures s.links[l].k.sent == Concat(s.links[l].parts)
  {
    var ls := s.links[l];
    assert LinkOk(ls, Waiting) && Wake(ls, Waiting, false);
    assert ls.k.sent + [] + [] == ls.k.sent && Concat(ls.parts) + [] == Concat(ls.parts);
  }

  /** The protocol cannot come to rest with bytes behind: at rest the wire is exactly what was written. */
  lemma QuiescentIsDrained(s0: Sys, es: seq<Event>, s: Sys, l: nat)
    requires ReachedWell(s0, es, s, l) && !s.links[l].dead && Quiescent(s, l)
    ensures s.links[l].fifo == NO_FIFO && !s.links[l].k.armed
    ensures s.links[l].k.sent == Concat(s.links[l].parts)
    ensures s.links[l].k.sent == Concat(s.links[l].written) <==> s.links[l].parts == s.links[l].written
  {
    ReachedWakeful(s0, es, s, l);
    QuiescentLinkIsDrained(s, l);
    assert OnThis(s.worker, l) == Waiting && PartsOk(s.links[l]);
  }
}
