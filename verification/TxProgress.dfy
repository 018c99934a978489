/**
 Progress: the transmit side does not go on for ever without new input, and when it can go no further
 everything has been sent.
 */
module TxProgress {
  import opened Basics
  import opened TxQueue
  import opened TxProtocol
  import opened TxInvariant
  import opened TxTheorems
  import opened TxWakeUp

  // ---- A bound on what is left to do ----

  function WriterWork(w: Writer): nat {
    match w
    case Idle => 0
    case Queueing(n) => 12 + |Tail(n)|
    case Direct(n) => 13 + |Tail(n)|
    case Entered(n) => 14 + |Tail(n)|
  }

  function LinkWork(ls: LinkState): nat {
    5 * |ls.fifo.list| + |Tails(ls.fifo.list)| + WriterWork(ls.writer)
      + (if ls.k.full then 7 else 0) + (if ls.k.pending then 6 else 0) + (if ls.fetched then 5 else 0)
  }

  function WorkerWork(w: Worker): nat {
    match w
    case Waiting => 0
    case Freeing(_) => 1
    case Popping(_, _) => 1
    case Sending(_, _) => 2
    case Taken(_) => 3
    case Requeueing(_) => 5
  }

  ghost function Pick(m: map<nat, nat>): (k: nat)
    requires m.Keys != {}
    ensures k in m
  {
    var k :| k in m.Keys;
    k
  }

  ghost function Total(m: map<nat, nat>): nat
    decreases |m|
  {
    if m.Keys == {} then 0 else m[Pick(m)] + Total(m - {Pick(m)})
  }

  /** The sum does not depend on the order in which the keys are picked. */
  lemma {:induction false} TotalWithout(m: map<nat, nat>, k: nat)
    requires k in m
    ensures Total(m) == m[k] + Total(m - {k})
    decreases |m|
  {
    var p := Pick(m);
    if k == p {
    } else {
      TotalWithout(m - {p}, k);
      TotalWithout(m - {k}, p);
      assert m - {p} - {k} == m - {k} - {p};
    }
  }

  function Works(links: map<nat, LinkState>): map<nat, nat> {
    map l | l in links :: LinkWork(links[l])
  }

  ghost function LinksWork(links: map<nat, LinkState>): nat {
    Total(Works(links))
  }

  ghost function Work(s: Sys): nat {
    LinksWork(s.links) + 4 * |s.tasks| + WorkerWork(s.worker) + if s.pool.Stopping? then 1 else 0
  }

  lemma WorkOfPut(links: map<nat, LinkState>, l: nat, ls: LinkState)
    requires l in links
    ensures LinksWork(links[l := ls]) + LinkWork(links[l]) == LinksWork(links) + LinkWork(ls)
  {
    var m, m' := Works(links), Works(links[l := ls]);
    TotalWithout(m, l);
    TotalWithout(m', l);
    assert m' - {l} == m - {l};
  }

  // ---- What is put in from outside ----

  /**
   The work a step brings in from outside: a new packet, congestion, a signal, incoming data, an
   interrupted send, an empty turn of the kernel, the order to stop. Every other step brings none,
   whatever it is answered.
   */
  function Input(s: Sys, e: Event): nat
    requires Enabled(s, e)
  {
    match e
    case WriteBegin(_, packet, _) => 15 + |packet|
    case KernelFills(_) => 8
    case KernelSignals(_) => 7
    case KernelReceives(_) => 7
    case KernelDrains(l) => if s.links[l].k.full then 0 else 1
    case WriteSend(_, a) => if a.Intr? then 1 else 0
    case WorkerSend(a) => if a.Intr? then 1 else 0
    case PoolStops => 2
    case _ => 0
  }

  /** A step of the threads and the kernel that needs nothing from outside. */
  ghost predicate Settles(s: Sys, e: Event) {
    Enabled(s, e) && Input(s, e) == 0
  }

  // ---- Every settling step does some of the work ----

  lemma DirectSettles(ls: LinkState, a: SendAnswer)
    requires ls.writer.Direct? && NodeOk(ls.writer.node) && !a.Intr?
    ensures LinkWork(SendWrite(ls, a)) < LinkWork(ls)
  {
  }

  lemma QueueingSettles(ls: LinkState, ctl: int)
    requires ls.writer.Queueing?
    ensures LinkWork(QueueWrite(ls, ctl)) < LinkWork(ls)
  {
    TailsSnoc(ls.fifo.list, ls.writer.node);
  }

  lemma SendSettles(ls: LinkState, task: Task, addr: nat, a: SendAnswer)
    requires Shape(ls, Sending(task, addr)) && !a.Intr?
    ensures LinkWork(SendQueued(ls, 0, a)) + WorkerWork(AfterSend(task, addr, ls.fifo.list[0], a))
      < LinkWork(ls) + WorkerWork(Sending(task, addr))
  {
  }

  lemma PopSettles(ls: LinkState, task: Task, addr: nat, ctl: int)
    requires Shape(ls, Popping(task, addr))
    ensures PopFrom(ls.fifo).node.Some?
    ensures LinkWork(PopQueued(ls, ctl)) + WorkerWork(Requeueing(task)) < LinkWork(ls) + WorkerWork(Popping(task, addr))
  {
  }

  lemma WorkAfter(s: Sys, l: nat, ls: LinkState, w: Worker)
    requires l in s.links
    ensures Work(Put(s, l, ls).(worker := w)) + LinkWork(s.links[l]) + WorkerWork(s.worker)
      == Work(s) + LinkWork(ls) + WorkerWork(w)
  {
    WorkOfPut(s.links, l, ls);
  }

  lemma LessWork(s: Sys, l: nat, ls: LinkState, w: Worker, s': Sys)
    requires l in s.links && s' == Put(s, l, ls).(worker := w)
    requires LinkWork(ls) + WorkerWork(w) < LinkWork(s.links[l]) + WorkerWork(s.worker)
    ensures Work(s') < Work(s)
  {
    WorkAfter(s, l, ls, w);
  }

  lemma WriterStepSettles(s: Sys, e: Event)
    requires Settles(s, e) && (e.WriteCheck? || e.WriteSend? || e.WriteQueue?)
    requires WriterOk(s.links[e.l])
    ensures Work(Apply(s, e)) < Work(s)
  {
    var ls := s.links[e.l];
    match e
    case WriteCheck(l) =>
      WorkAfter(s, l, CheckWrite(ls), s.worker);
    case WriteSend(l, a) =>
      DirectSettles(ls, a);
      WorkAfter(s, l, SendWrite(ls, a), s.worker);
    case WriteQueue(l, ctl) =>
      QueueingSettles(ls, ctl);
      WorkAfter(s, l, QueueWrite(ls, ctl), s.worker);
  }

  lemma KernelStepSettles(s: Sys, e: Event)
    requires Settles(s, e) && (e.KernelDrains? || e.EpollFetch? || e.EpollTask? || e.EpollDrop?)
    ensures Work(Apply(s, e)) < Work(s)
  {
    WorkOfPut(s.links, e.l, Apply(s, e).links[e.l]);
  }

  lemma WorkerTopSettles(s: Sys, e: Event)
    requires Settles(s, e) && (e.WorkerRefuses? || e.WorkerTop?)
    ensures Work(Apply(s, e)) < Work(s)
  {
    var l := s.worker.task.hld;
    WorkOfPut(s.links, l, Apply(s, e).links[l]);
  }

  lemma WorkerSendSettles(s: Sys, a: SendAnswer)
    requires Settles(s, WorkerSend(a)) && Shape(s.links[s.worker.task.hld], s.worker)
    ensures Work(Apply(s, WorkerSend(a))) < Work(s)
  {
    var task, addr := s.worker.task, s.worker.addr;
    var ls := s.links[task.hld];
    WorkerSendShape(ls, task, addr, a);
    SendSettles(ls, task, addr, a);
    WorkAfter(s, task.hld, SendQueued(ls, 0, a), AfterSend(task, addr, ls.fifo.list[0], a));
  }

  lemma PopIsPut(s: Sys, ctl: int)
    requires Enabled(s, WorkerPop(ctl)) && PopFrom(s.links[s.worker.task.hld].fifo).node.Some?
    ensures var l := s.worker.task.hld;
      Apply(s, WorkerPop(ctl)) == Put(s, l, PopQueued(s.links[l], ctl)).(worker := Requeueing(s.worker.task))
  {
  }

  lemma WorkerPopSettles(s: Sys, ctl: int)
    requires Enabled(s, WorkerPop(ctl)) && Shape(s.links[s.worker.task.hld], s.worker)
    ensures Work(Apply(s, WorkerPop(ctl))) < Work(s)
  {
    var l := s.worker.task.hld;
    PopSettles(s.links[l], s.worker.task, s.worker.addr, ctl);
    PopIsPut(s, ctl);
    LessWork(s, l, PopQueued(s.links[l], ctl), Requeueing(s.worker.task), Apply(s, WorkerPop(ctl)));
  }

  lemma ShapeOf(s: Sys, l: nat)
    requires Inv(s) && l in s.links
    ensures Shape(s.links[l], OnThis(s.worker, l))
  {
  }

  lemma WorkerHandSettles(s: Sys, e: Event)
    requires Settles(s, e)
    requires e.WorkerTake? || e.WorkerRequeue? || e.WorkerFree? || e.WorkerExit? || e.PoolClears?
    ensures Work(Apply(s, e)) < Work(s)
  {
  }

  lemma WorkerStepSettles(s: Sys, e: Event)
    requires Inv(s) && Settles(s, e) && (e.WorkerSend? || e.WorkerPop?)
    ensures Work(Apply(s, e)) < Work(s)
  {
    ShapeOf(s, s.worker.task.hld);
    if e.WorkerSend? {
      WorkerSendSettles(s, e.a);
    } else {
      WorkerPopSettles(s, e.ctl);
    }
  }

  lemma StepSettles(s: Sys, e: Event)
    requires Inv(s) && Settles(s, e)
    ensures Work(Apply(s, e)) < Work(s)
  {
    match e
    case WorkerTake => WorkerHandSettles(s, e);
    case WorkerRequeue => WorkerHandSettles(s, e);
    case WorkerFree => WorkerHandSettles(s, e);
    case WorkerExit => WorkerHandSettles(s, e);
    case PoolClears => WorkerHandSettles(s, e);
    case WorkerRefuses => WorkerTopSettles(s, e);
    case WorkerTop => WorkerTopSettles(s, e);
    case WorkerSend(_) => WorkerStepSettles(s, e);
    case WorkerPop(_) => WorkerStepSettles(s, e);
    case WriteCheck(l) => ShapeOf(s, l); WriterStepSettles(s, e);
    case WriteSend(l, _) => ShapeOf(s, l); WriterStepSettles(s, e);
    case WriteQueue(l, _) => ShapeOf(s, l); WriterStepSettles(s, e);
    case KernelDrains(_) => KernelStepSettles(s, e);
    case EpollFetch(_) => KernelStepSettles(s, e);
    case EpollTask(_) => KernelStepSettles(s, e);
    case EpollDrop(_) => KernelStepSettles(s, e);
  }

  // ---- And every other step brings in more than it takes ----

  /** An interrupted send leaves everything as it is. */
  lemma InterruptedStep(s: Sys, e: Event)
    requires Inv(s) && Enabled(s, e) && (e.WriteSend? || e.WorkerSend?) && e.a.Intr?
    ensures Work(Apply(s, e)) <= Work(s)
  {
    if e.WriteSend? {
      ShapeOf(s, e.l);
      WorkOfPut(s.links, e.l, Apply(s, e).links[e.l]);
    } else {
      WorkerInterrupted(s, e.a);
    }
  }

  lemma WorkerInterrupted(s: Sys, a: SendAnswer)
    requires Inv(s) && Enabled(s, WorkerSend(a)) && a.Intr?
    ensures Work(Apply(s, WorkerSend(a))) == Work(s)
  {
    var l := s.worker.task.hld;
    var list := s.links[l].fifo.list;
    ShapeOf(s, l);
    WorkerSendShape(s.links[l], s.worker.task, s.worker.addr, a);
    assert NodeOk(list[0]) && list[0 := list[0]] == list;
    assert SendQueued(s.links[l], 0, a) == s.links[l];
    assert s.links[l := s.links[l]] == s.links;
  }

  lemma OutsideInput(s: Sys, e: Event)
    requires Enabled(s, e)
    requires e.WriteBegin? || e.KernelFills? || e.KernelSignals? || e.KernelReceives? || e.KernelDrains?
    ensures Work(Apply(s, e)) + 1 <= Work(s) + Input(s, e)
  {
    WorkOfPut(s.links, e.l, Apply(s, e).links[e.l]);
  }

  lemma StepBound(s: Sys, e: Event)
    requires Inv(s) && Enabled(s, e)
    ensures Work(Apply(s, e)) + 1 <= Work(s) + Input(s, e)
  {
    if Settles(s, e) {
      StepSettles(s, e);
    } else if e.WriteSend? || e.WorkerSend? {
      InterruptedStep(s, e);
    } else if !e.PoolStops? {
      OutsideInput(s, e);
    }
  }

  ghost function Inputs(s: Sys, es: seq<Event>): nat
    requires Runs(s, es)
    decreases |es|
  {
    if es == [] then 0 else Input(s, es[0]) + Inputs(Apply(s, es[0]), es[1..])
  }

  /**
   In every run, with any call failing, the number of steps and the work left at the end are at most the
   work there was and what was put in.
   */
  lemma {:induction false} RunBound(s: Sys, es: seq<Event>)
    requires Inv(s) && Runs(s, es)
    ensures |es| + Work(After(s, es)) <= Work(s) + Inputs(s, es)
    decreases |es|
  {
    if es == [] {
    } else {
      StepBound(s, es[0]);
      StepKeepsInv(s, es[0]);
      RunBound(Apply(s, es[0]), es[1..]);
    }
  }

  /** So without new input no schedule of threads and kernel goes on for ever. */
  lemma SettlingEnds(s: Sys, es: seq<Event>)
    requires Inv(s) && Runs(s, es) && Inputs(s, es) == 0
    ensures |es| <= Work(s)
  {
    RunBound(s, es);
  }

  ghost predicate AtRest(s: Sys) {
    forall e :: !Settles(s, e)
  }

  /** A good answer in place of a bad one. */
  function Better(e: Event): Event {
    match e
    case EpollDrop(l) => EpollTask(l)
    case WorkerPop(_) => WorkerPop(0)
    case _ => e
  }

  lemma BetterSettles(s: Sys, e: Event)
    requires Settles(s, e) && s.pool.Active?
    ensures Settles(s, Better(e)) && Apply(s, Better(e)).pool.Active?
    ensures forall l :: Reliable(s, Better(e), l)
  {
  }

  lemma Cons(s: Sys, e: Event, rest: seq<Event>)
    requires Settles(s, e) && Runs(Apply(s, e), rest)
    ensures Runs(s, [e] + rest) && After(s, [e] + rest) == After(Apply(s, e), rest)
    ensures Inputs(s, [e] + rest) == Inputs(Apply(s, e), rest)
    ensures forall l | Reliable(s, e, l) && AllReliable(Apply(s, e), rest, l) :: AllReliable(s, [e] + rest, l)
  {
  }

  lemma NextStep(s: Sys) returns (e: Event)
    requires Inv(s) && s.pool.Active? && !AtRest(s)
    ensures Settles(s, e) && Inv(Apply(s, e)) && Apply(s, e).pool.Active? && Work(Apply(s, e)) < Work(s)
    ensures forall l :: Reliable(s, e, l)
  {
    var e0 :| Settles(s, e0);
    e := Better(e0);
    BetterSettles(s, e0);
    StepSettles(s, e);
    StepKeepsInv(s, e);
  }

  /** A run that needs nothing from outside, with good answers for every link, to a state of rest. */
  ghost predicate ComesToRest(s: Sys, es: seq<Event>) {
    Runs(s, es) && Inputs(s, es) == 0 && AtRest(After(s, es)) && forall l :: AllReliable(s, es, l)
  }

  lemma NextComesToRest(s: Sys, e: Event, rest: seq<Event>)
    requires Settles(s, e) && (forall l :: Reliable(s, e, l)) && ComesToRest(Apply(s, e), rest)
    ensures ComesToRest(s, [e] + rest)
  {
  }

  /** While the pool runs, rest can be reached from everywhere. */
  lemma {:induction false} RestIsReachable(s: Sys) returns (es: seq<Event>)
    requires Inv(s) && s.pool.Active?
    ensures ComesToRest(s, es)
    decreases Work(s)
  {
    if AtRest(s) {
      es := [];
    } else {
      var e := NextStep(s);
      var rest := RestIsReachable(Apply(s, e));
      NextComesToRest(s, e, rest);
      es := [e] + rest;
    }
  }

  /** What the worker does next when the kernel answers at once. */
  function NextWorkerStep(s: Sys): Event {
    match s.worker
    case Waiting => WorkerTake
    case Taken(_) => WorkerTop
    case Sending(t, _) => WorkerSend(if t.hld in s.links && s.links[t.hld].k.full then Again else Took(0))
    case Popping(_, _) => WorkerPop(0)
    case Requeueing(_) => WorkerRequeue
    case Freeing(_) => WorkerFree
  }

  lemma WorkerGoesOn(s: Sys)
    requires Handles(s) && (!s.worker.Waiting? || (s.tasks != [] && !s.pool.Ended?))
    requires s.worker.Sending? ==> Shape(s.links[s.worker.task.hld], s.worker)
    ensures Settles(s, NextWorkerStep(s))
  {
  }

  lemma WorkerRests(s: Sys)
    requires Inv(s) && AtRest(s)
    ensures s.worker.Waiting? && s.tasks == []
  {
    assert !Settles(s, PoolClears);
    if !s.worker.Waiting? {
      ShapeOf(s, s.worker.task.hld);
      WorkerGoesOn(s);
    } else if s.tasks != [] && !s.pool.Ended? {
      WorkerGoesOn(s);
    }
  }

  lemma KernelRests(s: Sys, l: nat)
    requires AtRest(s) && l in s.links
    ensures var ls := s.links[l]; !ls.k.full && !ls.fetched && !ls.k.pending
  {
    assert !Settles(s, KernelDrains(l));
    assert !Settles(s, EpollDrop(l)) && !Settles(s, EpollFetch(l));
  }

  lemma WriterRests(s: Sys, l: nat)
    requires AtRest(s) && l in s.links && !s.links[l].k.full
    ensures s.links[l].writer.Idle?
  {
    assert !Settles(s, WriteCheck(l)) && !Settles(s, WriteSend(l, Took(0))) && !Settles(s, WriteQueue(l, 0));
  }

  /** If no settling step is possible, every thread is idle and every kernel has room. */
  lemma RestIsQuiescent(s: Sys, l: nat)
    requires Inv(s) && AtRest(s) && l in s.links
    ensures Quiescent(s, l)
  {
    WorkerRests(s);
    KernelRests(s, l);
    WriterRests(s, l);
  }

  /** An order to stop is carried out: in the end the thread is gone, and all tasks but the leaked one are freed. */
  lemma StopsInTheEnd(s0: Sys, es: seq<Event>, s: Sys, id: nat)
    requires Reached(s0, es, s) && AtRest(s) && !s.pool.Active?
    ensures s.pool.Ended? && s.tasks == [] && s.worker.Waiting?
    ensures s.freed[id] + s.leaked[id] == if id < s.nextTask then 1 else 0
  {
    ReachedInv(s0, es, s);
    WorkerRests(s);
    assert !Settles(s, WorkerExit);
    TaskOwnership(s0, es, s, id);
  }

  /**
   Eventual delivery to the wire. From every state reached with good answers for link `l`, take any run,
   with new packets, congestion and interruptions, in which the answers stay good for `l`: it is no longer
   than the work there was and what was put in, and where it can go no further the link, unless the
   worker has closed it, has an empty queue and its whole stream on the wire.
   */
  lemma {:induction false} EverythingIsSentInTheEnd(s0: Sys, es: seq<Event>, s: Sys, more: seq<Event>, l: nat)
    requires ReachedWell(s0, es, s, l) && Runs(s, more) && AllReliable(s, more, l)
    ensures |more| + Work(After(s, more)) <= Work(s) + Inputs(s, more)
    ensures l in After(s, more).links
    ensures var s' := After(s, more);
      var ls := s'.links[l];
      AtRest(s') && !ls.dead ==>
        && ls.fifo == NO_FIFO && ls.k.sent == Concat(ls.parts)
        && (ls.k.sent == Concat(ls.written) <==> ls.parts == ls.written)
  {
    ReachedWakeful(s0, es, s, l);
    RunBound(s, more);
    RunKeepsInv(s, more);
    RunWakes(s, more, l);
    RestIsDrained(After(s, more), l);
  }

  lemma RestIsDrained(s: Sys, l: nat)
    requires Inv(s) && WakeOn(s, l)
    ensures var ls := s.links[l];
      AtRest(s) && !ls.dead ==>
        && ls.fifo == NO_FIFO && ls.k.sent == Concat(ls.parts)
        && (ls.k.sent == Concat(ls.written) <==> ls.parts == ls.written)
  {
    if AtRest(s) && !s.links[l].dead {
      RestIsQuiescent(s, l);
      QuiescentLinkIsDrained(s, l);
      assert OnThis(s.worker, l) == Waiting && PartsOk(s.links[l]);
    }
  }
}
