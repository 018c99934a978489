/**
 The transmit side as a step machine: one serialised writer per link, one epoll thread per link,
 one worker thread for all links, and the kernel. A step is one critical section or one send(2).
 */
module TxProtocol {
  import opened Basics
  import opened TxQueue

  /**
   The kernel's view of one socket: bytes accepted, no room for more, EPOLLOUT in the interest set,
   and an EPOLLOUT event the epoll thread has not fetched yet.
   */
  datatype Kernel = Kernel(sent: Bytes, full: bool, armed: bool, pending: bool)

  /** tcp_write between its critical sections; `node` is private to the writer until it is queued. */
  datatype Writer = Idle | Entered(node: Node) | Direct(node: Node) | Queueing(node: Node)

  /**
   `fetched`: the epoll thread holds an EPOLLOUT event it has not turned into a task yet. `written`
   are the packets tcp_write has accepted; `parts` are these and, in write order among them, what had
   gone out of packets that were given up. `dead`: the worker has closed the link.
   */
  datatype LinkState = LinkState(
    k: Kernel, fifo: FifoState, writer: Writer, fetched: bool,
    written: seq<Bytes>, parts: seq<Bytes>, dead: bool)

  datatype Task = Task(id: nat, hld: nat)

  /** __wp_run and __wp_exec between their critical sections; `addr` is the pointer fifo_top gave. */
  datatype Worker =
    | Waiting
    | Taken(task: Task)
    | Sending(task: Task, addr: nat)
    | Popping(task: Task, addr: nat)
    | Requeueing(task: Task)
    | Freeing(task: Task)

  /** `actived` and the thread: running, told to stop, or gone. */
  datatype Pool = Active | Stopping | Ended

  /** `leaked` are tasks that were neither queued again nor freed. */
  datatype Sys = Sys(
    links: map<nat, LinkState>, tasks: seq<Task>, worker: Worker, pool: Pool,
    nextTask: nat, freed: multiset<nat>, leaked: multiset<nat>)

  /**
   `addr` is where malloc puts the node: any address no live node has. EpollDrop is wp_queued failing,
   which the epoll thread ignores; it fails for good once the pool has been told to stop. PoolClears is
   the clean-up of __wp_uninit after the thread has gone.
   */
  datatype Event =
    | WriteBegin(l: nat, packet: Bytes, addr: nat)
    | WriteCheck(l: nat)
    | WriteSend(l: nat, a: SendAnswer)
    | WriteQueue(l: nat, ctl: int)
    | KernelDrains(l: nat)
    | KernelFills(l: nat)
    | KernelSignals(l: nat)
    | KernelReceives(l: nat)
    | EpollFetch(l: nat)
    | EpollTask(l: nat)
    | EpollDrop(l: nat)
    | WorkerTake
    | WorkerRefuses
    | WorkerTop
    | WorkerSend(a: SendAnswer)
    | WorkerPop(ctl: int)
    | WorkerRequeue
    | WorkerFree
    | PoolStops
    | WorkerExit
    | PoolClears

  // ---- The kernel ----

  /** send answers EAGAIN exactly when there is no room. */
  predicate CanAnswer(k: Kernel, a: SendAnswer) {
    (a.Again? ==> k.full) && (a.Took? ==> !k.full)
  }

  /** Adding EPOLLOUT gives an event at once if there is room; asking for it again gives none. */
  function Arm(k: Kernel): Kernel {
    k.(armed := true, pending := k.pending || (!k.armed && !k.full))
  }

  function Disarm(k: Kernel, ctl: int): Kernel {
    if ctl < 0 then k else k.(armed := false, pending := false)
  }

  /** Room appears: an armed socket that was full signals. */
  function Drains(k: Kernel): Kernel {
    k.(full := false, pending := k.pending || (k.full && k.armed))
  }

  /** Data arrives: while both are watched, its event brings an EPOLLOUT event along if there is room. */
  function Receives(k: Kernel): Kernel {
    k.(pending := k.pending || (k.armed && !k.full))
  }

  // ---- Steps of one link ----

  function BeginWrite(ls: LinkState, packet: Bytes, addr: nat): LinkState {
    ls.(writer := Entered(Node(addr, packet, 0)))
  }

  function CheckWrite(ls: LinkState): LinkState
    requires ls.writer.Entered?
  {
    ls.(writer := if ls.fifo.blocking then Queueing(ls.writer.node) else Direct(ls.writer.node))
  }

  /** tcp_write reports success: the packet is on the wire or queued. */
  function Accept(ls: LinkState): LinkState
    requires !ls.writer.Idle?
  {
    ls.(writer := Idle, written := ls.written + [ls.writer.node.data], parts := ls.parts + [ls.writer.node.data])
  }

  /** tcp_write reports an error and frees the node; the link stays up, and what has gone out has gone out. */
  function GiveUp(ls: LinkState): LinkState
    requires !ls.writer.Idle?
  {
    var n := ls.writer.node;
    ls.(writer := Idle, parts := ls.parts + if Gone(n) == [] then [] else [Gone(n)])
  }

  function SendWrite(ls: LinkState, a: SendAnswer): LinkState
    requires ls.writer.Direct?
  {
    var n := ls.writer.node;
    var k := ls.k.(sent := ls.k.sent + TxnBytes(n, a));
    match TxnStep(n, a)
    case Going(n') => ls.(k := k, writer := Direct(n'))
    case Done(_) => Accept(ls.(k := k))
    case Blocked => ls.(writer := Queueing(n))
    case Broken => GiveUp(ls)
  }

  function QueueWrite(ls: LinkState, ctl: int): LinkState
    requires ls.writer.Queueing?
  {
    var q := QueueOn(ls.fifo, ls.writer.node, ctl);
    if q.ret < 0 then GiveUp(ls)
    else Accept(ls.(fifo := q.fifo, k := if q.arms then Arm(ls.k) else ls.k))
  }

  /** The place of the node a pointer points to. */
  function Find(list: seq<Node>, addr: nat): (i: nat)
    ensures i <= |list| && (i < |list| ==> list[i].addr == addr)
    ensures forall j | 0 <= j < i :: list[j].addr != addr
  {
    if list == [] || list[0].addr == addr then 0 else 1 + Find(list[1..], addr)
  }

  /** The worker's send through its pointer: the node may be anywhere in the queue. */
  function SendQueued(ls: LinkState, i: nat, a: SendAnswer): LinkState
    requires i < |ls.fifo.list|
  {
    var n := ls.fifo.list[i];
    match TxnStep(n, a)
    case Going(n') =>
      ls.(fifo := ls.fifo.(list := ls.fifo.list[i := n']), k := ls.k.(sent := ls.k.sent + TxnBytes(n, a)))
    case Done(n') =>
      ls.(fifo := ls.fifo.(list := ls.fifo.list[i := n']), k := ls.k.(sent := ls.k.sent + TxnBytes(n, a)))
    case Blocked => ls
    case Broken => ls.(dead := true)
  }

  function AfterSend(task: Task, addr: nat, n: Node, a: SendAnswer): Worker {
    match TxnStep(n, a)
    case Going(_) => Sending(task, addr)
    case Done(_) => Popping(task, addr)
    case Blocked => Freeing(task)
    case Broken => Freeing(task)
  }

  function PopQueued(ls: LinkState, ctl: int): LinkState {
    var p := PopFrom(ls.fifo);
    ls.(fifo := p.fifo, k := if p.disarms then Disarm(ls.k, ctl) else ls.k)
  }

  // ---- The machine ----

  predicate OnLink(s: Sys) {
    s.worker != Waiting && s.worker.task.hld in s.links
  }

  predicate Enabled(s: Sys, e: Event) {
    match e
    case WriteBegin(l, packet, addr) =>
      && l in s.links && s.links[l].writer.Idle? && packet != []
      && Find(s.links[l].fifo.list, addr) == |s.links[l].fifo.list|
    case WriteCheck(l) => l in s.links && s.links[l].writer.Entered?
    case WriteSend(l, a) => l in s.links && s.links[l].writer.Direct? && CanAnswer(s.links[l].k, a)
    case WriteQueue(l, ctl) => l in s.links && s.links[l].writer.Queueing? && ctl <= 0
    case KernelDrains(l) => l in s.links
    case KernelFills(l) => l in s.links
    case KernelSignals(l) => l in s.links
    case KernelReceives(l) => l in s.links
    case EpollFetch(l) => l in s.links && s.links[l].k.pending && !s.links[l].fetched
    case EpollTask(l) => l in s.links && s.links[l].fetched && s.pool.Active?
    case EpollDrop(l) => l in s.links && s.links[l].fetched
    case WorkerTake => s.worker.Waiting? && s.tasks != [] && !s.pool.Ended?
    case WorkerRefuses => s.worker.Taken? && OnLink(s)
    case WorkerTop => s.worker.Taken? && OnLink(s)
    case WorkerSend(a) =>
      && s.worker.Sending? && OnLink(s)
      && var ls := s.links[s.worker.task.hld];
         CanAnswer(ls.k, a) && Find(ls.fifo.list, s.worker.addr) < |ls.fifo.list|
    case WorkerPop(ctl) => s.worker.Popping? && OnLink(s) && ctl <= 0
    case WorkerRequeue => s.worker.Requeueing?
    case WorkerFree => s.worker.Freeing?
    case PoolStops => s.pool.Active?
    case WorkerExit => s.worker.Waiting? && s.pool.Stopping?
    case PoolClears => s.pool.Ended? && s.tasks != []
  }

  function Ids(tasks: seq<Task>): multiset<nat> {
    if tasks == [] then multiset{} else multiset{tasks[0].id} + Ids(tasks[1..])
  }

  function Put(s: Sys, l: nat, ls: LinkState): Sys {
    s.(links := s.links[l := ls])
  }

  function Apply(s: Sys, e: Event): Sys
    requires Enabled(s, e)
  {
    match e
    case WriteBegin(l, packet, addr) => Put(s, l, BeginWrite(s.links[l], packet, addr))
    case WriteCheck(l) => Put(s, l, CheckWrite(s.links[l]))
    case WriteSend(l, a) => Put(s, l, SendWrite(s.links[l], a))
    case WriteQueue(l, ctl) => Put(s, l, QueueWrite(s.links[l], ctl))
    case KernelDrains(l) => Put(s, l, s.links[l].(k := Drains(s.links[l].k)))
    case KernelFills(l) => Put(s, l, s.links[l].(k := s.links[l].k.(full := true)))
    case KernelSignals(l) => Put(s, l, s.links[l].(k := s.links[l].k.(pending := true)))
    case KernelReceives(l) => Put(s, l, s.links[l].(k := Receives(s.links[l].k)))
    case EpollFetch(l) =>
      Put(s, l, s.links[l].(k := s.links[l].k.(pending := false), fetched := true))
    case EpollTask(l) =>
      Put(s, l, s.links[l].(fetched := false))
        .(tasks := s.tasks + [Task(s.nextTask, l)], nextTask := s.nextTask + 1)
    case EpollDrop(l) => Put(s, l, s.links[l].(fetched := false))
    case WorkerTake =>
      // __wp_run takes the task before it looks at `actived`.
      if s.pool.Active? then s.(worker := Taken(s.tasks[0]), tasks := s.tasks[1..])
      else s.(pool := Ended, tasks := s.tasks[1..], leaked := s.leaked + multiset{s.tasks[0].id})
    case WorkerRefuses =>
      var l := s.worker.task.hld;
      Put(s, l, s.links[l].(dead := true)).(worker := Freeing(s.worker.task))
    case WorkerTop =>
      var list := s.links[s.worker.task.hld].fifo.list;
      s.(worker := if list == [] then Freeing(s.worker.task) else Sending(s.worker.task, list[0].addr))
    case WorkerSend(a) =>
      var l := s.worker.task.hld;
      var i := Find(s.links[l].fifo.list, s.worker.addr);
      Put(s, l, SendQueued(s.links[l], i, a))
        .(worker := AfterSend(s.worker.task, s.worker.addr, s.links[l].fifo.list[i], a))
    case WorkerPop(ctl) =>
      var l := s.worker.task.hld;
      var s' := Put(s, l, PopQueued(s.links[l], ctl));
      if PopFrom(s.links[l].fifo).node.Some? then s'.(worker := Requeueing(s.worker.task))
      else s'.(worker := Waiting, leaked := s.leaked + multiset{s.worker.task.id})
    case WorkerRequeue => s.(worker := Waiting, tasks := s.tasks + [s.worker.task])
    case WorkerFree => s.(worker := Waiting, freed := s.freed + multiset{s.worker.task.id})
    case PoolStops => s.(pool := Stopping)
    case WorkerExit => s.(pool := Ended)
    case PoolClears => s.(tasks := [], freed := s.freed + Ids(s.tasks))
  }

  /** A run: every step enabled in the state the earlier ones lead to. */
  ghost predicate Runs(s: Sys, es: seq<Event>)
    decreases |es|
  {
    es == [] || (Enabled(s, es[0]) && Runs(Apply(s, es[0]), es[1..]))
  }

  function After(s: Sys, es: seq<Event>): Sys
    requires Runs(s, es)
    decreases |es|
  {
    if es == [] then s else After(Apply(s, es[0]), es[1..])
  }

  lemma {:induction false} RunsAppend(s: Sys, a: seq<Event>, b: seq<Event>)
    requires Runs(s, a) && Runs(After(s, a), b)
    ensures Runs(s, a + b) && After(s, a + b) == After(After(s, a), b)
    decreases |a|
  {
    if a == [] {
      assert a + b == b;
    } else {
      assert (a + b)[0] == a[0] && (a + b)[1..] == a[1..] + b;
      RunsAppend(Apply(s, a[0]), a[1..], b);
    }
  }

  /** These steps lead from `s` to `s'`. */
  ghost predicate Goes(s: Sys, es: seq<Event>, s': Sys) {
    Runs(s, es) && After(s, es) == s'
  }

  lemma GoesOn(s: Sys, a: seq<Event>, s1: Sys, b: seq<Event>, s2: Sys)
    requires Goes(s, a, s1) && Goes(s1, b, s2)
    ensures Goes(s, a + b, s2)
  {
    RunsAppend(s, a, b);
  }

  lemma GoesOne(s: Sys, e: Event)
    requires Enabled(s, e)
    ensures Goes(s, [e], Apply(s, e))
  {
  }

  const FRESH_LINK := LinkState(Kernel([], false, false, false), NO_FIFO, Idle, false, [], [], false)

  /** Established links, nothing written yet. */
  ghost predicate Initial(s: Sys) {
    && (forall l | l in s.links :: s.links[l] == FRESH_LINK)
    && s.tasks == [] && s.worker == Waiting && s.pool == Active && s.nextTask == 0
    && s.freed == multiset{} && s.leaked == multiset{}
  }
}
