/** What every step of the transmit protocol keeps. */
module TxInvariant {
  import opened Basics
  import opened TxQueue
  import opened TxProtocol

  // ---- One link, with the worker when it is on this link ----

  /** Only the head may be partly sent, and it is completely sent only while it waits to be popped. */
  ghost predicate ListOk(list: seq<Node>, w: Worker) {
    && (forall i | 0 <= i < |list| :: |list[i].data| > 0)
    && (forall i | 1 <= i < |list| :: list[i].offset == 0)
    && (list != [] ==> if w.Popping? then list[0].offset == |list[0].data| else NodeOk(list[0]))
  }

  /** While a packet is partly sent by its writer nothing is queued that could overtake it. */
  ghost predicate WriterOk(ls: LinkState) {
    match ls.writer
    case Idle => true
    case Entered(n) => NodeOk(n) && n.offset == 0
    case Direct(n) => NodeOk(n) && ls.fifo.list == []
    case Queueing(n) => NodeOk(n) && (n.offset > 0 ==> ls.fifo.list == [])
  }

  /** The worker's pointer is the head of the queue. */
  ghost predicate PointerOk(list: seq<Node>, w: Worker) {
    w.Sending? || w.Popping? ==> list != [] && list[0].addr == w.addr
  }

  /** Addresses tell nodes apart. */
  ghost predicate AddrsOk(ls: LinkState) {
    && (forall i, j | 0 <= i < j < |ls.fifo.list| :: ls.fifo.list[i].addr != ls.fifo.list[j].addr)
    && (!ls.writer.Idle? ==> forall i | 0 <= i < |ls.fifo.list| :: ls.fifo.list[i].addr != ls.writer.node.addr)
  }

  ghost predicate Shape(ls: LinkState, w: Worker) {
    && Coupled(ls.fifo)
    && (ls.fifo.blocking ==> ls.k.armed)
    && ListOk(ls.fifo.list, w)
    && WriterOk(ls)
    && PointerOk(ls.fifo.list, w)
    && AddrsOk(ls)
  }

  function InFlight(w: Writer): Bytes {
    if w.Idle? then [] else w.node.data
  }

  function Unsent(w: Writer): Bytes {
    if w.Idle? then [] else Tail(w.node)
  }

  /** The wire so far, what the queue owes, and what the writer still has to send. */
  function WholeStream(ls: LinkState): Bytes {
    ls.k.sent + Tails(ls.fifo.list) + Unsent(ls.writer)
  }

  /**
   Stream conservation: the whole stream is the packets accepted so far, with what had gone out of
   packets given up in between, and the packet being written.
   */
  ghost predicate Conserved(ls: LinkState) {
    WholeStream(ls) == Concat(ls.parts) + InFlight(ls.writer)
  }

  /** The stream carries the accepted packets and nothing else. */
  ghost predicate Exact(ls: LinkState) {
    WholeStream(ls) == Concat(ls.written) + InFlight(ls.writer)
  }

  /** Bytes of a packet given up never go away again. */
  ghost predicate PartsOk(ls: LinkState) {
    ls.parts == ls.written || |Concat(ls.parts)| > |Concat(ls.written)|
  }

  ghost predicate StreamOk(ls: LinkState) {
    Conserved(ls) && PartsOk(ls)
  }

  ghost predicate LinkOk(ls: LinkState, w: Worker) {
    Shape(ls, w) && StreamOk(ls)
  }

  lemma ExactIffNothingTorn(ls: LinkState)
    requires StreamOk(ls)
    ensures Exact(ls) <==> ls.parts == ls.written
  {
  }

  lemma BeginWriteOk(ls: LinkState, w: Worker, packet: Bytes, addr: nat)
    requires LinkOk(ls, w) && ls.writer.Idle? && packet != [] && Find(ls.fifo.list, addr) == |ls.fifo.list|
    ensures LinkOk(BeginWrite(ls, packet, addr), w)
  {
    var ls' := BeginWrite(ls, packet, addr);
    assert Unsent(ls'.writer) == packet;
    assert ls.k.sent + Tails(ls.fifo.list) + [] == ls.k.sent + Tails(ls.fifo.list);
    assert Concat(ls.parts) + [] == Concat(ls.parts);
  }

  lemma CheckWriteOk(ls: LinkState, w: Worker)
    requires LinkOk(ls, w) && ls.writer.Entered?
    ensures LinkOk(CheckWrite(ls), w)
  {
  }

  /** Sending moves bytes from what is owed to what is sent. */
  lemma Moved(sent: Bytes, bytes: Bytes, left: Bytes, owed: Bytes, behind: Bytes)
    requires bytes + left == owed
    ensures (sent + bytes) + (left + behind) == sent + (owed + behind)
    ensures (sent + bytes) + [] + left == sent + [] + owed
  {
  }

  lemma AcceptOk(ls: LinkState)
    requires !ls.writer.Idle? && PartsOk(ls)
    requires ls.k.sent + Tails(ls.fifo.list) == Concat(ls.parts) + ls.writer.node.data
    ensures StreamOk(Accept(ls))
  {
    var data := ls.writer.node.data;
    ConcatSnoc(ls.parts, data);
    ConcatSnoc(ls.written, data);
    assert ls.k.sent + Tails(ls.fifo.list) + [] == ls.k.sent + Tails(ls.fifo.list);
    assert Concat(ls.parts + [data]) + [] == Concat(ls.parts + [data]);
  }

  /** Only a packet that had begun to go out leaves a trace when it is given up. */
  lemma GiveUpOk(ls: LinkState)
    requires StreamOk(ls) && !ls.writer.Idle? && NodeOk(ls.writer.node)
    requires ls.writer.node.offset > 0 ==> ls.fifo.list == []
    ensures StreamOk(GiveUp(ls))
    ensures ls.parts == ls.written ==> (Exact(GiveUp(ls)) <==> ls.writer.node.offset == 0)
  {
    var n, owed := ls.writer.node, ls.k.sent + Tails(ls.fifo.list);
    assert n.data == Gone(n) + Tail(n);
    Assoc(Concat(ls.parts), Gone(n), Tail(n));
    CancelRight(owed, Concat(ls.parts) + Gone(n), Tail(n));
    assert owed + [] == owed;
    if Gone(n) == [] {
      assert Concat(ls.parts) + [] == Concat(ls.parts) && GiveUp(ls).parts == ls.parts;
    } else {
      ConcatSnoc(ls.parts, Gone(n));
      assert Concat(ls.parts + [Gone(n)]) + [] == Concat(ls.parts) + Gone(n);
    }
    ExactIffNothingTorn(GiveUp(ls));
  }

  /** A direct send moves bytes from the writer's packet to the wire and keeps the stream. */
  lemma SendWriteConserves(ls: LinkState, a: SendAnswer)
    requires ls.writer.Direct? && NodeOk(ls.writer.node) && ls.fifo.list == [] && StreamOk(ls)
    ensures StreamOk(SendWrite(ls, a))
  {
    var n := ls.writer.node;
    TxnMovesBytes(n, a);
    match TxnStep(n, a)
    case Going(n') => Moved(ls.k.sent, TxnBytes(n, a), Tail(n'), Tail(n), []);
    case Done(n') =>
      assert Tail(n') == [];
      Moved(ls.k.sent, TxnBytes(n, a), [], Tail(n), []);
      AcceptOk(ls.(k := ls.k.(sent := ls.k.sent + TxnBytes(n, a))));
    case Blocked =>
    case Broken => GiveUpOk(ls);
  }

  lemma SendWriteShape(ls: LinkState, w: Worker, a: SendAnswer)
    requires Shape(ls, w) && ls.writer.Direct?
    ensures Shape(SendWrite(ls, a), w)
  {
  }

  lemma SendWriteOk(ls: LinkState, w: Worker, a: SendAnswer)
    requires LinkOk(ls, w) && ls.writer.Direct?
    ensures LinkOk(SendWrite(ls, a), w)
  {
    SendWriteShape(ls, w, a);
    SendWriteConserves(ls, a);
  }

  lemma QueueWriteConserves(ls: LinkState, ctl: int)
    requires Coupled(ls.fifo) && WriterOk(ls) && ls.writer.Queueing? && StreamOk(ls) && ctl <= 0
    ensures StreamOk(QueueWrite(ls, ctl))
  {
    var n := ls.writer.node;
    var q := QueueOn(ls.fifo, n, ctl);
    QueueKeeps(ls.fifo, n, ctl);
    if q.ret < 0 {
      GiveUpOk(ls);
    } else {
      Assoc(ls.k.sent, Tails(ls.fifo.list), Tail(n));
      AcceptOk(ls.(fifo := q.fifo, k := if q.arms then Arm(ls.k) else ls.k));
    }
  }

  lemma AppendedListOk(list: seq<Node>, n: Node, w: Worker)
    requires ListOk(list, w) && PointerOk(list, w) && NodeOk(n) && (n.offset > 0 ==> list == [])
    ensures ListOk(list + [n], w) && PointerOk(list + [n], w)
  {
  }

  lemma AppendedAddrsOk(list: seq<Node>, n: Node)
    requires forall i, j | 0 <= i < j < |list| :: list[i].addr != list[j].addr
    requires forall i | 0 <= i < |list| :: list[i].addr != n.addr
    ensures forall i, j | 0 <= i < j < |list + [n]| :: (list + [n])[i].addr != (list + [n])[j].addr
  {
  }

  lemma QueueWriteShape(ls: LinkState, w: Worker, ctl: int)
    requires Shape(ls, w) && ls.writer.Queueing? && ctl <= 0
    ensures Shape(QueueWrite(ls, ctl), w)
  {
    QueueKeeps(ls.fifo, ls.writer.node, ctl);
    AppendedListOk(ls.fifo.list, ls.writer.node, w);
    AppendedAddrsOk(ls.fifo.list, ls.writer.node);
  }

  lemma QueueWriteOk(ls: LinkState, w: Worker, ctl: int)
    requires LinkOk(ls, w) && ls.writer.Queueing? && ctl <= 0
    ensures LinkOk(QueueWrite(ls, ctl), w)
  {
    QueueWriteShape(ls, w, ctl);
    QueueWriteConserves(ls, ctl);
  }

  /** The kernel's flags, as far as the interest set stays, are no business of the link's shape. */
  lemma KernelOk(ls: LinkState, w: Worker, k: Kernel, fetched: bool, dead: bool)
    requires LinkOk(ls, w) && k.sent == ls.k.sent && k.armed == ls.k.armed
    ensures LinkOk(ls.(k := k, fetched := fetched, dead := dead), w)
  {
  }

  // ---- The worker on this link ----

  /** Moving between critical sections changes nothing unless the worker holds a pointer. */
  lemma MovesOk(ls: LinkState, w: Worker, w': Worker)
    requires LinkOk(ls, w) && !w.Popping? && !w'.Popping?
    requires w'.Sending? ==> ls.fifo.list != [] && ls.fifo.list[0].addr == w'.addr
    ensures LinkOk(ls, w')
  {
  }

  /** The pointer leads to the head, so the worker's send moves exactly the oldest owed bytes. */
  lemma WorkerSendConserves(ls: LinkState, a: SendAnswer)
    requires ls.fifo.list != [] && NodeOk(ls.fifo.list[0]) && StreamOk(ls)
    ensures StreamOk(SendQueued(ls, 0, a))
  {
    var list := ls.fifo.list;
    var n := list[0];
    TxnMovesBytes(n, a);
    var st := TxnStep(n, a);
    if st.Going? || st.Done? {
      assert list[0 := st.node][1..] == list[1..];
      Moved(ls.k.sent, TxnBytes(n, a), Tail(st.node), Tail(n), Tails(list[1..]));
    }
  }

  lemma WorkerSendShape(ls: LinkState, task: Task, addr: nat, a: SendAnswer)
    requires Shape(ls, Sending(task, addr))
    ensures ls.fifo.list != [] && Find(ls.fifo.list, addr) == 0
    ensures Shape(SendQueued(ls, 0, a), AfterSend(task, addr, ls.fifo.list[0], a))
  {
  }

  lemma WorkerSendOk(ls: LinkState, task: Task, addr: nat, a: SendAnswer)
    requires LinkOk(ls, Sending(task, addr))
    ensures ls.fifo.list != [] && Find(ls.fifo.list, addr) == 0
    ensures LinkOk(SendQueued(ls, 0, a), AfterSend(task, addr, ls.fifo.list[0], a))
  {
    WorkerSendShape(ls, task, addr, a);
    WorkerSendConserves(ls, a);
  }

  /** What is popped is the node the worker has just sent, complete; its going changes no owed byte. */
  lemma WorkerPopOk(ls: LinkState, task: Task, addr: nat, ctl: int)
    requires LinkOk(ls, Popping(task, addr))
    ensures var p := PopFrom(ls.fifo);
      && p.node.Some? && p.node.value.addr == addr
      && p.node.value.offset == |p.node.value.data|
      && LinkOk(PopQueued(ls, ctl), Requeueing(task))
  {
    var list := ls.fifo.list;
    assert Tail(list[0]) == [] && [] + Tails(list[1..]) == Tails(list[1..]);
    PopKeeps(ls.fifo);
    assert forall i | 0 <= i < |list[1..]| :: list[1..][i] == list[i + 1];
  }

  // ---- The whole system ----

  function OnThis(w: Worker, l: nat): Worker {
    if !w.Waiting? && w.task.hld == l then w else Waiting
  }

  function InHand(w: Worker): multiset<nat> {
    if w.Waiting? then multiset{} else multiset{w.task.id}
  }

  /** The ids given out so far, each once. */
  function Issued(n: nat): multiset<nat> {
    if n == 0 then multiset{} else Issued(n - 1) + multiset{n - 1}
  }

  /** Every task ever made is queued, in the worker's hand, freed or leaked: in one place, once. */
  ghost predicate Accounted(s: Sys) {
    Ids(s.tasks) + InHand(s.worker) + s.freed + s.leaked == Issued(s.nextTask)
  }

  /** The thread ends between two tasks, and at most one task is lost, then. */
  ghost predicate PoolOk(s: Sys) {
    && (s.pool.Ended? ==> s.worker.Waiting?)
    && (!s.pool.Ended? ==> s.leaked == multiset{})
    && |s.leaked| <= 1
  }

  ghost predicate Handles(s: Sys) {
    && (!s.worker.Waiting? ==> s.worker.task.hld in s.links)
    && forall t | t in s.tasks :: t.hld in s.links
  }

  ghost predicate LinksOk(s: Sys) {
    forall l {:trigger OnThis(s.worker, l)} | l in s.links :: LinkOk(s.links[l], OnThis(s.worker, l))
  }

  ghost predicate Inv(s: Sys) {
    Handles(s) && LinksOk(s) && Accounted(s) && PoolOk(s)
  }

  lemma InitialInv(s: Sys)
    requires Initial(s)
    ensures Inv(s)
  {
  }

  lemma {:induction false} IdsSnoc(tasks: seq<Task>, t: Task)
    ensures Ids(tasks + [t]) == Ids(tasks) + multiset{t.id}
    decreases |tasks|
  {
    if tasks == [] {
      assert tasks + [t] == [t] && [t][1..] == [];
    } else {
      assert (tasks + [t])[1..] == tasks[1..] + [t];
      IdsSnoc(tasks[1..], t);
    }
  }

  lemma {:induction false} IssuedOnce(n: nat, id: nat)
    ensures Issued(n)[id] == if id < n then 1 else 0
  {
    if n == 0 {
    } else {
      IssuedOnce(n - 1, id);
    }
  }

  /** A step changes one link and perhaps the worker's place on it; the other links do not notice. */
  lemma PutOk(s: Sys, l: nat, ls: LinkState, w: Worker, s': Sys)
    requires LinksOk(s) && l in s.links
    requires s.worker == w || (OnThis(s.worker, l) == s.worker && OnThis(w, l) == w)
    requires LinkOk(ls, OnThis(w, l))
    requires s'.links == s.links[l := ls] && s'.worker == w
    ensures LinksOk(s')
  {
    forall m | m in s'.links
      ensures LinkOk(s'.links[m], OnThis(s'.worker, m))
    {
      assert m != l ==> OnThis(s'.worker, m) == OnThis(s.worker, m);
    }
  }

  lemma WriterStep(s: Sys, e: Event)
    requires LinksOk(s) && Enabled(s, e)
    requires e.WriteBegin? || e.WriteCheck? || e.WriteSend? || e.WriteQueue?
    ensures LinksOk(Apply(s, e))
  {
    var l, s' := e.l, Apply(s, e);
    var ls, w := s.links[l], OnThis(s.worker, l);
    match e {
      case WriteBegin(_, packet, addr) => BeginWriteOk(ls, w, packet, addr);
      case WriteCheck(_) => CheckWriteOk(ls, w);
      case WriteSend(_, a) => SendWriteOk(ls, w, a);
      case WriteQueue(_, ctl) => QueueWriteOk(ls, w, ctl);
    }
    PutOk(s, l, s'.links[l], s.worker, s');
  }

  /** The steps of the kernel and of the epoll thread. */
  predicate Outside(e: Event) {
    || e.KernelDrains? || e.KernelFills? || e.KernelSignals? || e.KernelReceives?
    || e.EpollFetch? || e.EpollTask? || e.EpollDrop?
  }

  lemma OutsideStep(s: Sys, e: Event)
    requires LinksOk(s) && Enabled(s, e) && Outside(e)
    ensures LinksOk(Apply(s, e))
  {
    var s' := Apply(s, e);
    var ls' := s'.links[e.l];
    KernelOk(s.links[e.l], OnThis(s.worker, e.l), ls'.k, ls'.fetched, ls'.dead);
    PutOk(s, e.l, ls', s.worker, s');
  }

  /** Only the worker moves, to, on or from link `l`. */
  lemma MoveOk(s: Sys, l: nat, s': Sys)
    requires LinksOk(s) && l in s.links && s'.links == s.links
    requires OnThis(s.worker, l) == s.worker && OnThis(s'.worker, l) == s'.worker
    requires LinkOk(s.links[l], s'.worker)
    ensures LinksOk(s')
  {
    forall m | m in s'.links
      ensures LinkOk(s'.links[m], OnThis(s'.worker, m))
    {
      assert m != l ==> OnThis(s'.worker, m) == OnThis(s.worker, m);
    }
  }

  lemma WorkerTakeStep(s: Sys)
    requires LinksOk(s) && Handles(s) && Enabled(s, WorkerTake)
    ensures LinksOk(Apply(s, WorkerTake))
  {
    var t, s' := s.tasks[0], Apply(s, WorkerTake);
    assert t in s.tasks && OnThis(s.worker, t.hld) == Waiting;
    MovesOk(s.links[t.hld], Waiting, s'.worker);
    MoveOk(s, t.hld, s');
  }

  lemma WorkerMoveStep(s: Sys, e: Event)
    requires LinksOk(s) && Handles(s) && Enabled(s, e)
    requires e.WorkerRequeue? || e.WorkerFree? || e.WorkerTop?
    ensures LinksOk(Apply(s, e))
  {
    var l := s.worker.task.hld;
    assert OnThis(s.worker, l) == s.worker;
    MovesOk(s.links[l], s.worker, Apply(s, e).worker);
    MoveOk(s, l, Apply(s, e));
  }

  lemma WorkerRefusesStep(s: Sys)
    requires LinksOk(s) && Enabled(s, WorkerRefuses)
    ensures LinksOk(Apply(s, WorkerRefuses))
  {
    var task, s' := s.worker.task, Apply(s, WorkerRefuses);
    var ls := s.links[task.hld];
    assert OnThis(s.worker, task.hld) == s.worker;
    KernelOk(ls, s.worker, ls.k, ls.fetched, true);
    MovesOk(ls.(dead := true), s.worker, Freeing(task));
    PutOk(s, task.hld, ls.(dead := true), Freeing(task), s');
  }

  lemma WorkerSendStep(s: Sys, a: SendAnswer)
    requires LinksOk(s) && Enabled(s, WorkerSend(a))
    ensures LinksOk(Apply(s, WorkerSend(a)))
  {
    var task, addr, s' := s.worker.task, s.worker.addr, Apply(s, WorkerSend(a));
    var ls := s.links[task.hld];
    assert OnThis(s.worker, task.hld) == s.worker;
    WorkerSendOk(ls, task, addr, a);
    PutOk(s, task.hld, SendQueued(ls, 0, a), AfterSend(task, addr, ls.fifo.list[0], a), s');
  }

  lemma WorkerPopStep(s: Sys, ctl: int)
    requires LinksOk(s) && Enabled(s, WorkerPop(ctl))
    ensures LinksOk(Apply(s, WorkerPop(ctl)))
    ensures PopFrom(s.links[s.worker.task.hld].fifo).node.Some?
  {
    var task := s.worker.task;
    var ls := s.links[task.hld];
    assert OnThis(s.worker, task.hld) == s.worker;
    WorkerPopOk(ls, task, s.worker.addr, ctl);
    PutOk(s, task.hld, PopQueued(ls, ctl), Requeueing(task), Apply(s, WorkerPop(ctl)));
  }

  /** The steps of starting and stopping the pool touch no link. */
  predicate Shuts(e: Event) {
    e.PoolStops? || e.WorkerExit? || e.PoolClears?
  }

  lemma ShutsStep(s: Sys, e: Event)
    requires LinksOk(s) && Enabled(s, e) && Shuts(e)
    ensures LinksOk(Apply(s, e))
  {
  }

  lemma StepKeepsLinks(s: Sys, e: Event)
    requires LinksOk(s) && Handles(s) && Enabled(s, e)
    ensures LinksOk(Apply(s, e))
  {
    if Outside(e) {
      OutsideStep(s, e);
    } else if Shuts(e) {
      ShutsStep(s, e);
    } else {
      match e
      case WriteBegin(_, _, _) => WriterStep(s, e);
      case WriteCheck(_) => WriterStep(s, e);
      case WriteSend(_, _) => WriterStep(s, e);
      case WriteQueue(_, _) => WriterStep(s, e);
      case WorkerTake => WorkerTakeStep(s);
      case WorkerTop => WorkerMoveStep(s, e);
      case WorkerRequeue => WorkerMoveStep(s, e);
      case WorkerFree => WorkerMoveStep(s, e);
      case WorkerRefuses => WorkerRefusesStep(s);
      case WorkerSend(a) => WorkerSendStep(s, a);
      case WorkerPop(ctl) => WorkerPopStep(s, ctl);
    }
  }

  lemma StepKeepsHandles(s: Sys, e: Event)
    requires Handles(s) && Enabled(s, e)
    ensures Handles(Apply(s, e))
  {
  }

  lemma SameAccount(s: Sys, s': Sys)
    requires Accounted(s)
    requires s'.tasks == s.tasks && s'.nextTask == s.nextTask
    requires s'.freed == s.freed && s'.leaked == s.leaked && InHand(s'.worker) == InHand(s.worker)
    ensures Accounted(s')
  {
  }

  lemma TaskIssued(tasks: seq<Task>, held: multiset<nat>, t: Task)
    requires Ids(tasks) + held == Issued(t.id)
    ensures Ids(tasks + [t]) + held == Issued(t.id + 1)
  {
    IdsSnoc(tasks, t);
    assert Ids(tasks) + multiset{t.id} + held == Ids(tasks) + held + multiset{t.id};
  }

  lemma Regroup(a: multiset<nat>, b: multiset<nat>, c: multiset<nat>, d: multiset<nat>)
    ensures a + b + c + d == a + (b + c + d)
  {
  }

  lemma TaskMade(s: Sys, l: nat)
    requires Accounted(s) && Enabled(s, EpollTask(l))
    ensures Accounted(Apply(s, EpollTask(l)))
  {
    var t := Task(s.nextTask, l);
    Regroup(Ids(s.tasks), InHand(s.worker), s.freed, s.leaked);
    Regroup(Ids(s.tasks + [t]), InHand(s.worker), s.freed, s.leaked);
    TaskIssued(s.tasks, InHand(s.worker) + s.freed + s.leaked, t);
  }

  lemma TaskTaken(s: Sys)
    requires Accounted(s) && Enabled(s, WorkerTake)
    ensures Accounted(Apply(s, WorkerTake))
  {
  }

  lemma TaskReturned(s: Sys)
    requires Accounted(s) && Enabled(s, WorkerRequeue)
    ensures Accounted(Apply(s, WorkerRequeue))
  {
    IdsSnoc(s.tasks, s.worker.task);
  }

  lemma TaskFreed(s: Sys)
    requires Accounted(s) && Enabled(s, WorkerFree)
    ensures Accounted(Apply(s, WorkerFree))
  {
  }

  lemma TasksCleared(s: Sys)
    requires Accounted(s) && Enabled(s, PoolClears)
    ensures Accounted(Apply(s, PoolClears))
  {
  }

  predicate MovesTask(e: Event) {
    e.EpollTask? || e.WorkerTake? || e.WorkerRequeue? || e.WorkerFree? || e.PoolClears?
  }

  lemma MovedTaskAccount(s: Sys, e: Event)
    requires Accounted(s) && Enabled(s, e) && MovesTask(e)
    ensures Accounted(Apply(s, e))
  {
    match e
    case EpollTask(l) => TaskMade(s, l);
    case WorkerTake => TaskTaken(s);
    case WorkerRequeue => TaskReturned(s);
    case WorkerFree => TaskFreed(s);
    case PoolClears => TasksCleared(s);
  }

  lemma OutsideAccount(s: Sys, e: Event)
    requires Accounted(s) && Enabled(s, e) && !MovesTask(e)
    requires !e.WorkerRefuses? && !e.WorkerTop? && !e.WorkerSend? && !e.WorkerPop?
    ensures Accounted(Apply(s, e))
  {
  }

  lemma WorkerAccount(s: Sys, e: Event)
    requires Accounted(s) && Enabled(s, e)
    requires e.WorkerRefuses? || e.WorkerTop? || e.WorkerSend? || e.WorkerPop?
    requires e.WorkerPop? ==> PopFrom(s.links[s.worker.task.hld].fifo).node.Some?
    ensures Accounted(Apply(s, e))
  {
    SameAccount(s, Apply(s, e));
  }

  /** Tasks change hands; while the pool runs, the one way to lose a task is a pop that finds nothing. */
  lemma StepKeepsAccount(s: Sys, e: Event)
    requires Accounted(s) && Enabled(s, e)
    requires e.WorkerPop? ==> PopFrom(s.links[s.worker.task.hld].fifo).node.Some?
    ensures Accounted(Apply(s, e))
  {
    if MovesTask(e) {
      MovedTaskAccount(s, e);
    } else if e.WorkerRefuses? || e.WorkerTop? || e.WorkerSend? || e.WorkerPop? {
      WorkerAccount(s, e);
    } else {
      OutsideAccount(s, e);
    }
  }

  /** A task is lost exactly when the worker looks into a non-empty list after the pool has been stopped. */
  lemma StepLeaks(s: Sys, e: Event)
    requires Enabled(s, e)
    requires e.WorkerPop? ==> PopFrom(s.links[s.worker.task.hld].fifo).node.Some?
    ensures Apply(s, e).leaked
      == if e.WorkerTake? && s.pool.Stopping? then s.leaked + multiset{s.tasks[0].id} else s.leaked
  {
  }

  lemma StepKeepsPool(s: Sys, e: Event)
    requires PoolOk(s) && Enabled(s, e)
    requires e.WorkerPop? ==> PopFrom(s.links[s.worker.task.hld].fifo).node.Some?
    ensures PoolOk(Apply(s, e))
  {
    StepLeaks(s, e);
  }

  /** The invariant survives every step of every thread and of the kernel, failing ones included. */
  lemma StepKeepsInv(s: Sys, e: Event)
    requires Inv(s) && Enabled(s, e)
    ensures Inv(Apply(s, e))
  {
    StepKeepsLinks(s, e);
    StepKeepsHandles(s, e);
    if e.WorkerPop? {
      WorkerPopStep(s, e.ctl);
    }
    StepKeepsAccount(s, e);
    StepKeepsPool(s, e);
  }

  lemma {:induction false} RunKeepsInv(s: Sys, es: seq<Event>)
    requires Inv(s) && Runs(s, es)
    ensures Inv(After(s, es))
    decreases |es|
  {
    if es == [] {
    } else {
      StepKeepsInv(s, es[0]);
      RunKeepsInv(Apply(s, es[0]), es[1..]);
    }
  }
}
