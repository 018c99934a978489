/**
 The transmit queue and the partial-send loop as functions on values. fifo.c, tcp_txn and
 tcp_write are proved against these, and the step machine of TxProtocol takes its steps with them.
 */
module TxQueue {
  import opened Basics

  /** `struct tx_node`. `addr` stands for the address of the node. */
  datatype Node = Node(addr: nat, data: Bytes, offset: nat)

  datatype FifoState = FifoState(list: seq<Node>, size: int, blocking: bool)

  const MAXIMUM_FIFO_SIZE: int32 := 100

  const NO_FIFO := FifoState([], 0, false)

  predicate NodeOk(n: Node) {
    n.offset < |n.data|
  }

  /** What fifo.c keeps true whenever its lock is free. */
  ghost predicate Coupled(f: FifoState) {
    && f.size == |f.list| <= MAXIMUM_FIFO_SIZE as int
    && (f.blocking <==> f.list != [])
  }

  function Tail(n: Node): Bytes {
    if n.offset <= |n.data| then n.data[n.offset..] else []
  }

  /** What has already gone out of a node. */
  function Gone(n: Node): Bytes {
    if n.offset <= |n.data| then n.data[..n.offset] else []
  }

  /** The bytes the queue still owes the wire, in order. */
  function Tails(list: seq<Node>): Bytes {
    if list == [] then [] else Tail(list[0]) + Tails(list[1..])
  }

  lemma {:induction false} TailsSnoc(list: seq<Node>, n: Node)
    ensures Tails(list + [n]) == Tails(list) + Tail(n)
    decreases |list|
  {
    if list == [] {
      assert list + [n] == [n] && [n][1..] == [];
    } else {
      assert (list + [n])[1..] == list[1..] + [n];
      TailsSnoc(list[1..], n);
      Assoc(Tail(list[0]), Tails(list[1..]), Tail(n));
    }
  }

  // ---- fifo_queue and fifo_pop ----

  /** `arms` says that EPOLLOUT was added to the interest set. */
  datatype QueueOutcome = QueueOutcome(fifo: FifoState, arms: bool, ret: int)

  /** `ctl` is what epoll_ctl would answer: 0 or a negative error. */
  function QueueOn(f: FifoState, n: Node, ctl: int): QueueOutcome {
    if f.size >= MAXIMUM_FIFO_SIZE as int then QueueOutcome(f, false, -(EBUSY as int))
    else if !f.blocking && ctl < 0 then QueueOutcome(f, false, ctl)
    else QueueOutcome(FifoState(f.list + [n], f.size + 1, true), !f.blocking, f.size + 1)
  }

  datatype PopOutcome = PopOutcome(fifo: FifoState, node: Option<Node>, disarms: bool)

  function PopFrom(f: FifoState): PopOutcome {
    if f.list == [] then PopOutcome(f, None, false)
    else
      var last := f.size - 1 == 0 && f.blocking;
      PopOutcome(FifoState(f.list[1..], f.size - 1, f.blocking && !last), Some(f.list[0]), last)
  }

  /**
   A queue keeps what it owes and adds the new node at the end, or is left exactly as it was. It takes the
   node if it holds fewer than 100 and, when it was empty, EPOLLOUT can be armed.
   */
  lemma QueueKeeps(f: FifoState, n: Node, ctl: int)
    requires Coupled(f)
    ensures var q := QueueOn(f, n, ctl);
      && Coupled(q.fifo)
      && (q.ret < 0 <==> q.fifo == f)
      && (q.ret < 0 ==> !q.arms)
      && (q.ret >= 0 ==> Tails(q.fifo.list) == Tails(f.list) + Tail(n) && (q.arms <==> f.list == []))
    ensures var ret := QueueOn(f, n, ctl).ret;
      && (ret > 0 <==> |f.list| < 100 && (f.list == [] ==> ctl >= 0))
      && (ret > 0 ==> ret == |f.list| + 1 && QueueOn(f, n, ctl).fifo.list == f.list + [n])
      && (|f.list| == 100 ==> ret == -16)
      && (f.list == [] && ctl < 0 ==> ret == ctl)
  {
    TailsSnoc(f.list, n);
  }

  /** Popping removes the oldest node and disarms exactly when it was the only one. */
  lemma PopKeeps(f: FifoState)
    requires Coupled(f)
    ensures var p := PopFrom(f);
      && Coupled(p.fifo)
      && (p.node.None? <==> f.list == [])
      && (p.node.Some? ==> f.list == [p.node.value] + p.fifo.list)
      && (p.disarms <==> |f.list| == 1)
  {
  }

  // ---- tcp_txn ----

  /** What send(2) answers. `Took(k)` takes k + 1 bytes, or all of them if there are fewer. */
  datatype SendAnswer = Took(k: nat) | Again | Intr | Zero | Broke

  function Accepted(n: Node, k: nat): (m: nat)
    requires NodeOk(n)
    ensures 0 < m <= |n.data| - n.offset
  {
    if k < |n.data| - n.offset then k + 1 else |n.data| - n.offset
  }

  datatype TxnNext = Going(node: Node) | Done(node: Node) | Blocked | Broken

  /** One turn of the loop of tcp_txn. */
  function TxnStep(n: Node, a: SendAnswer): TxnNext {
    if n.offset >= |n.data| then Done(n)
    else
      match a
      case Took(k) =>
        var n' := n.(offset := n.offset + Accepted(n, k));
        if n'.offset < |n'.data| then Going(n') else Done(n')
      case Intr => Going(n)
      case Again => Blocked
      case Zero => Broken
      case Broke => Broken
  }

  /** The bytes one turn puts on the wire. */
  function TxnBytes(n: Node, a: SendAnswer): Bytes {
    if n.offset < |n.data| && a.Took? then n.data[n.offset..n.offset + Accepted(n, a.k)] else []
  }

  datatype TxnResult = TxnResult(node: Node, ret: int, rest: seq<SendAnswer>)

  /** tcp_txn against a kernel that gives these answers and EAGAIN after them. */
  function TxnRun(n: Node, answers: seq<SendAnswer>): TxnResult
    decreases |answers|
  {
    if n.offset >= |n.data| then TxnResult(n, |n.data|, answers)
    else if answers == [] then TxnResult(n, -(EAGAIN as int), [])
    else
      match TxnStep(n, answers[0])
      case Going(n') => TxnRun(n', answers[1..])
      case Done(n') => TxnResult(n', |n'.data|, answers[1..])
      case Blocked => TxnResult(n, -(EAGAIN as int), answers[1..])
      case Broken => TxnResult(n, -1, answers[1..])
  }

  /** The loop ends with the whole node sent, or with bytes left and one of two error codes. */
  lemma {:induction false} TxnRunEnds(n: Node, answers: seq<SendAnswer>)
    requires NodeOk(n)
    ensures var r := TxnRun(n, answers);
      && r.node == n.(offset := r.node.offset) && n.offset <= r.node.offset <= |n.data|
      && (r.ret > 0 <==> r.node.offset == |n.data|)
      && (r.ret > 0 ==> r.ret == |n.data|)
      && (r.ret <= 0 ==> r.ret == -(EAGAIN as int) || r.ret == -1)
      && |r.rest| <= |answers|
    decreases |answers|
  {
    if answers == [] {
    } else {
      match TxnStep(n, answers[0])
      case Going(n') => TxnRunEnds(n', answers[1..]);
      case Done(_) =>
      case Blocked =>
      case Broken =>
    }
  }

  // What the loop does, told from the answers alone.

  predicate Stops(a: SendAnswer) {
    a.Again? || a.Zero? || a.Broke?
  }

  /** The bytes these answers would take from a node that is long enough. */
  function Taken(answers: seq<SendAnswer>): nat {
    if answers == [] then 0 else (if answers[0].Took? then answers[0].k + 1 else 0) + Taken(answers[1..])
  }

  /** The first `j` answers stop nothing, and bytes are left after them. */
  ghost predicate LeftAfter(n: Node, answers: seq<SendAnswer>, j: nat) {
    && j <= |answers| && n.offset + Taken(answers[..j]) < |n.data|
    && forall i | 0 <= i < j :: !Stops(answers[i])
  }

  /** Bytes are left after `j` answers, and the next one takes all of them. */
  ghost predicate FinishesAt(n: Node, answers: seq<SendAnswer>, j: nat) {
    && LeftAfter(n, answers, j) && j < |answers| && answers[j].Took?
    && n.offset + Taken(answers[..j]) + answers[j].k + 1 >= |n.data|
  }

  /** Bytes are left after `j` answers, and the next one is EAGAIN or an error. */
  ghost predicate StopsAt(n: Node, answers: seq<SendAnswer>, j: nat) {
    LeftAfter(n, answers, j) && j < |answers| && Stops(answers[j])
  }

  lemma TakenCons(a: SendAnswer, answers: seq<SendAnswer>)
    ensures Taken([a] + answers) == (if a.Took? then a.k + 1 else 0) + Taken(answers)
  {
  }

  /** The answers after one that leaves bytes mean for the advanced node what they meant before. */
  lemma OneAnswer(n: Node, answers: seq<SendAnswer>, n': Node, j: nat)
    requires NodeOk(n) && answers != [] && TxnStep(n, answers[0]) == Going(n') && 0 < j <= |answers|
    ensures n'.offset + Taken(answers[1..][..j - 1]) == n.offset + Taken(answers[..j]) && n'.data == n.data
    ensures LeftAfter(n, answers, j) <==> LeftAfter(n', answers[1..], j - 1)
    ensures NodeOk(n') && !Stops(answers[0]) && n' == n.(offset := n'.offset)
  {
    var rest := answers[1..][..j - 1];
    assert answers[..j] == [answers[0]] + rest;
    TakenCons(answers[0], rest);
    assert forall i | 0 < i < j :: answers[i] == answers[1..][i - 1];
  }

  /**
   The node goes completely, with its size returned, at the answer that takes its last byte. At EAGAIN or
   an error before that, and when the answers run out, the bytes taken so far have gone: -EAGAIN or -1.
   */
  lemma {:induction false} TxnRunExactly(n: Node, answers: seq<SendAnswer>, j: nat)
    requires NodeOk(n)
    ensures FinishesAt(n, answers, j) ==>
      TxnRun(n, answers) == TxnResult(n.(offset := |n.data|), |n.data|, answers[j + 1..])
    ensures StopsAt(n, answers, j) ==>
      TxnRun(n, answers) ==
        TxnResult(n.(offset := n.offset + Taken(answers[..j])), if answers[j].Again? then -11 else -1, answers[j + 1..])
    ensures j == |answers| && LeftAfter(n, answers, j) ==>
      TxnRun(n, answers) == TxnResult(n.(offset := n.offset + Taken(answers)), -11, [])
    decreases |answers|
  {
    assert answers[..|answers|] == answers;
    if answers == [] || j == 0 {
    } else if j <= |answers| && TxnStep(n, answers[0]).Going? {
      var n' := TxnStep(n, answers[0]).node;
      OneAnswer(n, answers, n', j);
      TxnRunExactly(n', answers[1..], j - 1);
      assert j < |answers| ==> answers[1..][j..] == answers[j + 1..];
    } else if j <= |answers| {
      LeftMeansGoing(n, answers, j);
    }
  }

  /** If bytes are left after several answers, the first of them left some. */
  lemma LeftMeansGoing(n: Node, answers: seq<SendAnswer>, j: nat)
    requires NodeOk(n) && 0 < j <= |answers| && !TxnStep(n, answers[0]).Going?
    ensures !LeftAfter(n, answers, j)
  {
    assert answers[..j] == [answers[0]] + answers[1..j];
    TakenCons(answers[0], answers[1..j]);
  }

  /** One of the three always is the case. */
  lemma {:induction false} TxnRunCases(n: Node, answers: seq<SendAnswer>) returns (j: nat)
    requires NodeOk(n)
    ensures FinishesAt(n, answers, j) || StopsAt(n, answers, j) || (j == |answers| && LeftAfter(n, answers, j))
    decreases |answers|
  {
    if answers == [] {
      j := 0;
    } else if TxnStep(n, answers[0]).Going? {
      var n' := TxnStep(n, answers[0]).node;
      var i := TxnRunCases(NextNode(n, answers[0]), answers[1..]);
      j := i + 1;
      OneAnswer(n, answers, n', j);
      assert j < |answers| ==> answers[j] == answers[1..][i];
    } else {
      j := 0;
    }
  }

  function NextNode(n: Node, a: SendAnswer): (n': Node)
    requires NodeOk(n) && TxnStep(n, a).Going?
    ensures NodeOk(n') && TxnStep(n, a) == Going(n')
  {
    TxnStep(n, a).node
  }

  /** A kernel that only ever takes bytes or is interrupted. */
  ghost predicate Willing(answers: seq<SendAnswer>) {
    forall i | 0 <= i < |answers| :: answers[i].Took? || answers[i].Intr?
  }

  /** Such a kernel stops the loop only by having no more answers. */
  lemma {:induction false} TxnRunWilling(n: Node, answers: seq<SendAnswer>)
    requires NodeOk(n) && Willing(answers)
    ensures var r := TxnRun(n, answers);
      Willing(r.rest) && r.ret != -1 && (r.ret <= 0 ==> r.rest == [])
    decreases |answers|
  {
    if answers == [] {
    } else {
      var st := TxnStep(n, answers[0]);
      if st.Going? {
        TxnRunWilling(st.node, answers[1..]);
      }
    }
  }

  /** What the loop has put on the wire is what the node no longer owes. */
  lemma TxnMovesBytes(n: Node, a: SendAnswer)
    ensures var s := TxnStep(n, a);
      (s.Going? || s.Done?) ==> TxnBytes(n, a) + Tail(s.node) == Tail(n)
    ensures (TxnStep(n, a).Blocked? || TxnStep(n, a).Broken?) ==> TxnBytes(n, a) == []
  {
  }

  // ---- tcp_write after the packet is built ----

  datatype WriteOutcome = WriteOutcome(fifo: FifoState, arms: bool, node: Node, ret: int, rest: seq<SendAnswer>)

  function WriteRun(f: FifoState, n: Node, answers: seq<SendAnswer>, ctl: int): WriteOutcome {
    var r := if f.blocking then TxnResult(n, -(EAGAIN as int), answers) else TxnRun(n, answers);
    if r.ret != -(EAGAIN as int) then
      WriteOutcome(f, false, r.node, r.ret, r.rest)
    else
      var q := QueueOn(f, r.node, ctl);
      WriteOutcome(q.fifo, q.arms, r.node, if q.ret < 0 then q.ret else 0, r.rest)
  }

  /**
   tcp_write without interference: the packet is sent, queued behind everything owed before, or
   refused; and a full queue refuses it before a single byte of it has left.
   */
  lemma WriteKeeps(f: FifoState, n: Node, answers: seq<SendAnswer>, ctl: int)
    requires Coupled(f) && NodeOk(n) && n.offset == 0 && ctl <= 0 && ctl != -(EBUSY as int)
    ensures var w := WriteRun(f, n, answers, ctl);
      && Coupled(w.fifo)
      && w.node.offset <= |n.data|
      && (w.ret >= 0 ==>
            n.data[..w.node.offset] + Tails(w.fifo.list) == Tails(f.list) + n.data)
      && (w.ret == -(EBUSY as int) <==> |f.list| == MAXIMUM_FIFO_SIZE as int)
      && (w.ret == -(EBUSY as int) ==> w.node == n && w.fifo == f && w.rest == answers)
      && (w.ret < 0 ==> w.fifo == f && !w.arms)
  {
    var r := if f.blocking then TxnResult(n, -(EAGAIN as int), answers) else TxnRun(n, answers);
    QueueKeeps(f, r.node, ctl);
    TxnRunEnds(n, answers);
    if f.blocking {
      assert n.data[..0] == [] && n.data[0..] == n.data;
    } else {
      assert n.data[..r.node.offset] + Tail(r.node) == n.data;
      assert Tails([]) == [];
    }
  }

  /**
   Which way tcp_write goes. On an empty queue the packet is sent directly, and queued only if the kernel
   runs out of room; behind a queue nothing is sent directly. A positive answer means that all of it has
   gone, 0 that it is queued, and a negative one is the error of the step that failed.
   */
  lemma WriteExactly(f: FifoState, n: Node, answers: seq<SendAnswer>, ctl: int)
    requires Coupled(f) && NodeOk(n) && n.offset == 0 && ctl <= 0
    ensures var w, r := WriteRun(f, n, answers, ctl), TxnRun(n, answers);
      && (if f.list == [] then w.node == r.node && w.rest == r.rest else w.node == n && w.rest == answers)
      && (w.ret > 0 <==> f.list == [] && r.ret > 0)
      && (w.ret > 0 ==> w.ret == |n.data| && w.fifo == f && !w.arms)
      && (w.ret == 0 <==> if f.list == [] then r.ret == -11 && ctl == 0 else |f.list| < 100)
      && (w.ret == 0 ==> w.fifo.list == f.list + [w.node] && (w.arms <==> f.list == []))
      && (w.ret < 0 ==> w.fifo == f && !w.arms)
      && (f.list == [] && r.ret == -1 ==> w.ret == -1)
      && (f.list == [] && r.ret == -11 && ctl < 0 ==> w.ret == ctl)
      && (|f.list| == 100 ==> w.ret == -16)
  {
    TxnRunEnds(n, answers);
    QueueKeeps(f, if f.blocking then n else TxnRun(n, answers).node, ctl);
  }

  /** The simplest cases: the kernel takes the whole packet at once, has no room, or the connection is broken. */
  lemma WriteAtOnce(f: FifoState, n: Node, a: SendAnswer, more: seq<SendAnswer>, ctl: int)
    requires Coupled(f) && f.list == [] && NodeOk(n) && n.offset == 0 && ctl <= 0
    ensures var w := WriteRun(f, n, [a] + more, ctl);
      && (a.Took? && a.k + 1 >= |n.data| ==>
            w == WriteOutcome(f, false, n.(offset := |n.data|), |n.data|, more))
      && (a.Again? && ctl == 0 ==> w == WriteOutcome(FifoState([n], 1, true), true, n, 0, more))
      && (a.Zero? || a.Broke? ==> w == WriteOutcome(f, false, n, -1, more))
      && (a.Intr? ==> w == WriteRun(f, n, more, ctl))
  {
    assert ([a] + more)[1..] == more && f.list + [n] == [n];
  }

  // ---- What one task does for a link ----

  /** The transmit half of a control block with the kernel side of its socket, as a value. */
  datatype LinkTx = LinkTx(
    fifo: FifoState, armed: bool, wire: Bytes, answers: seq<SendAnswer>, established: bool, closed: bool)

  datatype ServeOutcome = ServeOutcome(link: LinkTx, ret: int)

  /** tcp_tx, and the fifo_pop or objclos that __wp_exec makes of its answer. */
  function Served(k: LinkTx, ctl: int): ServeOutcome {
    if !k.established then ServeOutcome(k.(closed := true), -1)
    else if k.fifo.list == [] then ServeOutcome(k, 0)
    else
      var n := k.fifo.list[0];
      var r := TxnRun(n, k.answers);
      var sent := if n.offset <= r.node.offset <= |n.data| then n.data[n.offset..r.node.offset] else [];
      var k' := k.(fifo := k.fifo.(list := k.fifo.list[0 := r.node]), answers := r.rest, wire := k.wire + sent);
      if r.ret == -1 then ServeOutcome(k'.(closed := true), -1)
      else if r.ret <= 0 then ServeOutcome(k', r.ret)
      else
        var p := PopFrom(k'.fifo);
        ServeOutcome(k'.(fifo := p.fifo, armed := k'.armed && !(p.disarms && ctl == 0)), r.ret)
  }

  /** Between two tasks of the worker every queued node still owes bytes. */
  ghost predicate LinkTxOk(k: LinkTx) {
    Coupled(k.fifo) && forall i | 0 <= i < |k.fifo.list| :: NodeOk(k.fifo.list[i])
  }

  /**
   What the answer of a task means for its link: -1 closes it, 0 is an empty queue, a positive one a packet
   gone and EPOLLOUT withdrawn with the last, and EAGAIN leaves the rest for later.
   */
  lemma ServedExactly(k: LinkTx, ctl: int)
    requires LinkTxOk(k)
    ensures var s := Served(k, ctl);
      && (s.ret == -1 ==> s.link.closed)
      && (!k.established ==> s.ret == -1 && s.link == k.(closed := true))
      && (k.established && k.fifo.list == [] ==> s.ret == 0 && s.link == k)
      && (k.established && k.fifo.list != [] ==>
            var n := k.fifo.list[0];
            var r := TxnRun(n, k.answers);
            && s.ret == r.ret && s.link.answers == r.rest
            && n.offset <= r.node.offset <= |n.data|
            && s.link.wire == k.wire + n.data[n.offset..r.node.offset]
            && s.link.fifo.list == (if s.ret > 0 then k.fifo.list[1..] else k.fifo.list[0 := r.node])
            && (s.link.armed <==> k.armed && !(s.ret > 0 && |k.fifo.list| == 1 && ctl == 0)))
  {
    if k.fifo.list != [] {
      TxnRunEnds(k.fifo.list[0], k.answers);
      assert k.fifo.list[0 := TxnRun(k.fifo.list[0], k.answers).node][1..] == k.fifo.list[1..];
    }
  }

  /** Nothing but an answer Zero or Broke makes the send loop fail. */
  lemma {:induction false} TxnFailure(n: Node, answers: seq<SendAnswer>)
    requires NodeOk(n) && forall i | 0 <= i < |answers| :: !answers[i].Zero? && !answers[i].Broke?
    ensures var r := TxnRun(n, answers);
      r.ret != -1 && forall i | 0 <= i < |r.rest| :: !r.rest[i].Zero? && !r.rest[i].Broke?
    decreases |answers|
  {
    if answers == [] {
    } else if TxnStep(n, answers[0]).Going? {
      TxnFailure(NextNode(n, answers[0]), answers[1..]);
    }
  }

  /** The wire so far and what is still owed to it. */
  function Stream(k: LinkTx): Bytes {
    k.wire + Tails(k.fifo.list)
  }

  /** What the head has given to the wire it no longer owes. */
  lemma TailsOfHead(wire: Bytes, f: seq<Node>, head: Node)
    requires f != [] && f[0].offset <= head.offset <= |f[0].data| && head.data == f[0].data
    ensures (wire + f[0].data[f[0].offset..head.offset]) + Tails(f[0 := head]) == wire + Tails(f)
  {
    var sent := f[0].data[f[0].offset..head.offset];
    assert f[0 := head][1..] == f[1..];
    assert sent + Tail(head) == Tail(f[0]);
    Assoc(sent, Tail(head), Tails(f[1..]));
    Assoc(wire, sent, Tails(f[0 := head]));
  }

  /**
   Serving a link moves bytes along its stream and never changes the stream; it retires exactly one
   packet when it reports success and none otherwise.
   */
  lemma ServedKeeps(k: LinkTx, ctl: int)
    requires LinkTxOk(k)
    ensures var s := Served(k, ctl);
      && LinkTxOk(s.link)
      && Stream(s.link) == Stream(k)
      && |s.link.fifo.list| == |k.fifo.list| - (if s.ret > 0 then 1 else 0)
      && (s.link.closed <==> k.closed || s.ret == -1)
  {
    if k.established && k.fifo.list != [] {
      var f := k.fifo.list;
      var r := TxnRun(f[0], k.answers);
      TxnRunEnds(f[0], k.answers);
      TailsOfHead(k.wire, f, r.node);
      var g := f[0 := r.node];
      assert g[1..] == f[1..];
      if r.ret > 0 {
        assert Tail(g[0]) == [] && [] + Tails(g[1..]) == Tails(g[1..]);
      }
    }
  }
}
