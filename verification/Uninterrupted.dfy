/**
 What the methods of Transmit and Wpool are proved against is what the step machine does when nobody
 interferes: for every kernel there is a run of the machine, with the kernel's own steps in it and the
 answers of this kernel to send(2), that ends as the functions of TxQueue and Wpool say.
 */
module Uninterrupted {
  import opened Basics
  import opened TxQueue
  import opened TxProtocol
  import opened TxInvariant
  import opened Wpool

  // ---- The kernel gets ready for the answer it is going to give ----

  function Ready(l: nat, k: Kernel, a: SendAnswer): seq<Event> {
    if a.Again? && !k.full then [KernelFills(l)]
    else if a.Took? && k.full then [KernelDrains(l)]
    else []
  }

  function MadeReady(k: Kernel, a: SendAnswer): Kernel {
    if a.Again? then k.(full := true) else if a.Took? then Drains(k) else k
  }

  // ---- Which runs are meant: nobody else takes a step, and these are the kernel's answers ----

  function AnswerOf(e: Event): seq<SendAnswer> {
    if e.WriteSend? || e.WorkerSend? then [e.a] else []
  }

  /** The answers to send(2) in a run. */
  function AnswersIn(es: seq<Event>): seq<SendAnswer> {
    if es == [] then [] else AnswerOf(es[0]) + AnswersIn(es[1..])
  }

  lemma {:induction false} AnswersAppend(a: seq<Event>, b: seq<Event>)
    ensures AnswersIn(a + b) == AnswersIn(a) + AnswersIn(b)
    decreases |a|
  {
    if a == [] {
      assert a + b == b;
    } else {
      assert (a + b)[0] == a[0] && (a + b)[1..] == a[1..] + b;
      AnswersAppend(a[1..], b);
      Assoc(AnswerOf(a[0]), AnswersIn(a[1..]), AnswersIn(b));
    }
  }

  lemma AnswersOne(e: Event)
    ensures AnswersIn([e]) == AnswerOf(e)
  {
    assert [e][1..] == [];
  }

  /** The run has had the answers up to `rest`; a kernel with no more of them has answered EAGAIN. */
  ghost predicate Spent(es: seq<Event>, answers: seq<SendAnswer>, rest: seq<SendAnswer>) {
    AnswersIn(es) + rest == answers || (rest == [] && AnswersIn(es) == answers + [Again])
  }

  predicate ByKernel(e: Event, l: nat) {
    e == KernelFills(l) || e == KernelDrains(l)
  }

  /** The writer of the link and its kernel; epoll_ctl answers `ctl`. */
  predicate ByWriter(e: Event, l: nat, ctl: int) {
    e == WriteCheck(l) || (e.WriteSend? && e.l == l) || e == WriteQueue(l, ctl) || ByKernel(e, l)
  }

  /** The worker and the kernel of the link. */
  predicate ByWorker(e: Event, l: nat, ctl: int) {
    || e.WorkerRefuses? || e.WorkerTop? || e.WorkerSend? || e == WorkerPop(ctl)
    || e.WorkerRequeue? || e.WorkerFree? || ByKernel(e, l)
  }

  /** Only the writer and the kernel take steps, and these are the answers. */
  ghost predicate WriterAlone(es: seq<Event>, l: nat, ctl: int, answers: seq<SendAnswer>, rest: seq<SendAnswer>) {
    Spent(es, answers, rest) && forall i | 0 <= i < |es| :: ByWriter(es[i], l, ctl)
  }

  ghost predicate WorkerAlone(es: seq<Event>, l: nat, ctl: int, answers: seq<SendAnswer>, rest: seq<SendAnswer>) {
    Spent(es, answers, rest) && forall i | 0 <= i < |es| :: ByWorker(es[i], l, ctl)
  }

  lemma SpentAppend(a: seq<Event>, b: seq<Event>, answers: seq<SendAnswer>, mid: seq<SendAnswer>, rest: seq<SendAnswer>)
    requires AnswersIn(a) + mid == answers && Spent(b, mid, rest)
    ensures Spent(a + b, answers, rest)
  {
    AnswersAppend(a, b);
    Assoc(AnswersIn(a), AnswersIn(b), rest);
    Assoc(AnswersIn(a), mid, [Again]);
  }

  lemma SpentLast(es: seq<Event>, e: Event, answers: seq<SendAnswer>, rest: seq<SendAnswer>)
    requires Spent(es, answers, rest) && AnswerOf(e) == []
    ensures Spent(es + [e], answers, rest)
  {
    AnswersAppend(es, [e]);
    AnswersOne(e);
    assert AnswersIn(es) + [] == AnswersIn(es);
  }

  lemma TurnAnswers(l: nat, k: Kernel, a: SendAnswer, e: Event)
    requires AnswerOf(e) == [a]
    ensures AnswersIn(Ready(l, k, a) + [e]) == [a]
  {
    AnswersAppend(Ready(l, k, a), [e]);
    AnswersOne(e);
    if Ready(l, k, a) != [] {
      AnswersOne(Ready(l, k, a)[0]);
    }
  }

  /** A turn with the first answer, or with EAGAIN when there is none. */
  lemma TurnSpends(turn: seq<Event>, a: SendAnswer, answers: seq<SendAnswer>)
    requires AnswersIn(turn) == [a] && a == if answers == [] then Again else answers[0]
    ensures Spent(turn, answers, if answers == [] then [] else answers[1..])
    ensures answers != [] ==> AnswersIn(turn) + answers[1..] == answers
  {
  }

  lemma KernelReady(s: Sys, l: nat, a: SendAnswer)
    requires l in s.links
    ensures var k := MadeReady(s.links[l].k, a);
      Goes(s, Ready(l, s.links[l].k, a), Put(s, l, s.links[l].(k := k))) && CanAnswer(k, a)
  {
  }

  /** Getting ready sends nothing, arms nothing, and signals only an armed socket. */
  ghost predicate LikeKernel(k: Kernel, k': Kernel, sent: Bytes) {
    && k'.sent == k.sent + sent && k'.armed == k.armed
    && (k.pending ==> k'.pending) && (!k.armed ==> k'.pending == k.pending)
  }

  // ---- tcp_write ----

  /** tcp_txn has ended for the writer's node like `r`. */
  function Sent(ls: LinkState, r: TxnResult, k: Kernel): LinkState {
    var ls' := ls.(k := k, writer := Direct(r.node));
    if r.ret == -(EAGAIN as int) then ls'.(writer := Queueing(r.node))
    else if r.ret > 0 then Accept(ls')
    else GiveUp(ls')
  }

  ghost predicate SentLike(ls: LinkState, ls': LinkState, r: TxnResult)
    requires ls.writer.Direct?
  {
    var n := ls.writer.node;
    && n.offset <= r.node.offset <= |n.data| && r.node == n.(offset := r.node.offset)
    && LikeKernel(ls.k, ls'.k, n.data[n.offset..r.node.offset])
    && (r.ret == -(EAGAIN as int) ==> ls'.k.full)
    && ls' == Sent(ls, r, ls'.k)
  }

  /** One turn of the loop of tcp_txn, the kernel's part included. */
  function WriterTurn(ls: LinkState, a: SendAnswer): LinkState
    requires ls.writer.Direct?
  {
    SendWrite(ls.(k := MadeReady(ls.k, a)), a)
  }

  lemma WriterTurnGoes(s: Sys, l: nat, a: SendAnswer)
    requires l in s.links && s.links[l].writer.Direct?
    ensures Goes(s, Ready(l, s.links[l].k, a) + [WriteSend(l, a)], Put(s, l, WriterTurn(s.links[l], a)))
  {
    var ready := Ready(l, s.links[l].k, a);
    var s1 := Put(s, l, s.links[l].(k := MadeReady(s.links[l].k, a)));
    KernelReady(s, l, a);
    GoesOne(s1, WriteSend(l, a));
    assert Apply(s1, WriteSend(l, a)) == Put(s, l, WriterTurn(s.links[l], a));
    GoesOn(s, ready, s1, [WriteSend(l, a)], Apply(s1, WriteSend(l, a)));
  }

  lemma LastTurn(ls: LinkState, a: SendAnswer, rest: seq<SendAnswer>)
    requires ls.writer.Direct? && NodeOk(ls.writer.node) && !TxnStep(ls.writer.node, a).Going?
    ensures SentLike(ls, WriterTurn(ls, a), TxnRun(ls.writer.node, [a] + rest))
    ensures a.Again? ==> SentLike(ls, WriterTurn(ls, a), TxnRun(ls.writer.node, []))
  {
  }

  lemma MoreTurns(ls: LinkState, a: SendAnswer, ls': LinkState, r: TxnResult)
    requires ls.writer.Direct? && NodeOk(ls.writer.node) && TxnStep(ls.writer.node, a).Going?
    requires SentLike(WriterTurn(ls, a), ls', r)
    ensures SentLike(ls, ls', r)
  {
  }

  /** The writer's direct sends: one step for each answer, EAGAIN when there are none left. */
  lemma {:induction false} SendsAlone(s: Sys, l: nat, ctl: int, answers: seq<SendAnswer>)
    returns (es: seq<Event>, ls': LinkState)
    requires l in s.links && s.links[l].writer.Direct? && NodeOk(s.links[l].writer.node)
    ensures Goes(s, es, Put(s, l, ls'))
    ensures SentLike(s.links[l], ls', TxnRun(s.links[l].writer.node, answers))
    ensures WriterAlone(es, l, ctl, answers, TxnRun(s.links[l].writer.node, answers).rest)
    decreases |answers|
  {
    var ls := s.links[l];
    var n := ls.writer.node;
    var a := if answers == [] then Again else answers[0];
    var turn := Ready(l, ls.k, a) + [WriteSend(l, a)];
    ls' := WriterTurn(ls, a);
    WriterTurnGoes(s, l, a);
    TurnAnswers(l, ls.k, a, WriteSend(l, a));
    TurnSpends(turn, a, answers);
    if TxnStep(n, a).Going? {
      var s1 := Put(s, l, ls');
      var es1, ls1 := SendsAlone(s1, l, ctl, answers[1..]);
      WriterGoesOn(s, l, turn, ls', es1, ls1);
      MoreTurns(ls, a, ls1, TxnRun(ls'.writer.node, answers[1..]));
      SpentAppend(turn, es1, answers, answers[1..], TxnRun(n, answers).rest);
      es, ls' := turn + es1, ls1;
    } else {
      es := turn;
      LastTurn(ls, a, if answers == [] then [] else answers[1..]);
      assert answers != [] ==> answers == [a] + answers[1..];
    }
  }

  lemma WriterGoesOn(s: Sys, l: nat, es: seq<Event>, ls: LinkState, es1: seq<Event>, ls1: LinkState)
    requires l in s.links && Goes(s, es, Put(s, l, ls))
    requires Goes(Put(s, l, ls), es1, Put(Put(s, l, ls), l, ls1))
    ensures Goes(s, es + es1, Put(s, l, ls1))
  {
    GoesOn(s, es, Put(s, l, ls), es1, Put(Put(s, l, ls), l, ls1));
    assert Put(Put(s, l, ls), l, ls1) == Put(s, l, ls1);
  }

  /** The link after tcp_write has returned as `w` says. */
  ghost predicate WrittenLike(ls: LinkState, ls': LinkState, n: Node, w: WriteOutcome) {
    && n.offset <= w.node.offset <= |n.data|
    && ls'.fifo == w.fifo && ls'.writer == Idle && ls'.fetched == ls.fetched && ls'.dead == ls.dead
    && ls'.k.sent == ls.k.sent + n.data[n.offset..w.node.offset]
    && (ls'.k.armed <==> ls.k.armed || w.arms)
    && (ls.k.pending ==> ls'.k.pending)
    && ((ls.k.armed ==> ls.fifo.blocking) ==> ls'.k.pending == ls.k.pending)
    && ls'.written == (if w.ret < 0 then ls.written else ls.written + [n.data])
    && ls'.parts == ls.parts + (if w.ret >= 0 then [n.data] else if Gone(w.node) == [] then [] else [Gone(w.node)])
  }

  lemma QueuesLike(ls: LinkState, ls1: LinkState, n: Node, r: TxnResult, ctl: int)
    requires Coupled(ls.fifo) && ctl <= 0 && r.ret == -(EAGAIN as int)
    requires n.offset <= r.node.offset <= |n.data| && r.node == n.(offset := r.node.offset)
    requires ls1 == ls.(k := ls1.k, writer := Queueing(r.node))
    requires LikeKernel(ls.k, ls1.k, n.data[n.offset..r.node.offset])
    requires if ls.fifo.blocking then ls1.k == ls.k else ls1.k.full
    ensures var q := QueueOn(ls.fifo, r.node, ctl);
      WrittenLike(ls, QueueWrite(ls1, ctl), n,
                  WriteOutcome(q.fifo, q.arms, r.node, if q.ret < 0 then q.ret else 0, r.rest))
  {
  }

  lemma DirectLike(ls: LinkState, ls': LinkState, n: Node, r: TxnResult)
    requires ls.writer == Entered(n) && NodeOk(n) && !ls.fifo.blocking && r.ret != -(EAGAIN as int)
    requires SentLike(ls.(writer := Direct(n)), ls', r) && (r.ret > 0 || r.ret == -1)
    ensures WrittenLike(ls, ls', n, WriteOutcome(ls.fifo, false, r.node, r.ret, r.rest))
  {
  }

  lemma QueueGoes(s: Sys, l: nat, es: seq<Event>, ls: LinkState, ctl: int)
    requires l in s.links && Goes(s, es, Put(s, l, ls)) && ls.writer.Queueing? && ctl <= 0
    ensures Goes(s, es + [WriteQueue(l, ctl)], Put(s, l, QueueWrite(ls, ctl)))
  {
    var s1 := Put(s, l, ls);
    GoesOne(s1, WriteQueue(l, ctl));
    assert Apply(s1, WriteQueue(l, ctl)) == Put(s, l, QueueWrite(ls, ctl));
    GoesOn(s, es, s1, [WriteQueue(l, ctl)], Apply(s1, WriteQueue(l, ctl)));
  }

  /** From fifo_is_blocking to the end of the direct sends, if there are any. */
  lemma ChecksAlone(s: Sys, l: nat, ctl: int, answers: seq<SendAnswer>) returns (es: seq<Event>, ls': LinkState)
    requires l in s.links && s.links[l].writer.Entered? && NodeOk(s.links[l].writer.node)
    ensures Goes(s, es, Put(s, l, ls'))
    ensures var ls := s.links[l];
      var n := ls.writer.node;
      if ls.fifo.blocking then
        ls' == ls.(writer := Queueing(n)) && WriterAlone(es, l, ctl, answers, answers)
      else
        && SentLike(ls.(writer := Direct(n)), ls', TxnRun(n, answers))
        && WriterAlone(es, l, ctl, answers, TxnRun(n, answers).rest)
  {
    var check := [WriteCheck(l)];
    GoesOne(s, WriteCheck(l));
    AnswersOne(WriteCheck(l));
    assert AnswersIn(check) + answers == answers;
    es, ls' := check, CheckWrite(s.links[l]);
    if !s.links[l].fifo.blocking {
      var es1, ls1 := SendsAlone(Put(s, l, ls'), l, ctl, answers);
      WriterGoesOn(s, l, check, ls', es1, ls1);
      SpentAppend(check, es1, answers, answers, TxnRun(s.links[l].writer.node, answers).rest);
      es, ls' := check + es1, ls1;
    }
  }

  /**
   tcp_write from fifo_is_blocking to its return: the run of the writer and the kernel with these answers
   leaves the link as the write function says, and nothing else in the system changed.
   */
  lemma WritesAloneIsWrite(s: Sys, l: nat, answers: seq<SendAnswer>, ctl: int) returns (es: seq<Event>, ls': LinkState)
    requires l in s.links && s.links[l].writer.Entered? && NodeOk(s.links[l].writer.node)
    requires Coupled(s.links[l].fifo) && ctl <= 0
    ensures Goes(s, es, Put(s, l, ls'))
    ensures var n := s.links[l].writer.node;
      var w := WriteRun(s.links[l].fifo, n, answers, ctl);
      WrittenLike(s.links[l], ls', n, w) && WriterAlone(es, l, ctl, answers, w.rest)
  {
    var ls := s.links[l];
    var n := ls.writer.node;
    TxnRunEnds(n, answers);
    es, ls' := ChecksAlone(s, l, ctl, answers);
    if ls.fifo.blocking {
      assert ls.k.sent + n.data[n.offset..n.offset] == ls.k.sent;
      es, ls' := ThenQueues(s, l, es, ls', answers, TxnResult(n, -(EAGAIN as int), answers), ctl);
    } else if TxnRun(n, answers).ret == -(EAGAIN as int) {
      es, ls' := ThenQueues(s, l, es, ls', answers, TxnRun(n, answers), ctl);
    } else {
      DirectLike(ls, ls', n, TxnRun(n, answers));
    }
  }

  /** The packet could not be sent, or not completely: fifo_queue. */
  lemma ThenQueues(s: Sys, l: nat, es0: seq<Event>, ls0: LinkState, answers: seq<SendAnswer>, r: TxnResult, ctl: int)
    returns (es: seq<Event>, ls': LinkState)
    requires l in s.links && s.links[l].writer.Entered? && Coupled(s.links[l].fifo) && ctl <= 0
    requires Goes(s, es0, Put(s, l, ls0)) && WriterAlone(es0, l, ctl, answers, r.rest) && r.ret == -(EAGAIN as int)
    requires var ls, n := s.links[l], s.links[l].writer.node;
      && n.offset <= r.node.offset <= |n.data| && r.node == n.(offset := r.node.offset)
      && ls0 == ls.(k := ls0.k, writer := Queueing(r.node))
      && LikeKernel(ls.k, ls0.k, n.data[n.offset..r.node.offset])
      && if ls.fifo.blocking then ls0.k == ls.k else ls0.k.full
    ensures Goes(s, es, Put(s, l, ls'))
    ensures var q := QueueOn(s.links[l].fifo, r.node, ctl);
      WrittenLike(s.links[l], ls', s.links[l].writer.node,
                  WriteOutcome(q.fifo, q.arms, r.node, if q.ret < 0 then q.ret else 0, r.rest))
    ensures WriterAlone(es, l, ctl, answers, r.rest)
  {
    QueuesLike(s.links[l], ls0, s.links[l].writer.node, r, ctl);
    QueueGoes(s, l, es0, ls0, ctl);
    SpentLast(es0, WriteQueue(l, ctl), answers, r.rest);
    es, ls' := es0 + [WriteQueue(l, ctl)], QueueWrite(ls0, ctl);
  }

  // ---- tcp_tx and what __wp_exec makes of its answer ----

  /** The worker's sends through its pointer have ended like `r`. */
  ghost predicate ServedLike(ls: LinkState, ls': LinkState, r: TxnResult)
    requires ls.fifo.list != []
  {
    var n := ls.fifo.list[0];
    && n.offset <= r.node.offset <= |n.data| && r.node == n.(offset := r.node.offset)
    && LikeKernel(ls.k, ls'.k, n.data[n.offset..r.node.offset])
    && (r.ret == -(EAGAIN as int) ==> ls'.k.full)
    && ls' == ls.(fifo := ls.fifo.(list := ls.fifo.list[0 := r.node]), k := ls'.k, dead := ls.dead || r.ret == -1)
  }

  function WorkerTurn(ls: LinkState, a: SendAnswer): LinkState
    requires ls.fifo.list != []
  {
    SendQueued(ls.(k := MadeReady(ls.k, a)), 0, a)
  }

  lemma WorkerTurnGoes(s: Sys, l: nat, a: SendAnswer)
    requires s.worker.Sending? && s.worker.task.hld == l && l in s.links && s.links[l].fifo.list != []
    requires s.links[l].fifo.list[0].addr == s.worker.addr
    ensures Goes(s, Ready(l, s.links[l].k, a) + [WorkerSend(a)],
                 Put(s, l, WorkerTurn(s.links[l], a))
                   .(worker := AfterSend(s.worker.task, s.worker.addr, s.links[l].fifo.list[0], a)))
  {
    var ready := Ready(l, s.links[l].k, a);
    var s1 := Put(s, l, s.links[l].(k := MadeReady(s.links[l].k, a)));
    KernelReady(s, l, a);
    GoesOne(s1, WorkerSend(a));
    assert s1.links[l := WorkerTurn(s.links[l], a)] == s.links[l := WorkerTurn(s.links[l], a)];
    GoesOn(s, ready, s1, [WorkerSend(a)], Apply(s1, WorkerSend(a)));
  }

  lemma LastWorkerTurn(ls: LinkState, a: SendAnswer, rest: seq<SendAnswer>)
    requires ls.fifo.list != [] && NodeOk(ls.fifo.list[0]) && !TxnStep(ls.fifo.list[0], a).Going?
    ensures ServedLike(ls, WorkerTurn(ls, a), TxnRun(ls.fifo.list[0], [a] + rest))
    ensures a.Again? ==> ServedLike(ls, WorkerTurn(ls, a), TxnRun(ls.fifo.list[0], []))
  {
  }

  lemma MoreWorkerTurns(ls: LinkState, a: SendAnswer, ls': LinkState, r: TxnResult)
    requires ls.fifo.list != [] && NodeOk(ls.fifo.list[0]) && TxnStep(ls.fifo.list[0], a).Going?
    requires ServedLike(WorkerTurn(ls, a), ls', r)
    ensures ServedLike(ls, ls', r)
  {
  }

  /** The worker after its sends: about to pop, or done with the task. */
  function AfterSends(s: Sys, l: nat, ls': LinkState, ret: int): Sys
    requires s.worker.Sending?
  {
    Put(s, l, ls').(worker :=
      if ret > 0 then Popping(s.worker.task, s.worker.addr) else Freeing(s.worker.task))
  }

  lemma OneTurnMore(s: Sys, l: nat, a: SendAnswer, es: seq<Event>, ls': LinkState, ret: int)
    requires s.worker.Sending? && s.worker.task.hld == l && l in s.links && s.links[l].fifo.list != []
    requires s.links[l].fifo.list[0].addr == s.worker.addr && TxnStep(s.links[l].fifo.list[0], a).Going?
    requires var s1 := Put(s, l, WorkerTurn(s.links[l], a)); Goes(s1, es, AfterSends(s1, l, ls', ret))
    ensures Goes(s, Ready(l, s.links[l].k, a) + [WorkerSend(a)] + es, AfterSends(s, l, ls', ret))
  {
    var s1 := Put(s, l, WorkerTurn(s.links[l], a));
    WorkerTurnGoes(s, l, a);
    assert s1.(worker := s.worker) == s1;
    assert AfterSends(s1, l, ls', ret) == AfterSends(s, l, ls', ret);
    GoesOn(s, Ready(l, s.links[l].k, a) + [WorkerSend(a)], s1, es, AfterSends(s, l, ls', ret));
  }

  /** The worker is about to send from the head of the link's queue. */
  ghost predicate AtHead(s: Sys, l: nat) {
    && s.worker.Sending? && s.worker.task.hld == l && l in s.links && s.links[l].fifo.list != []
    && s.links[l].fifo.list[0].addr == s.worker.addr && NodeOk(s.links[l].fifo.list[0])
  }

  /** The run with these answers is the send loop on the head. */
  ghost predicate HeadSent(s: Sys, l: nat, ctl: int, answers: seq<SendAnswer>, es: seq<Event>, ls': LinkState)
    requires AtHead(s, l)
  {
    var r := TxnRun(s.links[l].fifo.list[0], answers);
    && Goes(s, es, AfterSends(s, l, ls', r.ret)) && ServedLike(s.links[l], ls', r)
    && WorkerAlone(es, l, ctl, answers, r.rest) && WorkerRefuses !in es
  }

  lemma LastHeadTurn(s: Sys, l: nat, ctl: int, a: SendAnswer, answers: seq<SendAnswer>)
    requires AtHead(s, l) && a == (if answers == [] then Again else answers[0])
    requires !TxnStep(s.links[l].fifo.list[0], a).Going?
    ensures HeadSent(s, l, ctl, answers, Ready(l, s.links[l].k, a) + [WorkerSend(a)], WorkerTurn(s.links[l], a))
  {
    TurnAnswers(l, s.links[l].k, a, WorkerSend(a));
    TurnSpends(Ready(l, s.links[l].k, a) + [WorkerSend(a)], a, answers);
    WorkerTurnGoes(s, l, a);
    LastWorkerTurn(s.links[l], a, if answers == [] then [] else answers[1..]);
    assert answers != [] ==> answers == [a] + answers[1..];
  }

  lemma MoreHeadTurns(s: Sys, l: nat, ctl: int, answers: seq<SendAnswer>, es: seq<Event>, ls': LinkState)
    requires AtHead(s, l) && answers != [] && TxnStep(s.links[l].fifo.list[0], answers[0]).Going?
    requires var s1 := Put(s, l, WorkerTurn(s.links[l], answers[0]));
      AtHead(s1, l) && HeadSent(s1, l, ctl, answers[1..], es, ls')
    ensures HeadSent(s, l, ctl, answers, Ready(l, s.links[l].k, answers[0]) + [WorkerSend(answers[0])] + es, ls')
  {
    var a, r := answers[0], TxnRun(s.links[l].fifo.list[0], answers);
    var turn := Ready(l, s.links[l].k, a) + [WorkerSend(a)];
    TurnAnswers(l, s.links[l].k, a, WorkerSend(a));
    TurnSpends(turn, a, answers);
    OneTurnMore(s, l, a, es, ls', r.ret);
    MoreWorkerTurns(s.links[l], a, ls', r);
    SpentAppend(turn, es, answers, answers[1..], r.rest);
  }

  lemma {:induction false} QueueSendsAlone(s: Sys, l: nat, ctl: int, answers: seq<SendAnswer>)
    returns (es: seq<Event>, ls': LinkState)
    requires AtHead(s, l)
    ensures HeadSent(s, l, ctl, answers, es, ls')
    decreases |answers|
  {
    var ls, a := s.links[l], if answers == [] then Again else answers[0];
    if TxnStep(ls.fifo.list[0], a).Going? {
      var es1;
      es1, ls' := QueueSendsAlone(Put(s, l, WorkerTurn(ls, a)), l, ctl, answers[1..]);
      MoreHeadTurns(s, l, ctl, answers, es1, ls');
      es := Ready(l, ls.k, a) + [WorkerSend(a)] + es1;
    } else {
      LastHeadTurn(s, l, ctl, a, answers);
      es, ls' := Ready(l, ls.k, a) + [WorkerSend(a)], WorkerTurn(ls, a);
    }
  }

  /** A link of the machine as the value Served works on. */
  function TxView(ls: LinkState, answers: seq<SendAnswer>, established: bool): LinkTx {
    LinkTx(ls.fifo, ls.k.armed, ls.k.sent, answers, established, ls.dead)
  }

  /** The link after one task has ended as `o` says: the rest of it is as before. */
  ghost predicate TaskLike(ls: LinkState, ls': LinkState, o: ServeOutcome) {
    && TxView(ls', o.link.answers, o.link.established) == o.link
    && ls' == ls.(fifo := ls'.fifo, k := ls'.k, dead := ls'.dead)
    && (o.ret == -(EAGAIN as int) ==> ls'.k.full)
    && (if ls'.k.armed then ls.k.pending ==> ls'.k.pending else ls.k.armed ==> !ls'.k.pending)
  }

  /** The worker and the tasks after it. */
  function TaskDone(s: Sys, l: nat, ls': LinkState, ret: int): Sys
    requires !s.worker.Waiting?
  {
    var t := s.worker.task;
    if ret > 0 then Put(s, l, ls').(worker := Waiting, tasks := s.tasks + [t])
    else Put(s, l, ls').(worker := Waiting, freed := s.freed + multiset{t.id})
  }

  lemma RetiredLike(ls: LinkState, ls1: LinkState, answers: seq<SendAnswer>, ctl: int)
    requires Coupled(ls.fifo) && ls.fifo.list != [] && NodeOk(ls.fifo.list[0]) && ctl <= 0
    requires ServedLike(ls, ls1, TxnRun(ls.fifo.list[0], answers))
    ensures var o := Served(TxView(ls, answers, true), ctl);
      && o.ret == TxnRun(ls.fifo.list[0], answers).ret && o.link.answers == TxnRun(ls.fifo.list[0], answers).rest
      && TaskLike(ls, if o.ret > 0 then PopQueued(ls1, ctl) else ls1, o)
  {
  }

  lemma PopGoes(s: Sys, l: nat, es: seq<Event>, ls: LinkState, ctl: int, ret: int)
    requires s.worker.Sending? && s.worker.task.hld == l && l in s.links && ctl <= 0 && ret > 0
    requires Goes(s, es, AfterSends(s, l, ls, ret)) && ls.fifo.list != []
    ensures Goes(s, es + [WorkerPop(ctl)] + [WorkerRequeue], TaskDone(s, l, PopQueued(ls, ctl), ret))
  {
    var s1 := AfterSends(s, l, ls, ret);
    var s2 := Put(s, l, PopQueued(ls, ctl)).(worker := Requeueing(s.worker.task));
    GoesOne(s1, WorkerPop(ctl));
    assert s1.links[l := PopQueued(ls, ctl)] == s2.links;
    GoesOn(s, es, s1, [WorkerPop(ctl)], s2);
    GoesOne(s2, WorkerRequeue);
    GoesOn(s, es + [WorkerPop(ctl)], s2, [WorkerRequeue], TaskDone(s, l, PopQueued(ls, ctl), ret));
  }

  lemma FreeGoes(s: Sys, l: nat, es: seq<Event>, ls: LinkState, ret: int)
    requires s.worker.Sending? && s.worker.task.hld == l && l in s.links && ret <= 0
    requires Goes(s, es, AfterSends(s, l, ls, ret))
    ensures Goes(s, es + [WorkerFree], TaskDone(s, l, ls, ret))
  {
    GoesOne(AfterSends(s, l, ls, ret), WorkerFree);
    GoesOn(s, es, AfterSends(s, l, ls, ret), [WorkerFree], TaskDone(s, l, ls, ret));
  }

  /** A link with packets queued: the sends, and the pop and the requeueing if the head has gone. */
  lemma HeadServedAlone(s: Sys, l: nat, answers: seq<SendAnswer>, ctl: int) returns (es: seq<Event>, ls': LinkState)
    requires s.worker.Sending? && s.worker.task.hld == l && l in s.links && s.links[l].fifo.list != []
    requires s.links[l].fifo.list[0].addr == s.worker.addr && NodeOk(s.links[l].fifo.list[0])
    requires Coupled(s.links[l].fifo) && ctl <= 0
    ensures var o := Served(TxView(s.links[l], answers, true), ctl);
      && Goes(s, es, TaskDone(s, l, ls', o.ret))
      && TaskLike(s.links[l], ls', o) && WorkerAlone(es, l, ctl, answers, o.link.answers)
    ensures WorkerRefuses !in es
  {
    var r := TxnRun(s.links[l].fifo.list[0], answers);
    es, ls' := QueueSendsAlone(s, l, ctl, answers);
    RetiredLike(s.links[l], ls', answers, ctl);
    if r.ret > 0 {
      PopGoes(s, l, es, ls', ctl, r.ret);
      SpentLast(es, WorkerPop(ctl), answers, r.rest);
      SpentLast(es + [WorkerPop(ctl)], WorkerRequeue, answers, r.rest);
      es, ls' := es + [WorkerPop(ctl)] + [WorkerRequeue], PopQueued(ls', ctl);
    } else {
      FreeGoes(s, l, es, ls', r.ret);
      SpentLast(es, WorkerFree, answers, r.rest);
      es := es + [WorkerFree];
    }
  }

  lemma FreedAlone(s: Sys, l: nat, e: Event, ls': LinkState, ret: int)
    requires s.worker.Taken? && s.worker.task.hld == l && l in s.links && Enabled(s, e) && ret <= 0
    requires Apply(s, e) == Put(s, l, ls').(worker := Freeing(s.worker.task))
    ensures Goes(s, [e] + [WorkerFree], TaskDone(s, l, ls', ret))
  {
    GoesOne(s, e);
    GoesOne(Apply(s, e), WorkerFree);
    GoesOn(s, [e], Apply(s, e), [WorkerFree], TaskDone(s, l, ls', ret));
  }

  /**
   __wp_exec on a link that is not closed: the run of the worker and the kernel with these answers leaves
   the link, the tasks and what has been freed as the one-task function says, and nothing else changed. The
   worker refuses the link if and only if it is no longer established.
   */
  lemma ServesAloneIsServed(s: Sys, l: nat, answers: seq<SendAnswer>, established: bool, ctl: int)
    returns (es: seq<Event>, ls': LinkState)
    requires s.worker.Taken? && s.worker.task.hld == l && l in s.links
    requires LinkTxOk(TxView(s.links[l], answers, established)) && ctl <= 0
    ensures var o := Served(TxView(s.links[l], answers, established), ctl);
      && Goes(s, es, TaskDone(s, l, ls', o.ret))
      && TaskLike(s.links[l], ls', o) && WorkerAlone(es, l, ctl, answers, o.link.answers)
    ensures WorkerRefuses in es <==> !established
  {
    var ls, t := s.links[l], s.worker.task;
    assert s.links[l := ls] == s.links;
    if !established {
      ls', es := ls.(dead := true), [WorkerRefuses] + [WorkerFree];
      FreedAlone(s, l, WorkerRefuses, ls', -1);
      SilentTwo(WorkerRefuses, answers);
      assert es[0] == WorkerRefuses;
    } else if ls.fifo.list == [] {
      ls', es := ls, [WorkerTop] + [WorkerFree];
      FreedAlone(s, l, WorkerTop, ls, 0);
      SilentTwo(WorkerTop, answers);
    } else {
      es, ls' := TopAndHeadAlone(s, l, answers, ctl);
    }
  }

  lemma SilentTwo(e: Event, answers: seq<SendAnswer>)
    requires AnswerOf(e) == []
    ensures Spent([e] + [WorkerFree], answers, answers)
  {
    AnswersOne(e);
    assert AnswersIn([e]) + answers == answers;
    SpentLast([e], WorkerFree, answers, answers);
  }

  lemma TopAndHeadAlone(s: Sys, l: nat, answers: seq<SendAnswer>, ctl: int) returns (es: seq<Event>, ls': LinkState)
    requires s.worker.Taken? && s.worker.task.hld == l && l in s.links && s.links[l].fifo.list != []
    requires Coupled(s.links[l].fifo) && NodeOk(s.links[l].fifo.list[0]) && ctl <= 0
    ensures var o := Served(TxView(s.links[l], answers, true), ctl);
      && Goes(s, es, TaskDone(s, l, ls', o.ret))
      && TaskLike(s.links[l], ls', o) && WorkerAlone(es, l, ctl, answers, o.link.answers)
    ensures WorkerRefuses !in es
  {
    var ls, top := s.links[l], [WorkerTop];
    var s1 := s.(worker := Sending(s.worker.task, ls.fifo.list[0].addr));
    var o := Served(TxView(ls, answers, true), ctl);
    GoesOne(s, WorkerTop);
    var es1;
    es1, ls' := HeadServedAlone(s1, l, answers, ctl);
    assert TaskDone(s1, l, ls', o.ret) == TaskDone(s, l, ls', o.ret);
    GoesOn(s, top, s1, es1, TaskDone(s, l, ls', o.ret));
    AnswersOne(WorkerTop);
    assert AnswersIn(top) + answers == answers;
    SpentAppend(top, es1, answers, answers, o.link.answers);
    es := top + es1;
  }

  // ---- The drain loop ----

  ghost predicate LinkMatches(ls: LinkState, k: LinkTx) {
    ls.fifo == k.fifo && ls.k.armed == k.armed && ls.k.sent == k.wire && ls.dead == k.closed
  }

  /** The machine's links are what the pool's handles refer to. */
  ghost predicate Matches(s: Sys, links: seq<LinkTx>) {
    forall i | 0 <= i < |links| :: i in s.links && LinkMatches(s.links[i], links[i])
  }

  function Hlds(tasks: seq<Task>): (hlds: seq<nat>)
    ensures |hlds| == |tasks| && forall i | 0 <= i < |tasks| :: hlds[i] == tasks[i].hld
  {
    if tasks == [] then [] else [tasks[0].hld] + Hlds(tasks[1..])
  }

  /** The tasks after one execution; the first one is queued again or gone. */
  function LeftTasks(tasks: seq<Task>, again: bool): seq<Task>
    requires tasks != []
  {
    if again then tasks[1..] + [tasks[0]] else tasks[1..]
  }

  /** One execution has ended with `ret`: the task is queued again or freed, and nothing else has moved. */
  ghost predicate Executed(s: Sys, s': Sys, ret: int)
    requires s.tasks != []
  {
    && s'.worker.Waiting? && s'.pool == s.pool
    && s'.tasks == LeftTasks(s.tasks, ret > 0)
    && s'.freed == (if ret > 0 then s.freed else s.freed + multiset{s.tasks[0].id})
  }

  lemma ClosedExecAlone(s: Sys, l: nat) returns (es: seq<Event>)
    requires s.pool.Active? && s.worker.Waiting? && s.tasks != []
    requires s.tasks[0].hld == l && l in s.links && s.links[l].dead
    ensures Goes(s, es, TaskDone(Apply(s, WorkerTake), l, s.links[l], -(ENOENT as int)))
  {
    var s1, ls := Apply(s, WorkerTake), s.links[l];
    assert ls.(dead := true) == ls;
    GoesOne(s, WorkerTake);
    FreedAlone(s1, l, WorkerRefuses, ls, -(ENOENT as int));
    es := [WorkerTake] + ([WorkerRefuses] + [WorkerFree]);
    GoesOn(s, [WorkerTake], s1, [WorkerRefuses] + [WorkerFree], TaskDone(s1, l, ls, -(ENOENT as int)));
  }

  lemma ExecAlone(s: Sys, links: seq<LinkTx>, ctl: int) returns (es: seq<Event>, s': Sys)
    requires s.pool.Active? && s.worker.Waiting? && s.tasks != [] && s.tasks[0].hld < |links|
    requires Matches(s, links) && Wpool.LinksOk(links) && ctl <= 0
    ensures var o := ExecStep(links, s.tasks[0].hld, ctl);
      Goes(s, es, s') && Executed(s, s', o.ret) && Matches(s', o.links)
  {
    var l := s.tasks[0].hld;
    var k, ls, s1 := links[l], s.links[l], Apply(s, WorkerTake);
    if k.closed {
      es := ClosedExecAlone(s, l);
      s' := TaskDone(s1, l, ls, -(ENOENT as int));
    } else {
      assert TxView(ls, k.answers, k.established) == k;
      GoesOne(s, WorkerTake);
      var es1, ls' := ServesAloneIsServed(s1, l, k.answers, k.established, ctl);
      s' := TaskDone(s1, l, ls', Served(k, ctl).ret);
      GoesOn(s, [WorkerTake], s1, es1, s');
      es := [WorkerTake] + es1;
    }
  }

  lemma LeftHlds(tasks: seq<Task>, again: bool)
    requires tasks != []
    ensures Hlds(LeftTasks(tasks, again))
      == if again then Hlds(tasks)[1..] + [Hlds(tasks)[0]] else Hlds(tasks)[1..]
  {
  }

  lemma LeftIds(tasks: seq<Task>, again: bool)
    requires tasks != []
    ensures Ids(LeftTasks(tasks, again)) + (if again then multiset{} else multiset{tasks[0].id}) == Ids(tasks)
  {
    IdsSnoc(tasks[1..], tasks[0]);
  }

  lemma LeftAreTasks(tasks: seq<Task>, again: bool)
    requires tasks != []
    ensures forall t | t in LeftTasks(tasks, again) :: t in tasks
  {
  }

  lemma ExecutedLeaves(s: Sys, s1: Sys, ret: int)
    requires s.tasks != [] && Executed(s, s1, ret)
    ensures Hlds(s1.tasks) == Left(Hlds(s.tasks), ret)
    ensures s1.freed + Ids(s1.tasks) == s.freed + Ids(s.tasks)
    ensures |s1.tasks| == |Left(Hlds(s.tasks), ret)| && forall t | t in s1.tasks :: t in s.tasks
  {
    LeftHlds(s.tasks, ret > 0);
    LeftIds(s.tasks, ret > 0);
    LeftAreTasks(s.tasks, ret > 0);
  }

  /** One execution of the drain loop: what is left to do from there is what was left, less one turn. */
  lemma TurnAlone(s: Sys, links: seq<LinkTx>, ctls: seq<int32>)
    returns (es: seq<Event>, s1: Sys, links1: seq<LinkTx>)
    requires s.pool.Active? && s.worker.Waiting? && s.tasks != [] && forall t | t in s.tasks :: t.hld < |links|
    requires Matches(s, links) && Wpool.LinksOk(links) && CtlsOk(ctls)
    ensures Goes(s, es, s1) && s1.worker.Waiting? && forall t | t in s1.tasks :: t.hld < |links1|
    ensures s1.pool == s.pool && Matches(s1, links1) && Wpool.LinksOk(links1)
    ensures s1.freed + Ids(s1.tasks) == s.freed + Ids(s.tasks)
    ensures |s1.tasks| + Wpool.Waiting(links1) < |s.tasks| + Wpool.Waiting(links)
    ensures DrainRun(links, Hlds(s.tasks), ctls).links == DrainRun(links1, Hlds(s1.tasks), Later(ctls)).links
  {
    var o := ExecStep(links, s.tasks[0].hld, Answer(ctls) as int);
    links1 := o.links;
    DrainRunTurn(links, Hlds(s.tasks), ctls);
    es, s1 := ExecAlone(s, links, Answer(ctls) as int);
    ExecutedLeaves(s, s1, o.ret);
  }

  /**
   The inner loop of __wp_run: for every kernel and whatever epoll_ctl answers each time, some run of the
   worker and the kernel leaves the links as the drain function says, with an empty task list and every
   task freed once.
   */
  lemma {:induction false} DrainsAloneIsDrain(s: Sys, links: seq<LinkTx>, ctls: seq<int32>)
    returns (es: seq<Event>, s': Sys)
    requires s.pool.Active? && s.worker.Waiting? && forall t | t in s.tasks :: t.hld < |links|
    requires Matches(s, links) && Wpool.LinksOk(links) && CtlsOk(ctls)
    ensures Goes(s, es, s') && s'.worker.Waiting? && s'.tasks == []
    ensures Matches(s', DrainRun(links, Hlds(s.tasks), ctls).links)
    ensures s'.freed == s.freed + Ids(s.tasks)
    decreases |s.tasks| + Wpool.Waiting(links)
  {
    if s.tasks == [] {
      es, s' := [], s;
    } else {
      var es1, s1, links1 := TurnAlone(s, links, ctls);
      var es2;
      es2, s' := DrainsAloneIsDrain(s1, links1, Later(ctls));
      GoesOn(s, es1, s1, es2, s');
      es := es1 + es2;
    }
  }
}
