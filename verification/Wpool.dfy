/** wpool.c: one worker thread drains the queues of all links, one packet per task. */
module Wpool {
  import opened Basics
  import opened Transmit
  import opened TxQueue

  function Sum(s: seq<nat>): nat {
    if s == [] then 0 else s[0] + Sum(s[1..])
  }

  lemma {:induction false} SumUpdate(s: seq<nat>, i: nat, n: nat)
    requires i < |s|
    ensures Sum(s[i := n]) + s[i] == Sum(s) + n
    decreases |s|
  {
    if i == 0 {
      assert s[0 := n][1..] == s[1..];
    } else {
      assert s[i := n][1..] == s[1..][i - 1 := n];
      SumUpdate(s[1..], i - 1, n);
    }
  }

  /** Packets waiting in all queues. */
  function Waiting(links: seq<LinkTx>): nat {
    Sum(seq(|links|, i requires 0 <= i < |links| => |links[i].fifo.list|))
  }

  lemma WaitingUpdate(links: seq<LinkTx>, i: nat, k: LinkTx)
    requires i < |links|
    ensures Waiting(links[i := k]) + |links[i].fifo.list| == Waiting(links) + |k.fifo.list|
  {
    var sizes := seq(|links|, j requires 0 <= j < |links| => |links[j].fifo.list| as nat);
    var links' := links[i := k];
    assert seq(|links'|, j requires 0 <= j < |links'| => |links'[j].fifo.list| as nat)
      == sizes[i := |k.fifo.list|];
    SumUpdate(sizes, i, |k.fifo.list|);
  }

  ghost predicate LinksOk(links: seq<LinkTx>) {
    forall i | 0 <= i < |links| :: LinkTxOk(links[i])
  }

  /** The same links, each with the same stream. */
  ghost predicate SameStreams(a: seq<LinkTx>, b: seq<LinkTx>) {
    |a| == |b| && forall i | 0 <= i < |a| :: Stream(a[i]) == Stream(b[i])
  }

  datatype Outcome = Outcome(links: seq<LinkTx>, ret: int)

  /** __wp_exec on the links: a handle that no longer refers to a link is ENOENT. */
  function ExecStep(links: seq<LinkTx>, task: nat, ctl: int): Outcome {
    if task >= |links| || links[task].closed then Outcome(links, -(ENOENT as int))
    else
      var s := Served(links[task], ctl);
      Outcome(links[task := s.link], s.ret)
  }

  lemma ExecStepKeeps(links: seq<LinkTx>, task: nat, ctl: int)
    requires LinksOk(links)
    ensures var o := ExecStep(links, task, ctl);
      && LinksOk(o.links) && SameStreams(o.links, links)
      && Waiting(o.links) == Waiting(links) - if o.ret > 0 then 1 else 0
  {
    if task < |links| && !links[task].closed {
      ServedKeeps(links[task], ctl);
      WaitingUpdate(links, task, Served(links[task], ctl).link);
    }
  }

  function Answer(ctls: seq<int32>): int32 {
    if ctls == [] then 0 else ctls[0]
  }

  function Later(ctls: seq<int32>): seq<int32> {
    if ctls == [] then [] else ctls[1..]
  }

  ghost predicate CtlsOk(ctls: seq<int32>) {
    forall i | 0 <= i < |ctls| :: ctls[i] <= 0
  }

  datatype Drained = Drained(links: seq<LinkTx>, executed: nat)

  /** The tasks in the list after the first one has been executed. */
  function Left(tasks: seq<nat>, ret: int): seq<nat>
    requires tasks != []
  {
    if ret > 0 then tasks[1..] + [tasks[0]] else tasks[1..]
  }

  /**
   Tasks are executed in order; a successful one goes to the end of the list. `ctls` is what epoll_ctl
   would answer to one execution after the other; after these it answers 0.
   */
  function DrainRun(links: seq<LinkTx>, tasks: seq<nat>, ctls: seq<int32>): Drained
    requires LinksOk(links)
    decreases |tasks| + Waiting(links)
  {
    if tasks == [] then Drained(links, 0)
    else
      ExecStepKeeps(links, tasks[0], Answer(ctls) as int);
      var o := ExecStep(links, tasks[0], Answer(ctls) as int);
      var d := DrainRun(o.links, Left(tasks, o.ret), Later(ctls));
      d.(executed := d.executed + 1)
  }

  lemma DrainRunTurn(links: seq<LinkTx>, tasks: seq<nat>, ctls: seq<int32>)
    requires LinksOk(links) && tasks != []
    ensures var o := ExecStep(links, tasks[0], Answer(ctls) as int);
      && LinksOk(o.links) && |o.links| == |links|
      && |Left(tasks, o.ret)| + Waiting(o.links) < |tasks| + Waiting(links)
      && var d := DrainRun(o.links, Left(tasks, o.ret), Later(ctls));
         DrainRun(links, tasks, ctls) == Drained(d.links, d.executed + 1)
  {
    ExecStepKeeps(links, tasks[0], Answer(ctls) as int);
  }

  /** Every execution uses up exactly one queued packet or one task, and no stream is changed. */
  lemma {:induction false} DrainAccounts(links: seq<LinkTx>, tasks: seq<nat>, ctls: seq<int32>)
    requires LinksOk(links)
    ensures var d := DrainRun(links, tasks, ctls);
      && LinksOk(d.links) && SameStreams(d.links, links)
      && d.executed + Waiting(d.links) == |tasks| + Waiting(links)
    decreases |tasks| + Waiting(links)
  {
    if tasks == [] {
    } else {
      ExecStepKeeps(links, tasks[0], Answer(ctls) as int);
      var o := ExecStep(links, tasks[0], Answer(ctls) as int);
      DrainAccounts(o.links, Left(tasks, o.ret), Later(ctls));
    }
  }

  /** The link is up and its kernel side never refuses. */
  ghost predicate Flowing(k: LinkTx) {
    k.established && !k.closed && Willing(k.answers)
  }

  lemma ServedFlows(k: LinkTx, ctl: int)
    requires LinkTxOk(k) && Flowing(k)
    ensures var s := Served(k, ctl);
      && LinkTxOk(s.link) && Flowing(s.link)
      && (s.ret <= 0 ==> s.link.fifo.list == [] || s.link.answers == [])
      && (k.fifo.list == [] ==> s.link.fifo.list == [])
      && (k.answers == [] ==> s.link.answers == [])
  {
    ServedKeeps(k, ctl);
    if k.fifo.list != [] {
      TxnRunWilling(k.fifo.list[0], k.answers);
      TxnRunEnds(k.fifo.list[0], k.answers);
    }
  }

  /**
   A link with a task is served until its queue is empty or its kernel has no more answers, however
   long the queues of other links are: then, if the queue is empty, the wire is the whole stream.
   */
  lemma {:induction false} DrainServes(links: seq<LinkTx>, tasks: seq<nat>, ctls: seq<int32>, l: nat)
    requires LinksOk(links) && l < |links| && Flowing(links[l])
    requires l in tasks || links[l].fifo.list == [] || links[l].answers == []
    ensures var d := DrainRun(links, tasks, ctls).links;
      && |d| == |links|
      && (d[l].fifo.list == [] || d[l].answers == [])
      && (d[l].fifo.list == [] ==> d[l].wire == Stream(links[l]))
    decreases |tasks| + Waiting(links)
  {
    DrainAccounts(links, tasks, ctls);
    if tasks == [] {
    } else {
      ExecStepKeeps(links, tasks[0], Answer(ctls) as int);
      var o := ExecStep(links, tasks[0], Answer(ctls) as int);
      ServedFlows(links[l], Answer(ctls) as int);
      var tasks' := Left(tasks, o.ret);
      assert l in tasks && l != tasks[0] ==> l in tasks[1..];
      assert o.ret > 0 ==> tasks[0] in tasks';
      DrainServes(o.links, tasks', Later(ctls), l);
    }
    var k := DrainRun(links, tasks, ctls).links[l];
    if k.fifo.list == [] {
      assert k.wire + [] == k.wire;
    }
  }

  // ---- What a drain does to a link that is closed, or has to be ----

  /** No task changes such a link. */
  ghost predicate AtRest(k: LinkTx) {
    k.closed || (k.established && k.fifo.list == [])
  }

  lemma OtherLink(links: seq<LinkTx>, task: nat, ctl: int, l: nat)
    requires LinksOk(links) && l < |links|
    ensures var o := ExecStep(links, task, ctl);
      |o.links| == |links| && (task != l || AtRest(links[l]) ==> o.links[l] == links[l])
  {
  }

  /** A link that is closed or has nothing queued is left alone, and so is a link without a task. */
  lemma {:induction false} DrainLeavesAlone(links: seq<LinkTx>, tasks: seq<nat>, ctls: seq<int32>, l: nat)
    requires LinksOk(links) && l < |links| && (AtRest(links[l]) || l !in tasks)
    ensures var d := DrainRun(links, tasks, ctls);
      |d.links| == |links| && d.links[l] == links[l]
    decreases |tasks| + Waiting(links)
  {
    if tasks == [] {
    } else {
      var o := ExecStep(links, tasks[0], Answer(ctls) as int);
      DrainRunTurn(links, tasks, ctls);
      OtherLink(links, tasks[0], Answer(ctls) as int, l);
      assert l !in tasks ==> l !in Left(tasks, o.ret);
      DrainLeavesAlone(o.links, Left(tasks, o.ret), Later(ctls), l);
    }
  }

  /** A task for a closed link, or for a handle that refers to none, is freed and does nothing else. */
  lemma DrainFrees(links: seq<LinkTx>, tasks: seq<nat>, ctls: seq<int32>)
    requires LinksOk(links) && tasks != [] && (tasks[0] >= |links| || links[tasks[0]].closed)
    ensures var d := DrainRun(links, tasks[1..], Later(ctls));
      DrainRun(links, tasks, ctls) == Drained(d.links, d.executed + 1)
    ensures ExecStep(links, tasks[0], Answer(ctls) as int).ret == -2
  {
    DrainRunTurn(links, tasks, ctls);
  }

  /** A link that is no longer established is closed by its first task, with everything else as it was. */
  lemma {:induction false} DrainCloses(links: seq<LinkTx>, tasks: seq<nat>, ctls: seq<int32>, l: nat)
    requires LinksOk(links) && l < |links| && l in tasks && !links[l].closed && !links[l].established
    ensures var d := DrainRun(links, tasks, ctls);
      |d.links| == |links| && d.links[l] == links[l].(closed := true)
    decreases |tasks| + Waiting(links)
  {
    var o := ExecStep(links, tasks[0], Answer(ctls) as int);
    DrainRunTurn(links, tasks, ctls);
    if tasks[0] == l {
      ServedExactly(links[l], Answer(ctls) as int);
      DrainLeavesAlone(o.links, Left(tasks, o.ret), Later(ctls), l);
    } else {
      OtherLink(links, tasks[0], Answer(ctls) as int, l);
      assert l in tasks[1..];
      DrainCloses(o.links, Left(tasks, o.ret), Later(ctls), l);
    }
  }

  /** Its kernel answers no send with 0 or an error. */
  ghost predicate Sound(k: LinkTx) {
    k.established && !k.closed && forall i | 0 <= i < |k.answers| :: !k.answers[i].Zero? && !k.answers[i].Broke?
  }

  lemma ServedStaysOpen(k: LinkTx, ctl: int)
    requires LinkTxOk(k) && Sound(k)
    ensures Sound(Served(k, ctl).link)
  {
    ServedExactly(k, ctl);
    if k.fifo.list != [] {
      TxnFailure(k.fifo.list[0], k.answers);
    }
  }

  /** An established link is closed only after its kernel has answered a send with 0 or an error. */
  lemma {:induction false} DrainKeepsOpen(links: seq<LinkTx>, tasks: seq<nat>, ctls: seq<int32>, l: nat)
    requires LinksOk(links) && l < |links| && Sound(links[l])
    ensures var d := DrainRun(links, tasks, ctls);
      |d.links| == |links| && !d.links[l].closed
    decreases |tasks| + Waiting(links)
  {
    if tasks == [] {
    } else {
      var o := ExecStep(links, tasks[0], Answer(ctls) as int);
      DrainRunTurn(links, tasks, ctls);
      OtherLink(links, tasks[0], Answer(ctls) as int, l);
      ServedStaysOpen(links[l], Answer(ctls) as int);
      DrainKeepsOpen(o.links, Left(tasks, o.ret), Later(ctls), l);
    }
  }

  /** ... and when the head of its queue meets such an answer, it is closed. */
  lemma {:induction false} DrainClosesBroken(links: seq<LinkTx>, tasks: seq<nat>, ctls: seq<int32>, l: nat, j: nat)
    requires LinksOk(links) && l < |links| && l in tasks && links[l].established && links[l].fifo.list != []
    requires StopsAt(links[l].fifo.list[0], links[l].answers, j) && !links[l].answers[j].Again?
    ensures var d := DrainRun(links, tasks, ctls);
      |d.links| == |links| && d.links[l].closed
    decreases |tasks| + Waiting(links)
  {
    if links[l].closed {
      DrainLeavesAlone(links, tasks, ctls, l);
    } else {
      var o := ExecStep(links, tasks[0], Answer(ctls) as int);
      DrainRunTurn(links, tasks, ctls);
      if tasks[0] == l {
        ServedExactly(links[l], Answer(ctls) as int);
        TxnRunExactly(links[l].fifo.list[0], links[l].answers, j);
        DrainLeavesAlone(o.links, Left(tasks, o.ret), Later(ctls), l);
      } else {
        OtherLink(links, tasks[0], Answer(ctls) as int, l);
        assert l in tasks[1..];
        DrainClosesBroken(o.links, Left(tasks, o.ret), Later(ctls), l, j);
      }
    }
  }

  /** One task retires a link's only packet if the kernel takes it, and EPOLLOUT with it if epoll_ctl answers 0. */
  lemma OnlyPacketGoes(k: LinkTx, ctl: int, j: nat)
    requires LinkTxOk(k) && k.established && !k.closed && |k.fifo.list| == 1 && FinishesAt(k.fifo.list[0], k.answers, j)
    ensures var s := Served(k, ctl);
      && s.link.fifo.list == [] && !s.link.closed && s.link.established && s.link.wire == Stream(k)
      && s.link.answers == k.answers[j + 1..] && (s.link.armed <==> k.armed && ctl != 0)
  {
    TxnRunExactly(k.fifo.list[0], k.answers, j);
    ServedExactly(k, ctl);
    ServedKeeps(k, ctl);
    assert Served(k, ctl).link.wire + [] == Served(k, ctl).link.wire;
  }

  /**
   The list is worked off from the front, and a task that goes back goes to its end: whatever the earlier
   tasks do, the one at place `i` is executed as number `i`, with the answer of epoll_ctl that comes then.
   */
  lemma {:induction false} DrainInTurn(links: seq<LinkTx>, tasks: seq<nat>, ctls: seq<int32>, i: nat, j: nat)
    requires LinksOk(links) && i < |tasks| && tasks[i] < |links| && tasks[i] !in tasks[..i]
    requires var k := links[tasks[i]];
      k.established && !k.closed && |k.fifo.list| == 1 && FinishesAt(k.fifo.list[0], k.answers, j)
    ensures var d, k := DrainRun(links, tasks, ctls).links, links[tasks[i]];
      && |d| == |links|
      && d[tasks[i]].fifo.list == [] && !d[tasks[i]].closed && d[tasks[i]].wire == Stream(k)
      && d[tasks[i]].answers == k.answers[j + 1..]
      && (d[tasks[i]].armed <==> k.armed && i < |ctls| && ctls[i] != 0)
    decreases i
  {
    var l := tasks[i];
    var o := ExecStep(links, tasks[0], Answer(ctls) as int);
    DrainRunTurn(links, tasks, ctls);
    if i == 0 {
      OnlyPacketGoes(links[l], Answer(ctls) as int, j);
      DrainLeavesAlone(o.links, Left(tasks, o.ret), Later(ctls), l);
    } else {
      assert tasks[0] in tasks[..i];
      OtherLink(links, tasks[0], Answer(ctls) as int, l);
      var left := Left(tasks, o.ret);
      assert left[i - 1] == l && left[..i - 1] == tasks[1..i];
      assert forall t | t in tasks[1..i] :: t in tasks[..i];
      DrainInTurn(o.links, left, Later(ctls), i - 1, j);
    }
  }

  /**
   `struct wpool`; a task is the handle of the link to serve, `links` the control blocks that handles
   refer to. `view` is what these objects amount to; they and their nodes are in `repr`.
   */
  class WorkerPool {
    const links: seq<NcbTx>
    var tasks: seq<nat>
    var taskListSize: int
    var actived: bool
    ghost var view: seq<LinkTx>
    ghost const repr: set<object>

    /** Different links are different objects, and everything is in `repr`. */
    ghost predicate Placed()
      reads repr
    {
      && this !in repr
      && (forall i | 0 <= i < |links| :: links[i] in repr)
      && (forall i, n | 0 <= i < |links| && n in links[i].list :: n in repr)
      && (forall i, j | 0 <= i < j < |links| :: links[i] != links[j])
    }

    ghost predicate Viewed()
      requires Placed()
      reads this`view, repr
    {
      |view| == |links| && forall i | 0 <= i < |links| :: links[i].Valid() && links[i].View() == view[i]
    }

    ghost predicate Valid()
      reads this, repr
    {
      Placed() && Viewed() && taskListSize == |tasks| && LinksOk(view)
    }

    constructor (links: seq<NcbTx>, ghost view: seq<LinkTx>, ghost repr: set<object>)
      requires forall i | 0 <= i < |links| :: links[i] in repr && forall n | n in links[i].list :: n in repr
      requires forall i, j | 0 <= i < j < |links| :: links[i] != links[j]
      requires |view| == |links| && LinksOk(view)
      requires forall i | 0 <= i < |links| :: links[i].Valid() && links[i].View() == view[i]
      ensures Valid() && this.links == links && this.view == view && this.repr == repr && tasks == [] && actived
    {
      this.links, tasks, taskListSize, actived, this.view, this.repr := links, [], 0, true, view, repr;
    }

    method AddTask(task: nat)
      modifies this`tasks, this`taskListSize
      ensures tasks == old(tasks) + [task] && taskListSize == old(taskListSize) + 1
    {
      tasks := tasks + [task];
      taskListSize := taskListSize + 1;
    }

    method GetTask() returns (task: Option<nat>)
      modifies this`tasks, this`taskListSize
      ensures if old(tasks) == [] then task == None && tasks == [] && taskListSize == old(taskListSize)
              else task == Some(old(tasks[0])) && tasks == old(tasks[1..]) && taskListSize == old(taskListSize) - 1
    {
      task := None;
      if |tasks| > 0 {
        task, tasks := Some(tasks[0]), tasks[1..];
        taskListSize := taskListSize - 1;
      }
    }

    /** A node is in the queue of its own link and in no other. */
    lemma Apart(i: nat, j: nat)
      requires Valid() && i < |links| && j < |links| && i != j
      ensures links[i] != links[j] && forall m | 0 <= m < |links[j].list| :: links[j].list[m] !in links[i].list
    {
    }

    /** Serving link `i` moves no object. */
    twostate lemma StillPlaced(i: nat)
      requires old(Placed()) && i < |links| && forall n | n in links[i].list :: n in old(links[i].list)
      requires forall j | 0 <= j < |links| && j != i :: unchanged(links[j])
      ensures Placed()
    {
      forall j, n | 0 <= j < |links| && n in links[j].list
        ensures n in repr
      {
        assert n in old(links[j].list);
      }
    }

    /** tcp_tx and its consequences on one link; the objects of the other links are not touched. */
    method ServeLink(i: nat, ctl: int32) returns (ret: int)
      requires Valid() && i < |links| && ctl <= 0
      modifies repr
      ensures Placed()
      ensures forall j | 0 <= j < |links| && j != i :: links[j].Valid() && links[j].View() == view[j]
      ensures var o := Served(view[i], ctl as int);
        links[i].Valid() && links[i].View() == o.link && ret == o.ret
    {
      forall j | 0 <= j < |links| && j != i
        ensures links[i] != links[j] && forall m | 0 <= m < |links[j].list| :: links[j].list[m] !in links[i].list
      {
        Apart(i, j);
      }
      var r := links[i].Serve(ctl);
      StillPlaced(i);
      forall j | 0 <= j < |links| && j != i
        ensures links[j].Valid() && links[j].View() == view[j]
      {
        Untouched(links[j]);
      }
      ret := r as int;
    }

    ghost method SetView(i: nat, k: LinkTx)
      requires Placed() && |view| == |links| && i < |links|
      requires forall j | 0 <= j < |links| && j != i :: links[j].Valid() && links[j].View() == view[j]
      requires links[i].Valid() && links[i].View() == k
      modifies this`view
      ensures view == old(view)[i := k] && Viewed()
    {
      view := view[i := k];
    }

    /**
     __wp_exec. The task is in the worker's hand: afterwards it is queued again, or (ret <= 0) left to
     the caller to free. `ctl` is what epoll_ctl would answer.
     */
    method Exec(task: nat, ctl: int32) returns (ret: int)
      requires Valid() && ctl <= 0
      modifies this, repr
      ensures Valid() && actived == old(actived)
      ensures var o := ExecStep(old(view), task, ctl as int); view == o.links && ret == o.ret
      ensures tasks == if ret > 0 then old(tasks) + [task] else old(tasks)
      ensures task >= |links| || old(links[task].closed) ==> ret == -2 && view == old(view)
    {
      if task >= |links| || links[task].closed {
        return -(ENOENT as int);
      }
      ServedKeeps(view[task], ctl as int);
      ret := ServeLink(task, ctl);
      SetView(task, Served(view[task], ctl as int).link);
      if ret > 0 {
        AddTask(task);
      }
    }

    /**
     One turn of the inner loop of __wp_run; `ret` is what __wp_exec answered. What
     the drain is going to do from here is what it was going to do before, less this turn.
     */
    method Turn(ctls: seq<int32>) returns (ended: bool, ret: int)
      requires Valid() && CtlsOk(ctls)
      modifies this, repr
      ensures Valid() && actived == old(actived) && ended == (old(tasks) == [] || !actived)
      ensures ended ==> view == old(view) && tasks == if old(tasks) == [] then [] else old(tasks[1..])
      ensures !ended ==>
        && |tasks| + Waiting(view) < old(|tasks| + Waiting(view))
        && |tasks| == old(|tasks|) - (if ret > 0 then 0 else 1)
        && var d := DrainRun(view, tasks, Later(ctls));
           DrainRun(old(view), old(tasks), ctls) == Drained(d.links, d.executed + 1)
    {
      ghost var view0, tasks0 := view, tasks;
      var task := GetTask();
      if task.None? || !actived {
        return true, 0;
      }
      ret := Exec(task.value, Answer(ctls));
      ended := false;
      DrainRunTurn(view0, tasks0, ctls);
      assert tasks == Left(tasks0, ret);
    }

    /**
     The inner loop of __wp_run, with no writer and no epoll thread adding anything: it ends. After an
     order to stop it takes one task, if there is one, and leaves without executing or freeing it.
     */
    method Drain(ctls: seq<int32>) returns (executed: nat, freed: nat)
      requires Valid() && CtlsOk(ctls)
      modifies this, repr
      ensures Valid() && actived == old(actived)
      ensures actived ==>
        && tasks == [] && DrainRun(old(view), old(tasks), ctls) == Drained(view, executed)
        && executed + Waiting(view) == old(|tasks| + Waiting(view))
        && freed == old(|tasks|)
      ensures !actived ==>
        && executed == freed == 0 && view == old(view)
        && tasks == if old(tasks) == [] then [] else old(tasks[1..])
    {
      executed, freed := 0, 0;
      var rest := ctls;
      ghost var whole := DrainRun(view, tasks, ctls);
      while true
        invariant Valid()
        invariant actived == old(actived) && LinksOk(old(view))
        invariant executed == 0 ==> freed == 0 && view == old(view) && tasks == old(tasks)
        invariant !actived ==> executed == 0
        invariant freed + |tasks| == old(|tasks|) && CtlsOk(rest)
        invariant var d := DrainRun(view, tasks, rest); whole == Drained(d.links, executed + d.executed)
        decreases |tasks| + Waiting(view)
      {
        var ended, ret := Turn(rest);
        if ended {
          DrainAccounts(old(view), old(tasks), ctls);
          return;
        }
        executed, rest := executed + 1, Later(rest);
        if ret <= 0 {
          freed := freed + 1;
        }
      }
    }

    /** The clean-up of __wp_uninit after the thread has ended: it frees what is left in the list. */
    method Clear() returns (freed: nat)
      requires Valid()
      modifies this`tasks, this`taskListSize
      ensures Valid() && tasks == [] && freed == old(|tasks|)
    {
      freed := 0;
      while true
        invariant Valid() && freed + |tasks| == old(|tasks|)
        decreases |tasks|
      {
        var task := GetTask();
        if task.None? {
          return;
        }
        freed := freed + 1;
      }
    }
  }
}
