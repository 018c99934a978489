/** fifo.c, tcp_txn and tcp_tx of tcpio.c, and tcp_write of tcp.c, on the objects they update. */
module Transmit {
  import opened Basics
  import opened Framing
  import opened TxQueue

  /** `struct tx_node`; the list entry is a place in the queue's sequence. `owner` is the link it is written to. */
  class TxNode {
    const data: Bytes
    const wcb: int32
    var offset: int32
    ghost const addr: nat
    ghost const owner: NcbTx

    constructor (data: Bytes, wcb: int32, ghost addr: nat, ghost owner: NcbTx)
      requires |data| == wcb as int
      ensures Shape() && this.data == data && this.wcb == wcb && offset == 0
      ensures this.addr == addr && this.owner == owner
    {
      this.data, this.wcb, offset, this.addr, this.owner := data, wcb, 0, addr, owner;
    }

    ghost predicate Shape()
      reads this`offset
    {
      |data| == wcb as int && 0 <= offset <= wcb
    }

    ghost function View(): Node
      requires 0 <= offset
      reads this`offset
    {
      Node(addr, data, offset as int)
    }
  }

  ghost predicate Distinct(list: seq<TxNode>) {
    forall i, j | 0 <= i < j < |list| :: list[i] != list[j]
  }

  ghost predicate Shapes(list: seq<TxNode>)
    reads list
  {
    forall i | 0 <= i < |list| :: list[i].Shape()
  }

  ghost function Views(list: seq<TxNode>): (r: seq<Node>)
    requires Shapes(list)
    reads list
    ensures |r| == |list| && forall i | 0 <= i < |list| :: r[i] == list[i].View()
  {
    if list == [] then [] else [list[0].View()] + Views(list[1..])
  }

  /**
   The transmit half of the network control block. The kernel side of the socket is the bytes it
   has accepted, the answers it will give to send(2), the EPOLLOUT bit of its interest set, and
   whether it reports the connection as established. `closed` is set by objclos.
   */
  class NcbTx {
    var list: seq<TxNode>
    var size: int32
    var blocking: int32
    var epollOut: bool
    var wire: Bytes
    var answers: seq<SendAnswer>
    var established: bool
    var closed: bool

    ghost predicate Valid()
      reads this, list
    {
      && Shapes(list)
      && Distinct(list)
      && (forall n | n in list :: n.owner == this)
      && (blocking == 0 || blocking == 1)
      && Coupled(Fifo())
    }

    ghost function Fifo(): FifoState
      requires Shapes(list)
      reads this, list
    {
      FifoState(Views(list), size as int, blocking == 1)
    }

    ghost function View(): LinkTx
      requires Shapes(list)
      reads this, list
    {
      LinkTx(Fifo(), epollOut, wire, answers, established, closed)
    }

    /** fifo_init on a fresh control block. */
    constructor (answers: seq<SendAnswer>)
      ensures Valid() && Fifo() == NO_FIFO && !epollOut && wire == [] && this.answers == answers
      ensures established && !closed
    {
      list, size, blocking, epollOut := [], 0, 0, false;
      wire, this.answers, established, closed := [], answers, true, false;
    }

    /** io_modify: the interest set changes if epoll_ctl succeeds. */
    method IoModify(out: bool, ctl: int32) returns (ret: int32)
      requires ctl <= 0
      modifies this`epollOut
      ensures ret == ctl && epollOut == if ctl < 0 then old(epollOut) else out
    {
      if ctl >= 0 {
        epollOut := out;
      }
      return ctl;
    }

    method FifoQueue(node: TxNode, ctl: int32) returns (n: int32)
      requires Valid() && node.Shape() && node !in list && node.owner == this && ctl <= 0
      modifies this`list, this`size, this`blocking, this`epollOut
      ensures Valid()
      ensures var q := QueueOn(old(Fifo()), node.View(), ctl as int);
        && Fifo() == q.fifo && n as int == q.ret
        && epollOut == (old(epollOut) || q.arms)
      ensures list == if n < 0 then old(list) else old(list) + [node]
    {
      if size >= MAXIMUM_FIFO_SIZE {
        return -EBUSY;
      }
      ViewsAppend(list, node);
      list := list + [node];
      if 0 == blocking {
        n := IoModify(true, ctl);
        if n < 0 {
          list := list[..|list| - 1];
          return;
        }
        blocking := 1;
      }
      size := size + 1;
      n := size;
    }

    method FifoTop() returns (front: TxNode?)
      requires Valid()
      ensures if list == [] then front == null else front == list[0]
    {
      front := if |list| > 0 then list[0] else null;
    }

    /** `ctl` is ignored by the source: a failing epoll_ctl leaves EPOLLOUT armed. */
    method FifoPop(ctl: int32) returns (front: TxNode?)
      requires Valid() && ctl <= 0
      modifies this`list, this`size, this`blocking, this`epollOut
      ensures Valid()
      ensures var p := PopFrom(old(Fifo()));
        && Fifo() == p.fifo
        && (front == null <==> p.node.None?)
        && epollOut == (old(epollOut) && !(p.disarms && ctl == 0))
      ensures if front == null then list == old(list) == [] else old(list) == [front] + list
    {
      front := null;
      if |list| > 0 {
        front := list[0];
        assert Views(list) == [front.View()] + Views(list[1..]);
        list := list[1..];
        size := size - 1;
        if 0 == size && 1 == blocking {
          blocking := 0;
          var _ := IoModify(false, ctl);
        }
      }
    }

    method FifoIsBlocking() returns (b: int32)
      requires Valid()
      ensures b == 1 <==> Fifo().blocking
      ensures b == 0 <==> Fifo().list == []
    {
      b := blocking;
    }

    /** One send(2): the kernel takes bytes from the front of what it is offered, or answers an error. */
    method Send(offered: Bytes) returns (a: SendAnswer)
      requires 0 < |offered|
      modifies this`wire, this`answers
      ensures old(answers) == [] ==> a == Again && answers == [] && wire == old(wire)
      ensures old(answers) != [] ==>
        && a == old(answers[0]) && answers == old(answers[1..])
        && wire == old(wire) + (if a.Took? then offered[..if a.k < |offered| then a.k + 1 else |offered|] else [])
    {
      if answers == [] {
        return Again;
      }
      a, answers := answers[0], answers[1..];
      if a.Took? {
        wire := wire + offered[..if a.k < |offered| then a.k + 1 else |offered|];
      }
    }

    /** One turn of the loop: send what is left of the node and advance it by what was taken. */
    method TxnTurn(node: TxNode) returns (a: SendAnswer)
      requires node.Shape() && node.offset < node.wcb
      modifies this`wire, this`answers, node`offset
      ensures node.Shape() && NodeOk(old(node.View()))
      ensures a == (if old(answers) == [] then Again else old(answers[0]))
      ensures answers == if old(answers) == [] then [] else old(answers[1..])
      ensures node.offset as int
        == old(node.offset) as int + (if a.Took? then Accepted(old(node.View()), a.k) else 0)
      ensures wire == old(wire) + node.data[old(node.offset)..node.offset]
    {
      var offered := node.data[node.offset..];
      a := Send(offered);
      if a.Took? {
        var wcb: int32 := if a.k < |offered| then a.k as int32 + 1 else |offered| as int32;
        node.offset := node.offset + wcb;
        assert offered[..wcb] == node.data[old(node.offset)..node.offset];
      }
    }

    method TcpTxn(node: TxNode) returns (ret: int32)
      requires node.Shape()
      modifies this`wire, this`answers, node`offset
      ensures node.Shape()
      ensures var r := TxnRun(old(node.View()), old(answers));
        && node.View() == r.node && ret as int == r.ret && answers == r.rest
      ensures old(node.offset) <= node.offset
      ensures wire == old(wire) + node.data[old(node.offset)..node.offset]
    {
      ghost var whole := TxnRun(node.View(), answers);
      while node.offset < node.wcb
        invariant node.Shape() && old(node.offset) <= node.offset
        invariant TxnRun(node.View(), answers) == whole
        invariant wire == old(wire) + node.data[old(node.offset)..node.offset]
        decreases |answers|
      {
        ghost var from := node.offset as int;
        var a := TxnTurn(node);
        SentGrows(old(wire), node.data, old(node.offset) as int, from, node.offset as int - from);
        if a.Zero? || a.Broke? {
          return -1;
        }
        if a.Again? {
          return -EAGAIN;
        }
      }
      return node.wcb;
    }

    /** tcp_tx: send from the head of the queue. */
    method TcpTx() returns (ret: int32)
      requires Valid()
      modifies this`wire, this`answers, list
      ensures Valid() && list == old(list) && size == old(size) && blocking == old(blocking)
      ensures !established ==> ret == -1
      ensures !established || list == [] ==> Fifo() == old(Fifo()) && wire == old(wire) && answers == old(answers)
      ensures established && list == [] ==> ret == 0
      ensures established && list != [] ==>
        var n := old(Fifo()).list[0];
        var r := TxnRun(n, old(answers));
        && ret as int == r.ret && answers == r.rest
        && Fifo() == old(Fifo()).(list := old(Fifo()).list[0 := r.node])
        && n.offset <= r.node.offset <= |n.data|
        && wire == old(wire) + n.data[n.offset..r.node.offset]
    {
      if !established {
        return -1;
      }
      var node := FifoTop();
      if node == null {
        return 0;
      }
      ret := TcpTxn(node);
      HeadAdvanced(list);
    }

    /** The link's part of __wp_exec: send the head and, when it went completely, retire it. */
    method Serve(ctl: int32) returns (ret: int32)
      requires Valid() && ctl <= 0 && LinkTxOk(View())
      modifies this, list
      ensures Valid()
      ensures var s := Served(old(View()), ctl as int);
        View() == s.link && ret as int == s.ret
      ensures forall n | n in list :: n in old(list)
    {
      if list != [] {
        TxnRunEnds(Fifo().list[0], answers);
      }
      ret := TcpTx();
      if ret == -1 {
        closed := true;
      } else if ret > 0 {
        var popped := FifoPop(ctl);
      }
    }

    /** Only the head's offset has moved: the views of the other nodes are what they were. */
    twostate lemma HeadAdvanced(list: seq<TxNode>)
      requires list != [] && old(Shapes(list)) && Shapes(list) && Distinct(list)
      requires forall i | 1 <= i < |list| :: unchanged(list[i])
      ensures Views(list) == old(Views(list))[0 := list[0].View()]
    {
    }

    /** Lines 729-767 of tcp_write: send directly unless blocked, queue what would not go. */
    method WriteNode(node: TxNode, ctl: int32) returns (ret: int32)
      requires Valid() && node.Shape() && node !in list && node.owner == this && ctl <= 0
      modifies this`list, this`size, this`blocking, this`epollOut, this`wire, this`answers, node`offset
      ensures Valid() && node.Shape() && old(node.offset) <= node.offset
      ensures var w := WriteRun(old(Fifo()), old(node.View()), old(answers), ctl as int);
        && ret as int == w.ret && Fifo() == w.fifo && node.View() == w.node && answers == w.rest
        && epollOut == (old(epollOut) || w.arms)
      ensures wire == old(wire) + node.data[old(node.offset)..node.offset]
    {
      ghost var f := Fifo();
      var blocked := FifoIsBlocking();
      if blocked == 0 {
        ret := TcpTxn(node);
        assert Fifo() == f;
        if ret != -EAGAIN {
          return;
        }
      }
      ret := FifoQueue(node, ctl);
      if ret >= 0 {
        ret := 0;
      }
    }

    /**
     tcp_write. `serialized` is the payload as the serializer left it (None when it failed),
     `ctl` what epoll_ctl would answer, `addr` where malloc puts the node, `behind` the bytes behind the
     buffer, which are sent, too, when no header was built.
     */
    method TcpWrite(t: Template, noBuild: bool, origin: Bytes, serialized: Option<Bytes>,
                    behind: Bytes, ctl: int32, ghost addr: nat) returns (ret: int32)
      requires Valid() && ValidTemplate(t) && ctl <= 0
      requires serialized.Some? ==> |serialized.value| == |origin|
      requires |behind| == t.cb as int
      requires t.builder.Some? ==> forall n: int32 ::
        t.builder.value(n).Some? ==> |t.builder.value(n).value| == t.cb as int
      modifies this`list, this`size, this`blocking, this`epollOut, this`wire, this`answers
      ensures Valid()
      ensures |origin| == 0 || |origin| > 52_428_800 ==> ret == -22
      ensures 1 <= |origin| <= 52_428_800 && !established ==> ret == -1
      ensures 1 <= |origin| <= 52_428_800 && established ==>
        var header: Option<Bytes> :=
          if t.builder.None? || noBuild then Some([]) else t.builder.value(|origin| as int32);
        if header.None? || serialized.None? then ret == -1
        else
          var packet := header.value + serialized.value + if t.builder.None? || noBuild then behind else [];
          var w := WriteRun(old(Fifo()), Node(addr, packet, 0), old(answers), ctl as int);
          && ret as int == w.ret && Fifo() == w.fifo && answers == w.rest
          && epollOut == (old(epollOut) || w.arms)
          && w.node.offset <= |packet|
          && wire == old(wire) + packet[..w.node.offset]
      ensures !(1 <= |origin| <= 52_428_800 && established && serialized.Some?
                && (t.builder.None? || noBuild || t.builder.value(|origin| as int32).Some?)) ==>
        Fifo() == old(Fifo()) && wire == old(wire) && answers == old(answers) && epollOut == old(epollOut)
    {
      var cb := |origin|;
      if cb <= 0 || cb > TCP_MAXIMUM_PACKET_SIZE as int {
        return -EINVAL;
      }
      if !established {
        return -1;
      }
      var header: Bytes := [];
      if t.builder.Some? && !noBuild {
        var built := t.builder.value(cb as int32);
        if built.None? {
          return -1;
        }
        header := built.value;
      }
      if serialized.None? {
        return -1;
      }
      var buffer := header + serialized.value;
      assert buffer + [] == buffer;
      var node := new TxNode(if t.builder.Some? && !noBuild then buffer else buffer + behind,
                             cb as int32 + t.cb, addr, this);
      ret := WriteNode(node, ctl);
    }
  }

  lemma SentGrows(before: Bytes, s: Bytes, a: nat, b: nat, n: nat)
    requires a <= b && b + n <= |s|
    ensures (before + s[a..b]) + s[b..][..n] == before + s[a..b + n]
  {
  }

  lemma ViewsAppend(list: seq<TxNode>, n: TxNode)
    requires n.Shape() && Shapes(list)
    ensures Views(list + [n]) == Views(list) + [n.View()]
  {
  }

  /** A link whose objects nobody touched is what it was. */
  twostate lemma Untouched(k: NcbTx)
    requires old(k.Valid()) && unchanged(k)
    requires forall i | 0 <= i < |k.list| :: unchanged(k.list[i])
    ensures k.Valid() && k.View() == old(k.View())
  {
  }
}
