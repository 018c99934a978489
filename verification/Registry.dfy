/** The global list of control blocks in ncb.c and its counter. */
module Registry {
  /**
   A control block. It is linked while it is still all zero; the creator fills in handle and protocol
   later, without the lock of the list.
   */
  class Ncb {
    var hld: nat
    var protocol: int

    constructor ()
      ensures hld == 0 && protocol == 0
    {
      hld, protocol := 0, 0;
    }

    method SetUp(hld: nat, protocol: int)
      modifies this
      ensures this.hld == hld && this.protocol == protocol
    {
      this.hld, this.protocol := hld, protocol;
    }
  }

  /** A linked control block with what it holds at the moment. */
  datatype Entry = Entry(ncb: Ncb, hld: nat, protocol: int)

  ghost function Entries(list: seq<Ncb>): (r: seq<Entry>)
    reads list
    ensures |r| == |list| && forall i | 0 <= i < |list| :: r[i] == Entry(list[i], list[i].hld, list[i].protocol)
  {
    if list == [] then [] else [Entry(list[0], list[0].hld, list[0].protocol)] + Entries(list[1..])
  }

  /** The control blocks ncb_uninit leaves in the list. */
  ghost function Others(all: seq<Entry>, protocol: int): seq<Ncb> {
    if all == [] then []
    else
      var n := all[|all| - 1];
      Others(all[..|all| - 1], protocol) + if n.protocol == protocol then [] else [n.ncb]
  }

  /** The handles it is going to close, in list order. */
  ghost function Handles(all: seq<Entry>, protocol: int): seq<nat> {
    if all == [] then []
    else
      var n := all[|all| - 1];
      Handles(all[..|all| - 1], protocol) + if n.protocol == protocol then [n.hld] else []
  }

  ghost predicate Distinct(list: seq<Ncb>) {
    forall i, j | 0 <= i < j < |list| :: list[i] != list[j]
  }

  /** The list without one entry, the others in their order. */
  ghost function Without(list: seq<Ncb>, ncb: Ncb): (r: seq<Ncb>)
    ensures ncb !in list ==> r == list
  {
    if list == [] then []
    else if list[0] == ncb then list[1..]
    else [list[0]] + Without(list[1..], ncb)
  }

  lemma {:induction false} WithoutAt(list: seq<Ncb>, i: nat)
    requires i < |list| && list[i] !in list[..i]
    ensures Without(list, list[i]) == list[..i] + list[i + 1..]
    decreases |list|
  {
    if i == 0 {
      assert list[..0] + list[1..] == list[1..];
    } else {
      assert list[1..][i - 1] == list[i] && list[..i] == [list[0]] + list[1..][..i - 1];
      assert list[i] !in list[1..][..i - 1];
      WithoutAt(list[1..], i - 1);
      assert list[i + 1..] == list[1..][i..];
      assert list[..i] + list[i + 1..] == [list[0]] + (list[1..][..i - 1] + list[1..][i..]);
    }
  }

  lemma {:induction false} DistinctFits(list: seq<Ncb>, live: set<Ncb>)
    requires Distinct(list) && forall n | n in list :: n in live
    ensures |list| <= |live|
    decreases |list|
  {
    if list == [] {
    } else {
      var n, front := list[|list| - 1], list[..|list| - 1];
      assert n in list && n !in front;
      forall m | m in front
        ensures m in live - {n}
      {
        assert m in list;
      }
      DistinctFits(front, live - {n});
    }
  }

  ghost predicate DistinctEntries(all: seq<Entry>) {
    forall i, j | 0 <= i < j < |all| :: all[i].ncb != all[j].ncb
  }

  /** What is left are control blocks of other protocols, each once and from the list. */
  lemma {:induction false} OthersAre(all: seq<Entry>, protocol: int)
    ensures forall n | n in Others(all, protocol) ::
      exists i :: 0 <= i < |all| && all[i].ncb == n && all[i].protocol != protocol
    ensures DistinctEntries(all) ==> Distinct(Others(all, protocol))
    decreases |all|
  {
    if all == [] {
    } else {
      var e, front := all[|all| - 1], all[..|all| - 1];
      OthersAre(front, protocol);
      forall n | n in Others(all, protocol)
        ensures exists i :: 0 <= i < |all| && all[i].ncb == n && all[i].protocol != protocol
      {
        if n in Others(front, protocol) {
          var i :| 0 <= i < |front| && front[i].ncb == n && front[i].protocol != protocol;
          assert all[i] == front[i];
        } else {
          assert all[|all| - 1] == e;
        }
      }
      if DistinctEntries(all) {
        assert DistinctEntries(front);
        assert e.ncb !in Others(front, protocol);
      }
    }
  }

  /** Both keep the order of the list: an entry comes after what the entries before it have left behind. */
  lemma {:induction false} InOrder(all: seq<Entry>, protocol: int, i: nat)
    requires i < |all|
    ensures var left, gone := |Others(all[..i], protocol)|, |Handles(all[..i], protocol)|;
      if all[i].protocol == protocol then
        gone < |Handles(all, protocol)| && Handles(all, protocol)[gone] == all[i].hld
      else
        left < |Others(all, protocol)| && Others(all, protocol)[left] == all[i].ncb
    decreases |all|
  {
    var n := |all| - 1;
    if i == n {
    } else {
      assert all[..n][..i] == all[..i];
      InOrder(all[..n], protocol, i);
    }
  }

  /** Every entry is unlinked or left, and none is both. */
  lemma {:induction false} Partition(all: seq<Entry>, protocol: int)
    ensures |Others(all, protocol)| + |Handles(all, protocol)| == |all|
    ensures forall i | 0 <= i < |all| ::
      if all[i].protocol == protocol then all[i].hld in Handles(all, protocol)
      else all[i].ncb in Others(all, protocol)
    decreases |all|
  {
    if all == [] {
    } else {
      Partition(all[..|all| - 1], protocol);
      forall i | 0 <= i < |all|
        ensures if all[i].protocol == protocol then all[i].hld in Handles(all, protocol)
                else all[i].ncb in Others(all, protocol)
      {
        InOrder(all, protocol, i);
      }
    }
  }

  lemma OneMore(all: seq<Entry>, k: nat, protocol: int)
    requires k < |all|
    ensures var n, mine := all[k], all[k].protocol == protocol;
      && Others(all[..k + 1], protocol) == Others(all[..k], protocol) + (if mine then [] else [n.ncb])
      && Handles(all[..k + 1], protocol) == Handles(all[..k], protocol) + (if mine then [n.hld] else [])
  {
    assert all[..k + 1][..k] == all[..k];
  }

  /** The list while it is walked: the entries left so far, then those not yet looked at. */
  lemma Unlinked(list: seq<Ncb>, i: nat, left: seq<Ncb>, all: seq<Ncb>, k: nat)
    requires k < |all| && list == left + all[k..] && i == |left|
    ensures i < |list| && list[i] == all[k]
    ensures list[..i] + list[i + 1..] == left + all[k + 1..]
    ensures list == (left + [all[k]]) + all[k + 1..]
  {
  }

  class NcbList {
    var nlHead: seq<Ncb>
    var nlCount: int
    ghost var live: set<Ncb>

    /** nl_count counts the live control blocks, also those ncb_uninit has already unlinked. */
    ghost predicate Valid()
      reads this
    {
      && nlCount == |live|
      && Distinct(nlHead)
      && forall n | n in nlHead :: n in live
    }

    constructor ()
      ensures Valid() && nlHead == [] && live == {}
    {
      nlHead, nlCount, live := [], 0, {};
    }

    /** What is linked is zeroed, so no ncb_uninit for a real protocol takes it before it is set up. */
    method Allocator() returns (ncb: Ncb)
      requires Valid() && forall n | n in live :: allocated(n)
      modifies this
      ensures fresh(ncb) && ncb.hld == 0 && ncb.protocol == 0
      ensures Valid() && nlHead == old(nlHead) + [ncb] && live == old(live) + {ncb}
    {
      ncb := new Ncb();
      nlHead := nlHead + [ncb];
      nlCount := nlCount + 1;
      live := live + {ncb};
    }

    /** The list part of ncb_deconstruct; unlinking an entry that is not linked changes nothing. */
    method Deconstruct(ncb: Ncb)
      requires Valid() && ncb in live
      modifies this
      ensures Valid() && live == old(live) - {ncb} && nlCount == old(nlCount) - 1
      ensures ncb !in nlHead && nlHead == Without(old(nlHead), ncb)
    {
      ghost var all := nlHead;
      var i := 0;
      while i < |nlHead| && nlHead[i] != ncb
        invariant 0 <= i <= |nlHead| && ncb !in nlHead[..i]
      {
        i := i + 1;
      }
      if i < |nlHead| {
        WithoutAt(nlHead, i);
        nlHead := nlHead[..i] + nlHead[i + 1..];
        assert all == all[..i] + [ncb] + all[i + 1..];
      } else {
        assert all[..i] == all;
      }
      live := live - {ncb};
      if nlCount > 0 {
        nlCount := nlCount - 1;
      }
    }

    /**
     The critical section of ncb_uninit. Entries are unlinked but still counted; the handle array of
     nl_count places is large enough for all of them. `granted` is whether malloc succeeds.
     */
    method Uninit(protocol: int, granted: bool) returns (hlds: seq<nat>)
      requires Valid()
      modifies this
      ensures Valid() && nlCount == old(nlCount) && live == old(live)
      ensures granted ==>
        hlds == old(Handles(Entries(nlHead), protocol)) && nlHead == old(Others(Entries(nlHead), protocol))
      ensures !granted ==> hlds == [] && nlHead == old(nlHead)
    {
      ghost var all := Entries(nlHead);
      DistinctFits(nlHead, live);
      if nlCount <= 0 || !granted {
        return [];
      }
      hlds := Collect(protocol, all);
      OthersAre(all, protocol);
    }

    /** One turn of the loop: note the handle and unlink the entry, or pass it by. */
    method Visit(i: nat, room: array<nat>, count: nat, protocol: int) returns (i': nat, count': nat)
      requires i < |nlHead| && count < room.Length
      modifies this`nlHead, room
      ensures var n := old(nlHead[i]);
        if n.protocol == protocol then
          && i' == i && nlHead == old(nlHead[..i] + nlHead[i + 1..])
          && count' == count + 1 && room[..count'] == old(room[..count]) + [n.hld]
        else
          i' == i + 1 && nlHead == old(nlHead) && count' == count && room[..count'] == old(room[..count])
    {
      var ncb := nlHead[i];
      if ncb.protocol == protocol {
        nlHead := nlHead[..i] + nlHead[i + 1..];
        room[count] := ncb.hld;
        return i, count + 1;
      }
      return i + 1, count;
    }

    /** Lines 36-49: fill an array of nl_count handles while unlinking. `all` is what the list holds. */
    method Collect(protocol: int, ghost all: seq<Entry>) returns (hlds: seq<nat>)
      requires |nlHead| == |all| <= nlCount
      requires forall j | 0 <= j < |all| :: all[j] == Entry(nlHead[j], nlHead[j].hld, nlHead[j].protocol)
      modifies this`nlHead
      ensures hlds == Handles(all, protocol) && nlHead == Others(all, protocol)
    {
      ghost var orig, left := nlHead, [];
      var room := new nat[nlCount];
      var count: nat, i: nat := 0, 0;
      ghost var k: nat := 0;
      while i < |nlHead|
        invariant k <= |all| && i == |left| && left == Others(all[..k], protocol)
        invariant nlHead == left + orig[k..]
        invariant count <= k <= room.Length && room[..count] == Handles(all[..k], protocol)
        decreases |all| - k
      {
        OneMore(all, k, protocol);
        Unlinked(nlHead, i, left, orig, k);
        assert all[k] == Entry(orig[k], orig[k].hld, orig[k].protocol);
        i, count := Visit(i, room, count, protocol);
        if all[k].protocol != protocol {
          left := left + [orig[k]];
        }
        k := k + 1;
      }
      assert all[..k] == all;
      hlds := room[..count];
    }
  }
}
