/** `idt_ntb_mw_set_trans` and `idt_ntb_mw_clear_trans` as they write the registers of their device, one
    after the other, with nothing else happening in between; `MemoryWindows` covers every interleaving. */
module MwDriver {
  import opened Basics
  import opened IdtDevice
  import opened IdtSafety
  import opened IdtHandlers
  import opened MemoryWindows

  const EINVAL: int := -22

  /** The device pair after a list of actions of one device. */
  function ActAll(c: Config, me: Setup, them: Setup, p: Pair, acts: seq<Action>): Pair
    decreases |acts|
  {
    if acts == [] then p
    else
      var q := ActAll(c, me, them, p, acts[..|acts| - 1]);
      Act(c, me, them, q.self, q.peer, acts[|acts| - 1])
  }

  /** Such a list is a schedule in which only the writing device runs. */
  lemma {:induction false} ActAllIsRun(c: Config, s: System, writer: bool, acts: seq<Action>)
    ensures var p := ActAll(c, if writer then c.far else c.near, if writer then c.near else c.far, Pair(s.At(writer), s.At(!writer)), acts);
            Run(c, s, By(writer, acts)) == (if writer then System(p.peer, p.self) else System(p.self, p.peer))
    decreases |acts|
  {
    hide Act;
    if acts != [] {
      ActAllIsRun(c, s, writer, acts[..|acts| - 1]);
      assert By(writer, acts)[..|acts| - 1] == By(writer, acts[..|acts| - 1]);
    }
  }

  lemma ActAllSnoc(c: Config, me: Setup, them: Setup, p: Pair, acts: seq<Action>, a: Action)
    ensures var q := ActAll(c, me, them, p, acts);
            ActAll(c, me, them, p, acts + [a]) == Act(c, me, them, q.self, q.peer, a)
  {
    hide Act;
    assert (acts + [a])[..|acts|] == acts;
  }

  /** Register writes other than the partition's leave that alone. */
  lemma {:induction false} PartitionStays(c: Config, me: Setup, them: Setup, p: Pair, acts: seq<Action>)
    requires me.vmId != them.vmId && forall a :: a in acts ==> a.SelectInbound? || a.WriteInbound?
    ensures ActAll(c, me, them, p, acts).self.partition == p.self.partition
    decreases |acts|
  {
    hide Notify, SetBar, Resolve;
    if acts != [] {
      PartitionStays(c, me, them, p, acts[..|acts| - 1]);
      var q, a := ActAll(c, me, them, p, acts[..|acts| - 1]), acts[|acts| - 1];
      if a.WriteInbound? {
        NotifyEffect(me, them, q.self, q.peer.(bars := SetBar(q.peer.bars, q.self.inboundBar, a.field, a.val)));
      }
    }
  }

  lemma {:induction false} ActAllJoin(c: Config, me: Setup, them: Setup, p: Pair, first: seq<Action>, more: seq<Action>)
    ensures ActAll(c, me, them, p, first + more) == ActAll(c, me, them, ActAll(c, me, them, p, first), more)
    decreases |more|
  {
    hide Act;
    if more == [] {
      assert first + more == first;
    } else {
      var before := more[..|more| - 1];
      ActAllJoin(c, me, them, p, first, before);
      assert (first + more)[..|first + more| - 1] == first + before;
    }
  }

  /** A call that starts by selecting a partition leaves it selected. */
  lemma PartitionSelected(c: Config, me: Setup, them: Setup, p: Pair, part: Word32, acts: seq<Action>)
    requires me.vmId != them.vmId && acts != [] && acts[0] == SelectPartition(part)
    requires forall a :: a in acts[1..] ==> a.SelectInbound? || a.WriteInbound?
    ensures ActAll(c, me, them, p, acts).self.partition == part
  {
    assert acts == [acts[0]] + acts[1..] && [acts[0]][..0] == [];
    ActAllJoin(c, me, them, p, [acts[0]], acts[1..]);
    PartitionStays(c, me, them, ActAll(c, me, them, p, [acts[0]]), acts[1..]);
  }

  /** One register write of the driver; `done` collects those made so far. */
  method WriteRegister(c: Config, dev: Endpoint, peer: Endpoint, a: Action, ghost start: Pair, ghost done: seq<Action>)
      returns (ghost made: seq<Action>)
    requires dev.Apart(peer) && Pair(dev.View(), peer.View()) == ActAll(c, dev.me, peer.me, start, done)
    modifies dev, dev.config, dev.alias, peer, peer.config
    ensures made == done + [a] && Pair(dev.View(), peer.View()) == ActAll(c, dev.me, peer.me, start, made)
  {
    hide Act, ActAll;
    ActAllSnoc(c, dev.me, peer.me, start, done, a);
    dev.Handle(c, peer, a);
    made := done + [a];
  }

  method WriteUpperLimit(c: Config, dev: Endpoint, peer: Endpoint, mw: Mw, limit: Word64, ghost start: Pair, ghost done: seq<Action>)
      returns (ghost made: seq<Action>)
    requires dev.Apart(peer) && Pair(dev.View(), peer.View()) == ActAll(c, dev.me, peer.me, start, done)
    modifies dev, dev.config, dev.alias, peer, peer.config
    ensures made == done + UpperLimit(mw, limit) && Pair(dev.View(), peer.View()) == ActAll(c, dev.me, peer.me, start, made)
  {
    hide ActAll;
    made := done;
    if mw.wide {
      made := WriteRegister(c, dev, peer, SelectInbound(mw.bar + 1), start, made);
      made := WriteRegister(c, dev, peer, WriteInbound(Limit, limit / 0x1_0000_0000), start, made);
    }
    assert made == done + UpperLimit(mw, limit);
  }

  /** The register writes of a set-up, one after the other. */
  method MakeSetUp(c: Config, dev: Endpoint, peer: Endpoint, mw: Mw, part: Word32, addr: Word64, size: nat)
    requires dev.Apart(peer)
    modifies dev, dev.config, dev.alias, peer, peer.config
    ensures Pair(dev.View(), peer.View()) ==
            ActAll(c, dev.me, peer.me, old(Pair(dev.View(), peer.View())), SetTransWrites(mw, part, addr, size))
    ensures dev.partition == part
  {
    ghost var start, made: seq<Action> := Pair(dev.View(), peer.View()), [];
    assert ActAll(c, dev.me, peer.me, start, made) == start;
    hide ActAll, UpperLimit, LimitOf;
    made := WriteRegister(c, dev, peer, SelectPartition(part), start, made);
    made := WriteRegister(c, dev, peer, SelectInbound(mw.bar), start, made);
    made := WriteRegister(c, dev, peer, WriteInbound(LtBase, addr % 0x1_0000_0000), start, made);
    made := WriteRegister(c, dev, peer, WriteInbound(UtBase, addr / 0x1_0000_0000), start, made);
    var limit := LimitOf(mw, size);
    made := WriteRegister(c, dev, peer, WriteInbound(Limit, limit % 0x1_0000_0000), start, made);
    made := WriteUpperLimit(c, dev, peer, mw, limit, start, made);
    assert made == SetTransWrites(mw, part, addr, size);
    SetUpWrites(mw, part, addr, size);
    PartitionSelected(c, dev.me, peer.me, start, part, made);
  }

  lemma SetUpWrites(mw: Mw, part: Word32, addr: Word64, size: nat)
    ensures var acts := SetTransWrites(mw, part, addr, size);
            acts != [] && acts[0] == SelectPartition(part) && forall a :: a in acts[1..] ==> a.SelectInbound? || a.WriteInbound?
  {
  }

  /** Returns 0 exactly when the arguments are valid, and then has made the writes of `SetTrans`. */
  method MwSetTrans(c: Config, d: Driver, dev: Endpoint, peer: Endpoint, pidx: int, widx: int, addr: Word64, size: nat) returns (ret: int)
    requires dev.Apart(peer)
    modifies dev, dev.config, dev.alias, peer, peer.config
    ensures ret == 0 || ret == EINVAL
    ensures ret == 0 <==>
              && 0 <= pidx < |d.partitions| && 0 <= widx < |d.mws| && d.mws[widx].direct && size <= d.mws[widx].sizeMax
              && d.mws[widx].addrAlign > 0 && addr % d.mws[widx].addrAlign == 0
              && d.mws[widx].sizeAlign > 0 && size % d.mws[widx].sizeAlign == 0
    ensures ret == 0 ==> SetTrans(d, pidx, widx, addr, size).Some? && dev.partition == d.partitions[pidx]
    ensures var writes := if ret == 0 then SetTrans(d, pidx, widx, addr, size).value else [];
            Pair(dev.View(), peer.View()) == ActAll(c, dev.me, peer.me, old(Pair(dev.View(), peer.View())), writes)
  {
    if pidx < 0 || |d.partitions| <= pidx || widx < 0 || |d.mws| <= widx { return EINVAL; }
    var mw := d.mws[widx];
    if !Aligned(addr, mw.addrAlign) || !Aligned(size, mw.sizeAlign) || size > mw.sizeMax || !mw.direct { return EINVAL; }
    MakeSetUp(c, dev, peer, mw, d.partitions[pidx], addr, size);
    return 0;
  }

  method MwClearTrans(c: Config, d: Driver, dev: Endpoint, peer: Endpoint, pidx: int, widx: int) returns (ret: int)
    requires dev.Apart(peer)
    modifies dev, dev.config, dev.alias, peer, peer.config
    ensures ret == 0 || ret == EINVAL
    ensures ret == 0 <==> 0 <= pidx < |d.partitions| && 0 <= widx < |d.mws| && d.mws[widx].direct
    ensures ret == 0 ==> ClearTrans(d, pidx, widx).Some? && dev.partition == d.partitions[pidx]
    ensures var writes := if ret == 0 then ClearTrans(d, pidx, widx).value else [];
            Pair(dev.View(), peer.View()) == ActAll(c, dev.me, peer.me, old(Pair(dev.View(), peer.View())), writes)
  {
    if pidx < 0 || |d.partitions| <= pidx || widx < 0 || |d.mws| <= widx { return EINVAL; }
    var mw := d.mws[widx];
    if !mw.direct { return EINVAL; }
    ghost var start, made: seq<Action> := Pair(dev.View(), peer.View()), [];
    assert ActAll(c, dev.me, peer.me, start, made) == start;
    hide ActAll, UpperLimit;
    made := WriteRegister(c, dev, peer, SelectPartition(d.partitions[pidx]), start, made);
    made := WriteRegister(c, dev, peer, SelectInbound(mw.bar), start, made);
    made := WriteRegister(c, dev, peer, WriteInbound(Limit, 0), start, made);
    made := WriteUpperLimit(c, dev, peer, mw, 0, start, made);
    assert made == ClearTransWrites(mw, d.partitions[pidx]);
    ClearWrites(mw, d.partitions[pidx]);
    PartitionSelected(c, dev.me, peer.me, start, d.partitions[pidx], made);
    return 0;
  }

  lemma ClearWrites(mw: Mw, part: Word32)
    ensures var acts := ClearTransWrites(mw, part);
            acts != [] && acts[0] == SelectPartition(part) && forall a :: a in acts[1..] ==> a.SelectInbound? || a.WriteInbound?
  {
  }
}
