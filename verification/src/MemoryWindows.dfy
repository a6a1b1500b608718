/** Memory windows end to end: the register writes of the NTB driver on one machine, the device's
    notification, and where the other machine's accesses then go. */
module MemoryWindows {
  import opened Basics
  import opened BarWindows
  import opened IdtDevice
  import opened IdtSafety
  import opened IdtTheorems

  // ---------------------------------------------------------------------------------- the driver

  /** A memory window as the driver knows it. `direct` windows are the only ones it programs; a `wide` one
      has a 64-bit BAR, whose upper half is the next register. `base` is the bus address of the BAR on the
      driver's own machine. */
  datatype Window = Window(bar: Bar, direct: bool, wide: bool, addrAlign: nat, sizeAlign: nat, sizeMax: nat, base: Word64)

  type Mw = w: Window | w.wide ==> w.bar < 5
    witness Window(2, true, false, 1, 1, 0, 0)

  /** `partitions[i]` is the partition of peer i. */
  datatype Driver = Driver(partitions: seq<Word32>, mws: seq<Mw>)

  predicate Aligned(x: nat, align: nat) { align > 0 && x % align == 0 }

  function LimitOf(mw: Mw, size: nat): Word64 { (mw.base + size) % 0x1_0000_0000_0000_0000 }

  /** The second register of a 64-bit BAR takes the upper half of the limit. */
  function UpperLimit(mw: Mw, limit: Word64): seq<Action> {
    if mw.wide then [SelectInbound(mw.bar + 1), WriteInbound(Limit, limit / 0x1_0000_0000)] else []
  }

  function SetTransWrites(mw: Mw, part: Word32, addr: Word64, size: nat): seq<Action> {
    [SelectPartition(part),
     SelectInbound(mw.bar),
     WriteInbound(LtBase, addr % 0x1_0000_0000),
     WriteInbound(UtBase, addr / 0x1_0000_0000),
     WriteInbound(Limit, LimitOf(mw, size) % 0x1_0000_0000)] + UpperLimit(mw, LimitOf(mw, size))
  }

  function ClearTransWrites(mw: Mw, part: Word32): seq<Action> {
    [SelectPartition(part), SelectInbound(mw.bar), WriteInbound(Limit, 0)] + UpperLimit(mw, 0)
  }

  /** The register writes of `idt_ntb_mw_set_trans`, or None for -EINVAL. */
  function SetTrans(d: Driver, pidx: int, widx: int, addr: Word64, size: nat): Option<seq<Action>> {
    if pidx < 0 || |d.partitions| <= pidx || widx < 0 || |d.mws| <= widx then None
    else
      var mw := d.mws[widx];
      if !Aligned(addr, mw.addrAlign) || !Aligned(size, mw.sizeAlign) || size > mw.sizeMax || !mw.direct then None
      else Some(SetTransWrites(mw, d.partitions[pidx], addr, size))
  }

  function ClearTrans(d: Driver, pidx: int, widx: int): Option<seq<Action>> {
    if pidx < 0 || |d.partitions| <= pidx || widx < 0 || |d.mws| <= widx || !d.mws[widx].direct then None
    else Some(ClearTransWrites(d.mws[widx], d.partitions[pidx]))
  }

  // ------------------------------------------------------------------- registers behind one window

  /** Does an event touch the writer's inbound registers or those of the reader's BAR `bar`? */
  predicate Touches(writer: bool, bar: Bar, e: Event) {
    if e.far == writer then e.act.SelectPartition? || e.act.SelectInbound? || IsWrite(e.act) else e.act.WriteBar? && e.act.idx == bar
  }

  /** The events of a schedule that matter for one window. */
  function Touching(writer: bool, bar: Bar, schedule: seq<Event>): seq<Event>
    decreases |schedule|
  {
    if schedule == [] then []
    else
      var e := schedule[|schedule| - 1];
      var rest := Touching(writer, bar, schedule[..|schedule| - 1]);
      if Touches(writer, bar, e) then rest + [e] else rest
  }

  /** The writer's selector and the reader's registers for one BAR. */
  datatype Latch = Latch(inbound: Bar, config: BarConfig)

  function LatchOf(s: System, writer: bool, bar: Bar): Latch {
    Latch(s.At(writer).inboundBar, s.At(!writer).bars.config[bar])
  }

  function Follow(l: Latch, bar: Bar, a: Action): Latch {
    match a
    case SelectInbound(idx) => l.(inbound := idx)
    case WriteInbound(field, val) => if l.inbound == bar then l.(config := SetField(l.config, field, val)) else l
    case WriteBar(_, field, val, _) => l.(config := SetField(l.config, field, val))
    case _ => l
  }

  function FollowAll(l: Latch, bar: Bar, events: seq<Event>): Latch
    decreases |events|
  {
    if events == [] then l
    else Follow(FollowAll(l, bar, events[..|events| - 1]), bar, events[|events| - 1].act)
  }

  lemma StepFollows(c: Config, s: System, e: Event, writer: bool, bar: Bar)
    requires Inv(c, s)
    ensures LatchOf(Step(c, s, e), writer, bar) ==
            if Touches(writer, bar, e) then Follow(LatchOf(s, writer, bar), bar, e.act) else LatchOf(s, writer, bar)
  {
    hide Inv, Step, Resolve, SetField;
    StepFrames(c, s, e);
  }

  /** Whatever else happens, the registers of a window are what the writes to them make of it. */
  lemma {:induction false} RunFollows(c: Config, s: System, schedule: seq<Event>, writer: bool, bar: Bar)
    requires Inv(c, s)
    ensures LatchOf(Run(c, s, schedule), writer, bar) == FollowAll(LatchOf(s, writer, bar), bar, Touching(writer, bar, schedule))
    decreases |schedule|
  {
    hide Inv, Step, LatchOf, Follow;
    if schedule == [] { return; }
    var before, e := schedule[..|schedule| - 1], schedule[|schedule| - 1];
    RunFollows(c, s, before, writer, bar);
    RunKeepsInv(c, s, before);
    StepFollows(c, Run(c, s, before), e, writer, bar);
    var rest := Touching(writer, bar, before);
    assert (rest + [e])[..|rest|] == rest;
  }

  lemma {:induction false} TouchingIsSubset(writer: bool, bar: Bar, schedule: seq<Event>)
    ensures forall e :: e in Touching(writer, bar, schedule) ==> e in schedule
    decreases |schedule|
  {
    if schedule != [] { TouchingIsSubset(writer, bar, schedule[..|schedule| - 1]); }
  }

  function By(writer: bool, acts: seq<Action>): seq<Event> { seq(|acts|, i requires 0 <= i < |acts| => Event(writer, acts[i])) }

  lemma FollowBy(l: Latch, bar: Bar, writer: bool, acts: seq<Action>, a: Action)
    ensures FollowAll(l, bar, By(writer, acts + [a])) == Follow(FollowAll(l, bar, By(writer, acts)), bar, a)
  {
    hide Follow;
    assert By(writer, acts + [a])[..|acts|] == By(writer, acts);
  }

  /** The upper limit goes to the next register and leaves this one alone. */
  lemma UpperLimitLatch(l: Latch, writer: bool, mw: Mw, acts: seq<Action>, limit: Word64)
    ensures FollowAll(l, mw.bar, By(writer, acts + UpperLimit(mw, limit))).config == FollowAll(l, mw.bar, By(writer, acts)).config
  {
    hide FollowAll;
    if mw.wide {
      var select, write := SelectInbound(mw.bar + 1), WriteInbound(Limit, limit / 0x1_0000_0000);
      FollowBy(l, mw.bar, writer, acts, select);
      FollowBy(l, mw.bar, writer, acts + [select], write);
      assert acts + [select] + [write] == acts + UpperLimit(mw, limit);
    } else {
      assert acts + UpperLimit(mw, limit) == acts;
    }
  }

  lemma SelectLatch(l: Latch, writer: bool, bar: Bar, part: Word32)
    ensures FollowAll(l, bar, By(writer, [SelectPartition(part), SelectInbound(bar)])) == l.(inbound := bar)
  {
    assert FollowAll(l, bar, By(writer, [])) == l;
    hide FollowAll;
    FollowBy(l, bar, writer, [], SelectPartition(part));
    FollowBy(l, bar, writer, [SelectPartition(part)], SelectInbound(bar));
    assert [] + [SelectPartition(part)] == [SelectPartition(part)];
    assert [SelectPartition(part)] + [SelectInbound(bar)] == [SelectPartition(part), SelectInbound(bar)];
  }

  lemma WriteLatch(l: Latch, writer: bool, bar: Bar, acts: seq<Action>, field: Field, val: Word32)
    requires FollowAll(l, bar, By(writer, acts)).inbound == bar
    ensures var l' := FollowAll(l, bar, By(writer, acts));
            FollowAll(l, bar, By(writer, acts + [WriteInbound(field, val)])) == l'.(config := SetField(l'.config, field, val))
  {
    hide FollowAll, SetField;
    FollowBy(l, bar, writer, acts, WriteInbound(field, val));
  }

  /** The registers after a whole set-up. */
  lemma SetUpLatch(l: Latch, writer: bool, mw: Mw, part: Word32, addr: Word64, size: nat)
    ensures FollowAll(l, mw.bar, By(writer, SetTransWrites(mw, part, addr, size))).config ==
            l.config.(ltbase := addr % 0x1_0000_0000, utbase := addr / 0x1_0000_0000, limit := LimitOf(mw, size) % 0x1_0000_0000)
  {
    hide FollowAll, By, LimitOf, UpperLimit;
    var acts := [SelectPartition(part), SelectInbound(mw.bar)];
    var low, high, limit := addr % 0x1_0000_0000, addr / 0x1_0000_0000, LimitOf(mw, size) % 0x1_0000_0000;
    SelectLatch(l, writer, mw.bar, part);
    WriteLatch(l, writer, mw.bar, acts, LtBase, low);
    WriteLatch(l, writer, mw.bar, acts + [WriteInbound(LtBase, low)], UtBase, high);
    WriteLatch(l, writer, mw.bar, acts + [WriteInbound(LtBase, low)] + [WriteInbound(UtBase, high)], Limit, limit);
    var all := acts + [WriteInbound(LtBase, low)] + [WriteInbound(UtBase, high)] + [WriteInbound(Limit, limit)];
    UpperLimitLatch(l, writer, mw, all, LimitOf(mw, size));
    assert all + UpperLimit(mw, LimitOf(mw, size)) == SetTransWrites(mw, part, addr, size);
  }

  lemma ClearLatch(l: Latch, writer: bool, mw: Mw, part: Word32)
    ensures FollowAll(l, mw.bar, By(writer, ClearTransWrites(mw, part))).config == l.config.(limit := 0)
  {
    hide FollowAll, By, UpperLimit;
    var acts := [SelectPartition(part), SelectInbound(mw.bar)];
    SelectLatch(l, writer, mw.bar, part);
    WriteLatch(l, writer, mw.bar, acts, Limit, 0);
    UpperLimitLatch(l, writer, mw, acts + [WriteInbound(Limit, 0)], 0);
    assert acts + [WriteInbound(Limit, 0)] + UpperLimit(mw, 0) == ClearTransWrites(mw, part);
  }

  // --------------------------------------------------------------------------------- main theorems

  /** The writer's touches on the window during the schedule are exactly one call of the driver, made
      while its device could wake the other, and the other has since handled its wake-up. */
  ghost predicate Programs(c: Config, s: System, schedule: seq<Event>, writer: bool, bar: Bar, writes: Option<seq<Action>>) {
    && Reachable(c, s) && Connected(c, s, writer)
    && writes.Some? && Touching(writer, bar, schedule) == By(writer, writes.value)
    && !Run(c, s, schedule).At(!writer).vmEvent
  }

  /** After such a call nothing about the window is stale. */
  lemma ProgrammedIsFresh(c: Config, s: System, schedule: seq<Event>, writer: bool, bar: Bar, writes: Option<seq<Action>>)
    requires Programs(c, s, schedule, writer, bar, writes)
    requires exists a :: a in writes.value && IsWrite(a)
    ensures FreshAt(Run(c, s, schedule).At(!writer).bars, Side(c, !writer).site, bar)
    ensures LatchOf(Run(c, s, schedule), writer, bar) == FollowAll(LatchOf(s, writer, bar), bar, By(writer, writes.value))
  {
    hide Reachable, Connected, Run, Inv, FollowAll, LatchOf, FreshAt, Touching;
    ReachableHoldsInv(c, s);
    RunFollows(c, s, schedule, writer, bar);
    ConnectedWritesAreSeen(c, s, schedule, writer);
    TouchingIsSubset(writer, bar, schedule);
    var i :| 0 <= i < |writes.value| && IsWrite(writes.value[i]);
    assert By(writer, writes.value)[i] in schedule;
    assert UpToDate(Side(c, !writer), Run(c, s, schedule).At(!writer));
  }

  lemma SplitAddress(addr: Word64, b: BarConfig)
    ensures PeerOffset(b.(ltbase := addr % 0x1_0000_0000, utbase := addr / 0x1_0000_0000)) == addr
  {
  }

  /** What a configuration with a given limit and offset serves. */
  lemma ConfiguredAccess(w: Bars, l: Site, bar: Bar, addr: Word64, limit: nat, o: nat, n: nat)
    requires FreshAt(w, l, bar) && n > 0 && limit > 0
    requires w.config[bar].limit == limit && PeerOffset(w.config[bar]) == addr
    requires l.bases[bar] + o < 0x1_0000_0000_0000_0000 && addr + o < 0x1_0000_0000_0000_0000
    ensures Access(w, l, bar, o, n) == (if l.bases[bar] + o <= limit then Some(addr + o) else None)
    ensures w.alias[bar] != None ==> l.bases[bar] < limit && w.alias[bar] == Some(Alias(addr, Min(APERTURE, limit - l.bases[bar])))
  {
    hide PeerOffset, Enabled, ConfigMode;
    AccessIsSlowPath(w, l, bar, o, n);
  }

  /** Window set-up end to end, for any pair of BAR bases: an access of the other machine at offset `o`
      reaches `addr + o` exactly when its bus address does not exceed the programmed limit, and
      whatever alias is mapped is the window the driver asked for. */
  lemma WindowReachesMemory(c: Config, s: System, schedule: seq<Event>, writer: bool, d: Driver, pidx: int, widx: nat,
                            addr: Word64, size: nat, o: nat, n: nat)
    requires widx < |d.mws| && n > 0
    requires var mw := d.mws[widx];
             && Programs(c, s, schedule, writer, mw.bar, SetTrans(d, pidx, widx, addr, size))
             && 0 < mw.base + size < 0x1_0000_0000
             && Side(c, !writer).site.bases[mw.bar] + o < 0x1_0000_0000_0000_0000 && addr + o < 0x1_0000_0000_0000_0000
    ensures var mw, w, l := d.mws[widx], Run(c, s, schedule).At(!writer).bars, Side(c, !writer).site;
            && Access(w, l, mw.bar, o, n) == (if l.bases[mw.bar] + o <= mw.base + size then Some(addr + o) else None)
            && (w.alias[mw.bar] != None ==>
                  l.bases[mw.bar] < mw.base + size
                  && w.alias[mw.bar] == Some(Alias(addr, Min(APERTURE, mw.base + size - l.bases[mw.bar]))))
  {
    hide FollowAll, FreshAt, Run, Reachable, Connected, Touching, Access, Min;
    assert SetTrans(d, pidx, widx, addr, size).Some?;
    hide Programs;
    var mw, w, l := d.mws[widx], Run(c, s, schedule).At(!writer).bars, Side(c, !writer).site;
    var part := d.partitions[pidx];
    assert SetTransWrites(mw, part, addr, size)[4] in SetTransWrites(mw, part, addr, size);
    ProgrammedIsFresh(c, s, schedule, writer, mw.bar, SetTrans(d, pidx, widx, addr, size));
    SetUpLatch(LatchOf(s, writer, mw.bar), writer, mw, part, addr, size);
    hide SetTrans, SetTransWrites;
    SplitAddress(addr, LatchOf(s, writer, mw.bar).config.(limit := mw.base + size));
    hide PeerOffset;
    ConfiguredAccess(w, l, mw.bar, addr, mw.base + size, o, n);
  }

  /** With equal bases, every access inside the window reaches the memory behind it. */
  lemma WindowServesItsSize(c: Config, s: System, schedule: seq<Event>, writer: bool, d: Driver, pidx: int, widx: nat,
                            addr: Word64, size: nat, o: nat, n: nat)
    requires widx < |d.mws| && n > 0 && o + n <= Min(size, APERTURE)
    requires var mw := d.mws[widx];
             && Programs(c, s, schedule, writer, mw.bar, SetTrans(d, pidx, widx, addr, size))
             && Side(c, !writer).site.bases[mw.bar] == mw.base && mw.base + size < 0x1_0000_0000
             && addr + size <= Side(c, !writer).site.ramSize
    ensures var w, l := Run(c, s, schedule).At(!writer).bars, Side(c, !writer).site;
            Access(w, l, d.mws[widx].bar, o, n) == Some(addr + o) && addr + o + n <= l.ramSize
  {
    hide Programs, Run, Access, SetTrans;
    WindowReachesMemory(c, s, schedule, writer, d, pidx, widx, addr, size, o, n);
  }

  /** After a clear and the refresh it causes, the alias is unmapped and every access is refused. */
  lemma ClearedWindowRefuses(c: Config, s: System, schedule: seq<Event>, writer: bool, d: Driver, pidx: int, widx: nat, o: nat, n: nat)
    requires widx < |d.mws| && n > 0
    requires Programs(c, s, schedule, writer, d.mws[widx].bar, ClearTrans(d, pidx, widx))
    ensures var bar, w, l := d.mws[widx].bar, Run(c, s, schedule).At(!writer).bars, Side(c, !writer).site;
            w.alias[bar] == None && Access(w, l, bar, o, n) == None
  {
    hide FollowAll, PeerOffset, Run, Enabled, ConfigMode, Reachable, Connected, Touching;
    assert ClearTrans(d, pidx, widx).Some?;
    hide Programs;
    var mw := d.mws[widx];
    var part := d.partitions[pidx];
    assert ClearTransWrites(mw, part)[2] in ClearTransWrites(mw, part);
    ProgrammedIsFresh(c, s, schedule, writer, mw.bar, ClearTrans(d, pidx, widx));
    ClearLatch(LatchOf(s, writer, mw.bar), writer, mw, part);
  }

  /** Once such a call has been made on a window set up as realized, with its range in RAM, handling the wake-up
      it causes maps exactly the requested window, provided the peer's RAM can be opened. */
  lemma RefreshMapsProgrammed(c: Config, s: System, schedule: seq<Event>, writer: bool, d: Driver, pidx: int, widx: nat, addr: Word64, size: nat)
    requires widx < |d.mws| && Inv(c, s)
    requires var mw, site, s' := d.mws[widx], Side(c, !writer).site, Run(c, s, schedule);
             && 2 <= mw.bar <= 4 && SetTrans(d, pidx, widx, addr, size).Some?
             && Touching(writer, mw.bar, schedule) == By(writer, SetTrans(d, pidx, widx, addr, size).value)
             && s.At(!writer).bars.config[mw.bar].setup == WINDOW_SETUP
             && site.bases[mw.bar] == mw.base && 0 < size && mw.base + size < 0x1_0000_0000 && addr + Min(APERTURE, size) <= site.ramSize
             && s'.At(!writer).vmEvent && Fds(s'.At(!writer).peers, Side(c, !writer).vmId) > VM_ID
    ensures var s' := Step(c, Run(c, s, schedule), Event(!writer, VmIdEvent(true)));
            s'.At(!writer).bars.alias[d.mws[widx].bar] == Some(Alias(addr, Min(APERTURE, size)))
  {
    hide FollowAll, Run, Touching, Inv, Refresh, Kick, Resolve, SetTransWrites;
    var mw, s1 := d.mws[widx], Run(c, s, schedule);
    RunFollows(c, s, schedule, writer, mw.bar);
    RunKeepsInv(c, s, schedule);
    SetUpLatch(LatchOf(s, writer, mw.bar), writer, mw, d.partitions[pidx], addr, size);
    var self, peer := s1.At(!writer), s1.At(writer);
    SplitAddress(addr, LatchOf(s, writer, mw.bar).config.(limit := mw.base + size));
    RefreshMapsWindow(self.bars, Side(c, !writer).site, mw.bar, true);
    WakeUpRefreshes(c, s1, !writer);
  }

  lemma WakeUpRefreshes(c: Config, s: System, far: bool)
    requires Inv(c, s) && s.At(far).vmEvent && Fds(s.At(far).peers, Side(c, far).vmId) > VM_ID
    ensures Step(c, s, Event(far, VmIdEvent(true))).At(far).bars == Refresh(s.At(far).bars, Side(c, far).site, true)
  {
    hide Kick, Refresh, Resolve, Counted, Tracked;
    var self, peer := s.At(far), s.At(!far);
    var woken := self.(vmEvent := false, other := peer.sharedId, bars := Refresh(self.bars, Side(c, far).site, true));
    KickEffect(c, Side(c, far), Side(c, !far), woken, peer);
    ResolveEffect(Side(c, far), woken, peer.sharedId);
  }
}
