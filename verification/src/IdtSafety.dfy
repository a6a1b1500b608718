/** What every handler of either device keeps, in every interleaving of connection set-up, id exchange,
    interrupts and window programming. */
module IdtSafety {
  import opened Basics
  import opened BarWindows
  import opened IdtDevice

  /** The eventfds known for each machine are exactly those the handled server messages announced. */
  ghost predicate Counted(c: Config, taken: nat, peers: seq<nat>) {
    && taken <= 2 * c.vectors && |peers| >= 16
    && Fds(peers, 0) == Min(taken, c.vectors)
    && Fds(peers, c.far.vmId) == taken - Min(taken, c.vectors)
  }

  /** Ids as published and as looked up. The first device may briefly take itself for its peer: a
      wake-up can reach it before the second has published its id. */
  ghost predicate Identified(c: Config, near: Device, far: Device) {
    && near.sharedId == 0
    && far.sharedId == (if far.taken >= c.vectors + 2 then c.far.vmId else 0)
    && (near.other == -1 || near.other == 0 || near.other == c.far.vmId)
    && (near.other == c.far.vmId ==> far.sharedId == c.far.vmId)
    && (far.other == -1 || far.other == 0)
    && (far.taken >= 2 ==> far.other == 0)
    && (far.sharedId == c.far.vmId && !near.vmEvent ==> near.other == c.far.vmId)
  }

  /** A connected device owes its peer no interrupt, unless it is about to be woken itself. */
  ghost predicate Signalled(c: Config, near: Device, far: Device) {
    && near.owed <= near.intsts && far.owed <= far.intsts
    && (near.other == c.far.vmId && near.taken >= c.vectors + 2 && !near.vmEvent ==> far.owed - c.mask == {})
    && (far.taken >= 2 ==> near.owed - c.mask == {})
  }

  ghost predicate Tracked(me: Setup, bars: Bars, awaited: bool) { OnlyWindows(bars) && (awaited || Fresh(bars, me.site)) }

  /** The first device is woken once more after the second has published its id, and from then on told
      of every change; the second is told of changes only by a first device that is connected. */
  ghost predicate Windowed(c: Config, near: Device, far: Device) {
    && Tracked(c.near, near.bars, near.vmEvent || far.sharedId != c.far.vmId) && Tracked(c.far, far.bars, true)
    && (far.vmEvent ==> near.taken > c.vectors && near.other == c.far.vmId)
  }

  ghost predicate Inv(c: Config, s: System) {
    && Counted(c, s.near.taken, s.near.peers) && Counted(c, s.far.taken, s.far.peers)
    && Identified(c, s.near, s.far) && Signalled(c, s.near, s.far) && Windowed(c, s.near, s.far)
  }

  lemma InvCounts(c: Config, s: System)
    requires Inv(c, s)
    ensures Counted(c, s.near.taken, s.near.peers) && Counted(c, s.far.taken, s.far.peers)
  {
    hide Counted, Identified, Signalled, Windowed;
  }

  lemma InitHolds(c: Config, s: System)
    requires Realized(s.near) && Realized(s.far)
    ensures Inv(c, s)
  {
  }

  // ---------------------------------------------------------------------------------------- kicking

  lemma ResolveEffect(me: Setup, self: Device, peerId: nat)
    ensures var other := Resolve(me, self, peerId).other;
            && Resolve(me, self, peerId) == self.(other := other)
            && (self.other == -1 || other == self.other)
            && (self.other == -1 ==> other == -1 || (other == peerId != me.vmId))
            && (self.other == -1 && peerId < |self.peers| && peerId != me.vmId ==> other == peerId)
  {
  }

  /** A kick changes nothing but the looked-up id, the pending wake-ups and what is owed. It sets the peer's
      interrupt eventfd exactly if the device knows its peer and the peer's vector and an unmasked interrupt
      is pending there; such a device leaves nothing unsignalled. */
  lemma KickEffect(c: Config, me: Setup, them: Setup, self: Device, peer: Device)
    requires me.vmId != them.vmId && peer.owed <= peer.intsts
    ensures var p := Kick(c, me, them, self, peer);
            && p.self == self.(other := Resolve(me, self, peer.sharedId).other, intEvent := p.self.intEvent)
            && p.peer == peer.(intEvent := p.peer.intEvent, owed := p.peer.owed)
            && p.peer.owed <= peer.owed
            && (p.self.other == them.vmId && Fds(self.peers, them.vmId) > 1 ==> p.peer.owed - c.mask == {})
            && (p.peer.intEvent <==>
                  peer.intEvent || (p.self.other == them.vmId && Fds(self.peers, them.vmId) > 1 && peer.intsts - c.mask != {}))
            && (p.peer.owed == peer.owed || p.peer.intEvent)
            && (self.intEvent ==> p.self.intEvent)
  {
    ResolveEffect(me, self, peer.sharedId);
    hide Resolve;
    var d := Resolve(me, self, peer.sharedId);
  }

  /** A write to the peer's BARs wakes the peer exactly if the writer knows it and its eventfd. */
  lemma NotifyEffect(me: Setup, them: Setup, self: Device, peer: Device)
    requires me.vmId != them.vmId
    ensures var p := Notify(me, them, self, peer);
            var other := Resolve(me, self, peer.sharedId).other;
            && p.self == self.(other := other, vmEvent := p.self.vmEvent)
            && (p.self.vmEvent <==> self.vmEvent || (other == me.vmId && Fds(self.peers, me.vmId) > 0))
            && p.peer == peer.(vmEvent := p.peer.vmEvent)
            && (p.peer.vmEvent <==> peer.vmEvent || (other == them.vmId && Fds(self.peers, them.vmId) > 0))
  {
    ResolveEffect(me, self, peer.sharedId);
    hide Resolve;
  }

  // ------------------------------------------------------------------------------------ connecting

  /** The device after counting one more server message. */
  function Announced(c: Config, d: Device): Device {
    var id := Message(c, d.taken);
    var peers := Resize(d.peers, id + 1);
    d.(taken := d.taken + 1, peers := peers[id := peers[id] + 1])
  }

  function VectorOf(c: Config, taken: nat): nat { if taken < c.vectors then taken else taken - c.vectors }

  /** The N-th announcement of a machine lands on vector N-1, and there is always room for it. */
  lemma AnnouncementLands(c: Config, d: Device)
    requires Counted(c, d.taken, d.peers) && d.taken < 2 * c.vectors
    ensures Resize(d.peers, Message(c, d.taken) + 1)[Message(c, d.taken)] == VectorOf(c, d.taken) < c.vectors
    ensures var d' := Announced(c, d);
            && d' == d.(taken := d.taken + 1, peers := d'.peers)
            && Counted(c, d.taken + 1, d'.peers)
            && Fds(d'.peers, 0) == Min(d.taken + 1, c.vectors)
            && Fds(d'.peers, c.far.vmId) == d.taken + 1 - Min(d.taken + 1, c.vectors)
  {
  }

  /** Handling one server message, with its vector known. */
  lemma ProcessServerIs(c: Config, me: Setup, them: Setup, self: Device, peer: Device)
    requires Counted(c, self.taken, self.peers) && self.taken < 2 * c.vectors
    ensures ProcessServer(c, me, them, self, peer) ==
              SetUpVector(c, me, them, Announced(c, self), peer, Message(c, self.taken), VectorOf(c, self.taken))
  {
    hide SetUpVector, Counted;
    AnnouncementLands(c, self);
    hide Resize;
  }

  // ------------------------------------------------------------------------------ the first device

  lemma NearRaise(c: Config, near: Device, far: Device, bits: set<nat>)
    requires Inv(c, System(near, far))
    ensures var p := Act(c, c.near, c.far, near, far, Raise(bits)); Inv(c, System(p.self, p.peer))
  {
    hide Kick, Resolve, Tracked;
    var far' := far.(intsts := far.intsts + bits, owed := far.owed + bits);
    KickEffect(c, c.near, c.far, near, far');
    ResolveEffect(c.near, near, far'.sharedId);
  }

  lemma NearInit(c: Config, near: Device, far: Device)
    requires near.sharedId == 0
    ensures InitVmIds(c.near, c.far, near, far) == Pair(near, far)
  {
  }

  lemma NearServer(c: Config, near: Device, far: Device)
    requires Inv(c, System(near, far))
    ensures var p := ProcessServer(c, c.near, c.far, near, far); Inv(c, System(p.self, p.peer))
  {
    hide Inv, Counted, SetUpVector;
    if near.taken >= 2 * c.vectors { return; }
    hide ProcessServer;
    assert Counted(c, near.taken, near.peers) by { InvCounts(c, System(near, far)); }
    ProcessServerIs(c, c.near, c.far, near, far);
    NearVector(c, near, far);
  }

  lemma NearVector(c: Config, near: Device, far: Device)
    requires Inv(c, System(near, far)) && near.taken < 2 * c.vectors
    ensures var p := SetUpVector(c, c.near, c.far, Announced(c, near), far, Message(c, near.taken), VectorOf(c, near.taken));
            Inv(c, System(p.self, p.peer))
  {
    hide Kick, Resolve, Tracked, Counted, Announced, InitVmIds;
    AnnouncementLands(c, near);
    var d := Announced(c, near);
    NearInit(c, d, far);
    if VectorOf(c, near.taken) == 1 {
      KickEffect(c, c.near, c.far, d, far);
      ResolveEffect(c.near, d, far.sharedId);
    }
  }

  lemma NearVmId(c: Config, near: Device, far: Device, canOpen: bool)
    requires Inv(c, System(near, far))
    ensures var p := Act(c, c.near, c.far, near, far, VmIdEvent(canOpen)); Inv(c, System(p.self, p.peer))
  {
    hide Kick, Resolve, Fresh, OnlyWindows, Refresh;
    var d := near.(vmEvent := false, other := far.sharedId, bars := Refresh(near.bars, c.near.site, canOpen));
    RefreshIsFresh(near.bars, c.near.site, canOpen);
    KickEffect(c, c.near, c.far, d, far);
    ResolveEffect(c.near, d, far.sharedId);
  }

  lemma NearWriteInbound(c: Config, near: Device, far: Device, field: Field, val: Word32)
    requires Inv(c, System(near, far))
    ensures var p := Act(c, c.near, c.far, near, far, WriteInbound(field, val)); Inv(c, System(p.self, p.peer))
  {
    hide Notify, Resolve, Fresh;
    var far' := far.(bars := SetBar(far.bars, near.inboundBar, field, val));
    NotifyEffect(c.near, c.far, near, far');
    ResolveEffect(c.near, near, far'.sharedId);
    hide SetField;
  }

  // ----------------------------------------------------------------------------- the second device

  lemma FarRaise(c: Config, near: Device, far: Device, bits: set<nat>)
    requires Inv(c, System(near, far))
    ensures var p := Act(c, c.far, c.near, far, near, Raise(bits)); Inv(c, System(p.peer, p.self))
  {
    hide Kick, Resolve, Tracked;
    var near' := near.(intsts := near.intsts + bits, owed := near.owed + bits);
    KickEffect(c, c.far, c.near, far, near');
    ResolveEffect(c.far, far, near'.sharedId);
  }

  /** The second device publishes its id, by then knowing the first and its vectors, and wakes it. */
  lemma FarInit(c: Config, near: Device, far: Device)
    requires Counted(c, far.taken, far.peers) && far.taken >= c.vectors && near.sharedId == 0
    ensures Fds(far.peers, c.near.vmId) > INTERRUPT
    ensures InitVmIds(c.far, c.near, far, near) ==
              Pair(far.(sharedId := c.far.vmId, other := 0), near.(vmEvent := true))
  {
  }

  lemma FarServer(c: Config, near: Device, far: Device)
    requires Inv(c, System(near, far))
    ensures var p := ProcessServer(c, c.far, c.near, far, near); Inv(c, System(p.peer, p.self))
  {
    hide Inv, Counted, SetUpVector;
    if far.taken >= 2 * c.vectors { return; }
    hide ProcessServer;
    assert Counted(c, far.taken, far.peers) by { InvCounts(c, System(near, far)); }
    ProcessServerIs(c, c.far, c.near, far, near);
    FarVector(c, near, far);
  }

  lemma FarVector(c: Config, near: Device, far: Device)
    requires Inv(c, System(near, far)) && far.taken < 2 * c.vectors
    ensures var p := SetUpVector(c, c.far, c.near, Announced(c, far), near, Message(c, far.taken), VectorOf(c, far.taken));
            Inv(c, System(p.peer, p.self))
  {
    hide Kick, Resolve, Fresh, OnlyWindows, Counted, Announced, InitVmIds;
    AnnouncementLands(c, far);
    var d := Announced(c, far);
    if far.taken == 1 {
      KickEffect(c, c.far, c.near, d, near);
      ResolveEffect(c.far, d, near.sharedId);
    } else if far.taken == c.vectors + 1 {
      FarInit(c, near, d);
      var d', near' := d.(sharedId := c.far.vmId, other := 0), near.(vmEvent := true);
      KickEffect(c, c.far, c.near, d', near');
      ResolveEffect(c.far, d', near'.sharedId);
    }
  }

  lemma FarVmId(c: Config, near: Device, far: Device, canOpen: bool)
    requires Inv(c, System(near, far))
    ensures var p := Act(c, c.far, c.near, far, near, VmIdEvent(canOpen)); Inv(c, System(p.peer, p.self))
  {
    hide Kick, Resolve, Fresh, OnlyWindows, Refresh;
    var d := far.(vmEvent := false, other := near.sharedId, bars := Refresh(far.bars, c.far.site, canOpen));
    RefreshIsFresh(far.bars, c.far.site, canOpen);
    KickEffect(c, c.far, c.near, d, near);
    ResolveEffect(c.far, d, near.sharedId);
  }

  lemma FarWriteInbound(c: Config, near: Device, far: Device, field: Field, val: Word32)
    requires Inv(c, System(near, far))
    ensures var p := Act(c, c.far, c.near, far, near, WriteInbound(field, val)); Inv(c, System(p.peer, p.self))
  {
    hide Notify, Resolve, Fresh;
    var near' := near.(bars := SetBar(near.bars, far.inboundBar, field, val));
    NotifyEffect(c.far, c.near, far, near');
    ResolveEffect(c.far, far, near'.sharedId);
    hide SetField;
  }

  // ------------------------------------------------------------------------------------ every step

  /** The steps that concern one device alone. */
  predicate Private(a: Action) {
    a.InterruptEvent? || a.RaiseSelf? || a.ClearInterrupts? || a.WriteBar? || a.SelectPartition? || a.SelectInbound?
  }

  lemma WriteBarKeepsTracked(me: Setup, w: Bars, awaited: bool, idx: Bar, field: Field, val: Word32, canOpen: bool)
    requires Tracked(me, w, awaited)
    ensures Tracked(me, Update(SetBar(w, idx, field, val), me.site, idx, canOpen), awaited)
  {
    hide Target, NeedsRam, SetField;
    var w' := Update(SetBar(w, idx, field, val), me.site, idx, canOpen);
    if Fresh(w, me.site) {
      forall i: Bar ensures FreshAt(w', me.site, i) { assert FreshAt(w, me.site, i); }
    }
  }

  lemma NearPrivate(c: Config, near: Device, far: Device, a: Action)
    requires Inv(c, System(near, far)) && Private(a)
    ensures var p := Act(c, c.near, c.far, near, far, a); Inv(c, System(p.self, p.peer))
  {
    hide Tracked, Counted, Update, SetBar;
    if a.WriteBar? {
      WriteBarKeepsTracked(c.near, near.bars, near.vmEvent || far.sharedId != c.far.vmId, a.idx, a.field, a.val, a.canOpen);
    }
  }

  lemma FarPrivate(c: Config, near: Device, far: Device, a: Action)
    requires Inv(c, System(near, far)) && Private(a)
    ensures var p := Act(c, c.far, c.near, far, near, a); Inv(c, System(p.peer, p.self))
  {
    hide Tracked, Counted, Update, SetBar;
    if a.WriteBar? {
      WriteBarKeepsTracked(c.far, far.bars, true, a.idx, a.field, a.val, a.canOpen);
    }
  }

  lemma StepKeepsInv(c: Config, s: System, e: Event)
    requires Inv(c, s)
    ensures Inv(c, Step(c, s, e))
  {
    hide Inv, Kick, Notify, ProcessServer, HandleVmId;
    match e.act
    case ServerMessage => if e.far { FarServer(c, s.near, s.far); } else { NearServer(c, s.near, s.far); }
    case VmIdEvent(canOpen) => if e.far { FarVmId(c, s.near, s.far, canOpen); } else { NearVmId(c, s.near, s.far, canOpen); }
    case Raise(bits) => if e.far { FarRaise(c, s.near, s.far, bits); } else { NearRaise(c, s.near, s.far, bits); }
    case WriteInbound(field, val) =>
      if e.far { FarWriteInbound(c, s.near, s.far, field, val); } else { NearWriteInbound(c, s.near, s.far, field, val); }
    case _ => if e.far { FarPrivate(c, s.near, s.far, e.act); } else { NearPrivate(c, s.near, s.far, e.act); }
  }

  lemma {:induction false} RunKeepsInv(c: Config, s: System, schedule: seq<Event>)
    requires Inv(c, s)
    ensures Inv(c, Run(c, s, schedule))
    decreases |schedule|
  {
    hide Inv, Step;
    if schedule != [] {
      RunKeepsInv(c, s, schedule[..|schedule| - 1]);
      StepKeepsInv(c, Run(c, s, schedule[..|schedule| - 1]), schedule[|schedule| - 1]);
    }
  }

  lemma ReachableHoldsInv(c: Config, s: System)
    requires Reachable(c, s)
    ensures Inv(c, s)
  {
    hide Inv, Run, Realized;
    var s0: System, schedule: seq<Event> :| Realized(s0.near) && Realized(s0.far) && Run(c, s0, schedule) == s;
    InitHolds(c, s0);
    RunKeepsInv(c, s0, schedule);
  }
}
