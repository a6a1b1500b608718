/** What the two devices guarantee together: no interrupt lost while they connect, aliases that follow
    the configuration, and windows that reach the memory the driver asked for. */
module IdtTheorems {
  import opened Basics
  import opened BarWindows
  import opened IdtDevice
  import opened IdtSafety

  function Side(c: Config, far: bool): Setup { if far then c.far else c.near }

  /** All server messages and all id wake-ups have been handled. */
  predicate Settled(c: Config, s: System) {
    s.near.taken == 2 * c.vectors && s.far.taken == 2 * c.vectors && !s.near.vmEvent && !s.far.vmEvent
  }

  lemma SettledMeans(c: Config, s: System)
    requires Inv(c, s) && Settled(c, s)
    ensures s.near.owed - c.mask == {} && s.far.owed - c.mask == {}
    ensures s.near.other == c.far.vmId && s.far.other == c.near.vmId && Fresh(s.near.bars, c.near.site)
  {
    hide Fresh;
  }

  /** When settled, each device knows the other and both of its eventfds. */
  lemma SettledIsConnected(c: Config, s: System)
    requires Reachable(c, s) && Settled(c, s)
    ensures s.near.other == c.far.vmId && Fds(s.near.peers, c.far.vmId) == c.vectors
    ensures s.far.other == c.near.vmId && Fds(s.far.peers, c.near.vmId) == c.vectors
  {
    hide Reachable, Windowed, Signalled;
    ReachableHoldsInv(c, s);
  }

  /** The first device never stays stale: the second wakes it after publishing its id. */
  lemma FirstDeviceCatchesUp(c: Config, s: System)
    requires Reachable(c, s) && Settled(c, s)
    ensures Fresh(s.near.bars, c.near.site)
  {
    hide Reachable, Inv, Settled;
    ReachableHoldsInv(c, s);
    SettledMeans(c, s);
  }

  // --------------------------------------------------------------------------- what one step changes

  predicate IsWrite(a: Action) { a.WriteInbound? && a.field != BarSetup }

  /** The registers behind the windows, after an action. */
  function ConfigAfter(self: Device, peer: Device, a: Action): (seq<BarConfig>, seq<BarConfig>) {
    if a.WriteBar? then (SetBar(self.bars, a.idx, a.field, a.val).config, peer.bars.config)
    else if IsWrite(a) then (self.bars.config, SetBar(peer.bars, self.inboundBar, a.field, a.val).config)
    else (self.bars.config, peer.bars.config)
  }

  /** No alias is stale, or a refresh is pending. */
  ghost predicate UpToDate(me: Setup, d: Device) { d.vmEvent || Fresh(d.bars, me.site) }

  /** What an action leaves of both devices. */
  ghost predicate Frames(me: Setup, them: Setup, self: Device, peer: Device, a: Action, p: Pair) {
    && self.taken <= p.self.taken && (p.self.other == self.other || p.self.other == peer.sharedId)
    && p.peer.taken == peer.taken && p.peer.other == peer.other && p.peer.sharedId == peer.sharedId
    && p.peer.inboundBar == peer.inboundBar
    && p.self.inboundBar == (if a.SelectInbound? then a.idx else self.inboundBar)
    && (p.self.bars.config, p.peer.bars.config) == ConfigAfter(self, peer, a)
    && (UpToDate(me, self) ==> UpToDate(me, p.self))
    && (peer.vmEvent ==> p.peer.vmEvent)
    && (!IsWrite(a) ==> p.peer.bars == peer.bars)
    && (IsWrite(a) && Resolve(me, self, peer.sharedId).other == them.vmId && Fds(self.peers, them.vmId) > 0 ==> p.peer.vmEvent)
  }

  lemma KickFrames(c: Config, me: Setup, them: Setup, self: Device, peer: Device)
    requires me.vmId != them.vmId && peer.owed <= peer.intsts
    ensures Frames(me, them, self, peer, InterruptEvent, Kick(c, me, them, self, peer))
  {
    hide Kick, Resolve, Fresh;
    KickEffect(c, me, them, self, peer);
    ResolveEffect(me, self, peer.sharedId);
  }

  lemma InitFrames(me: Setup, them: Setup, self: Device, peer: Device)
    requires me.vmId != them.vmId
    ensures var p := InitVmIds(me, them, self, peer);
            Frames(me, them, self, peer, InterruptEvent, p) && p.peer.owed == peer.owed && p.peer.intsts == peer.intsts
  {
    hide Resolve, Fresh;
  }

  lemma VectorFrames(c: Config, me: Setup, them: Setup, self: Device, peer: Device, id: nat, vector: nat)
    requires me.vmId != them.vmId && peer.owed <= peer.intsts
    ensures Frames(me, them, self, peer, InterruptEvent, SetUpVector(c, me, them, self, peer, id, vector))
  {
    hide Kick, Resolve, InitVmIds, Fresh;
    InitFrames(me, them, self, peer);
    var p := if id == me.vmId then InitVmIds(me, them, self, peer) else Pair(self, peer);
    KickFrames(c, me, them, p.self, p.peer);
  }

  lemma ServerFrames(c: Config, me: Setup, them: Setup, self: Device, peer: Device)
    requires me.vmId != them.vmId && peer.owed <= peer.intsts && Counted(c, self.taken, self.peers)
    ensures Frames(me, them, self, peer, ServerMessage, ProcessServer(c, me, them, self, peer))
  {
    hide SetUpVector, Resolve, Counted, Announced, Fresh;
    if self.taken >= 2 * c.vectors { return; }
    hide ProcessServer;
    ProcessServerIs(c, me, them, self, peer);
    AnnouncementLands(c, self);
    VectorFrames(c, me, them, Announced(c, self), peer, Message(c, self.taken), VectorOf(c, self.taken));
  }

  lemma WriteFrames(c: Config, me: Setup, them: Setup, self: Device, peer: Device, a: Action)
    requires me.vmId != them.vmId && a.WriteInbound?
    ensures Frames(me, them, self, peer, a, Act(c, me, them, self, peer, a))
  {
    hide Notify, Resolve, SetField, Fresh;
    if !IsWrite(a) { return; }
    var peer' := peer.(bars := SetBar(peer.bars, self.inboundBar, a.field, a.val));
    NotifyEffect(me, them, self, peer');
    ResolveEffect(me, self, peer.sharedId);
  }

  lemma VmIdFrames(c: Config, me: Setup, them: Setup, self: Device, peer: Device, canOpen: bool)
    requires me.vmId != them.vmId && peer.owed <= peer.intsts && OnlyWindows(self.bars)
    ensures Frames(me, them, self, peer, VmIdEvent(canOpen), HandleVmId(c, me, them, self, peer, canOpen))
  {
    hide Kick, Resolve, Refresh, OnlyWindows, Fresh;
    RefreshIsFresh(self.bars, me.site, canOpen);
    var d := self.(vmEvent := false, other := peer.sharedId, bars := Refresh(self.bars, me.site, canOpen));
    KickFrames(c, me, them, d, peer);
  }

  lemma OwnWriteFrames(c: Config, me: Setup, them: Setup, self: Device, peer: Device, a: Action)
    requires a.WriteBar? && OnlyWindows(self.bars)
    ensures Frames(me, them, self, peer, a, Act(c, me, them, self, peer, a))
  {
    hide Resolve, OnlyWindows, Fresh, Target, NeedsRam, SetField;
    if Fresh(self.bars, me.site) { WriteBarKeepsTracked(me, self.bars, false, a.idx, a.field, a.val, a.canOpen); }
  }

  lemma ActFrames(c: Config, me: Setup, them: Setup, self: Device, peer: Device, a: Action)
    requires me.vmId != them.vmId && peer.owed <= peer.intsts && OnlyWindows(self.bars) && Counted(c, self.taken, self.peers)
    ensures Frames(me, them, self, peer, a, Act(c, me, them, self, peer, a))
  {
    hide Kick, Resolve, OnlyWindows, Counted, Fresh;
    if a.WriteInbound? { hide Frames, Act; WriteFrames(c, me, them, self, peer, a); return; }
    if a.WriteBar? { OwnWriteFrames(c, me, them, self, peer, a); return; }
    hide SetBar, Update;
    match a
    case ServerMessage => hide Frames, ProcessServer; ServerFrames(c, me, them, self, peer);
    case VmIdEvent(canOpen) => hide Frames, HandleVmId; VmIdFrames(c, me, them, self, peer, canOpen);
    case Raise(bits) => KickFrames(c, me, them, self, peer.(intsts := peer.intsts + bits, owed := peer.owed + bits));
    case _ =>
  }

  lemma StepFrames(c: Config, s: System, e: Event)
    requires Inv(c, s)
    ensures var s' := Step(c, s, e);
            Frames(Side(c, e.far), Side(c, !e.far), s.At(e.far), s.At(!e.far), e.act, Pair(s'.At(e.far), s'.At(!e.far)))
  {
    hide Frames, Act, Counted, Fresh, OnlyWindows;
    ActFrames(c, Side(c, e.far), Side(c, !e.far), s.At(e.far), s.At(!e.far), e.act);
  }

  // --------------------------------------------------------------------------- writes are notified

  /** The writing device can wake its peer. */
  predicate Connected(c: Config, s: System, writer: bool) {
    var them := Side(c, !writer).vmId;
    Resolve(Side(c, writer), s.At(writer), s.At(!writer).sharedId).other == them && Fds(s.At(writer).peers, them) > 0
  }

  /** For the first device that takes the id the second has published; the second only needs one message. */
  ghost predicate Reaches(c: Config, near: Device, far: Device, writer: bool) {
    if writer then far.taken > 0
    else near.taken > c.vectors && far.sharedId == c.far.vmId && near.other != 0
  }

  lemma ConnectedIs(c: Config, s: System, writer: bool)
    requires Inv(c, s)
    ensures Connected(c, s, writer) <==> Reaches(c, s.near, s.far, writer)
  {
    hide Windowed, Signalled;
  }

  lemma ReachesStays(c: Config, s: System, e: Event, writer: bool)
    requires Inv(c, s) && Reaches(c, s.near, s.far, writer)
    ensures Reaches(c, Step(c, s, e).near, Step(c, s, e).far, writer)
  {
    hide Step, Counted, Windowed, Signalled, Resolve, ConfigAfter;
    StepFrames(c, s, e);
    StepKeepsInv(c, s, e);
  }

  /** While the writer is connected, each of its writes leaves a refresh pending. */
  lemma NothingMissed(c: Config, s: System, e: Event, writer: bool)
    requires Inv(c, s) && Connected(c, s, writer)
    ensures var me, d, d' := Side(c, !writer), s.At(!writer), Step(c, s, e).At(!writer);
            UpToDate(me, d) || (e.far == writer && IsWrite(e.act)) ==> UpToDate(me, d')
  {
    hide Step, Inv, Resolve, ConfigAfter, Fresh;
    StepFrames(c, s, e);
  }

  /** Once a device can wake its peer it stays able to, and an alias of the peer that is up to date, or that
      the device changes once more, is up to date ever after. */
  lemma {:induction false} ConnectedWritesAreSeen(c: Config, s: System, schedule: seq<Event>, writer: bool)
    requires Inv(c, s) && Connected(c, s, writer)
    ensures var me, s' := Side(c, !writer), Run(c, s, schedule);
            && Inv(c, s') && Connected(c, s', writer)
            && (UpToDate(me, s.At(!writer)) || (exists e :: e in schedule && e.far == writer && IsWrite(e.act)) ==>
                  UpToDate(me, s'.At(!writer)))
    decreases |schedule|
  {
    hide Inv, Step, Connected, Reaches, UpToDate;
    if schedule == [] { return; }
    var before, e := schedule[..|schedule| - 1], schedule[|schedule| - 1];
    var s1 := Run(c, s, before);
    ConnectedWritesAreSeen(c, s, before, writer);
    ConnectedIs(c, s1, writer);
    ReachesStays(c, s1, e, writer);
    StepKeepsInv(c, s1, e);
    ConnectedIs(c, Step(c, s1, e), writer);
    NothingMissed(c, s1, e, writer);
    assert forall f :: f in schedule ==> f in before || f == e;
  }

  /** The alias follows the configuration. From any reachable state in which the peer's eventfds are
      connected and no alias is stale, whatever happens, with no refresh pending each mapped alias is
      what the current registers ask for, each access has the slow path's meaning, and what the alias
      serves lies in peer RAM. */
  lemma AliasFollowsConfiguration(c: Config, s: System, schedule: seq<Event>, far: bool, idx: Bar, addr: nat, size: nat)
    requires Reachable(c, s) && Connected(c, s, !far) && UpToDate(Side(c, far), s.At(far)) && size > 0
    requires !Run(c, s, schedule).At(far).vmEvent
    ensures var w, l := Run(c, s, schedule).At(far).bars, Side(c, far).site;
            && Access(w, l, idx, addr, size) == SlowPath(w.config[idx], l.bases[idx], addr)
            && (w.alias[idx] != None ==> w.alias[idx] == Target(w.config[idx], l.bases[idx], l.ramSize))
            && (FastPath(w.alias[idx], addr, size).Some? ==> FastPath(w.alias[idx], addr, size).value + size <= l.ramSize)
  {
    hide Reachable, Connected, Run, Inv, Target, SlowPath;
    ReachableHoldsInv(c, s);
    ConnectedWritesAreSeen(c, s, schedule, !far);
    var w, l := Run(c, s, schedule).At(far).bars, Side(c, far).site;
    assert FreshAt(w, l, idx);
    AccessIsSlowPath(w, l, idx, addr, size);
    if FastPath(w.alias[idx], addr, size).Some? {
      AliasAgreesWithSlowPath(w.config[idx], l.bases[idx], l.ramSize, addr, size);
    }
  }
}
