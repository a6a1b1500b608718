/** The second device is not woken when it finishes connecting, so a window the first device changes
    before it is connected can keep a stale alias for good. Being connected is exactly what it takes. */
module StaleAlias {
  import opened Basics
  import opened BarWindows
  import opened IdtDevice
  import opened IdtSafety
  import opened IdtTheorems

  lemma RunSnoc(c: Config, s: System, schedule: seq<Event>, e: Event)
    ensures Run(c, s, schedule + [e]) == Step(c, Run(c, s, schedule), e)
  {
    hide Step;
    assert (schedule + [e])[..|schedule|] == schedule;
  }

  // ------------------------------------------------------------------- a window opened and shut

  /** The windows of a machine that can be mapped at all: a limit register reaches above the base. */
  predicate Mappable(l: Site, b: Bar) { 2 <= b <= 4 && l.bases[b] < 0xFFFF_FFFF && l.ramSize > 0 }

  /** The configuration of a BAR that maps one byte of peer RAM. */
  function OneByte(base: Word64): BarConfig
    requires base < 0xFFFF_FFFF
  {
    BarConfig(0x8000_0000, base + 1, 0, 0)
  }

  lemma OneByteTarget(base: Word64, ramSize: nat)
    requires base < 0xFFFF_FFFF && ramSize > 0
    ensures Target(OneByte(base), base, ramSize) == Some(Alias(0, 1))
  {
  }

  function Own(b: Bar, field: Field, val: Word32): Event { Event(true, WriteBar(b, field, val, true)) }

  /** The second machine's guest programs one of its own BARs. */
  function Opening(b: Bar, base: Word64): seq<Event>
    requires base < 0xFFFF_FFFF
  {
    [Own(b, BarSetup, 0x8000_0000), Own(b, LtBase, 0), Own(b, UtBase, 0), Own(b, Limit, base + 1)]
  }

  lemma OwnWrite(c: Config, s: System, b: Bar, field: Field, val: Word32)
    requires 2 <= b <= 4
    ensures var s' := Step(c, s, Own(b, field, val));
            && s' == s.(far := s.far.(bars := s'.far.bars))
            && s'.far.bars.config[b] == SetField(s.far.bars.config[b], field, val)
            && s'.far.bars.alias[b] == Target(s'.far.bars.config[b], c.far.site.bases[b], c.far.site.ramSize)
  {
    hide Target, NeedsRam, SetField;
  }

  lemma OpeningMaps(c: Config, s: System, b: Bar)
    requires Mappable(c.far.site, b)
    ensures var s' := Run(c, s, Opening(b, c.far.site.bases[b]));
            s' == s.(far := s.far.(bars := s'.far.bars)) && s'.far.bars.alias[b] == Some(Alias(0, 1))
  {
    hide Target, Step;
    var base := c.far.site.bases[b];
    var e := Opening(b, base);
    assert Run(c, s, []) == s;
    assert [] + [e[0]] == [e[0]] && [e[0]] + [e[1]] == [e[0], e[1]] && [e[0], e[1]] + [e[2]] == [e[0], e[1], e[2]];
    assert [e[0], e[1], e[2]] + [e[3]] == e;
    hide Run;
    RunSnoc(c, s, [], e[0]);
    RunSnoc(c, s, [e[0]], e[1]);
    RunSnoc(c, s, [e[0], e[1]], e[2]);
    RunSnoc(c, s, [e[0], e[1], e[2]], e[3]);
    OwnWrite(c, s, b, BarSetup, 0x8000_0000);
    OwnWrite(c, Run(c, s, [e[0]]), b, LtBase, 0);
    OwnWrite(c, Run(c, s, [e[0], e[1]]), b, UtBase, 0);
    OwnWrite(c, Run(c, s, [e[0], e[1], e[2]]), b, Limit, base + 1);
    OneByteTarget(base, c.far.site.ramSize);
  }

  /** The first machine, not connected, sets the limit to 0; the second device does not hear of it. */
  lemma ShuttingIsUnseen(c: Config, s: System, b: Bar)
    requires Inv(c, s) && !Connected(c, s, false) && !s.far.vmEvent
    ensures var s' := Step(c, Step(c, s, Event(false, SelectInbound(b))), Event(false, WriteInbound(Limit, 0)));
            && !s'.far.vmEvent && s'.far.bars == SetBar(s.far.bars, b, Limit, 0)
            && s'.near.taken == s.near.taken && s'.far.taken == s.far.taken
  {
    hide Notify, SetBar, Resolve, Inv;
    var near, far := s.near.(inboundBar := b), s.far.(bars := SetBar(s.far.bars, b, Limit, 0));
    NotifyEffect(c.near, c.far, near, far);
    ResolveEffect(c.near, near, s.far.sharedId);
    ResolveEffect(c.near, s.near, s.far.sharedId);
    assert Resolve(c.near, near, s.far.sharedId).other == Resolve(c.near, s.near, s.far.sharedId).other by {
      SelectorDoesNotResolve(c.near, s.near, b, s.far.sharedId);
    }
  }

  lemma SelectorDoesNotResolve(me: Setup, d: Device, b: Bar, peerId: nat)
    ensures Resolve(me, d.(inboundBar := b), peerId).other == Resolve(me, d, peerId).other
  {
  }

  // ------------------------------------------------------------------------- connecting is unseen

  /** Both devices still to be connected, with the second device's windows as given and no wake-up for it. */
  ghost predicate Unaware(c: Config, s: System, bars: Bars) { Inv(c, s) && s.far.bars == bars && !s.far.vmEvent }

  /** Connecting wakes the first device only. */
  lemma ServerIsUnseen(c: Config, s: System, far: bool, bars: Bars)
    requires Unaware(c, s, bars) && s.At(far).taken < 2 * c.vectors
    ensures var s' := Step(c, s, Event(far, ServerMessage));
            && Unaware(c, s', bars)
            && s'.At(far).taken == s.At(far).taken + 1 && s'.At(!far).taken == s.At(!far).taken
  {
    hide Kick, Resolve, Counted, Tracked, ProcessServer, Announced;
    StepKeepsInv(c, s, Event(far, ServerMessage));
    var me, them, self, peer := Side(c, far), Side(c, !far), s.At(far), s.At(!far);
    ProcessServerIs(c, me, them, self, peer);
    AnnouncementLands(c, self);
    var d := Announced(c, self);
    var p := if Message(c, self.taken) == me.vmId then InitVmIds(me, them, d, peer) else Pair(d, peer);
    KickEffect(c, me, them, p.self, p.peer);
    ResolveEffect(me, p.self, p.peer.sharedId);
    hide Inv;
  }

  lemma {:induction false} ConnectingIsUnseen(c: Config, s: System, schedule: seq<Event>, far: bool, bars: Bars) returns (more: seq<Event>)
    requires Unaware(c, Run(c, s, schedule), bars) && Run(c, s, schedule).At(far).taken <= 2 * c.vectors
    ensures var s0, s' := Run(c, s, schedule), Run(c, s, more);
            Unaware(c, s', bars) && s'.At(far).taken == 2 * c.vectors && s'.At(!far).taken == s0.At(!far).taken
    decreases 2 * c.vectors - Run(c, s, schedule).At(far).taken
  {
    hide Unaware, Step, Run;
    var s0 := Run(c, s, schedule);
    if s0.At(far).taken == 2 * c.vectors { return schedule; }
    ServerIsUnseen(c, s0, far, bars);
    RunSnoc(c, s, schedule, Event(far, ServerMessage));
    more := ConnectingIsUnseen(c, s, schedule + [Event(far, ServerMessage)], far, bars);
  }

  lemma WakingIsUnseen(c: Config, s: System, bars: Bars)
    requires Unaware(c, s, bars) && s.near.taken == 2 * c.vectors && s.far.taken == 2 * c.vectors && s.near.vmEvent
    ensures var s' := Step(c, s, Event(false, VmIdEvent(true))); Settled(c, s') && s'.far.bars == bars
  {
    hide Kick, Resolve, Refresh, Tracked;
    var d := s.near.(vmEvent := false, other := s.far.sharedId, bars := Refresh(s.near.bars, c.near.site, true));
    KickEffect(c, c.near, c.far, d, s.far);
    ResolveEffect(c.near, d, s.far.sharedId);
  }

  lemma SettlingIsUnseen(c: Config, s: System, schedule: seq<Event>, bars: Bars) returns (more: seq<Event>)
    requires Unaware(c, Run(c, s, schedule), bars)
    ensures Settled(c, Run(c, s, more)) && Run(c, s, more).far.bars == bars
  {
    assert Run(c, s, schedule).near.taken <= 2 * c.vectors && Run(c, s, schedule).far.taken <= 2 * c.vectors;
    hide Step, Run, Inv;
    more := ConnectingIsUnseen(c, s, schedule, false, bars);
    more := ConnectingIsUnseen(c, s, more, true, bars);
    if Run(c, s, more).near.vmEvent {
      WakingIsUnseen(c, Run(c, s, more), bars);
      RunSnoc(c, s, more, Event(false, VmIdEvent(true)));
      more := more + [Event(false, VmIdEvent(true))];
    }
  }

  // -------------------------------------------------------------------------------- staying stale

  lemma ShutIsStale(w: Bars, l: Site, b: Bar)
    requires w.alias[b] == Some(Alias(0, 1))
    ensures !Fresh(SetBar(w, b, Limit, 0), l)
  {
    var w' := SetBar(w, b, Limit, 0);
    assert !FreshAt(w', l, b);
  }

  /** From every reachable state in which the first device is not connected there is a way to settle with
      a stale alias at the second device, if that has a window that can be mapped. */
  lemma UnconnectedCanStayStale(c: Config, s: System, b: Bar) returns (schedule: seq<Event>)
    requires Reachable(c, s) && !Connected(c, s, false) && Mappable(c.far.site, b)
    ensures Settled(c, Run(c, s, schedule)) && !Fresh(Run(c, s, schedule).far.bars, c.far.site)
  {
    hide Reachable, Run, Step, Settled, Fresh, Connected, SetBar, Opening;
    ReachableHoldsInv(c, s);
    if s.far.vmEvent { WokenMeansConnected(c, s); }
    schedule := Opening(b, c.far.site.bases[b]);
    OpeningMaps(c, s, b);
    RunKeepsInv(c, s, schedule);
    var s1 := Run(c, s, schedule);
    SameConnection(c, s, s1);
    ShuttingIsUnseen(c, s1, b);
    var select, write := Event(false, SelectInbound(b)), Event(false, WriteInbound(Limit, 0));
    RunSnoc(c, s, schedule, select);
    RunSnoc(c, s, schedule + [select], write);
    schedule := schedule + [select] + [write];
    RunKeepsInv(c, s, schedule);
    var bars := SetBar(s1.far.bars, b, Limit, 0);
    ShutIsStale(s1.far.bars, c.far.site, b);
    hide Inv;
    schedule := SettlingIsUnseen(c, s, schedule, bars);
  }

  lemma WokenMeansConnected(c: Config, s: System)
    requires Inv(c, s) && s.far.vmEvent
    ensures Connected(c, s, false)
  {
    ConnectedIs(c, s, false);
    hide Connected;
  }

  lemma SameConnection(c: Config, s: System, s': System)
    requires s' == s.(far := s.far.(bars := s'.far.bars))
    ensures Connected(c, s', false) <==> Connected(c, s, false)
  {
  }

  /** A stale second device with no refresh pending can settle without ever being woken. */
  lemma StaleCanStayStale(c: Config, s: System) returns (schedule: seq<Event>)
    requires Reachable(c, s) && !UpToDate(c.far, s.far)
    ensures Settled(c, Run(c, s, schedule)) && !Fresh(Run(c, s, schedule).far.bars, c.far.site)
  {
    hide Reachable, Step, Settled, Fresh;
    ReachableHoldsInv(c, s);
    assert Run(c, s, []) == s;
    hide Inv, Run;
    schedule := SettlingIsUnseen(c, s, [], s.far.bars);
  }

  // ------------------------------------------------------------------- nothing that can be mapped

  ghost predicate Unmapped(w: Bars) { forall b: Bar :: w.alias[b] == None }

  ghost predicate NothingMappable(l: Site) { forall b: Bar :: !Mappable(l, b) }

  lemma NoTarget(l: Site, b: Bar, config: BarConfig)
    requires NothingMappable(l) && 2 <= b <= 4
    ensures Target(config, l.bases[b], l.ramSize) == None
  {
    assert !Mappable(l, b);
  }

  lemma UpdateKeepsUnmapped(w: Bars, l: Site, b: Bar, canOpen: bool)
    requires Unmapped(w) && NothingMappable(l)
    ensures Unmapped(Update(w, l, b, canOpen))
  {
    hide Target, NeedsRam, NothingMappable;
    if 2 <= b <= 4 { NoTarget(l, b, w.config[b]); }
  }

  lemma RefreshKeepsUnmapped(w: Bars, l: Site, canOpen: bool)
    requires Unmapped(w) && NothingMappable(l)
    ensures Unmapped(Refresh(w, l, canOpen))
  {
    hide Unmapped, NothingMappable, Update;
    UpdateKeepsUnmapped(w, l, 2, canOpen);
    UpdateKeepsUnmapped(Update(w, l, 2, canOpen), l, 3, canOpen);
    UpdateKeepsUnmapped(Update(Update(w, l, 2, canOpen), l, 3, canOpen), l, 4, canOpen);
  }

  lemma FarKeepsUnmapped(c: Config, s: System, a: Action)
    requires Inv(c, s) && Unmapped(s.far.bars) && NothingMappable(c.far.site)
    ensures Unmapped(Step(c, s, Event(true, a)).far.bars)
  {
    hide Unmapped, NothingMappable, Kick, Notify, Resolve, Refresh, Update, Tracked, Counted;
    var near, far := s.near, s.far;
    match a
    case ServerMessage =>
      hide ProcessServer;
      if far.taken < 2 * c.vectors { ServerIsUnseenAt(c, s); } else { NoMoreMessages(c, s); }
    case VmIdEvent(canOpen) =>
      RefreshKeepsUnmapped(far.bars, c.far.site, canOpen);
      KickEffect(c, c.far, c.near, far.(vmEvent := false, other := near.sharedId, bars := Refresh(far.bars, c.far.site, canOpen)), near);
      ResolveEffect(c.far, far.(vmEvent := false, other := near.sharedId, bars := Refresh(far.bars, c.far.site, canOpen)), near.sharedId);
    case Raise(bits) => KickEffect(c, c.far, c.near, far, near.(intsts := near.intsts + bits, owed := near.owed + bits));
      ResolveEffect(c.far, far, near.sharedId);
    case WriteBar(idx, field, val, canOpen) =>
      SetBarKeepsUnmapped(far.bars, idx, field, val);
      UpdateKeepsUnmapped(SetBar(far.bars, idx, field, val), c.far.site, idx, canOpen);
    case WriteInbound(field, val) =>
      NotifyEffect(c.far, c.near, far, near.(bars := SetBar(near.bars, far.inboundBar, field, val)));
      ResolveEffect(c.far, far, near.sharedId);
    case _ =>
  }

  lemma ServerIsUnseenAt(c: Config, s: System)
    requires Inv(c, s) && s.far.taken < 2 * c.vectors
    ensures Step(c, s, Event(true, ServerMessage)).far.bars == s.far.bars
  {
    hide Kick, Resolve, Counted, Tracked, ProcessServer, Announced;
    ProcessServerIs(c, c.far, c.near, s.far, s.near);
    AnnouncementLands(c, s.far);
    var d := Announced(c, s.far);
    var p := if Message(c, s.far.taken) == c.far.vmId then InitVmIds(c.far, c.near, d, s.near) else Pair(d, s.near);
    KickEffect(c, c.far, c.near, p.self, p.peer);
    ResolveEffect(c.far, p.self, p.peer.sharedId);
    hide Inv;
  }

  lemma NoMoreMessages(c: Config, s: System)
    requires s.far.taken >= 2 * c.vectors
    ensures Step(c, s, Event(true, ServerMessage)).far == s.far
  {
  }

  lemma SetBarKeepsUnmapped(w: Bars, b: Bar, field: Field, val: Word32)
    requires Unmapped(w)
    ensures Unmapped(SetBar(w, b, field, val))
  {
    hide SetField;
  }

  lemma StepKeepsUnmapped(c: Config, s: System, e: Event)
    requires Inv(c, s) && Unmapped(s.far.bars) && NothingMappable(c.far.site)
    ensures Unmapped(Step(c, s, e).far.bars)
  {
    hide Inv, NothingMappable;
    if e.far {
      hide Step, Unmapped;
      FarKeepsUnmapped(c, s, e.act);
    } else {
      NearLeavesAliases(c, s, e.act);
      hide Step;
    }
  }

  lemma NearLeavesAliases(c: Config, s: System, a: Action)
    requires Inv(c, s)
    ensures Step(c, s, Event(false, a)).far.bars.alias == s.far.bars.alias
  {
    if IsWrite(a) {
      hide Notify, Resolve, SetField, Inv;
      NotifyEffect(c.near, c.far, s.near, s.far.(bars := SetBar(s.far.bars, s.near.inboundBar, a.field, a.val)));
    } else {
      StepFrames(c, s, Event(false, a));
      hide Step, Inv;
    }
  }

  lemma {:induction false} RunKeepsUnmapped(c: Config, s: System, schedule: seq<Event>)
    requires Inv(c, s) && Unmapped(s.far.bars) && NothingMappable(c.far.site)
    ensures Unmapped(Run(c, s, schedule).far.bars)
    decreases |schedule|
  {
    hide Inv, Step, Unmapped, NothingMappable;
    if schedule != [] {
      var before := schedule[..|schedule| - 1];
      RunKeepsUnmapped(c, s, before);
      RunKeepsInv(c, s, before);
      StepKeepsUnmapped(c, Run(c, s, before), schedule[|schedule| - 1]);
    }
  }

  lemma ReachableIsUnmapped(c: Config, s: System)
    requires Reachable(c, s) && NothingMappable(c.far.site)
    ensures Unmapped(s.far.bars)
  {
    hide Run, NothingMappable;
    var s0: System, schedule: seq<Event> :| Realized(s0.near) && Realized(s0.far) && Run(c, s0, schedule) == s;
    InitHolds(c, s0);
    assert Unmapped(s0.far.bars);
    hide Realized, Unmapped, Inv;
    RunKeepsUnmapped(c, s0, schedule);
  }

  // ------------------------------------------------------------------------------- exact condition

  /** From any reachable state: the second device's aliases are fresh whenever everything is settled, on
      every continuation, exactly if none of its windows can be mapped at all, or they are up to date now
      and the first device is already connected. */
  lemma SecondStaysFreshIffConnected(c: Config, s: System)
    requires Reachable(c, s)
    ensures (forall schedule: seq<Event> :: Settled(c, Run(c, s, schedule)) ==> Fresh(Run(c, s, schedule).far.bars, c.far.site))
       <==> NothingMappable(c.far.site) || (Connected(c, s, false) && UpToDate(c.far, s.far))
  {
    hide Reachable, Connected, Run, Fresh, Inv, Mappable, Unmapped;
    ReachableHoldsInv(c, s);
    if NothingMappable(c.far.site) {
      ReachableIsUnmapped(c, s);
      forall schedule: seq<Event> | Settled(c, Run(c, s, schedule))
        ensures Fresh(Run(c, s, schedule).far.bars, c.far.site)
      {
        RunKeepsUnmapped(c, s, schedule);
        UnmappedIsFresh(Run(c, s, schedule).far.bars, c.far.site);
      }
    } else if !Connected(c, s, false) {
      var b: Bar :| Mappable(c.far.site, b);
      var schedule := UnconnectedCanStayStale(c, s, b);
    } else if !UpToDate(c.far, s.far) {
      var schedule := StaleCanStayStale(c, s);
    } else {
      forall schedule: seq<Event> | Settled(c, Run(c, s, schedule))
        ensures Fresh(Run(c, s, schedule).far.bars, c.far.site)
      {
        ConnectedWritesAreSeen(c, s, schedule, false);
      }
    }
  }

  lemma UnmappedIsFresh(w: Bars, l: Site)
    requires Unmapped(w)
    ensures Fresh(w, l)
  {
  }
}
