/** Interrupts of the device pair: which steps raise, clear and signal them, and that none raised while the
    devices connect goes unsignalled. */
module IdtInterrupts {
  import opened BarWindows
  import opened IdtDevice
  import opened IdtSafety
  import opened IdtTheorems

  function Raised(a: Action): set<nat> { if a.Raise? then a.bits else {} }
  function RaisedOwn(a: Action): set<nat> { if a.RaiseSelf? then a.bits else {} }
  function Cleared(a: Action): set<nat> { if a.ClearInterrupts? then a.bits else {} }

  /** What an action does to interrupt bits and interrupt eventfds. */
  ghost predicate Interrupts(self: Device, peer: Device, a: Action, p: Pair) {
    && p.self.intsts == self.intsts + RaisedOwn(a) - Cleared(a) && p.peer.intsts == peer.intsts + Raised(a)
    && p.self.owed == self.owed - Cleared(a)
    && (p.peer.owed == peer.owed + Raised(a) || p.peer.intEvent)
    && (peer.intEvent ==> p.peer.intEvent) && (self.intEvent && !a.InterruptEvent? ==> p.self.intEvent)
  }

  lemma KickInterrupts(c: Config, me: Setup, them: Setup, self: Device, peer: Device)
    requires me.vmId != them.vmId && peer.owed <= peer.intsts
    ensures Interrupts(self, peer, ServerMessage, Kick(c, me, them, self, peer))
  {
    hide Kick, Resolve;
    KickEffect(c, me, them, self, peer);
  }

  lemma InitInterrupts(me: Setup, them: Setup, self: Device, peer: Device)
    ensures var p := InitVmIds(me, them, self, peer);
            p.self == self.(sharedId := me.vmId, other := p.self.other, vmEvent := p.self.vmEvent) && p.peer == peer.(vmEvent := p.peer.vmEvent)
  {
  }

  lemma ServerInterrupts(c: Config, me: Setup, them: Setup, self: Device, peer: Device)
    requires me.vmId != them.vmId && peer.owed <= peer.intsts && Counted(c, self.taken, self.peers)
    ensures Interrupts(self, peer, ServerMessage, ProcessServer(c, me, them, self, peer))
  {
    hide Kick, Counted, Announced, InitVmIds;
    if self.taken >= 2 * c.vectors { return; }
    hide ProcessServer;
    ProcessServerIs(c, me, them, self, peer);
    AnnouncementLands(c, self);
    var d := Announced(c, self);
    InitInterrupts(me, them, d, peer);
    var p := if Message(c, self.taken) == me.vmId then InitVmIds(me, them, d, peer) else Pair(d, peer);
    KickInterrupts(c, me, them, p.self, p.peer);
  }

  lemma ActInterrupts(c: Config, me: Setup, them: Setup, self: Device, peer: Device, a: Action)
    requires me.vmId != them.vmId && peer.owed <= peer.intsts && Counted(c, self.taken, self.peers)
    ensures Interrupts(self, peer, a, Act(c, me, them, self, peer, a))
  {
    hide Kick, Notify, Resolve, Counted, Refresh, Update, SetBar;
    match a
    case ServerMessage => hide ProcessServer; ServerInterrupts(c, me, them, self, peer);
    case VmIdEvent(canOpen) =>
      KickInterrupts(c, me, them, self.(vmEvent := false, other := peer.sharedId, bars := Refresh(self.bars, me.site, canOpen)), peer);
    case Raise(bits) => KickInterrupts(c, me, them, self, peer.(intsts := peer.intsts + bits, owed := peer.owed + bits));
    case WriteInbound(field, val) =>
      NotifyEffect(me, them, self, peer.(bars := SetBar(peer.bars, self.inboundBar, field, val)));
    case _ =>
  }

  /** Interrupt bits are exactly those raised and not cleared since, and a set interrupt eventfd stays set until
      its owner handles it. */
  lemma InterruptsMove(c: Config, s: System, e: Event, far: bool)
    requires Inv(c, s)
    ensures var d, d' := s.At(far), Step(c, s, e).At(far);
            && d'.intsts == (if e.far == far then d.intsts + RaisedOwn(e.act) - Cleared(e.act) else d.intsts + Raised(e.act))
            && (d.intEvent && !d'.intEvent ==> e == Event(far, InterruptEvent))
            && (if e.far == far then d'.owed == d.owed - Cleared(e.act)
                else d'.owed == d.owed + Raised(e.act) || d'.intEvent)
  {
    hide Act, Counted, Identified, Windowed;
    ActInterrupts(c, Side(c, e.far), Side(c, !e.far), s.At(e.far), s.At(!e.far), e.act);
  }

  /** A device handles a set interrupt eventfd once, as soon as it has its own interrupt vector. */
  lemma InterruptIsHandledOnce(c: Config, s: System, far: bool)
    ensures var d, d' := s.At(far), Step(c, s, Event(far, InterruptEvent)).At(far);
            d' == d.(intEvent := d.intEvent && Fds(d.peers, Side(c, far).vmId) <= INTERRUPT)
  {
  }

  /** A raise by a device that knows its peer and the peer's interrupt vector wakes the peer at once. */
  lemma KnownPeerIsWoken(c: Config, s: System, far: bool, bits: set<nat>)
    requires Inv(c, s)
    requires var them := Side(c, !far).vmId;
             Resolve(Side(c, far), s.At(far), s.At(!far).sharedId).other == them && Fds(s.At(far).peers, them) > INTERRUPT
    requires bits - c.mask != {}
    ensures Step(c, s, Event(far, Raise(bits))).At(!far).intEvent
  {
    hide Kick, Resolve, Counted, Identified, Windowed;
    var peer := s.At(!far).(intsts := s.At(!far).intsts + bits, owed := s.At(!far).owed + bits);
    assert peer.intsts - c.mask >= bits - c.mask;
    KickEffect(c, Side(c, far), Side(c, !far), s.At(far), peer);
  }

  /** Step `i` raises bit `b` at a device, whose guest does not clear it afterwards. */
  ghost predicate Lasting(schedule: seq<Event>, i: nat, far: bool, b: nat) {
    && i < |schedule| && schedule[i].far == !far && b in Raised(schedule[i].act)
    && forall j :: i < j < |schedule| && schedule[j].far == far ==> b !in Cleared(schedule[j].act)
  }

  /** The interrupt eventfd of the device is set after step `j`. */
  ghost predicate SignalledAt(c: Config, s: System, schedule: seq<Event>, far: bool, j: nat)
    requires j < |schedule|
  {
    Run(c, s, schedule[..j + 1]).At(far).intEvent
  }

  lemma {:induction false} OwedOrSignalled(c: Config, s: System, schedule: seq<Event>, i: nat, far: bool, b: nat, n: nat)
    requires Inv(c, s) && Lasting(schedule, i, far, b) && i < n <= |schedule|
    ensures var d := Run(c, s, schedule[..n]).At(far);
            b in d.intsts && (b in d.owed || exists j: nat | i <= j < n :: SignalledAt(c, s, schedule, far, j))
    decreases n
  {
    hide Inv, Step, Raised, Cleared, RaisedOwn;
    var before := schedule[..n - 1];
    assert schedule[..n][..n - 1] == before;
    RunKeepsInv(c, s, before);
    InterruptsMove(c, Run(c, s, before), schedule[n - 1], far);
    if n - 1 > i { OwedOrSignalled(c, s, schedule, i, far, b, n - 1); }
    if Run(c, s, schedule[..n]).At(far).intEvent { assert SignalledAt(c, s, schedule, far, n - 1); }
  }

  /** No interrupt is lost while the devices connect. Whatever the order of connect messages, id exchange and
      raises: if a step raises an unmasked bit that is not cleared since, and everything is handled in the end,
      then the bit is still pending and at or after that step the device's interrupt eventfd was set. */
  lemma NoInterruptIsLost(c: Config, s: System, schedule: seq<Event>, i: nat, far: bool, b: nat)
    requires Inv(c, s) && Settled(c, Run(c, s, schedule))
    requires Lasting(schedule, i, far, b) && b !in c.mask
    ensures b in Run(c, s, schedule).At(far).intsts
    ensures exists j: nat | i <= j < |schedule| :: SignalledAt(c, s, schedule, far, j)
  {
    hide Inv, Run, Settled, Lasting, SignalledAt;
    assert i < |schedule| && schedule[..|schedule|] == schedule by { LastingInside(schedule, i, far, b); }
    OwedOrSignalled(c, s, schedule, i, far, b, |schedule|);
    RunKeepsInv(c, s, schedule);
    SettledMeans(c, Run(c, s, schedule));
    var d := Run(c, s, schedule).At(far);
    assert d.owed - c.mask == {} && (b in d.owed ==> b in d.owed - c.mask);
  }

  lemma LastingInside(schedule: seq<Event>, i: nat, far: bool, b: nat)
    requires Lasting(schedule, i, far, b)
    ensures i < |schedule|
  {
  }

  /** Every raise that lasts has been signalled. */
  ghost predicate AllSignalled(c: Config, s: System, schedule: seq<Event>) {
    forall i: nat, far: bool, b: nat | Lasting(schedule, i, far, b) && b !in c.mask ::
      exists j: nat | i <= j < |schedule| :: SignalledAt(c, s, schedule, far, j)
  }

  lemma SettledMeansAllSignalled(c: Config, s: System, schedule: seq<Event>)
    requires Inv(c, s) && Settled(c, Run(c, s, schedule))
    ensures AllSignalled(c, s, schedule)
  {
    hide Inv, Run, Settled, Lasting, SignalledAt;
    forall i: nat, far: bool, b: nat | Lasting(schedule, i, far, b) && b !in c.mask
      ensures exists j: nat | i <= j < |schedule| :: SignalledAt(c, s, schedule, far, j)
    {
      NoInterruptIsLost(c, s, schedule, i, far, b);
    }
  }
}
