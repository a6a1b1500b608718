/** The device's handlers as they update its fields in place. Each is proved to take the step that the
    value-level model gives for it. */
module IdtHandlers {
  import opened Basics
  import opened BarWindows
  import opened IdtDevice
  import opened IdtSafety
  import opened IdtTheorems
  import opened IdtInterrupts

  class Endpoint {
    const me: Setup
    const config: array<BarConfig>
    const alias: array<Option<Alias>>
    var taken: nat
    var peers: seq<nat>
    var other: int
    var sharedId: nat
    var vmEvent: bool
    var intEvent: bool
    var intsts: set<nat>
    var ramOpen: bool
    var partition: Word32
    var inboundBar: Bar
    ghost var owed: set<nat>

    ghost predicate Valid() { config.Length == 6 && alias.Length == 6 }

    ghost predicate Apart(peer: Endpoint) {
      Valid() && peer.Valid() && this != peer && config != peer.config && alias != peer.alias && me.vmId != peer.me.vmId
    }

    ghost function View(): Device
      requires Valid()
      reads this, config, alias
    {
      Device(taken, peers, other, sharedId, vmEvent, intEvent, intsts, owed,
             Windows(config[..], alias[..], ramOpen), partition, inboundBar)
    }

    constructor (me: Setup, setup: BarConfig)
      ensures Valid() && fresh(config) && fresh(alias) && this.me == me && Realized(View())
    {
      this.me := me;
      config, alias := new BarConfig[6](_ => setup), new Option<Alias>[6](_ => None);
      taken, peers, other, sharedId := 0, seq(16, _ => 0), -1, 0;
      vmEvent, intEvent, intsts, ramOpen, inboundBar := false, false, {}, false, 0;
      owed, partition := {}, 0;
      new;
      assert alias[..] == seq(6, _ => None);
    }

    /** Is the peer's eventfd known? Looks up the peer's id first if it is not known yet. */
    method EventfdReady(peer: Endpoint, vector: nat) returns (ready: bool)
      requires Apart(peer)
      modifies this`other
      ensures View() == Resolve(me, old(View()), peer.sharedId) && ready == Ready(View(), vector)
    {
      if other == -1 {
        var id := peer.sharedId;
        if id < |peers| && id != me.vmId { other := id; }
      }
      if other < 0 || other >= |peers| { return false; }
      return peers[other] > vector;
    }

    method SetInterruptEvent(peer: Endpoint)
      requires Apart(peer)
      modifies this, peer
      ensures Pair(View(), peer.View()) == SignalInterrupt(me, peer.me, old(View()), old(peer.View()))
    {
      if other == peer.me.vmId {
        peer.intEvent := true;
        peer.owed := {};
      } else if other == me.vmId {
        intEvent := true;
      }
    }

    method SetVmIdEvent(peer: Endpoint)
      requires Apart(peer)
      modifies this, peer
      ensures Pair(View(), peer.View()) == SignalVmId(me, peer.me, old(View()), old(peer.View()))
    {
      if other == peer.me.vmId {
        peer.vmEvent := true;
      } else if other == me.vmId {
        vmEvent := true;
      }
    }

    method KickPeerInterrupt(c: Config, peer: Endpoint)
      requires Apart(peer)
      modifies this, peer
      ensures Pair(View(), peer.View()) == Kick(c, me, peer.me, old(View()), old(peer.View()))
    {
      var ready := EventfdReady(peer, INTERRUPT);
      if !ready { return; }
      if peer.intsts - c.mask != {} { SetInterruptEvent(peer); }
    }

    method RaisePeerInterrupt(c: Config, peer: Endpoint, bits: set<nat>)
      requires Apart(peer)
      modifies this, peer
      ensures Pair(View(), peer.View()) == Act(c, me, peer.me, old(View()), old(peer.View()), Raise(bits))
    {
      peer.intsts, peer.owed := peer.intsts + bits, peer.owed + bits;
      KickPeerInterrupt(c, peer);
    }

    method NotifyBarConfigChanged(peer: Endpoint)
      requires Apart(peer)
      modifies this, peer
      ensures Pair(View(), peer.View()) == Notify(me, peer.me, old(View()), old(peer.View()))
    {
      var ready := EventfdReady(peer, VM_ID);
      if ready { SetVmIdEvent(peer); }
    }

    method InitIds(peer: Endpoint)
      requires Apart(peer)
      modifies this, peer
      ensures Pair(View(), peer.View()) == InitVmIds(me, peer.me, old(View()), old(peer.View()))
    {
      sharedId := me.vmId;
      if me.second {
        other := peer.sharedId;
        SetVmIdEvent(peer);
      }
    }

    method SetUpInterrupt(c: Config, peer: Endpoint, id: nat, vector: nat)
      requires Apart(peer)
      modifies this, peer
      ensures Pair(View(), peer.View()) == SetUpVector(c, me, peer.me, old(View()), old(peer.View()), id, vector)
    {
      if vector == INTERRUPT {
        if id == me.vmId { InitIds(peer); }
        KickPeerInterrupt(c, peer);
      }
    }

    /** The N-th eventfd of a machine is that of its vector N-1. */
    method ConnectEventfd(c: Config, peer: Endpoint, id: nat)
      requires Apart(peer) && id < |peers|
      modifies this, peer
      ensures Pair(View(), peer.View()) == ProcessConnect(c, me, peer.me, old(View()), old(peer.View()), id)
    {
      hide SetUpVector;
      var vector := peers[id];
      if vector >= c.vectors { return; }
      peers := peers[id := vector + 1];
      SetUpInterrupt(c, peer, id, vector);
    }

    /** Take the next message from the server: one eventfd of the machine it names. */
    method ProcessMessage(c: Config, peer: Endpoint)
      requires Apart(peer)
      modifies this, peer
      ensures Pair(View(), peer.View()) == ProcessServer(c, me, peer.me, old(View()), old(peer.View()))
    {
      hide ProcessConnect;
      if taken >= 2 * c.vectors { return; }
      var id := Message(c, taken);
      taken := taken + 1;
      if id >= |peers| { peers := peers + seq(id + 1 - |peers|, _ => 0); }
      ConnectEventfd(c, peer, id);
    }

    method UpdateAlias(idx: Bar, canOpen: bool)
      requires Valid()
      modifies this`ramOpen, alias
      ensures View() == old(View()).(bars := Update(old(View()).bars, me.site, idx, canOpen))
    {
      hide Enabled, ConfigMode, PeerOffset;
      if idx < 2 || idx > 4 { return; }
      var c := config[idx];
      var base := me.site.bases[idx];
      if !Enabled(c.setup) || ConfigMode(c.setup) || c.limit <= base {
        alias[idx] := None;
        return;
      }
      var window := Min(APERTURE, c.limit - base);
      if !ramOpen { ramOpen := canOpen; }
      if window == 0 || !ramOpen || PeerOffset(c) >= me.site.ramSize || window > me.site.ramSize - PeerOffset(c) {
        alias[idx] := None;
        return;
      }
      alias[idx] := Some(Alias(PeerOffset(c), window));
    }

    ghost function Refreshed(w: Bars, from: Bar, upTo: nat, canOpen: bool): Bars
      requires from <= upTo <= 6
      decreases upTo
    {
      if upTo == from then w else Update(Refreshed(w, from, upTo - 1, canOpen), me.site, upTo - 1, canOpen)
    }

    method RefreshAliases(canOpen: bool)
      requires Valid()
      modifies this`ramOpen, alias
      ensures View() == old(View()).(bars := Refresh(old(View()).bars, me.site, canOpen))
    {
      for idx := 2 to 5
        invariant View() == old(View()).(bars := Refreshed(old(View()).bars, 2, idx, canOpen))
      {
        UpdateAlias(idx, canOpen);
      }
    }

    method VmIdNotified(c: Config, peer: Endpoint, canOpen: bool)
      requires Apart(peer)
      modifies this, peer, alias
      ensures Pair(View(), peer.View()) == Act(c, me, peer.me, old(View()), old(peer.View()), VmIdEvent(canOpen))
    {
      hide Refresh, Kick;
      if !vmEvent || !(me.vmId < |peers| && peers[me.vmId] > VM_ID) { return; }
      vmEvent := false;
      other := peer.sharedId;
      RefreshAliases(canOpen);
      KickPeerInterrupt(c, peer);
    }

    /** A register write by the own guest: the alias is brought up to date at once. */
    method WriteOwnBar(c: Config, peer: Endpoint, idx: Bar, field: Field, val: Word32, canOpen: bool)
      requires Apart(peer)
      modifies this`ramOpen, config, alias
      ensures Pair(View(), peer.View()) == Act(c, me, peer.me, old(View()), old(peer.View()), WriteBar(idx, field, val, canOpen))
    {
      config[idx] := SetField(config[idx], field, val);
      UpdateAlias(idx, canOpen);
    }

    /** A register write by the guest to the selected BAR of its peer. */
    method WritePeerBar(c: Config, peer: Endpoint, field: Field, val: Word32)
      requires Apart(peer) && field != BarSetup
      modifies this, peer, peer.config
      ensures Pair(View(), peer.View()) == Act(c, me, peer.me, old(View()), old(peer.View()), WriteInbound(field, val))
    {
      peer.config[inboundBar] := SetField(peer.config[inboundBar], field, val);
      NotifyBarConfigChanged(peer);
    }

    /** The address the MMIO read and write handlers use; None is their refusal. */
    method SlowAddress(idx: Bar, addr: nat) returns (at: Option<nat>)
      requires Valid()
      ensures at == SlowPath(config[idx], me.site.bases[idx], addr)
    {
      var c := config[idx];
      if c.limit == 0 { return None; }
      if (me.site.bases[idx] + addr) % 0x1_0000_0000_0000_0000 > c.limit { return None; }
      return Some((c.utbase * 0x1_0000_0000 + c.ltbase + addr) % 0x1_0000_0000_0000_0000);
    }

    /** Where an access of the guest to a BAR goes: the alias takes what it covers, the MMIO handler the rest.
        With no stale alias the two cannot be told apart, and the alias never leads outside peer RAM. */
    method Translate(idx: Bar, addr: nat, size: nat) returns (at: Option<nat>, byAlias: bool)
      requires Valid() && Fresh(View().bars, me.site) && size > 0
      ensures at == SlowPath(config[idx], me.site.bases[idx], addr)
      ensures byAlias ==> at.Some? && at.value + size <= me.site.ramSize
    {
      hide Target, SlowPath;
      assert FreshAt(View().bars, me.site, idx);
      AccessIsSlowPath(View().bars, me.site, idx, addr, size);
      if alias[idx].Some? && addr + size <= alias[idx].value.size {
        AliasAgreesWithSlowPath(config[idx], me.site.bases[idx], me.site.ramSize, addr, size);
        return Some(alias[idx].value.offset + addr), true;
      }
      at := SlowAddress(idx, addr);
      byAlias := false;
    }

    /** Any handler of this device. */
    method Handle(c: Config, peer: Endpoint, a: Action)
      requires Apart(peer)
      modifies this, config, alias, peer, peer.config
      ensures Pair(View(), peer.View()) == Act(c, me, peer.me, old(View()), old(peer.View()), a)
    {
      hide Kick, Notify, Update, SetField;
      match a
      case ServerMessage => ProcessMessage(c, peer);
      case VmIdEvent(canOpen) => VmIdNotified(c, peer, canOpen);
      case InterruptEvent =>
        if intEvent && me.vmId < |peers| && peers[me.vmId] > INTERRUPT { intEvent := false; }
      case Raise(bits) => RaisePeerInterrupt(c, peer, bits);
      case RaiseSelf(bits) => intsts := intsts + bits;
      case ClearInterrupts(bits) => intsts, owed := intsts - bits, owed - bits;
      case WriteBar(idx, field, val, canOpen) => WriteOwnBar(c, peer, idx, field, val, canOpen);
      case SelectPartition(part) => partition := part;
      case SelectInbound(idx) => inboundBar := idx;
      case WriteInbound(field, val) => if field != BarSetup { WritePeerBar(c, peer, field, val); }
    }
  }

  /** Two devices running their handlers in any order. Every step keeps the joint invariant; once the server's
      messages and the id wake-ups are handled, every interrupt raised and not cleared since has been signalled,
      each device knows the other, and the first has no stale alias. */
  method RunDevices(c: Config, near: Endpoint, far: Endpoint, schedule: seq<Event>)
    requires near.Apart(far) && near.me == c.near && far.me == c.far && Inv(c, System(near.View(), far.View()))
    modifies near, near.config, near.alias, far, far.config, far.alias
    ensures System(near.View(), far.View()) == Run(c, old(System(near.View(), far.View())), schedule)
    ensures Inv(c, System(near.View(), far.View()))
    ensures Settled(c, System(near.View(), far.View())) ==>
              && AllSignalled(c, old(System(near.View(), far.View())), schedule)
              && near.other == far.me.vmId && far.other == near.me.vmId && Fresh(near.View().bars, near.me.site)
  {
    hide Inv, Act, AllSignalled;
    ghost var start := System(near.View(), far.View());
    for i := 0 to |schedule|
      invariant System(near.View(), far.View()) == Run(c, start, schedule[..i])
      invariant Inv(c, System(near.View(), far.View()))
    {
      assert schedule[..i + 1][..i] == schedule[..i];
      StepKeepsInv(c, System(near.View(), far.View()), schedule[i]);
      if schedule[i].far { far.Handle(c, near, schedule[i].act); } else { near.Handle(c, far, schedule[i].act); }
    }
    assert schedule[..|schedule|] == schedule;
    if Settled(c, System(near.View(), far.View())) {
      SettledMeans(c, System(near.View(), far.View()));
      SettledMeansAllSignalled(c, start, schedule);
    }
  }
}
