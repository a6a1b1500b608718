/** Two instances of the switch device, one per virtual machine, sharing registers in memory and
    waking each other through eventfds. Each step is one handler of one device, taken atomically. */
module IdtDevice {
  import opened Basics
  import opened BarWindows

  /** Fixed facts about one device: `second` is its configured number, `vmId` the id the server gave it. */
  datatype Setup = Setup(second: bool, vmId: nat, site: Site)

  datatype Settings = Settings(near: Setup, far: Setup, vectors: nat, mask: set<nat>)

  /** The first device is connected first and has id 0; each has a vector for ids and one for interrupts. */
  ghost predicate ValidSettings(c: Settings) {
    !c.near.second && c.far.second && c.near.vmId == 0 && 0 < c.far.vmId <= 0xFFFF && c.vectors >= 2
  }

  ghost const EXAMPLE: Settings :=
    Settings(Setup(false, 0, Layout(seq(6, _ => 0), 0x1_0000)), Setup(true, 1, Layout(seq(6, _ => 0), 0x1_0000)), 2, {})

  type Config = c: Settings | ValidSettings(c) ghost witness EXAMPLE

  const VM_ID: nat := 0
  const INTERRUPT: nat := 1

  /** One device and what it owns in shared memory: its id slot, its interrupt status, its BARs.
      `peers[i]` counts the eventfds received for machine i; `taken` the server messages handled.
      `owed` is bookkeeping: the interrupt bits the peer raised and has not signalled since. */
  datatype Device = Device(taken: nat, peers: seq<nat>, other: int, sharedId: nat, vmEvent: bool, intEvent: bool,
                           intsts: set<nat>, owed: set<nat>, bars: Bars, partition: Word32, inboundBar: Bar)

  datatype Pair = Pair(self: Device, peer: Device)

  datatype Field = BarSetup | Limit | LtBase | UtBase

  datatype Action = ServerMessage
                  | VmIdEvent(canOpen: bool)
                  | InterruptEvent
                  | Raise(bits: set<nat>)
                  | RaiseSelf(bits: set<nat>)
                  | ClearInterrupts(bits: set<nat>)
                  | WriteBar(idx: Bar, field: Field, val: Word32, canOpen: bool)
                  | SelectPartition(part: Word32)
                  | SelectInbound(idx: Bar)
                  | WriteInbound(field: Field, val: Word32)

  // --------------------------------------------------------------------------- eventfds and interrupts

  function Fds(peers: seq<nat>, id: int): nat { if 0 <= id < |peers| then peers[id] else 0 }

  /** A device that does not know its peer yet looks the id up in shared memory. */
  function Resolve(me: Setup, self: Device, peerId: nat): Device {
    if self.other == -1 && peerId < |self.peers| && peerId != me.vmId then self.(other := peerId)
    else self
  }

  predicate Ready(d: Device, vector: nat) { Fds(d.peers, d.other) > vector }

  /** Set an eventfd of the machine `self.other`; it may be the device's own. */
  function SignalInterrupt(me: Setup, them: Setup, self: Device, peer: Device): Pair {
    if self.other == them.vmId then Pair(self, peer.(intEvent := true, owed := {}))
    else if self.other == me.vmId then Pair(self.(intEvent := true), peer)
    else Pair(self, peer)
  }

  function SignalVmId(me: Setup, them: Setup, self: Device, peer: Device): Pair {
    if self.other == them.vmId then Pair(self, peer.(vmEvent := true))
    else if self.other == me.vmId then Pair(self.(vmEvent := true), peer)
    else Pair(self, peer)
  }

  function Kick(c: Config, me: Setup, them: Setup, self: Device, peer: Device): Pair {
    var d := Resolve(me, self, peer.sharedId);
    if Ready(d, INTERRUPT) && peer.intsts - c.mask != {} then SignalInterrupt(me, them, d, peer) else Pair(d, peer)
  }

  /** Tell the peer that its BAR configuration changed, if its eventfd is known. */
  function Notify(me: Setup, them: Setup, self: Device, peer: Device): Pair {
    var d := Resolve(me, self, peer.sharedId);
    if Ready(d, VM_ID) then SignalVmId(me, them, d, peer) else Pair(d, peer)
  }

  // ------------------------------------------------------------------------------------ connecting

  /** The server announces every vector of the first machine, then every vector of the second. */
  function Message(c: Config, i: nat): nat { if i < c.vectors then c.near.vmId else c.far.vmId }

  function Resize(peers: seq<nat>, n: nat): (r: seq<nat>)
    ensures |r| >= n && peers <= r
  {
    if n <= |peers| then peers else peers + seq(n - |peers|, _ => 0)
  }

  /** Publish the own id; the second machine also looks up its peer and wakes it. */
  function InitVmIds(me: Setup, them: Setup, self: Device, peer: Device): Pair {
    var d := self.(sharedId := me.vmId);
    if me.second then SignalVmId(me, them, d.(other := peer.sharedId), peer) else Pair(d, peer)
  }

  /** The device's own interrupt vector starts the id exchange; either device's starts a kick. */
  function SetUpVector(c: Config, me: Setup, them: Setup, self: Device, peer: Device, id: nat, vector: nat): Pair {
    if vector != INTERRUPT then Pair(self, peer)
    else
      var p := if id == me.vmId then InitVmIds(me, them, self, peer) else Pair(self, peer);
      Kick(c, me, them, p.self, p.peer)
  }

  /** The N-th connect message for a machine carries the eventfd of its vector N-1. */
  function ProcessConnect(c: Config, me: Setup, them: Setup, self: Device, peer: Device, id: nat): Pair
    requires id < |self.peers|
  {
    var vector := self.peers[id];
    if vector >= c.vectors then Pair(self, peer)
    else SetUpVector(c, me, them, self.(peers := self.peers[id := vector + 1]), peer, id, vector)
  }

  function ProcessServer(c: Config, me: Setup, them: Setup, self: Device, peer: Device): Pair {
    if self.taken >= 2 * c.vectors then Pair(self, peer)
    else
      var id := Message(c, self.taken);
      ProcessConnect(c, me, them, self.(taken := self.taken + 1, peers := Resize(self.peers, id + 1)), peer, id)
  }

  /** An eventfd is watched once the device has received its own vector of that number. */
  function HandleVmId(c: Config, me: Setup, them: Setup, self: Device, peer: Device, canOpen: bool): Pair {
    if !self.vmEvent || Fds(self.peers, me.vmId) <= VM_ID then Pair(self, peer)
    else
      var d := self.(vmEvent := false, other := peer.sharedId, bars := Refresh(self.bars, me.site, canOpen));
      Kick(c, me, them, d, peer)
  }

  // --------------------------------------------------------------------------------------- windows

  function SetField(b: BarConfig, field: Field, val: Word32): BarConfig {
    match field
    case BarSetup => b.(setup := val)
    case Limit => b.(limit := val)
    case LtBase => b.(ltbase := val)
    case UtBase => b.(utbase := val)
  }

  function SetBar(w: Bars, idx: Bar, field: Field, val: Word32): Bars {
    w.(config := w.config[idx := SetField(w.config[idx], field, val)])
  }

  // ----------------------------------------------------------------------------------------- steps

  function Act(c: Config, me: Setup, them: Setup, self: Device, peer: Device, a: Action): Pair {
    match a
    case ServerMessage => ProcessServer(c, me, them, self, peer)
    case VmIdEvent(canOpen) => HandleVmId(c, me, them, self, peer, canOpen)
    case InterruptEvent =>
      if self.intEvent && Fds(self.peers, me.vmId) > INTERRUPT then Pair(self.(intEvent := false), peer) else Pair(self, peer)
    case Raise(bits) => Kick(c, me, them, self, peer.(intsts := peer.intsts + bits, owed := peer.owed + bits))
    case RaiseSelf(bits) => Pair(self.(intsts := self.intsts + bits), peer)
    case ClearInterrupts(bits) => Pair(self.(intsts := self.intsts - bits, owed := self.owed - bits), peer)
    case WriteBar(idx, field, val, canOpen) =>
      Pair(self.(bars := Update(SetBar(self.bars, idx, field, val), me.site, idx, canOpen)), peer)
    case SelectPartition(part) => Pair(self.(partition := part), peer)
    case SelectInbound(idx) => Pair(self.(inboundBar := idx), peer)
    case WriteInbound(field, val) => // no such register for the set-up word
      if field == BarSetup then Pair(self, peer)
      else Notify(me, them, self, peer.(bars := SetBar(peer.bars, self.inboundBar, field, val)))
  }

  /** `far` selects the second device. */
  datatype System = System(near: Device, far: Device) {
    function At(far: bool): Device { if far then this.far else near }
  }

  datatype Event = Event(far: bool, act: Action)

  function Step(c: Config, s: System, e: Event): System {
    if e.far then
      var p := Act(c, c.far, c.near, s.far, s.near, e.act);
      System(p.peer, p.self)
    else
      var p := Act(c, c.near, c.far, s.near, s.far, e.act);
      System(p.self, p.peer)
  }

  function Run(c: Config, s: System, schedule: seq<Event>): System
    decreases |schedule|
  {
    if schedule == [] then s else Step(c, Run(c, s, schedule[..|schedule| - 1]), schedule[|schedule| - 1])
  }

  /** A realized device: no server message handled yet, room for 16 peers, shared memory zeroed, no
      window mapped. */
  predicate Realized(d: Device) {
    && d.taken == 0 && d.peers == seq(16, _ => 0) && d.other == -1 && d.sharedId == 0
    && !d.vmEvent && !d.intEvent && d.intsts == {} && d.owed == {}
    && d.bars.alias == seq(6, _ => None)
  }

  ghost predicate Reachable(c: Config, s: System) {
    exists s0: System, schedule: seq<Event> :: Realized(s0.near) && Realized(s0.far) && Run(c, s0, schedule) == s
  }
}
