/** The message registers of the emulated switch, one MMIO handler per atomic operation. Status and
    mask words are sets of bit numbers: bits 0-3 are OUTMSGSTS0-3, bits 16-19 are INMSGSTS0-3. The
    two ends of the switch are named by a `bool`. */
module MessageRegisters {
  const INMSGSTS0: nat := 16

  /** One end's registers in shared memory. `messageInterrupt` is the MSG bit of NTINTSTS. */
  datatype Registers = Registers(msgsts: set<nat>, mask: set<nat>, msg: seq<nat>, src: seq<nat>,
                                 messageInterrupt: bool, partition: nat)

  predicate Sized(r: Registers) { |r.msg| == 4 && |r.src| == 4 }

  type Regs = r: Registers | Sized(r) witness Registers({}, {}, [0, 0, 0, 0], [0, 0, 0, 0], false, 0)

  /** Both ends and the MSG bit of the global interrupt mask. */
  datatype Switch = Switch(near: Regs, far: Regs, interruptMasked: bool) {
    function At(end: bool): Regs { if end then far else near }
    function Set(end: bool, r: Regs): Switch { if end then this.(far := r) else this.(near := r) }
  }

  /** `write_outbound_msg` succeeds iff the peer's inbound register is empty. */
  predicate Accepts(sw: Switch, end: bool, index: int) {
    0 <= index < 4 && INMSGSTS0 + index !in sw.At(!end).msgsts
  }

  /** The peer's interrupt is raised by an accepted write to an unmasked register. */
  predicate RaisesInterrupt(sw: Switch, end: bool, index: int) {
    Accepts(sw, end, index) && INMSGSTS0 + index !in sw.At(!end).mask && !sw.interruptMasked
  }

  function WriteOutbound(sw: Switch, end: bool, index: int, value: nat): (sw': Switch)
    ensures Accepts(sw, end, index) ==>
              && sw'.At(end) == sw.At(end)
              && sw'.At(!end).msgsts == sw.At(!end).msgsts + {INMSGSTS0 + index}
              && sw'.At(!end).msg[index] == value && sw'.At(!end).src[index] == sw.At(end).partition
    ensures !Accepts(sw, end, index) ==> sw'.At(!end) == sw.At(!end)
    ensures !Accepts(sw, end, index) && 0 <= index < 4 ==> index in sw'.At(end).msgsts
  {
    var own, peer := sw.At(end), sw.At(!end);
    if !(0 <= index < 4) then sw
    else if INMSGSTS0 + index in peer.msgsts then
      // the source tests the own mask with this bit cleared, not the bit itself
      var notify := own.mask - {index} != {} && !sw.interruptMasked;
      sw.Set(end, own.(msgsts := own.msgsts + {index}, messageInterrupt := own.messageInterrupt || notify))
    else
      sw.Set(!end, peer.(msg := peer.msg[index := value],
                         msgsts := peer.msgsts + {INMSGSTS0 + index},
                         src := peer.src[index := own.partition],
                         messageInterrupt := peer.messageInterrupt || RaisesInterrupt(sw, end, index)))
  }

  function ClearStatus(sw: Switch, end: bool, bits: set<nat>): Switch {
    sw.Set(end, sw.At(end).(msgsts := sw.At(end).msgsts - bits))
  }

  /** Any register write a guest can make that touches the message unit. */
  datatype Write = OutMsg(end: bool, index: int, value: nat)
                 | MsgSts(end: bool, bits: set<nat>)
                 | MsgStsMask(end: bool, bits: set<nat>)
                 | Partition(end: bool, value: nat)
                 | IntSts(end: bool, clearMessage: bool)
                 | IntMask(masked: bool)

  function Handle(sw: Switch, w: Write): Switch {
    match w
    case OutMsg(end, index, value) => WriteOutbound(sw, end, index, value)
    case MsgSts(end, bits) => ClearStatus(sw, end, bits)
    case MsgStsMask(end, bits) => sw.Set(end, sw.At(end).(mask := bits))
    case Partition(end, value) => sw.Set(end, sw.At(end).(partition := value))
    case IntSts(end, clear) => sw.Set(end, sw.At(end).(messageInterrupt := sw.At(end).messageInterrupt && !clear))
    case IntMask(masked) => sw.(interruptMasked := masked)
  }

  function Traffic(sw: Switch, writes: seq<Write>): Switch {
    if writes == [] then sw else Handle(Traffic(sw, writes[..|writes| - 1]), writes[|writes| - 1])
  }

  /** The owner empties inbound register `index`. */
  predicate Empties(w: Write, end: bool, index: nat) { w.MsgSts? && w.end == end && INMSGSTS0 + index in w.bits }

  lemma HandleKeepsAccepted(sw: Switch, w: Write, end: bool, index: nat)
    requires index < 4 && INMSGSTS0 + index in sw.At(end).msgsts && !Empties(w, end, index)
    ensures var r, r' := sw.At(end), Handle(sw, w).At(end);
            INMSGSTS0 + index in r'.msgsts && r'.msg[index] == r.msg[index] && r'.src[index] == r.src[index]
  {
  }

  /** Accepted messages are stable: whatever both guests write, to all four registers, a full
      inbound register keeps its value and its source until its owner empties it. */
  lemma {:induction false} AcceptedIsStable(sw: Switch, writes: seq<Write>, end: bool, index: nat)
    requires index < 4 && INMSGSTS0 + index in sw.At(end).msgsts
    requires forall k :: 0 <= k < |writes| ==> !Empties(writes[k], end, index)
    ensures var r, r' := sw.At(end), Traffic(sw, writes).At(end);
            INMSGSTS0 + index in r'.msgsts && r'.msg[index] == r.msg[index] && r'.src[index] == r.src[index]
  {
    hide Handle;
    if writes != [] {
      var before := writes[..|writes| - 1];
      AcceptedIsStable(sw, before, end, index);
      HandleKeepsAccepted(Traffic(sw, before), writes[|writes| - 1], end, index);
    }
  }

  /** How often a write to `end`'s register `index` was accepted during the traffic. */
  function Acceptances(sw: Switch, writes: seq<Write>, end: bool, index: nat): nat {
    if writes == [] then 0
    else
      var before, w := writes[..|writes| - 1], writes[|writes| - 1];
      Acceptances(sw, before, end, index)
      + if w.OutMsg? && w.end == !end && w.index == index && Accepts(Traffic(sw, before), !end, index) then 1 else 0
  }

  /** How often its owner emptied it while it was full. */
  function Releases(sw: Switch, writes: seq<Write>, end: bool, index: nat): nat {
    if writes == [] then 0
    else
      var before, w := writes[..|writes| - 1], writes[|writes| - 1];
      Releases(sw, before, end, index)
      + if Empties(w, end, index) && INMSGSTS0 + index in Traffic(sw, before).At(end).msgsts then 1 else 0
  }

  function Occupancy(sw: Switch, end: bool, index: nat): nat {
    if INMSGSTS0 + index in sw.At(end).msgsts then 1 else 0
  }

  lemma HandleMovesOccupancy(sw: Switch, w: Write, end: bool, index: nat)
    requires index < 4
    ensures Occupancy(Handle(sw, w), end, index)
         == if w.OutMsg? && w.end == !end && w.index == index && Accepts(sw, !end, index) then Occupancy(sw, end, index) + 1
            else if Empties(w, end, index) && INMSGSTS0 + index in sw.At(end).msgsts then Occupancy(sw, end, index) - 1
            else Occupancy(sw, end, index)
  {
  }

  /** Conservation: under arbitrary traffic, a register has been filled exactly as often as it was
      emptied, plus one if it is full now; no value is ever replaced without a release in between. */
  lemma {:induction false} AcceptancesBalanceReleases(sw: Switch, writes: seq<Write>, end: bool, index: nat)
    requires index < 4
    ensures Occupancy(sw, end, index) + Acceptances(sw, writes, end, index)
         == Releases(sw, writes, end, index) + Occupancy(Traffic(sw, writes), end, index)
  {
    hide Handle, Occupancy;
    if writes != [] {
      var before := writes[..|writes| - 1];
      AcceptancesBalanceReleases(sw, before, end, index);
      HandleMovesOccupancy(Traffic(sw, before), writes[|writes| - 1], end, index);
    }
  }

  // ------------------------------------------------------------------------ interrupts and settings

  /** A write sets the peer's interrupt status exactly if it fills an empty, unmasked register while message
      interrupts are open, and its own exactly if it is refused and some other status bit is masked. */
  lemma WriteInterrupts(sw: Switch, end: bool, index: nat, value: nat)
    requires index < 4
    ensures var sw', full := WriteOutbound(sw, end, index, value), INMSGSTS0 + index in sw.At(!end).msgsts;
            && (sw'.At(!end).messageInterrupt <==>
                  sw.At(!end).messageInterrupt || (!full && INMSGSTS0 + index !in sw.At(!end).mask && !sw.interruptMasked))
            && (sw'.At(end).messageInterrupt <==>
                  sw.At(end).messageInterrupt || (full && sw.At(end).mask - {index} != {} && !sw.interruptMasked))
            && sw'.interruptMasked == sw.interruptMasked
  {
  }

  /** The write raises `end`'s message interrupt: the peer fills one of its empty unmasked registers, or its own
      write is refused with notice; in both cases message interrupts are open. */
  ghost predicate Notifies(sw: Switch, w: Write, end: bool) {
    && w.OutMsg? && 0 <= w.index < 4 && !sw.interruptMasked
    && (if w.end == !end then INMSGSTS0 + w.index !in sw.At(end).msgsts && INMSGSTS0 + w.index !in sw.At(end).mask
        else INMSGSTS0 + w.index in sw.At(!end).msgsts && sw.At(end).mask - {w.index as nat} != {})
  }

  predicate ClearsInterrupt(w: Write, end: bool) { w.IntSts? && w.end == end && w.clearMessage }

  lemma HandleMovesInterrupt(sw: Switch, w: Write, end: bool)
    ensures Handle(sw, w).At(end).messageInterrupt <==>
            Notifies(sw, w, end) || (sw.At(end).messageInterrupt && !ClearsInterrupt(w, end))
  {
    hide WriteOutbound;
    if w.OutMsg? {
      if 0 <= w.index < 4 { WriteInterrupts(sw, w.end, w.index, w.value); } else { BadIndex(sw, w.end, w.index, w.value); }
    }
  }

  lemma BadIndex(sw: Switch, end: bool, index: int, value: nat)
    requires !(0 <= index < 4)
    ensures WriteOutbound(sw, end, index, value) == sw
  {
  }

  /** Write `i` raised the interrupt and its owner has not cleared it since. */
  ghost predicate RaisedBy(sw: Switch, writes: seq<Write>, end: bool, i: nat)
    requires i < |writes|
  {
    Notifies(Traffic(sw, writes[..i]), writes[i], end) && forall j :: i < j < |writes| ==> !ClearsInterrupt(writes[j], end)
  }

  /** Under arbitrary traffic an end's message interrupt is pending exactly if, since its owner last cleared it,
      some write raised it. */
  lemma {:induction false} InterruptIffRaised(sw: Switch, writes: seq<Write>, end: bool)
    ensures Traffic(sw, writes).At(end).messageInterrupt <==>
            || (exists i: nat | i < |writes| :: RaisedBy(sw, writes, end, i))
            || (sw.At(end).messageInterrupt && forall j :: 0 <= j < |writes| ==> !ClearsInterrupt(writes[j], end))
  {
    hide Handle, Notifies;
    if writes == [] { return; }
    var n := |writes| - 1;
    var before := writes[..n];
    InterruptIffRaised(sw, before, end);
    HandleMovesInterrupt(Traffic(sw, before), writes[n], end);
    assert RaisedBy(sw, writes, end, n) <==> Notifies(Traffic(sw, before), writes[n], end);
    forall i: nat | i < n
      ensures RaisedBy(sw, writes, end, i) <==> RaisedBy(sw, before, end, i) && !ClearsInterrupt(writes[n], end)
    {
      assert before[..i] == writes[..i];
    }
  }

  /** What an end's mask, partition and the global mask were last set to. */
  function LastMask(writes: seq<Write>, end: bool, mask: set<nat>): set<nat> {
    if writes == [] then mask
    else
      var w := writes[|writes| - 1];
      if w.MsgStsMask? && w.end == end then w.bits else LastMask(writes[..|writes| - 1], end, mask)
  }

  function LastPartition(writes: seq<Write>, end: bool, partition: nat): nat {
    if writes == [] then partition
    else
      var w := writes[|writes| - 1];
      if w.Partition? && w.end == end then w.value else LastPartition(writes[..|writes| - 1], end, partition)
  }

  function LastGlobal(writes: seq<Write>, masked: bool): bool {
    if writes == [] then masked
    else
      var w := writes[|writes| - 1];
      if w.IntMask? then w.masked else LastGlobal(writes[..|writes| - 1], masked)
  }

  /** Settings are what their owner last wrote; no other write touches them. */
  lemma {:induction false} SettingsAreLastWritten(sw: Switch, writes: seq<Write>, end: bool)
    ensures var sw' := Traffic(sw, writes);
            && sw'.At(end).mask == LastMask(writes, end, sw.At(end).mask)
            && sw'.At(end).partition == LastPartition(writes, end, sw.At(end).partition)
            && sw'.interruptMasked == LastGlobal(writes, sw.interruptMasked)
  {
    if writes != [] { SettingsAreLastWritten(sw, writes[..|writes| - 1], end); }
  }

  // --------------------------------------------------------------------------- the device objects

  /** One end's registers as the device updates them in place. */
  class RegisterFile {
    var msgsts: set<nat>
    var mask: set<nat>
    const msg: array<nat>
    const src: array<nat>
    var messageInterrupt: bool
    var partition: nat

    ghost predicate Valid()
    {
      msg.Length == 4 && src.Length == 4 && msg != src
    }

    ghost function View(): Regs
      reads this, msg, src
      requires Valid()
    {
      Registers(msgsts, mask, msg[..], src[..], messageInterrupt, partition)
    }

    constructor ()
      ensures Valid() && fresh(msg) && fresh(src)
      ensures msgsts == {} && mask == {} && !messageInterrupt
    {
      msgsts, mask, messageInterrupt, partition := {}, {}, false, 0;
      msg := new nat[4](_ => 0);
      src := new nat[4](_ => 0);
    }
  }

  class InterruptMask {
    var messageMasked: bool
    constructor () ensures messageMasked { messageMasked := true; }
  }

  /** One QEMU device: its own registers, its peer's, and the global mask. */
  class Device {
    const end: bool
    const regs: RegisterFile
    const peer: RegisterFile
    const global: InterruptMask

    ghost predicate Valid()
    {
      && regs != peer && regs.Valid() && peer.Valid()
      && {regs.msg, regs.src} !! {peer.msg, peer.src}
    }

    ghost function View(): Switch
      reads regs, peer, global, regs.msg, regs.src, peer.msg, peer.src
      requires Valid()
    {
      if end then Switch(peer.View(), regs.View(), global.messageMasked)
      else Switch(regs.View(), peer.View(), global.messageMasked)
    }

    constructor (end: bool, regs: RegisterFile, peer: RegisterFile, global: InterruptMask)
      ensures this.end == end && this.regs == regs && this.peer == peer && this.global == global
    {
      this.end, this.regs, this.peer, this.global := end, regs, peer, global;
    }

    method WriteOutboundMsg(index: int, value: nat)
      requires Valid()
      modifies regs`msgsts, regs`messageInterrupt, peer`msgsts, peer`messageInterrupt, peer.msg, peer.src
      ensures View() == WriteOutbound(old(View()), end, index, value)
    {
      if index < 0 || index > 3 {
        return;
      }
      if INMSGSTS0 + index in peer.msgsts {
        regs.msgsts := regs.msgsts + {index};
        if regs.mask - {index} != {} && !global.messageMasked {
          regs.messageInterrupt := true;
        }
        return;
      }
      peer.msg[index] := value;
      peer.msgsts := peer.msgsts + {INMSGSTS0 + index};
      peer.src[index] := regs.partition;
      if INMSGSTS0 + index !in peer.mask && !global.messageMasked {
        peer.messageInterrupt := true;
      }
    }

    method WriteMsgSts(bits: set<nat>)
      requires Valid()
      modifies regs`msgsts
      ensures View() == ClearStatus(old(View()), end, bits)
    {
      regs.msgsts := regs.msgsts - bits;
    }

    method WriteMsgStsMask(bits: set<nat>)
      requires Valid()
      modifies regs`mask
      ensures View() == Handle(old(View()), MsgStsMask(end, bits))
    {
      regs.mask := bits;
    }

    /** Any register write of this device's guest that touches the message unit. */
    method ServeWrite(w: Write)
      requires Valid() && (!w.IntMask? ==> w.end == end)
      modifies regs, peer, peer.msg, peer.src, global
      ensures View() == Handle(old(View()), w)
    {
      hide WriteOutbound;
      match w
      case OutMsg(_, index, value) => WriteOutboundMsg(index, value);
      case MsgSts(_, bits) => WriteMsgSts(bits);
      case MsgStsMask(_, bits) => WriteMsgStsMask(bits);
      case Partition(_, value) => regs.partition := value;
      case IntSts(_, clear) => if clear { regs.messageInterrupt := false; }
      case IntMask(masked) => global.messageMasked := masked;
    }
  }

  /** Two devices over the same registers, and both guests writing as they please: a register filled at the
      start keeps its value and source unless its owner empties it, and every register is filled exactly as
      often as it is emptied, plus one if it ends full. */
  method ServeGuests(near: Device, far: Device, writes: seq<Write>, ghost end: bool, ghost index: nat)
    requires near.Valid() && far.Valid() && !near.end && far.end && index < 4
    requires near.regs == far.peer && near.peer == far.regs && near.global == far.global
    modifies near.regs, near.regs.msg, near.regs.src, near.peer, near.peer.msg, near.peer.src, near.global
    ensures near.View() == far.View() == Traffic(old(near.View()), writes)
    ensures var r, r' := old(near.View()).At(end), near.View().At(end);
            INMSGSTS0 + index in r.msgsts && (forall k :: 0 <= k < |writes| ==> !Empties(writes[k], end, index)) ==>
              INMSGSTS0 + index in r'.msgsts && r'.msg[index] == r.msg[index] && r'.src[index] == r.src[index]
    ensures Occupancy(old(near.View()), end, index) + Acceptances(old(near.View()), writes, end, index)
         == Releases(old(near.View()), writes, end, index) + Occupancy(near.View(), end, index)
  {
    hide Handle, Occupancy, Acceptances, Releases, Empties;
    ghost var start := near.View();
    for i := 0 to |writes|
      invariant near.View() == far.View() == Traffic(start, writes[..i])
    {
      assert writes[..i + 1][..i] == writes[..i];
      var w := writes[i];
      if w.IntMask? || !w.end { near.ServeWrite(w); } else { far.ServeWrite(w); }
    }
    assert writes[..|writes|] == writes;
    AcceptancesBalanceReleases(start, writes, end, index);
    if INMSGSTS0 + index in start.At(end).msgsts && forall k :: 0 <= k < |writes| ==> !Empties(writes[k], end, index) {
      AcceptedIsStable(start, writes, end, index);
    }
  }
}
