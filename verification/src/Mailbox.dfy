/** The command mailbox that both kernel modules build on three message registers. Each end runs
    one driver thread at a time (the driver holds its mutex); every register access of `send_cmd`
    and `recv_cmd` is one step, interleaved freely with the other end's. */
module Mailbox {
  import opened Basics
  import opened MessageRegisters

  const CMD_REG := 0
  const LOW_REG := 1
  const HIGH_REG := 2
  const TRIES: nat := 100

  const OUTBITS: set<nat> := {0, 1, 2, 3}
  const INBITS: set<nat> := {16, 17, 18, 19}
  const FULL: set<nat> := {16, 17, 18}

  datatype Command = Command(cmd: Word32, data: Word64)

  function Low(data: Word64): Word32 { data % 0x1_0000_0000 }
  function High(data: Word64): Word32 { data / 0x1_0000_0000 }

  /** `low | high << 32`; the two have no bit in common. */
  function Join(low: nat, high: nat): nat { low + high * 0x1_0000_0000 }

  datatype SendPc = SLink | SClear | SLow | SLowSts | SHigh | SHighSts | SCmd | SCmdSts
  datatype RecvPc = QSts | QCmd | QLow | QHigh | QClear

  datatype Driver = Idle
                  | Sending(command: Command, attempt: nat, spc: SendPc)
                  | Receiving(rpc: RecvPc, cmd: nat, low: nat, high: nat)

  datatype Outcome = Sent | NoLink | Again

  /** What one end's driver did so far: finished sends with their result, commands whose CMD write
      was accepted, and commands its receiver returned. */
  datatype End = End(driver: Driver, log: seq<(Command, Outcome)>, placed: seq<Command>, received: seq<(nat, nat)>)

  datatype State = State(sw: Switch, near: End, far: End) {
    function At(end: bool): End { if end then far else near }
    function Set(end: bool, e: End): State { if end then this.(far := e) else this.(near := e) }
  }

  datatype Action = Send(end: bool, command: Command) | Recv(end: bool) | Go(end: bool, linkUp: bool)

  predicate Refused(sw: Switch, end: bool) { sw.At(end).msgsts * OUTBITS != {} }

  function Finish(e: End, result: Outcome): End
    requires e.driver.Sending?
  {
    e.(log := e.log + [(e.driver.command, result)], driver := Idle)
  }

  function Retry(d: Driver): Driver
    requires d.Sending?
  {
    d.(attempt := d.attempt + 1, spc := SLink)
  }

  /** The register access of a sending driver. */
  function SendSwitch(sw: Switch, end: bool, d: Driver): Switch
    requires d.Sending?
  {
    match d.spc
    case SClear => ClearStatus(sw, end, OUTBITS)
    case SLow => WriteOutbound(sw, end, LOW_REG, Low(d.command.data))
    case SHigh => WriteOutbound(sw, end, HIGH_REG, High(d.command.data))
    case SCmd => WriteOutbound(sw, end, CMD_REG, d.command.cmd)
    case _ => sw
  }

  /** Its control flow: `refused` is the OUTMSGSTS test, `accepted` the fate of the command write. */
  function SendFlow(e: End, linkUp: bool, refused: bool, accepted: bool): End
    requires e.driver.Sending?
  {
    var d := e.driver;
    match d.spc
    case SLink =>
      if d.attempt >= TRIES then Finish(e, Again)
      else if !linkUp then Finish(e, NoLink)
      else e.(driver := d.(spc := SClear))
    case SClear => e.(driver := d.(spc := SLow))
    case SLow => e.(driver := d.(spc := SLowSts))
    case SLowSts => e.(driver := if refused then Retry(d) else d.(spc := SHigh))
    case SHigh => e.(driver := d.(spc := SHighSts))
    case SHighSts => e.(driver := if refused then Retry(d) else d.(spc := SCmd))
    case SCmd => e.(driver := d.(spc := SCmdSts), placed := if accepted then e.placed + [d.command] else e.placed)
    case SCmdSts => if refused then e.(driver := Retry(d)) else Finish(e, Sent)
  }

  function StepSend(s: State, end: bool, linkUp: bool): State
    requires s.At(end).driver.Sending?
  {
    var e := s.At(end);
    s.(sw := SendSwitch(s.sw, end, e.driver))
     .Set(end, SendFlow(e, linkUp, Refused(s.sw, end), Accepts(s.sw, end, CMD_REG)))
  }

  function StepRecv(s: State, end: bool): State
    requires s.At(end).driver.Receiving?
  {
    var e := s.At(end);
    var d := e.driver;
    match d.rpc
    case QSts => s.Set(end, e.(driver := if |s.sw.At(end).msgsts * INBITS| < 3 then Idle else d.(rpc := QCmd)))
    case QCmd => s.Set(end, e.(driver := d.(cmd := s.sw.At(end).msg[CMD_REG], rpc := QLow)))
    case QLow => s.Set(end, e.(driver := d.(low := s.sw.At(end).msg[LOW_REG], rpc := QHigh)))
    case QHigh => s.Set(end, e.(driver := d.(high := s.sw.At(end).msg[HIGH_REG], rpc := QClear)))
    case QClear =>
      s.(sw := ClearStatus(s.sw, end, INBITS)).Set(end, e.(driver := Idle, received := e.received + [(d.cmd, Join(d.low, d.high))]))
  }

  function Step(s: State, a: Action): State {
    var e := s.At(a.end);
    match a
    case Send(end, command) => if e.driver.Idle? then s.Set(end, e.(driver := Sending(command, 0, SLink))) else s
    case Recv(end) => if e.driver.Idle? then s.Set(end, e.(driver := Receiving(QSts, 0, 0, 0))) else s
    case Go(end, linkUp) =>
      if e.driver.Sending? then StepSend(s, end, linkUp)
      else if e.driver.Receiving? then StepRecv(s, end)
      else s
  }

  function Run(s: State, schedule: seq<Action>): State
    decreases |schedule|
  {
    if schedule == [] then s else Run(Step(s, schedule[0]), schedule[1..])
  }

  /** After `enable` on both ends: all status bits clear, every bit masked but the lowest inbound one.
      Register contents are arbitrary. */
  predicate Enabled(sw: Switch) {
    forall end: bool :: sw.At(end).msgsts == {} && sw.At(end).mask == OUTBITS + INBITS - {16}
  }

  function Start(sw: Switch): State { State(sw, End(Idle, [], [], []), End(Idle, [], [], [])) }

  ghost predicate Reachable(s: State) {
    exists sw: Switch, schedule: seq<Action> :: Enabled(sw) && s == Run(Start(sw), schedule)
  }

  // ------------------------------------------------------------------------------------- invariant

  function Pair(c: Command): (nat, nat) { (c.cmd, c.data) }

  function Pairs(cs: seq<Command>): seq<(nat, nat)> { seq(|cs|, i requires 0 <= i < |cs| => Pair(cs[i])) }

  function Inbits(r: Regs): set<nat> { r.msgsts * INBITS }

  function Outbits(r: Regs): set<nat> { r.msgsts * OUTBITS }

  /** The complete command in an inbound mailbox, if any. */
  function Box(inbits: set<nat>, msg: seq<nat>): seq<(nat, nat)>
    requires |msg| == 4
  {
    if FULL <= inbits then [(msg[CMD_REG], Join(msg[LOW_REG], msg[HIGH_REG]))] else []
  }

  function Successes(log: seq<(Command, Outcome)>): seq<Command> {
    if log == [] then []
    else
      var last := log[|log| - 1];
      Successes(log[..|log| - 1]) + if last.1 == Sent then [last.0] else []
  }

  /** The send in progress has already been placed. */
  predicate Placed(d: Driver) { d.Sending? && d.spc == SCmdSts }

  /** What a driver's position says about its own OUTMSGSTS bits and its peer's inbound registers. */
  ghost predicate SenderHolds(d: Driver, outbits: set<nat>, inbits: set<nat>, msg: seq<nat>)
    requires |msg| == 4
  {
    var whole := inbits == {} || inbits == FULL;
    if !d.Sending? then whole
    else
      match d.spc
      case SLink => whole
      case SClear => whole
      case SLow => outbits == {} && whole
      case SLowSts => if outbits == {} then inbits == {17} && msg[LOW_REG] == Low(d.command.data) else whole
      case SHigh => outbits == {} && inbits == {17} && msg[LOW_REG] == Low(d.command.data)
      case SCmdSts => outbits == {} && whole
      case _ =>
        && outbits == {} && inbits == {17, 18}
        && msg[LOW_REG] == Low(d.command.data) && msg[HIGH_REG] == High(d.command.data)
  }

  /** What the receiver has read so far is what the mailbox holds. */
  ghost predicate ReceiverHolds(d: Driver, inbits: set<nat>, msg: seq<nat>)
    requires |msg| == 4
  {
    d.Receiving? && d.rpc != QSts ==>
      && inbits == FULL
      && (d.rpc != QCmd ==> d.cmd == msg[CMD_REG])
      && (d.rpc == QHigh || d.rpc == QClear ==> d.low == msg[LOW_REG])
      && (d.rpc == QClear ==> d.high == msg[HIGH_REG])
  }

  /** One direction, from a sending end to its peer's inbound registers, is an exact one-slot channel. */
  ghost predicate Channel(e: End, outbits: set<nat>, inbits: set<nat>, msg: seq<nat>, receiver: Driver, received: seq<(nat, nat)>)
    requires |msg| == 4
  {
    && SenderHolds(e.driver, outbits, inbits, msg)
    && ReceiverHolds(receiver, inbits, msg)
    && Pairs(e.placed) == received + Box(inbits, msg)
    && e.placed == Successes(e.log) + (if Placed(e.driver) then [e.driver.command] else [])
  }

  ghost predicate Direction(s: State, end: bool) {
    Channel(s.At(end), Outbits(s.sw.At(end)), Inbits(s.sw.At(!end)), s.sw.At(!end).msg, s.At(!end).driver, s.At(!end).received)
  }

  ghost predicate MasksHold(s: State) { forall end: bool :: s.sw.At(end).mask == OUTBITS + INBITS - {16} }

  ghost predicate Inv(s: State) { Direction(s, false) && Direction(s, true) && MasksHold(s) }

  // ------------------------------------------------------------------------------------ induction

  /** Splitting a 64-bit word over two registers loses nothing. */
  lemma SplitJoin(data: Word64)
    ensures Join(Low(data), High(data)) == data
  {
  }

  lemma PairsAppend(cs: seq<Command>, c: Command)
    ensures Pairs(cs + [c]) == Pairs(cs) + [Pair(c)]
  {
  }

  lemma SuccessesAppend(log: seq<(Command, Outcome)>, c: Command, result: Outcome)
    ensures Successes(log + [(c, result)]) == Successes(log) + if result == Sent then [c] else []
  {
    assert (log + [(c, result)])[..|log|] == log;
  }

  lemma FullHasThree()
    ensures |FULL| == 3 && forall t: set<nat> :: t == {} || t == {17} || t == {17, 18} ==> |t| < 3
  {
    assert FULL == {16} + {17} + {18};
  }

  /** What one register write does to the bits the drivers look at. */
  lemma WriteEffect(sw: Switch, end: bool, index: int, value: nat)
    requires 0 <= index < 3
    ensures var sw' := WriteOutbound(sw, end, index, value);
            var accepted := INMSGSTS0 + index !in Inbits(sw.At(!end));
            && Accepts(sw, end, index) == accepted
            && Inbits(sw'.At(!end)) == (if accepted then Inbits(sw.At(!end)) + {INMSGSTS0 + index} else Inbits(sw.At(!end)))
            && sw'.At(!end).msg == (if accepted then sw.At(!end).msg[index := value] else sw.At(!end).msg)
            && Outbits(sw'.At(end)) == (if accepted then Outbits(sw.At(end)) else Outbits(sw.At(end)) + {index})
            && Outbits(sw'.At(!end)) == Outbits(sw.At(!end))
            && Inbits(sw'.At(end)) == Inbits(sw.At(end)) && sw'.At(end).msg == sw.At(end).msg
            && sw'.At(end).mask == sw.At(end).mask && sw'.At(!end).mask == sw.At(!end).mask
  {
  }

  lemma ClearEffect(sw: Switch, end: bool)
    ensures var sw' := ClearStatus(sw, end, OUTBITS);
            Outbits(sw'.At(end)) == {} && Inbits(sw'.At(end)) == Inbits(sw.At(end)) && sw'.At(!end) == sw.At(!end)
    ensures var sw' := ClearStatus(sw, end, INBITS);
            Inbits(sw'.At(end)) == {} && Outbits(sw'.At(end)) == Outbits(sw.At(end)) && sw'.At(!end) == sw.At(!end)
  {
  }

  lemma ClearKeepsRest(sw: Switch, end: bool)
    ensures var r' := ClearStatus(sw, end, OUTBITS).At(end);
            r'.mask == sw.At(end).mask && r'.msg == sw.At(end).msg
  {
  }

  /** The switch after a send step, register by register. */
  lemma SendSwitchEffect(s: State, end: bool, linkUp: bool)
    requires s.At(end).driver.Sending?
    ensures var sw' := StepSend(s, end, linkUp).sw;
            && Outbits(sw'.At(!end)) == Outbits(s.sw.At(!end))
            && Inbits(sw'.At(end)) == Inbits(s.sw.At(end)) && sw'.At(end).msg == s.sw.At(end).msg
            && sw'.At(end).mask == s.sw.At(end).mask && sw'.At(!end).mask == s.sw.At(!end).mask
            && StepSend(s, end, linkUp).At(!end) == s.At(!end)
            && !StepSend(s, end, linkUp).At(end).driver.Receiving?
            && StepSend(s, end, linkUp).At(end).received == s.At(end).received
  {
    hide Inbits, Outbits, WriteOutbound, ClearStatus, Accepts, Refused, Low, High;
    var d := s.At(end).driver;
    match d.spc
    case SClear => ClearEffect(s.sw, end); ClearKeepsRest(s.sw, end);
    case SLow => WriteEffect(s.sw, end, LOW_REG, Low(d.command.data));
    case SHigh => WriteEffect(s.sw, end, HIGH_REG, High(d.command.data));
    case SCmd => WriteEffect(s.sw, end, CMD_REG, d.command.cmd);
    case _ =>
  }

  lemma SendQuietKeeps(s: State, end: bool, linkUp: bool)
    requires Direction(s, end) && s.At(end).driver.Sending?
    requires s.At(end).driver.spc.SLink? || s.At(end).driver.spc.SClear?
    ensures Direction(StepSend(s, end, linkUp), end)
  {
    hide Pairs, Successes, Box, ReceiverHolds, Inbits, Outbits, ClearStatus;
    var e := s.At(end);
    ClearEffect(s.sw, end);
    SuccessesAppend(e.log, e.driver.command, NoLink);
    SuccessesAppend(e.log, e.driver.command, Again);
  }

  lemma SendCheckKeeps(s: State, end: bool, linkUp: bool)
    requires Direction(s, end) && s.At(end).driver.Sending?
    requires s.At(end).driver.spc.SLowSts? || s.At(end).driver.spc.SHighSts? || s.At(end).driver.spc.SCmdSts?
    ensures Direction(StepSend(s, end, linkUp), end)
  {
    hide Pairs, Successes, Box, ReceiverHolds, Inbits, Outbits, Low, High;
    var e := s.At(end);
    assert Refused(s.sw, end) == (Outbits(s.sw.At(end)) != {}) by { RefusedIsOutbits(s.sw, end); }
    hide Refused;
    SuccessesAppend(e.log, e.driver.command, Sent);
  }

  lemma RefusedIsOutbits(sw: Switch, end: bool)
    ensures Refused(sw, end) == (Outbits(sw.At(end)) != {})
  {
  }

  lemma SendDataKeeps(s: State, end: bool, linkUp: bool)
    requires Direction(s, end) && s.At(end).driver.Sending?
    requires s.At(end).driver.spc.SLow? || s.At(end).driver.spc.SHigh?
    ensures Direction(StepSend(s, end, linkUp), end)
  {
    hide Pairs, Successes, Join, Inbits, Outbits, Low, High, WriteOutbound, Accepts;
    var d := s.At(end).driver;
    if d.spc.SLow? {
      WriteEffect(s.sw, end, LOW_REG, Low(d.command.data));
    } else {
      WriteEffect(s.sw, end, HIGH_REG, High(d.command.data));
    }
  }

  lemma SendCommandKeeps(s: State, end: bool, linkUp: bool)
    requires Direction(s, end) && s.At(end).driver.Sending? && s.At(end).driver.spc.SCmd?
    ensures Direction(StepSend(s, end, linkUp), end)
    ensures Accepts(s.sw, end, CMD_REG)
  {
    hide Pairs, Successes, Join, Inbits, Outbits, Low, High, WriteOutbound, Accepts;
    var e := s.At(end);
    WriteEffect(s.sw, end, CMD_REG, e.driver.command.cmd);
    SplitJoin(e.driver.command.data);
    PairsAppend(e.placed, e.driver.command);
  }

  lemma SendStepKeeps(s: State, end: bool, linkUp: bool)
    requires Direction(s, end) && s.At(end).driver.Sending?
    ensures Direction(StepSend(s, end, linkUp), end)
  {
    hide Direction, StepSend;
    match s.At(end).driver.spc
    case SLink => SendQuietKeeps(s, end, linkUp);
    case SClear => SendQuietKeeps(s, end, linkUp);
    case SLow => SendDataKeeps(s, end, linkUp);
    case SHigh => SendDataKeeps(s, end, linkUp);
    case SCmd => SendCommandKeeps(s, end, linkUp);
    case _ => SendCheckKeeps(s, end, linkUp);
  }

  /** A send step leaves the opposite direction alone. */
  lemma SendStepKeepsOther(s: State, end: bool, linkUp: bool)
    requires Direction(s, !end) && s.At(end).driver.Sending?
    ensures Direction(StepSend(s, end, linkUp), !end)
  {
    hide Inbits, Outbits, StepSend, Pairs, Successes, Box, SenderHolds, State.At, Switch.At;
    SendSwitchEffect(s, end, linkUp);
  }

  /** A receive step keeps the direction it serves: the values it returns are one whole command. */
  lemma RecvStepKeeps(s: State, end: bool)
    requires Direction(s, !end) && s.At(end).driver.Receiving?
    ensures Direction(StepRecv(s, end), !end)
  {
    hide Pairs, Successes, Inbits, Outbits, ClearStatus, Join;
    FullHasThree();
    ClearEffect(s.sw, end);
    assert s.sw.At(end).msgsts * INBITS == Inbits(s.sw.At(end)) by { InbitsIs(s.sw.At(end)); }
    SenderToleratesClear(s.At(!end).driver, Outbits(s.sw.At(!end)), Inbits(s.sw.At(end)), s.sw.At(end).msg);
    hide SenderHolds;
  }

  lemma InbitsIs(r: Regs)
    ensures r.msgsts * INBITS == Inbits(r)
  {
  }

  lemma SenderToleratesClear(d: Driver, outbits: set<nat>, inbits: set<nat>, msg: seq<nat>)
    requires |msg| == 4 && SenderHolds(d, outbits, inbits, msg)
    ensures inbits == FULL ==> SenderHolds(d, outbits, {}, msg)
    ensures inbits == FULL || |inbits| < 3
  {
    FullHasThree();
    if inbits == FULL { assert 16 in inbits; }
  }

  lemma RecvStepKeepsOther(s: State, end: bool)
    requires Direction(s, end) && s.At(end).driver.Receiving?
    ensures Direction(StepRecv(s, end), end)
  {
    hide Pairs, Successes, Inbits, Outbits, ClearStatus, Join, Box, ReceiverHolds;
    ClearEffect(s.sw, end);
  }

  lemma StepKeepsInv(s: State, a: Action)
    requires Inv(s)
    ensures Inv(Step(s, a))
  {
    hide Direction, StepSend, StepRecv;
    var end := a.end;
    var e := s.At(end);
    match a {
      case Go(_, linkUp) =>
        assert Direction(s, end) && Direction(s, !end);
        if e.driver.Sending? {
          SendStepKeeps(s, end, linkUp);
          SendStepKeepsOther(s, end, linkUp);
          SendSwitchEffect(s, end, linkUp);
        } else if e.driver.Receiving? {
          RecvStepKeeps(s, end);
          RecvStepKeepsOther(s, end);
          RecvKeepsMasks(s, end);
        }
      case _ => if e.driver.Idle? { BeginKeeps(s, a); }
    }
  }

  lemma RecvKeepsMasks(s: State, end: bool)
    requires MasksHold(s) && s.At(end).driver.Receiving?
    ensures MasksHold(StepRecv(s, end))
  {
    assert s.sw.At(end).mask == s.sw.At(!end).mask == OUTBITS + INBITS - {16};
    assert StepRecv(s, end).sw.At(end).mask == s.sw.At(end).mask && StepRecv(s, end).sw.At(!end).mask == s.sw.At(!end).mask;
  }

  lemma BeginKeeps(s: State, a: Action)
    requires Inv(s) && !a.Go? && s.At(a.end).driver.Idle?
    ensures Inv(Step(s, a))
  {
    hide Pairs, Successes, Inbits, Outbits, Box, Join;
  }

  lemma {:induction false} RunKeepsInv(s: State, schedule: seq<Action>)
    requires Inv(s)
    ensures Inv(Run(s, schedule))
    decreases |schedule|
  {
    hide Inv, Step;
    if schedule != [] {
      StepKeepsInv(s, schedule[0]);
      RunKeepsInv(Step(s, schedule[0]), schedule[1..]);
    }
  }

  lemma ReachableHoldsInv(s: State)
    requires Reachable(s)
    ensures Inv(s)
  {
    var sw: Switch, schedule: seq<Action> :| Enabled(sw) && s == Run(Start(sw), schedule);
    assert Inv(Start(sw));
    RunKeepsInv(Start(sw), schedule);
  }

  // ------------------------------------------------------------------------------------- theorems

  /** The mailbox is an exact one-slot channel, in both directions and on every interleaving of
      register accesses. What the receiver returned, followed by the command that sits in its
      registers, is what was placed, in order, each once and untorn; and what was placed is exactly
      the sends that returned 0 (plus the one whose final status read is still to come). */
  lemma MailboxIsExact(s: State, end: bool)
    requires Reachable(s)
    ensures var e, p := s.At(end), s.At(!end);
            var box := Box(Inbits(s.sw.At(!end)), s.sw.At(!end).msg);
            var finishing := if Placed(e.driver) then [e.driver.command] else [];
            && Pairs(e.placed) == p.received + box && |box| <= 1
            && e.placed == Successes(e.log) + finishing
            && p.received <= Pairs(Successes(e.log) + finishing)
  {
    hide Pairs, Successes, Inbits;
    ReachableHoldsInv(s);
    assert Direction(s, end);
  }

  /** The register a sending driver is about to write, if any. */
  function Target(d: Driver): int {
    if !d.Sending? then -1
    else match d.spc
      case SLow => LOW_REG
      case SHigh => HIGH_REG
      case SCmd => CMD_REG
      case _ => -1
  }

  /** No early wake-up and none missing: a step of a driver sets the peer's message interrupt exactly by
      the command write (message interrupts being globally unmasked), and by then the peer's mailbox
      holds that whole command. Its own it sets exactly by a refused DATA_LOW write. */
  lemma InterruptMeansWholeCommand(s: State, end: bool, linkUp: bool)
    requires Reachable(s)
    ensures var d, s' := s.At(end).driver, Step(s, Go(end, linkUp));
            && (s'.sw.At(!end).messageInterrupt <==>
                  s.sw.At(!end).messageInterrupt || (Target(d) == CMD_REG && !s.sw.interruptMasked))
            && (Target(d) == CMD_REG ==> Box(Inbits(s'.sw.At(!end)), s'.sw.At(!end).msg) == [Pair(d.command)])
            && (s'.sw.At(end).messageInterrupt <==>
                  s.sw.At(end).messageInterrupt || (Target(d) == LOW_REG && Inbits(s.sw.At(!end)) != {} && !s.sw.interruptMasked))
  {
    hide Pairs, Successes, Inbits, Outbits, WriteOutbound, Low, High, Join, Inv, Step, Box, Pair;
    ReachableHoldsInv(s);
    var d := s.At(end).driver;
    if Target(d) == CMD_REG { CommandInterrupts(s, end, linkUp); }
    else if Target(d) == LOW_REG { LowInterrupts(s, end, linkUp); }
    else if Target(d) == HIGH_REG { HighInterrupts(s, end, linkUp); }
    else { NoWriteNoInterrupt(s, end, linkUp); }
  }

  lemma CommandInterrupts(s: State, end: bool, linkUp: bool)
    requires Inv(s) && Target(s.At(end).driver) == CMD_REG
    ensures var d, s' := s.At(end).driver, Step(s, Go(end, linkUp));
            && (s'.sw.At(!end).messageInterrupt <==> s.sw.At(!end).messageInterrupt || !s.sw.interruptMasked)
            && Box(Inbits(s'.sw.At(!end)), s'.sw.At(!end).msg) == [Pair(d.command)]
            && (s'.sw.At(end).messageInterrupt <==> s.sw.At(end).messageInterrupt)
  {
    hide Pairs, Successes, Inbits, Outbits, WriteOutbound, Low, High, Join;
    assert Direction(s, end);
    assert s.sw.At(!end).mask == OUTBITS + INBITS - {16};
    var d := s.At(end).driver;
    WriteEffect(s.sw, end, CMD_REG, d.command.cmd);
    SplitJoin(d.command.data);
    WriteInterrupts(s.sw, end, CMD_REG, d.command.cmd);
    InboundBit(s.sw.At(!end), CMD_REG);
  }

  lemma LowInterrupts(s: State, end: bool, linkUp: bool)
    requires Inv(s) && Target(s.At(end).driver) == LOW_REG
    ensures var s' := Step(s, Go(end, linkUp));
            && (s'.sw.At(!end).messageInterrupt <==> s.sw.At(!end).messageInterrupt)
            && (s'.sw.At(end).messageInterrupt <==>
                  s.sw.At(end).messageInterrupt || (Inbits(s.sw.At(!end)) != {} && !s.sw.interruptMasked))
  {
    hide Pairs, Successes, Inbits, Outbits, WriteOutbound, Low, High, Join, Box;
    assert Direction(s, end);
    assert s.sw.At(!end).mask == OUTBITS + INBITS - {16} && s.sw.At(end).mask == OUTBITS + INBITS - {16};
    WriteInterrupts(s.sw, end, LOW_REG, Low(s.At(end).driver.command.data));
    InboundBit(s.sw.At(!end), LOW_REG);
    assert 0 in s.sw.At(end).mask - {LOW_REG};
  }

  lemma HighInterrupts(s: State, end: bool, linkUp: bool)
    requires Inv(s) && Target(s.At(end).driver) == HIGH_REG
    ensures var s' := Step(s, Go(end, linkUp));
            && (s'.sw.At(!end).messageInterrupt <==> s.sw.At(!end).messageInterrupt)
            && (s'.sw.At(end).messageInterrupt <==> s.sw.At(end).messageInterrupt)
  {
    hide Pairs, Successes, Inbits, Outbits, WriteOutbound, Low, High, Join, Box;
    assert Direction(s, end);
    assert s.sw.At(!end).mask == OUTBITS + INBITS - {16};
    WriteInterrupts(s.sw, end, HIGH_REG, High(s.At(end).driver.command.data));
    InboundBit(s.sw.At(!end), HIGH_REG);
  }

  lemma NoWriteNoInterrupt(s: State, end: bool, linkUp: bool)
    requires Target(s.At(end).driver) == -1
    ensures var s' := Step(s, Go(end, linkUp));
            && (s'.sw.At(!end).messageInterrupt <==> s.sw.At(!end).messageInterrupt)
            && (s'.sw.At(end).messageInterrupt <==> s.sw.At(end).messageInterrupt)
  {
  }

  lemma InboundBit(r: Regs, index: nat)
    requires index < 4
    ensures INMSGSTS0 + index in r.msgsts <==> INMSGSTS0 + index in Inbits(r)
  {
  }

  // ------------------------------------------------------------------------- when a send succeeds

  /** The send an end finished in one step, with its result. */
  function Ended(e: End, e': End): Option<(Command, Outcome)> {
    if |e'.log| == |e.log| + 1 then Some(e'.log[|e.log|]) else None
  }

  /** What each way out of a send means. It fails for the link exactly at a link check that finds it down,
      gives up exactly after 100 attempts, and succeeds exactly at the status read after its command write;
      an attempt fails only by a refused DATA_LOW write, and that write is refused exactly if the peer
      has not yet emptied its mailbox. */
  lemma SendStepMeans(s: State, end: bool, linkUp: bool)
    requires Reachable(s) && s.At(end).driver.Sending?
    ensures var d, e, e' := s.At(end).driver, s.At(end), Step(s, Go(end, linkUp)).At(end);
            && (Ended(e, e') == Some((d.command, NoLink)) <==> d.spc == SLink && d.attempt < TRIES && !linkUp)
            && (Ended(e, e') == Some((d.command, Again)) <==> d.spc == SLink && d.attempt >= TRIES)
            && (Ended(e, e') == Some((d.command, Sent)) <==> d.spc == SCmdSts)
            && (e'.driver.Sending? && e'.driver.attempt != d.attempt <==> d.spc == SLowSts && Refused(s.sw, end))
            && (e'.driver.Sending? && e'.driver.attempt != d.attempt ==> e'.driver.attempt == d.attempt + 1)
            && (d.spc == SLow ==> (Refused(Step(s, Go(end, linkUp)).sw, end) <==> Inbits(s.sw.At(!end)) == FULL))
  {
    hide Pairs, Successes, Inbits, Outbits, Low, High, Join, Refused, WriteOutbound, ClearStatus;
    ReachableHoldsInv(s);
    var d := s.At(end).driver;
    if d.spc.SHighSts? || d.spc.SCmdSts? { NotRefused(s, end); }
    if d.spc.SLow? { LowWrite(s, end, linkUp); }
    GoSending(s, end, linkUp);
    hide Step, Inv;
  }

  lemma LowWrite(s: State, end: bool, linkUp: bool)
    requires Inv(s) && s.At(end).driver.Sending? && s.At(end).driver.spc == SLow
    ensures Refused(Step(s, Go(end, linkUp)).sw, end) <==> Inbits(s.sw.At(!end)) == FULL
    ensures Inbits(s.sw.At(!end)) == {} || Inbits(s.sw.At(!end)) == FULL
  {
    hide Pairs, Successes, Inbits, Outbits, Low, High, Join, WriteOutbound, Refused;
    assert Direction(s, end);
    WriteEffect(s.sw, end, LOW_REG, Low(s.At(end).driver.command.data));
    RefusedIsOutbits(Step(s, Go(end, linkUp)).sw, end);
  }

  /** With everything this end placed received, a driver between sends finds its peer's mailbox empty. */
  lemma EverythingReceived(s: State, end: bool)
    requires Inv(s) && s.At(!end).received == Pairs(s.At(end).placed)
    requires s.At(end).driver.Sending? ==> s.At(end).driver.spc.SLink? || s.At(end).driver.spc.SClear? || s.At(end).driver.spc.SLow?
    ensures Inbits(s.sw.At(!end)) == {}
  {
    hide Pairs, Successes, Inbits, Outbits, Low, High, Join;
    assert Direction(s, end);
  }

  /** A driver's own step, with what the refusal bits and the command write have to do with it. */
  lemma OwnStep(s: State, end: bool)
    requires Inv(s) && s.At(end).driver.Sending?
    ensures var s' := Step(s, Go(end, true));
            && Inv(s') && s'.At(!end) == s.At(!end)
            && s'.At(end) == SendFlow(s.At(end), true, Refused(s.sw, end), Accepts(s.sw, end, CMD_REG))
  {
    hide Inv, Step, SendFlow;
    StepKeepsInv(s, Go(end, true));
    GoSending(s, end, true);
    OtherEndStep(s, Go(end, true), !end);
  }

  /** Steps of one end alone, the link being up. */
  function OwnSteps(s: State, end: bool, n: nat): State
    decreases n
  {
    if n == 0 then s else OwnSteps(Step(s, Go(end, true)), end, n - 1)
  }

  lemma FourSteps(s: State, end: bool)
    ensures var go := Go(end, true); OwnSteps(s, end, 4) == Step(Step(Step(Step(s, go), go), go), go)
  {
    hide Step;
    var s2 := Step(Step(s, Go(end, true)), Go(end, true));
    assert OwnSteps(s, end, 4) == OwnSteps(s2, end, 2);
    assert OwnSteps(s2, end, 2) == OwnSteps(Step(s2, Go(end, true)), end, 1);
  }

  lemma FirstHalf(s: State, end: bool)
    requires Inv(s) && s.At(end).driver.Sending? && s.At(end).driver.spc == SLink && s.At(end).driver.attempt < TRIES
    requires s.At(!end).received == Pairs(s.At(end).placed)
    ensures var s' := OwnSteps(s, end, 4);
            Inv(s') && s'.At(!end) == s.At(!end) && s'.At(end) == s.At(end).(driver := s.At(end).driver.(spc := SHigh))
  {
    hide Inv, Step, Pairs, Refused, Accepts, Inbits, State.At;
    FourSteps(s, end);
    OwnStep(s, end);
    var s1 := Step(s, Go(end, true));
    OwnStep(s1, end);
    var s2 := Step(s1, Go(end, true));
    EverythingReceived(s2, end);
    LowWrite(s2, end, true);
    OwnStep(s2, end);
    OwnStep(Step(s2, Go(end, true)), end);
  }

  lemma SecondHalf(s: State, end: bool)
    requires Inv(s) && s.At(end).driver.Sending? && s.At(end).driver.spc == SHigh
    ensures var e, s' := s.At(end), OwnSteps(s, end, 4);
            && s'.At(!end) == s.At(!end)
            && s'.At(end) == e.(driver := Idle, placed := e.placed + [e.driver.command], log := e.log + [(e.driver.command, Sent)])
  {
    hide Inv, Step, Refused, Accepts, State.At;
    FourSteps(s, end);
    OwnStep(s, end);
    var s1 := Step(s, Go(end, true));
    NotRefused(s1, end);
    OwnStep(s1, end);
    var s2 := Step(s1, Go(end, true));
    NotRefused(s2, end);
    OwnStep(s2, end);
    var s3 := Step(s2, Go(end, true));
    NotRefused(s3, end);
    OwnStep(s3, end);
  }

  /** A send over an up link to a peer that has received everything succeeds, in eight steps. */
  lemma SendSucceeds(s: State, end: bool, c: Command)
    requires Reachable(s) && s.At(end).driver.Idle? && s.At(!end).received == Pairs(s.At(end).placed)
    ensures var e, s' := s.At(end), OwnSteps(OwnSteps(Step(s, Send(end, c)), end, 4), end, 4);
            && s'.At(end) == e.(log := e.log + [(c, Sent)], placed := e.placed + [c])
            && s'.At(!end) == s.At(!end)
  {
    ReachableHoldsInv(s);
    StepKeepsInv(s, Send(end, c));
    hide Inv, OwnSteps, Pairs;
    var s1 := Step(s, Send(end, c));
    FirstHalf(s1, end);
    SecondHalf(OwnSteps(s1, end, 4), end);
  }

  // --------------------------------------------------------------------- send_cmd and recv_cmd

  lemma OtherEndStep(s: State, a: Action, end: bool)
    requires a.end == !end
    ensures Step(s, a).At(end) == s.At(end)
  {
    hide WriteOutbound, Low, High;
  }

  /** An end only ever adds to what it placed and received, and leaves its peer's refusal bits alone. */
  lemma EndsGrow(s: State, a: Action, end: bool)
    requires a.end == !end
    ensures s.At(!end).placed <= Step(s, a).At(!end).placed && s.At(!end).received <= Step(s, a).At(!end).received
    ensures Refused(Step(s, a).sw, end) == Refused(s.sw, end)
  {
    hide WriteOutbound, Low, High, Outbits, Inbits, Refused;
    RefusedIsOutbits(s.sw, end);
    RefusedIsOutbits(Step(s, a).sw, end);
    if a.Go? && s.At(!end).driver.Sending? { SendSwitchEffect(s, !end, a.linkUp); }
    ClearEffect(s.sw, !end);
  }

  /** What the other end may do meanwhile. */
  ghost predicate Later(s: State, s': State, end: bool) {
    && s'.At(end) == s.At(end)
    && s.At(!end).placed <= s'.At(!end).placed && s.At(!end).received <= s'.At(!end).received
    && Refused(s'.sw, end) == Refused(s.sw, end)
  }

  /** Two ends sharing the switch. `upAt` is what the link is at each reading of it. */
  class Link {
    const upAt: nat -> bool
    var s: State
    var now: nat

    constructor (sw: Switch, upAt: nat -> bool)
      requires Enabled(sw)
      ensures s == Start(sw) && Inv(s) && this.upAt == upAt
    {
      s, now := Start(sw), 0;
      this.upAt := upAt;
    }

    method ReadLink() returns (up: bool)
      modifies this`now
      ensures up == upAt(old(now)) && now == old(now) + 1
    {
      up := upAt(now);
      now := now + 1;
    }

    /** Any number of steps of the other end. */
    method Yield(end: bool)
      requires Inv(s)
      modifies this`s
      ensures Inv(s) && Later(old(s), s, end)
    {
      hide Inv, Step, State.At, Refused;
      var env: seq<Action> := *;
      for i := 0 to |env|
        invariant Inv(s) && Later(old(s), s, end)
      {
        if env[i].end == !end {
          StepKeepsInv(s, env[i]);
          OtherEndStep(s, env[i], end);
          EndsGrow(s, env[i], end);
          s := Step(s, env[i]);
        }
      }
    }

    /** One register access of this end's driver. */
    method Access(end: bool, linkUp: bool) returns (seen: State)
      requires Inv(s)
      modifies this`s
      ensures Inv(seen) && Later(old(s), seen, end)
      ensures s == Step(seen, Go(end, linkUp)) && Inv(s)
    {
      hide Inv, Step, State.At, Refused;
      Yield(end);
      seen := s;
      StepKeepsInv(s, Go(end, linkUp));
      s := Step(s, Go(end, linkUp));
    }

    method SendAccess(end: bool, linkUp: bool) returns (seen: State)
      requires Inv(s) && s.At(end).driver.Sending?
      modifies this`s
      ensures Inv(seen) && Later(old(s), seen, end) && Inv(s) && s == Step(seen, Go(end, linkUp))
      ensures s.At(end) == SendFlow(seen.At(end), linkUp, Refused(seen.sw, end), Accepts(seen.sw, end, CMD_REG))
      ensures s.At(!end) == seen.At(!end)
    {
      hide Inv, Step, State.At, SendFlow, Refused;
      seen := Access(end, linkUp);
      GoSending(seen, end, linkUp);
      OtherEndStep(seen, Go(end, linkUp), !end);
    }

    method BeginSend(end: bool, command: Command)
      requires Inv(s) && s.At(end).driver.Idle?
      modifies this`s
      ensures Inv(s) && s.At(end) == old(s.At(end)).(driver := Sending(command, 0, SLink)) && s.At(!end) == old(s.At(!end))
    {
      hide Inv;
      Begin(end, Send(end, command));
    }

    method Begin(end: bool, a: Action)
      requires Inv(s) && s.At(end).driver.Idle? && a.end == end && !a.Go?
      modifies this`s
      ensures Inv(s) && s == Step(old(s), a)
    {
      StepKeepsInv(s, a);
      s := Step(s, a);
    }
  }

  lemma GoSending(s: State, end: bool, linkUp: bool)
    requires s.At(end).driver.Sending?
    ensures Step(s, Go(end, linkUp)).At(end)
         == SendFlow(s.At(end), linkUp, Refused(s.sw, end), Accepts(s.sw, end, CMD_REG))
  {
    hide SendFlow, SendSwitch, Refused;
  }

  /** One attempt from an up link to the status read after DATA_LOW. It is refused only if the peer has
      not received everything placed before. */
  method TryLow(link: Link, end: bool) returns (refused: bool)
    requires Inv(link.s) && link.s.At(end).driver.Sending? && link.s.At(end).driver.spc == SClear
    modifies link`s
    ensures Inv(link.s)
    ensures var e, d := old(link.s.At(end)), old(link.s.At(end).driver);
            link.s.At(end) == e.(driver := if refused then Retry(d) else d.(spc := SHigh))
    ensures old(link.s.At(!end).received == Pairs(link.s.At(end).placed)) ==> !refused
  {
    hide Inv, Step, State.At, Refused, Accepts, Pairs;
    ghost var start := link.s;
    var seen := link.SendAccess(end, true); // clear the own OUTMSGSTS bits
    seen := link.SendAccess(end, true); // DATA_LOW
    LowWrite(seen, end, true);
    if start.At(!end).received == Pairs(start.At(end).placed) {
      ReceivedIsPrefix(seen, !end);
      EverythingReceived(seen, end);
    }
    seen := link.SendAccess(end, true);
    refused := Refused(seen.sw, end);
  }

  /** The log of sending `cs` in order: `count` successes and, unless that is all, the first failure. */
  function Logged(cs: seq<Command>, count: nat, ret: Outcome): seq<(Command, Outcome)>
    requires count <= |cs|
  {
    seq(count, i requires 0 <= i < count => (cs[i], Sent)) + if count < |cs| then [(cs[count], ret)] else []
  }

  /** The rest of an attempt once DATA_LOW is accepted; nothing can refuse it any more. */
  method PlaceRest(link: Link, end: bool)
    requires Inv(link.s) && link.s.At(end).driver.Sending? && link.s.At(end).driver.spc == SHigh
    modifies link`s
    ensures Inv(link.s)
    ensures var e, c := old(link.s.At(end)), old(link.s.At(end).driver.command);
            link.s.At(end) == e.(driver := Idle, placed := e.placed + [c], log := e.log + [(c, Sent)])
  {
    hide Inv, Step, State.At, Refused, Accepts;
    var seen := link.SendAccess(end, true); // DATA_HIGH
    seen := link.SendAccess(end, true);
    NotRefused(seen, end);
    if Refused(seen.sw, end) { assert false; } // the source would try again
    seen := link.SendAccess(end, true); // CMD
    NotRefused(seen, end);
    seen := link.SendAccess(end, true);
    NotRefused(seen, end);
    if Refused(seen.sw, end) { assert false; } // the source would try again
  }

  /** `send_cmd`: returns `Sent` iff the command was placed, once; after `Again` or `NoLink` it was
      not placed at all. It reads the link once per attempt: it returns `NoLink` iff its last reading was
      down, having stopped at the first such, and `Again` only after 100 attempts; and if the peer has
      received everything so far, an up link at the first attempt is enough. */
  method SendCmd(link: Link, end: bool, cmd: Word32, data: Word64) returns (ret: Outcome)
    requires Inv(link.s) && link.s.At(end).driver.Idle?
    modifies link
    ensures Inv(link.s) && link.s.At(end).driver.Idle?
    ensures link.s.At(end).placed == old(link.s.At(end).placed) + if ret == Sent then [Command(cmd, data)] else []
    ensures link.s.At(end).log == old(link.s.At(end).log) + [(Command(cmd, data), ret)]
    ensures link.s.At(end).received == old(link.s.At(end).received)
    ensures old(link.now) < link.now <= old(link.now) + 100
    ensures forall i :: old(link.now) <= i < link.now - 1 ==> link.upAt(i)
    ensures ret == NoLink <==> !link.upAt(link.now - 1)
    ensures ret == Again ==> link.now == old(link.now) + 100
    ensures old(link.s.At(!end).received == Pairs(link.s.At(end).placed)) && link.upAt(old(link.now)) ==> ret == Sent
  {
    hide Inv, Step, State.At, Refused, Accepts, Pairs;
    ghost var start := link.s;
    link.BeginSend(end, Command(cmd, data));
    ghost var e := link.s.At(end);
    for attempt := 0 to TRIES
      invariant Inv(link.s) && link.s.At(end) == e.(driver := Sending(Command(cmd, data), attempt, SLink))
      invariant link.now == old(link.now) + attempt && forall i :: old(link.now) <= i < link.now ==> link.upAt(i)
      invariant attempt == 0 ==> link.s.At(!end) == start.At(!end)
      invariant attempt > 0 ==> start.At(!end).received != Pairs(start.At(end).placed)
    {
      var linkUp := link.ReadLink();
      var seen := link.SendAccess(end, linkUp);
      if start.At(!end).received == Pairs(start.At(end).placed) { ReceivedIsPrefix(link.s, !end); }
      if !linkUp { return NoLink; }
      var refused := TryLow(link, end);
      if refused { continue; }
      PlaceRest(link, end);
      return Sent;
    }
    var seen := link.SendAccess(end, true);
    return Again;
  }

  /** Since `before` the end has sent the first `n` commands of `all`, successfully. */
  ghost predicate SentUpTo(e: End, before: End, all: seq<Command>, n: nat)
    requires n <= |all|
  {
    e.placed == before.placed + all[..n] && e.log == before.log + Logged(all[..n], n, Sent) && e.received == before.received
  }

  /** It has then failed to send the next. */
  ghost predicate FailedAt(e: End, before: End, all: seq<Command>, n: nat, ret: Outcome)
    requires n < |all|
  {
    e.placed == before.placed + all[..n] && e.log == before.log + Logged(all, n, ret) && e.received == before.received
  }

  lemma NothingSent(e: End, all: seq<Command>)
    ensures SentUpTo(e, e, all, 0)
  {
  }

  lemma AllSent(e: End, before: End, all: seq<Command>)
    requires SentUpTo(e, before, all, |all|)
    ensures e.placed == before.placed + all && e.log == before.log + Logged(all, |all|, Sent) && e.received == before.received
  {
    assert all[..|all|] == all;
  }

  /** Send the next of several commands. */
  method SendNext(link: Link, end: bool, cmd: Word32, data: Word64, ghost before: End, ghost all: seq<Command>, ghost n: nat)
      returns (ret: Outcome)
    requires Inv(link.s) && link.s.At(end).driver.Idle?
    requires n < |all| && all[n] == Command(cmd, data) && SentUpTo(link.s.At(end), before, all, n)
    modifies link
    ensures Inv(link.s) && link.s.At(end).driver.Idle?
    ensures if ret == Sent then SentUpTo(link.s.At(end), before, all, n + 1) else FailedAt(link.s.At(end), before, all, n, ret)
  {
    hide Inv, Pairs, State.At;
    ret := SendCmd(link, end, cmd, data);
    assert all[..n + 1] == all[..n] + [all[n]];
    assert Logged(all, n, ret) == Logged(all[..n], n, Sent) + [(all[n], ret)];
    assert Logged(all[..n + 1], n + 1, Sent) == Logged(all[..n], n, Sent) + [(all[n], Sent)];
  }

  /** Once DATA_LOW is accepted the other two writes cannot be refused. */
  lemma NotRefused(s: State, end: bool)
    requires Inv(s) && s.At(end).driver.Sending?
    requires s.At(end).driver.spc.SHighSts? || s.At(end).driver.spc.SCmd? || s.At(end).driver.spc.SCmdSts?
    ensures !Refused(s.sw, end)
    ensures s.At(end).driver.spc.SCmd? ==> Accepts(s.sw, end, CMD_REG)
  {
    hide Pairs, Successes, Outbits, Low, High, Join, Box;
    assert Direction(s, end);
    RefusedIsOutbits(s.sw, end);
    if s.At(end).driver.spc.SCmd? { SendCommandKeeps(s, end, true); }
  }

  /** `recv_cmd`: on success it returns the oldest command placed by the peer and not yet received; it
      fails only if everything the peer had placed before the call has been received. */
  method RecvCmd(link: Link, end: bool) returns (ok: bool, cmd: nat, data: nat)
    requires Inv(link.s) && link.s.At(end).driver.Idle?
    modifies link`s
    ensures Inv(link.s) && link.s.At(end).driver.Idle?
    ensures link.s.At(end).received == old(link.s.At(end).received) + if ok then [(cmd, data)] else []
    ensures link.s.At(end).received <= Pairs(link.s.At(!end).placed)
    ensures link.s.At(end).placed == old(link.s.At(end).placed) && link.s.At(end).log == old(link.s.At(end).log)
    ensures old(link.s.At(!end).placed) <= link.s.At(!end).placed
    ensures !ok ==> Pairs(old(link.s.At(!end).placed)) <= link.s.At(end).received
  {
    hide Inv, ClearStatus, Pairs, Refused;
    ok, cmd, data := false, 0, 0;
    link.Begin(end, Recv(end));
    var seen := link.Access(end, true);
    ghost var first := seen;
    if |seen.sw.At(end).msgsts * INBITS| >= 3 {
      seen := link.Access(end, true);
      cmd := seen.sw.At(end).msg[CMD_REG];
      seen := link.Access(end, true);
      var low := seen.sw.At(end).msg[LOW_REG];
      seen := link.Access(end, true);
      var high := seen.sw.At(end).msg[HIGH_REG];
      seen := link.Access(end, true); // clear the INMSGSTS bits
      ok, data := true, Join(low, high);
    } else {
      NothingUnread(first, end);
      PairsPrefix(old(link.s.At(!end).placed), first.At(!end).placed);
    }
    ReceivedIsPrefix(link.s, end);
  }

  lemma PairsPrefix(cs: seq<Command>, more: seq<Command>)
    requires cs <= more
    ensures Pairs(cs) <= Pairs(more)
  {
  }

  /** A mailbox that is not full holds nothing unread. */
  lemma NothingUnread(s: State, end: bool)
    requires Inv(s) && |s.sw.At(end).msgsts * INBITS| < 3
    ensures s.At(end).received == Pairs(s.At(!end).placed)
  {
    hide Pairs, Successes, Outbits, Low, High, Join;
    assert Direction(s, !end);
    if FULL <= Inbits(s.sw.At(end)) {
      FullHasThree();
      SubsetSize(FULL, s.sw.At(end).msgsts * INBITS);
    }
  }

  lemma ReceivedIsPrefix(s: State, end: bool)
    requires Inv(s)
    ensures s.At(end).received <= Pairs(s.At(!end).placed)
  {
    hide Pairs, Successes, Inbits, Outbits, Low, High, Join;
    assert Direction(s, !end);
  }

  /** What an end receives are the commands its peer placed. */
  lemma ReceivedIsCommand(s: State, end: bool, i: nat)
    requires Inv(s) && i < |s.At(end).received|
    ensures s.At(end).received[i].0 < 0x1_0000_0000 && s.At(end).received[i].1 < 0x1_0000_0000_0000_0000
  {
    hide Inv;
    ReceivedIsPrefix(s, end);
    assert s.At(end).received[i] == Pairs(s.At(!end).placed)[i];
  }
}
