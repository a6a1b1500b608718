/** The two SISCI drivers on the real message registers: every register access of every send and
    receive is its own step. Seen through the placed and received commands, each such run is a run of
    `SisciProtocol`, so the theorems about segments hold access by access. */
module SisciOverMailbox {
  import opened Basics
  import opened MessageRegisters
  import opened Sisci
  import M = Mailbox
  import P = SisciProtocol
  import L = SisciLifetime
  import T = SisciTheorems

  /** A driver's own state. Where it stands inside `send_cmd` or `recv_cmd` is in the mailbox state. */
  datatype Pilot = Pilot(l: Local, pc: P.Pc, mapped: nat)

  datatype System = System(m: M.State, near: Pilot, far: Pilot) {
    function At(end: bool): Pilot { if end then far else near }
    function Set(end: bool, p: Pilot): System { if end then this.(far := p) else this.(near := p) }
  }

  /** `Access` is the next register access of a driver inside `send_cmd` or `recv_cmd`; `Own` is a
      locked section that neither sends nor receives. */
  datatype Action = Access(end: bool, linkUp: bool, calls: MwCalls) | Own(event: P.Event)

  /** The driver's state with its streams, as the protocol sees it. */
  function SideOf(p: Pilot, placed: seq<M.Command>, taken: nat): P.Side { P.Side(p.l, p.pc, placed, taken, p.mapped) }

  function PilotOf(e: P.Side): Pilot { Pilot(e.l, e.pc, e.mapped) }

  predicate OwnEvent(a: P.Event) { !(a.Receive? || a.ReceiveNone? || a.SendOk? || a.SendFail?) }

  function ToCommand(pair: (nat, nat)): M.Command {
    if pair.0 < 0x1_0000_0000 && pair.1 < 0x1_0000_0000_0000_0000 then M.Command(pair.0, pair.1) else M.Command(0, 0)
  }

  /** What a driver does when `send_cmd` or `recv_cmd` returns. */
  function Return(p: Pilot, before: M.End, after: M.End, calls: MwCalls): Pilot {
    var e := SideOf(p, [], 0);
    if before.driver.Sending? && after.driver.Idle? && P.Outgoing(e).Some? then
      if after.log != [] && after.log[|after.log| - 1].1 == M.Sent then PilotOf(P.AfterSend(e)) else p.(pc := P.Unlocked)
    else if before.driver.Receiving? && after.driver.Idle? then
      if |after.received| == |before.received| + 1 then
        PilotOf(P.Take(SideOf(p, [], |before.received|), ToCommand(after.received[|before.received|]), calls))
      else PilotOf(P.TryPublish(e))
    else p
  }

  /** The mailbox action a driver performs next. */
  function NextCall(p: Pilot, d: M.Driver, end: bool, linkUp: bool): (a: M.Action)
    ensures a.end == end
  {
    var e := SideOf(p, [], 0);
    if !d.Idle? then M.Go(end, linkUp)
    else if P.Outgoing(e).Some? then M.Send(end, P.Outgoing(e).value)
    else M.Recv(end)
  }

  predicate InCall(p: Pilot) { P.Outgoing(SideOf(p, [], 0)).Some? || p.pc == P.Draining }

  function Step(s: System, a: Action): System {
    match a
    case Access(end, linkUp, calls) =>
      var p, d := s.At(end), s.m.At(end).driver;
      if !InCall(p) then s
      else
        var m' := M.Step(s.m, NextCall(p, d, end, linkUp));
        s.(m := m').Set(end, Return(p, s.m.At(end), m'.At(end), calls))
    case Own(event) =>
      var p := s.At(event.end);
      if InCall(p) || !OwnEvent(event) then s
      else
        var e := SideOf(p, s.m.At(event.end).placed, |s.m.At(event.end).received|);
        var other := SideOf(s.At(!event.end), s.m.At(!event.end).placed, |s.m.At(!event.end).received|);
        var sys := if event.end then P.System(other, e) else P.System(e, other);
        s.Set(event.end, PilotOf(P.Step(sys, event).At(event.end)))
  }

  function Run(s: System, schedule: seq<Action>): System
    decreases |schedule|
  {
    if schedule == [] then s else Run(Step(s, schedule[0]), schedule[1..])
  }

  function Start(sw: Switch): System { System(M.Start(sw), Pilot(FRESH, P.Unlocked, 0), Pilot(FRESH, P.Unlocked, 0)) }

  // ------------------------------------------------------------------------------ the abstraction

  /** A driver that has placed its command but not yet read the final status counts as having sent it. */
  function AbsSide(s: System, end: bool): P.Side {
    var e := s.m.At(end);
    var base := SideOf(s.At(end), e.placed, |e.received|);
    if M.Placed(e.driver) && e.placed != [] && P.Outgoing(base).Some?
    then P.AfterSend(base.(stream := e.placed[..|e.placed| - 1])) else base
  }

  function Abs(s: System): P.System { P.System(AbsSide(s, false), AbsSide(s, true)) }

  /** Driver and mailbox agree on what is being done. */
  ghost predicate Agrees(p: Pilot, e: M.End) {
    && (e.driver.Sending? ==> P.Outgoing(SideOf(p, [], 0)) == Some(e.driver.command))
    && (e.driver.Receiving? ==> p.pc == P.Draining)
  }

  ghost predicate Inv(s: System) {
    && M.Inv(s.m)
    && Agrees(s.near, s.m.near) && Agrees(s.far, s.m.far)
  }

  /** The protocol event a step amounts to, if any. */
  function EventOf(s: System, a: Action): Option<P.Event> {
    match a
    case Own(event) => if InCall(s.At(event.end)) || !OwnEvent(event) then None else Some(event)
    case Access(end, linkUp, calls) =>
      var e := s.m.At(end);
      if !InCall(s.At(end)) || e.driver.Idle? then None
      else
        var e' := M.Step(s.m, M.Go(end, linkUp)).At(end);
        if |e'.placed| > |e.placed| then Some(P.SendOk(end))
        else if e.driver.Sending? && e'.driver.Idle? && !M.Placed(e.driver) then Some(P.SendFail(end))
        else if e.driver.Receiving? && e'.driver.Idle? then
          if |e'.received| > |e.received| then Some(P.Receive(end, calls)) else Some(P.ReceiveNone(end))
        else None
  }

  function After(s: P.System, e: Option<P.Event>): P.System { if e.None? then s else P.Step(s, e.value) }

  // ------------------------------------------------------------------------------------ refinement

  /** The facts of the mailbox theorem that the refinement needs, for the direction out of `end`. */
  lemma ChannelFacts(m: M.State, end: bool)
    requires M.Inv(m)
    ensures var e, r, inbits := m.At(end), m.At(!end), M.Inbits(m.sw.At(!end));
            && M.Pairs(e.placed) == r.received + M.Box(inbits, m.sw.At(!end).msg)
            && (M.Placed(e.driver) ==> e.placed != [] && e.placed[|e.placed| - 1] == e.driver.command)
            && |r.received| <= |e.placed| <= |r.received| + 1
            && (|e.placed| == |r.received| + 1 <==> M.FULL <= inbits)
  {
    hide M.Pairs, M.Inbits, M.Outbits, M.Successes, M.Low, M.High;
    assert M.Direction(m, end);
    assert |M.Pairs(m.At(end).placed)| == |m.At(end).placed| by { PairsLength(m.At(end).placed); }
  }

  lemma PairsLength(cs: seq<M.Command>)
    ensures |M.Pairs(cs)| == |cs|
  {
  }

  lemma PairsAt(cs: seq<M.Command>, i: nat)
    requires i < |cs|
    ensures i < |M.Pairs(cs)| && ToCommand(M.Pairs(cs)[i]) == cs[i]
  {
  }

  /** The abstraction's streams are the mailbox's. */
  lemma AbsStreams(s: System, end: bool)
    requires Inv(s)
    ensures AbsSide(s, end).stream == s.m.At(end).placed
    ensures AbsSide(s, end).taken == |s.m.At(end).received|
    ensures M.Placed(s.m.At(end).driver) ==> P.Outgoing(SideOf(s.At(end), [], 0)).Some?
  {
    hide M.Inv, M.Pairs, M.Box, M.Inbits, M.FULL, Publication;
    ChannelFacts(s.m, end);
    assert Agrees(s.At(end), s.m.At(end));
    var e := s.m.At(end);
    if M.Placed(e.driver) { assert e.placed == e.placed[..|e.placed| - 1] + [e.driver.command]; }
  }

  lemma OtherSideUnchanged(s: System, a: Action, end: bool)
    requires a.Access? && a.end == !end
    ensures AbsSide(Step(s, a), end) == AbsSide(s, end)
    ensures Step(s, a).At(end) == s.At(end) && Step(s, a).m.At(end) == s.m.At(end)
  {
    hide M.Step, Return, NextCall;
    if InCall(s.At(!end)) {
      M.OtherEndStep(s.m, NextCall(s.At(!end), s.m.At(!end).driver, !end, a.linkUp), end);
    }
    hide P.Outgoing;
  }

  /** Steps inside a call that are not its linearisation point leave the abstraction alone. */
  lemma BeginIsSilent(s: System, a: Action)
    requires Inv(s) && a.Access? && InCall(s.At(a.end)) && s.m.At(a.end).driver.Idle?
    ensures AbsSide(Step(s, a), a.end) == AbsSide(s, a.end) && EventOf(s, a).None?
    ensures Agrees(Step(s, a).At(a.end), Step(s, a).m.At(a.end))
  {
    hide M.Inv, Publication;
  }

  /** The mailbox end after a send access. */
  lemma SendAccess(s: System, a: Action)
    requires Inv(s) && a.Access? && InCall(s.At(a.end)) && s.m.At(a.end).driver.Sending?
    ensures var e := s.m.At(a.end);
            Step(s, a).m.At(a.end) == M.SendFlow(e, a.linkUp, M.Refused(s.m.sw, a.end), Accepts(s.m.sw, a.end, M.CMD_REG))
    ensures Step(s, a).At(a.end) == Return(s.At(a.end), s.m.At(a.end), Step(s, a).m.At(a.end), a.calls)
    ensures Step(s, a).m == M.Step(s.m, M.Go(a.end, a.linkUp))
  {
    hide M.Inv, M.Step, M.SendFlow, M.Refused, Return;
    M.GoSending(s.m, a.end, a.linkUp);
  }

  lemma SendIsSilent(s: System, a: Action)
    requires Inv(s) && a.Access? && InCall(s.At(a.end)) && s.m.At(a.end).driver.Sending?
    requires !s.m.At(a.end).driver.spc.SCmd? && !s.m.At(a.end).driver.spc.SCmdSts?
    requires Step(s, a).m.At(a.end).driver.Sending?
    ensures AbsSide(Step(s, a), a.end) == AbsSide(s, a.end) && EventOf(s, a).None?
    ensures Agrees(Step(s, a).At(a.end), Step(s, a).m.At(a.end))
  {
    assert Agrees(s.At(a.end), s.m.At(a.end));
    SendAccess(s, a);
    hide M.Inv, M.Step, Publication, M.Refused, Step, P.AfterSend;
  }

  lemma FailedSendRefines(s: System, a: Action)
    requires Inv(s) && a.Access? && InCall(s.At(a.end)) && s.m.At(a.end).driver.Sending?
    requires s.m.At(a.end).driver.spc.SLink? && !Step(s, a).m.At(a.end).driver.Sending?
    ensures EventOf(s, a) == Some(P.SendFail(a.end))
    ensures AbsSide(Step(s, a), a.end) == AbsSide(s, a.end).(pc := P.Unlocked)
    ensures P.Outgoing(AbsSide(s, a.end)).Some?
    ensures Agrees(Step(s, a).At(a.end), Step(s, a).m.At(a.end))
  {
    assert Agrees(s.At(a.end), s.m.At(a.end));
    SendAccess(s, a);
    hide M.Inv, M.Step, Publication, M.Refused, Step, P.AfterSend;
  }

  lemma PlacingRefines(s: System, a: Action)
    requires Inv(s) && a.Access? && InCall(s.At(a.end)) && s.m.At(a.end).driver.Sending? && s.m.At(a.end).driver.spc.SCmd?
    ensures EventOf(s, a) == Some(P.SendOk(a.end))
    ensures P.Outgoing(AbsSide(s, a.end)).Some?
    ensures AbsSide(Step(s, a), a.end) == P.AfterSend(AbsSide(s, a.end))
    ensures AbsSide(s, !a.end).taken == |AbsSide(s, a.end).stream|
    ensures Agrees(Step(s, a).At(a.end), Step(s, a).m.At(a.end))
  {
    var e := s.m.At(a.end);
    assert Agrees(s.At(a.end), e);
    SendAccess(s, a);
    M.NotRefused(s.m, a.end);
    PlacingIntoEmpty(s.m, a.end);
    AbsStreams(s, a.end);
    AbsStreams(s, !a.end);
    hide M.Inv, M.Step, Publication, M.Refused, Step, Accepts;
    assert (e.placed + [e.driver.command])[..|e.placed|] == e.placed;
  }

  lemma PlacingIntoEmpty(m: M.State, end: bool)
    requires M.Inv(m) && m.At(end).driver.Sending? && m.At(end).driver.spc.SCmd?
    ensures |m.At(end).placed| == |m.At(!end).received|
  {
    ChannelFacts(m, end);
    hide M.Pairs, M.Box, M.Inbits, M.Outbits, M.Successes;
    assert M.Direction(m, end);
    assert 16 in M.FULL;
  }

  lemma AfterSendPilot(p: Pilot, sent: seq<M.Command>, taken: nat)
    requires P.Outgoing(SideOf(p, [], 0)).Some?
    ensures var c := P.Outgoing(SideOf(p, [], 0)).value;
            && P.Outgoing(SideOf(p, sent, taken)) == Some(c)
            && P.AfterSend(SideOf(p, sent, taken)) == SideOf(PilotOf(P.AfterSend(SideOf(p, [], 0))), sent + [c], taken)
  {
    hide Publication;
  }

  lemma FinalStatusReturns(s: System, a: Action)
    requires Inv(s) && a.Access? && InCall(s.At(a.end)) && s.m.At(a.end).driver.Sending? && s.m.At(a.end).driver.spc.SCmdSts?
    ensures var e := s.m.At(a.end);
            && Step(s, a).m.At(a.end) == M.Finish(e, M.Sent)
            && Step(s, a).At(a.end) == PilotOf(P.AfterSend(SideOf(s.At(a.end), [], 0)))
            && EventOf(s, a).None?
    ensures P.Outgoing(SideOf(s.At(a.end), [], 0)) == Some(s.m.At(a.end).driver.command)
  {
    assert Agrees(s.At(a.end), s.m.At(a.end));
    SendAccess(s, a);
    M.NotRefused(s.m, a.end);
    hide M.Inv, M.Step, M.Refused, Step, Accepts, P.AfterSend, P.Outgoing;
  }

  lemma FinalStatusIsSilent(s: System, a: Action)
    requires Inv(s) && a.Access? && InCall(s.At(a.end)) && s.m.At(a.end).driver.Sending? && s.m.At(a.end).driver.spc.SCmdSts?
    ensures AbsSide(Step(s, a), a.end) == AbsSide(s, a.end) && EventOf(s, a).None?
    ensures Agrees(Step(s, a).At(a.end), Step(s, a).m.At(a.end))
  {
    var e, p := s.m.At(a.end), s.At(a.end);
    FinalStatusReturns(s, a);
    ChannelFacts(s.m, a.end);
    hide M.Inv, M.Step, Step, M.Pairs, M.Box, M.Inbits, P.AfterSend, P.Outgoing, EventOf;
    var init := e.placed[..|e.placed| - 1];
    assert e.placed == init + [e.driver.command];
    AfterSendPilot(p, init, |e.received|);
    AfterSendPilot(p, e.placed, |e.received|);
  }

  // receiving

  lemma RecvAccess(s: System, a: Action)
    requires Inv(s) && a.Access? && s.m.At(a.end).driver.Receiving?
    ensures InCall(s.At(a.end)) && s.At(a.end).pc == P.Draining
    ensures Step(s, a).m == M.StepRecv(s.m, a.end) == M.Step(s.m, M.Go(a.end, a.linkUp))
    ensures Step(s, a).At(a.end) == Return(s.At(a.end), s.m.At(a.end), Step(s, a).m.At(a.end), a.calls)
  {
    assert Agrees(s.At(a.end), s.m.At(a.end));
    hide M.Inv, M.StepRecv, Return;
  }

  lemma ReadIsSilent(s: System, a: Action)
    requires Inv(s) && a.Access? && s.m.At(a.end).driver.Receiving?
    requires Step(s, a).m.At(a.end).driver.Receiving?
    ensures AbsSide(Step(s, a), a.end) == AbsSide(s, a.end) && EventOf(s, a).None?
    ensures Agrees(Step(s, a).At(a.end), Step(s, a).m.At(a.end))
  {
    RecvAccess(s, a);
    hide M.Inv, M.Step, Step, ClearStatus, P.AfterSend, P.Outgoing;
  }

  lemma NothingThereRefines(s: System, a: Action)
    requires Inv(s) && a.Access? && s.m.At(a.end).driver.Receiving? && s.m.At(a.end).driver.rpc.QSts?
    requires Step(s, a).m.At(a.end).driver.Idle?
    ensures EventOf(s, a) == Some(P.ReceiveNone(a.end))
    ensures AbsSide(s, a.end).pc == P.Draining && AbsSide(Step(s, a), a.end) == P.TryPublish(AbsSide(s, a.end))
    ensures AbsSide(s, a.end).taken >= |AbsSide(s, !a.end).stream|
    ensures Agrees(Step(s, a).At(a.end), Step(s, a).m.At(a.end))
  {
    RecvAccess(s, a);
    AbsStreams(s, a.end);
    AbsStreams(s, !a.end);
    ChannelFacts(s.m, !a.end);
    NotFull(s.m.sw.At(a.end));
    hide M.Inv, M.Step, Step, M.Pairs, M.Box, P.AfterSend, P.Outgoing, M.FULL;
  }

  lemma NotFull(r: Regs)
    ensures |r.msgsts * M.INBITS| < 3 ==> !(M.FULL <= M.Inbits(r))
  {
    M.FullHasThree();
    if M.FULL <= M.Inbits(r) { SubsetSize(M.FULL, r.msgsts * M.INBITS); }
  }

  lemma TakingRefines(s: System, a: Action)
    requires Inv(s) && a.Access? && s.m.At(a.end).driver.Receiving? && s.m.At(a.end).driver.rpc.QClear?
    ensures EventOf(s, a) == Some(P.Receive(a.end, a.calls))
    ensures var e, p := AbsSide(s, a.end), AbsSide(s, !a.end);
            e.pc == P.Draining && e.taken < |p.stream| && AbsSide(Step(s, a), a.end) == P.Take(e, p.stream[e.taken], a.calls)
    ensures Agrees(Step(s, a).At(a.end), Step(s, a).m.At(a.end))
  {
    RecvAccess(s, a);
    AbsStreams(s, a.end);
    AbsStreams(s, !a.end);
    WholeCommandRead(s.m, a.end);
    hide M.Inv, M.Step, Step, P.AfterSend, P.Outgoing, HandleCommand, ClearStatus, M.Join, ToCommand;
  }

  lemma WholeCommandRead(m: M.State, end: bool)
    requires M.Inv(m) && m.At(end).driver.Receiving? && m.At(end).driver.rpc.QClear?
    ensures var d, placed, t := m.At(end).driver, m.At(!end).placed, |m.At(end).received|;
            t < |placed| && ToCommand((d.cmd, M.Join(d.low, d.high))) == placed[t]
  {
    ChannelFacts(m, !end);
    var d, placed, t := m.At(end).driver, m.At(!end).placed, |m.At(end).received|;
    hide M.Pairs, M.Inbits, M.Outbits, M.Successes, M.Join, ToCommand;
    assert M.Direction(m, !end);
    assert M.Pairs(placed)[t] == (d.cmd, M.Join(d.low, d.high));
    PairsAt(placed, t);
  }

  lemma IdleOutsideCalls(p: Pilot, e: M.End)
    requires Agrees(p, e) && !InCall(p)
    ensures e.driver.Idle?
  {
    hide P.Outgoing;
  }

  lemma OwnRefines(s: System, event: P.Event)
    requires Inv(s) && !InCall(s.At(event.end)) && OwnEvent(event)
    ensures AbsSide(Step(s, Own(event)), event.end) == P.Step(Abs(s), event).At(event.end)
    ensures P.Step(Abs(s), event).At(!event.end) == AbsSide(s, !event.end) == AbsSide(Step(s, Own(event)), !event.end)
    ensures Step(s, Own(event)).m == s.m && Step(s, Own(event)).At(!event.end) == s.At(!event.end)
    ensures s.m.At(event.end).driver.Idle?
  {
    var end := event.end;
    var e, other := s.m.At(end), s.m.At(!end);
    assert Agrees(s.At(end), e);
    IdleOutsideCalls(s.At(end), e);
    hide M.Inv, Agrees, InCall;
    var mine, theirs := SideOf(s.At(end), e.placed, |e.received|), SideOf(s.At(!end), other.placed, |other.received|);
    assert AbsSide(s, end) == mine;
    OwnEventIsLocal(mine, theirs, AbsSide(s, !end), event);
    hide P.Step, P.Outgoing;
  }

  /** A locked section that neither sends nor receives does not look at the other end. */
  lemma OwnEventIsLocal(e: P.Side, p: P.Side, q: P.Side, event: P.Event)
    requires OwnEvent(event)
    ensures var end := event.end;
            var e' := P.Step(if end then P.System(p, e) else P.System(e, p), event).At(end);
            && e' == P.Step(if end then P.System(q, e) else P.System(e, q), event).At(end)
            && P.Step(if end then P.System(q, e) else P.System(e, q), event).At(!end) == q
            && e'.stream == e.stream && e'.taken == e.taken
  {
    hide AllocLocal, FreeLocal, SetLink, MarkPeerUnready, WantsPublish;
  }

  /** A send can end at its link check, or after its final status read. */
  lemma SendEnds(s: System, a: Action)
    requires Inv(s) && a.Access? && InCall(s.At(a.end)) && s.m.At(a.end).driver.Sending?
    ensures Step(s, a).m.At(a.end).driver.Sending? || s.m.At(a.end).driver.spc.SLink? || s.m.At(a.end).driver.spc.SCmdSts?
  {
    SendAccess(s, a);
    hide Step, Inv;
  }

  lemma RecvEnds(s: System, a: Action)
    requires Inv(s) && a.Access? && s.m.At(a.end).driver.Receiving?
    ensures var d := Step(s, a).m.At(a.end).driver;
            d.Receiving? || (d.Idle? && (s.m.At(a.end).driver.rpc.QSts? || s.m.At(a.end).driver.rpc.QClear?))
  {
    RecvAccess(s, a);
    hide Step, Inv;
  }

  /** The end's own side of the refinement, for every register access. */
  lemma AccessRefinesSide(s: System, a: Action)
    requires Inv(s) && a.Access? && InCall(s.At(a.end))
    ensures Agrees(Step(s, a).At(a.end), Step(s, a).m.At(a.end))
    ensures After(Abs(s), EventOf(s, a)).At(a.end) == AbsSide(Step(s, a), a.end)
    ensures After(Abs(s), EventOf(s, a)).At(!a.end) == AbsSide(s, !a.end)
  {
    hide Inv, Agrees, Step, EventOf, AbsSide, InCall, P.Outgoing, P.Take, P.TryPublish, P.AfterSend, AllocLocal, SetLink,
         MarkPeerUnready, P.TryUnpublish;
    var e := s.m.At(a.end);
    if e.driver.Idle? {
      BeginIsSilent(s, a);
    } else if e.driver.Sending? {
      SendEnds(s, a);
      if e.driver.spc.SCmd? {
        PlacingRefines(s, a);
      } else if e.driver.spc.SCmdSts? {
        FinalStatusIsSilent(s, a);
      } else if Step(s, a).m.At(a.end).driver.Sending? {
        SendIsSilent(s, a);
      } else {
        FailedSendRefines(s, a);
      }
    } else {
      RecvEnds(s, a);
      if Step(s, a).m.At(a.end).driver.Receiving? {
        ReadIsSilent(s, a);
      } else if e.driver.rpc.QSts? {
        NothingThereRefines(s, a);
      } else {
        TakingRefines(s, a);
      }
    }
  }

  /** Every step of the register-level system is one event of the protocol, or none. */
  lemma StepRefines(s: System, a: Action)
    requires Inv(s)
    ensures Abs(Step(s, a)) == After(Abs(s), EventOf(s, a)) && Inv(Step(s, a))
  {
    hide AbsSide, Agrees, M.Inv, P.Step, InCall;
    match a {
      case Access(end, linkUp, calls) =>
        if InCall(s.At(end)) {
          M.StepKeepsInv(s.m, NextCall(s.At(end), s.m.At(end).driver, end, linkUp));
          AccessRefinesSide(s, a);
          OtherSideUnchanged(s, a, !end);
          assert Agrees(s.At(!end), s.m.At(!end));
          hide M.Step, Return, NextCall, EventOf;
        }
      case Own(event) =>
        if !InCall(s.At(event.end)) && OwnEvent(event) {
          OwnRefines(s, event);
          OwnKeepsAgreement(s, event);
          assert Agrees(s.At(!event.end), s.m.At(!event.end));
        }
        hide OwnEvent;
    }
  }

  lemma OwnKeepsAgreement(s: System, event: P.Event)
    requires s.m.At(event.end).driver.Idle?
    ensures Agrees(Step(s, Own(event)).At(event.end), s.m.At(event.end))
  {
    hide P.Step, InCall, OwnEvent, P.Outgoing;
  }

  /** The protocol events of a run. */
  function Events(s: System, schedule: seq<Action>): seq<P.Event>
    decreases |schedule|
  {
    if schedule == [] then []
    else
      var rest := Events(Step(s, schedule[0]), schedule[1..]);
      if EventOf(s, schedule[0]).None? then rest else [EventOf(s, schedule[0]).value] + rest
  }

  lemma {:induction false} RunRefines(s: System, schedule: seq<Action>)
    requires Inv(s)
    ensures Abs(Run(s, schedule)) == P.Run(Abs(s), Events(s, schedule)) && Inv(Run(s, schedule))
    decreases |schedule|
  {
    hide Inv, Step, Abs, EventOf, P.Step;
    if schedule != [] {
      StepRefines(s, schedule[0]);
      RunRefines(Step(s, schedule[0]), schedule[1..]);
    }
  }

  // -------------------------------------------------------------------------------------- theorems

  lemma StartRefines(sw: Switch)
    requires M.Enabled(sw)
    ensures Inv(Start(sw)) && Abs(Start(sw)) == P.START
  {
    assert M.Inv(M.Start(sw)) by { M.ReachableHoldsInv(M.Start(sw)) by { assert M.Run(M.Start(sw), []) == M.Start(sw); } }
    hide M.Inv;
  }

  /** Refinement: every interleaving of register accesses and locked sections is a run of the segment
      protocol over its exact one-slot channels. */
  lemma RegistersRefineProtocol(sw: Switch, schedule: seq<Action>)
    requires M.Enabled(sw)
    ensures Abs(Run(Start(sw), schedule)) == P.Run(P.START, Events(Start(sw), schedule))
  {
    hide Inv, Run, Abs, Events, P.Run, Start;
    StartRefines(sw);
    RunRefines(Start(sw), schedule);
  }

  /** Never mixed, register by register: whatever the interleaving, an end whose peer is ready has
      mapped one whole publication out of the commands its peer placed. */
  lemma MixingIsImpossibleAtRegisters(sw: Switch, schedule: seq<Action>, end: bool)
    requires M.Enabled(sw)
    ensures var s := Run(Start(sw), schedule);
            var l, placed := s.At(end).l, s.m.At(!end).placed;
            l.peerReady ==>
              && l.window == Some((l.remoteXlat, l.remoteSize))
              && exists at: nat :: IsWhole(placed, at, l)
  {
    var s := Run(Start(sw), schedule);
    hide Run, Start, P.Run;
    StartRefines(sw);
    RunRefines(Start(sw), schedule);
    T.PublicationIsNeverMixed(Events(Start(sw), schedule), end);
    AbsStreams(s, !end);
    AbsKeepsRemote(s, end);
    hide Abs, Inv;
    if s.At(end).l.peerReady {
      var e := P.Run(P.START, Events(Start(sw), schedule)).At(end);
      var stream := P.Run(P.START, Events(Start(sw), schedule)).At(!end).stream;
      var at: nat :| P.IsPublication(stream, at, e.l.remoteId, e.l.remoteSize, e.l.remoteXlat);
      assert IsWhole(s.m.At(!end).placed, at, s.At(end).l);
    }
  }

  ghost predicate IsWhole(placed: seq<M.Command>, at: nat, l: Local) {
    P.IsPublication(placed, at, l.remoteId, l.remoteSize, l.remoteXlat)
  }

  /** Sending does not change what a driver knows of its peer. */
  lemma AbsKeepsRemote(s: System, end: bool)
    ensures AbsSide(s, end) == Abs(s).At(end)
    ensures var l, l' := s.At(end).l, AbsSide(s, end).l;
            && l'.peerReady == l.peerReady && l'.window == l.window && l'.remoteId == l.remoteId
            && l'.remoteSize == l.remoteSize && l'.remoteXlat == l.remoteXlat
            && l'.localBuf == l.localBuf && l'.localDma == l.localDma && l'.localSize == l.localSize && l'.localId == l.localId
    ensures AbsSide(s, false) == Abs(s).At(false) && AbsSide(s, true) == Abs(s).At(true)
  {
    hide Publication;
  }

  /** A locked section frees a segment while the last command its driver placed is an AVAIL. */
  predicate FreesAdvertised(s: System, a: Action) {
    && a.Own? && !InCall(s.At(a.event.end))
    && L.Frees(SideOf(s.At(a.event.end), [], 0), a.event) && L.Advertises(s.m.At(a.event.end).placed)
  }

  ghost predicate KeepsAdvertised(s: System, schedule: seq<Action>, owner: bool)
    decreases |schedule|
  {
    schedule != [] ==>
      && !(FreesAdvertised(s, schedule[0]) && schedule[0].event.end == owner)
      && KeepsAdvertised(Step(s, schedule[0]), schedule[1..], owner)
  }

  lemma FreeingIsOwn(s: System, a: Action)
    requires Inv(s) && EventOf(s, a).Some? && L.FreesAdvertised(Abs(s), EventOf(s, a).value)
    ensures FreesAdvertised(s, a) && a.event == EventOf(s, a).value
  {
    hide M.Inv, M.Step, P.Outgoing, P.AfterSend, L.Advertises;
    var event := EventOf(s, a).value;
    assert event.Free? || event.Create?;
    OwnRefines(s, event);
    AbsStreams(s, event.end);
    AbsOfIdle(s, event.end);
  }

  lemma AbsOfIdle(s: System, end: bool)
    requires s.m.At(end).driver.Idle?
    ensures Abs(s).At(end) == SideOf(s.At(end), s.m.At(end).placed, |s.m.At(end).received|)
  {
    hide P.Outgoing, P.AfterSend;
  }

  lemma {:induction false} KeepingRefines(s: System, schedule: seq<Action>, owner: bool)
    requires Inv(s) && KeepsAdvertised(s, schedule, owner)
    ensures L.KeepsAdvertised(Abs(s), Events(s, schedule), owner)
    decreases |schedule|
  {
    hide Inv, Step, Abs, EventOf, P.Step, FreesAdvertised, L.FreesAdvertised;
    if schedule != [] {
      StepRefines(s, schedule[0]);
      KeepingRefines(Step(s, schedule[0]), schedule[1..], owner);
      var e := EventOf(s, schedule[0]);
      if e.Some? && L.FreesAdvertised(Abs(s), e.value) { FreeingIsOwn(s, schedule[0]); }
      if e.Some? { assert Events(s, schedule)[1..] == Events(Step(s, schedule[0]), schedule[1..]); }
    }
  }

  /** No dangling window, register by register, with sends failing and links dropping: unless its owner
      frees a segment while the last command it placed is an AVAIL, whatever an end has mapped is still
      allocated at its peer, or the command that unmaps it has been placed and not yet received. */
  lemma MappedMemoryIsAliveAtRegisters(sw: Switch, schedule: seq<Action>, owner: bool)
    requires M.Enabled(sw) && KeepsAdvertised(Start(sw), schedule, owner)
    ensures var s := Run(Start(sw), schedule);
            var l, placed, taken := s.At(!owner).l, s.m.At(owner).placed, |s.m.At(!owner).received|;
            l.peerReady ==>
              || L.MapsLiveSegment(s.At(owner).l, l)
              || (taken < |placed| && (placed[taken] == M.Command(UNAVAIL, l.remoteId) || placed[taken].cmd == SEGID))
  {
    var s := Run(Start(sw), schedule);
    hide Run, Start, P.Run, Events, KeepsAdvertised, L.KeepsAdvertised;
    StartRefines(sw);
    RunRefines(Start(sw), schedule);
    KeepingRefines(Start(sw), schedule, owner);
    L.MappedMemoryIsAlive(Events(Start(sw), schedule), owner);
    AbsStreams(s, owner);
    AbsStreams(s, !owner);
    AbsKeepsRemote(s, owner);
    AbsKeepsRemote(s, !owner);
    hide Abs, Inv, AbsSide;
  }
}
