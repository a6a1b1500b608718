/** The driver's work function and segment ioctls as programs on its fields and on the message registers,
    with the other machine running between any two register accesses. Each is proved to be a sequence of
    this end's steps of `SisciProtocol`: the same commands placed, the same commands taken, the same fields. */
module SisciDriver {
  import opened Basics
  import opened Mailbox
  import opened Sisci
  import P = SisciProtocol

  /** This end as the protocol sees it, its mutex free. */
  ghost function SideIn(device: Device, link: Link, end: bool, mapped: nat): P.Side
    reads device, link
  {
    P.Side(device.View(), P.Unlocked, link.s.At(end).placed, |link.s.At(end).received|, mapped)
  }

  // ------------------------------------------------------------------- sequences of protocol steps

  /** Receive steps, one per command. */
  function Takes(e: P.Side, cs: seq<Command>, calls: seq<MwCalls>): P.Side
    requires |cs| <= |calls|
    decreases |cs|
  {
    if cs == [] then e else P.Take(Takes(e, cs[..|cs| - 1], calls), cs[|cs| - 1], calls[|cs| - 1])
  }

  /** Successful sends. */
  function Sends(e: P.Side, count: nat): P.Side
    decreases count
  {
    if count == 0 || P.Outgoing(e).None? then e else Sends(P.AfterSend(e), count - 1)
  }

  /** A failed send, if one is still due, and the free after a withdrawal. */
  function Leave(e: P.Side): P.Side {
    if P.Outgoing(e).Some? then e.(pc := P.Unlocked)
    else if e.pc == P.Freeing then e.(l := FreeLocal(e.l), pc := P.Unlocked)
    else e
  }

  /** The link step for an up link, and the receives. */
  function Drained(e: P.Side, cs: seq<Command>, calls: seq<MwCalls>): P.Side
    requires |cs| <= |calls|
  {
    Takes(e.(l := SetLink(e.l, true), pc := P.Draining), cs, calls)
  }

  /** The work function: the link step, then for an up link the receives and the publication. */
  function Serviced(e: P.Side, up: bool, cs: seq<Command>, calls: seq<MwCalls>, count: nat): P.Side
    requires |cs| <= |calls|
  {
    if !up then e.(l := MarkPeerUnready(SetLink(e.l, false)))
    else Leave(Sends(P.TryPublish(Drained(e, cs, calls)), count))
  }

  function MadeAvailable(e: P.Side, count: nat): P.Side {
    Leave(Sends(P.TryPublish(e.(l := e.l.(localAvailable := true, localPublished := false))), count))
  }

  function Withdrawn(e: P.Side, id: Word32, thenFree: bool, sent: bool): P.Side {
    Leave(Sends(P.TryUnpublish(e, id, thenFree), if sent then 1 else 0))
  }

  /** These are this end's part of the protocol's steps, wherever the channel lets it take them. */
  lemma EachIsAStep(s: P.System, end: bool, up: bool, id: Word32, calls: MwCalls)
    ensures var e := s.At(end);
            && (e.pc == P.Unlocked ==>
                  && P.Step(s, P.Service(end, up)).At(end) ==
                     (if up then e.(l := SetLink(e.l, true), pc := P.Draining) else Serviced(e, false, [], [], 0))
                  && (OwnsSegment(e.l, id) ==>
                        && P.Step(s, P.SetAvailable(end, id)).At(end) == P.TryPublish(e.(l := e.l.(localAvailable := true, localPublished := false)))
                        && P.Step(s, P.SetUnavailable(end, id)).At(end) == P.TryUnpublish(e, id, false)
                        && P.Step(s, P.Remove(end, id)).At(end) == P.TryUnpublish(e, id, true)))
            && (e.pc == P.Draining && s.InFlight(!end) ==> P.Step(s, P.Receive(end, calls)).At(end) == P.Take(e, s.At(!end).stream[e.taken], calls))
            && (e.pc == P.Draining && !s.InFlight(!end) ==> P.Step(s, P.ReceiveNone(end)).At(end) == P.TryPublish(e))
            && (P.Outgoing(e).Some? && !s.InFlight(end) ==> P.Step(s, P.SendOk(end)).At(end) == Sends(e, 1))
            && (P.Outgoing(e).Some? ==> P.Step(s, P.SendFail(end)).At(end) == Leave(e))
            && (e.pc == P.Freeing ==> P.Step(s, P.Free(end)).At(end) == Leave(e))
  {
    hide P.Take, P.TryPublish, P.TryUnpublish, P.AfterSend, SetLink, MarkPeerUnready, FreeLocal;
    var e := s.At(end);
    if P.Outgoing(e).Some? { assert Sends(P.AfterSend(e), 0) == P.AfterSend(e); }
  }

  lemma {:induction false} TakesIs(e: P.Side, cs: seq<Command>, calls: seq<MwCalls>)
    requires |cs| <= |calls|
    ensures var e' := Takes(e, cs, calls);
            e' == e.(l := HandleAll(e.l, cs, calls), taken := e.taken + |cs|, mapped := e'.mapped)
    decreases |cs|
  {
    hide HandleCommand;
    if cs != [] { TakesIs(e, cs[..|cs| - 1], calls); }
  }

  lemma OneSend(e: P.Side, k: nat)
    requires e.pc == P.Publishing(k) && k < 4
    ensures |Publication(e.l)| == 4 && P.Outgoing(e) == Some(Publication(e.l)[k])
    ensures P.AfterSend(e) ==
            if k == 3 then e.(stream := e.stream + [Publication(e.l)[k]], pc := P.Unlocked, l := e.l.(localPublished := true))
            else e.(stream := e.stream + [Publication(e.l)[k]], pc := P.Publishing(k + 1))
  {
  }

  lemma SliceHead(cs: seq<Command>, i: nat, j: nat)
    requires i < j <= |cs|
    ensures cs[i..j] == [cs[i]] + cs[i + 1..j] && (j == |cs| ==> cs[i..] == cs[i..j] && cs[i + 1..] == cs[i + 1..j])
  {
  }

  /** Publishing `count` of the four commands. */
  lemma {:induction false} SendsIs(e: P.Side, k: nat, count: nat)
    requires e.pc == P.Publishing(k) && k + count <= 4 && k < 4
    ensures |Publication(e.l)| == 4
    ensures Sends(e, count) ==
            if k + count == 4 then e.(stream := e.stream + Publication(e.l)[k..], pc := P.Unlocked, l := e.l.(localPublished := true))
            else e.(stream := e.stream + Publication(e.l)[k..k + count], pc := P.Publishing(k + count))
    decreases count
  {
    hide Publication, P.AfterSend, P.Outgoing;
    OneSend(e, k);
    if count == 0 {
      assert e.stream + Publication(e.l)[k..k] == e.stream;
    } else if k < 3 {
      SendsIs(P.AfterSend(e), k + 1, count - 1);
      SliceHead(Publication(e.l), k, k + count);
      SliceHead(Publication(e.l), k, 4);
    } else {
      SliceHead(Publication(e.l), k, 4);
      assert Sends(P.AfterSend(e), 0) == P.AfterSend(e);
    }
  }

  lemma PublishIs(e: P.Side, count: nat)
    requires count <= 4 && (!WantsPublish(e.l) ==> count == 0)
    ensures Leave(Sends(P.TryPublish(e), count)) ==
            e.(stream := e.stream + Publication(e.l)[..count], pc := P.Unlocked, l := if count == 4 then e.l.(localPublished := true) else e.l)
  {
    hide WantsPublish;
    assert e.stream + Publication(e.l)[..0] == e.stream;
    if WantsPublish(e.l) {
      SendsIs(P.TryPublish(e), 0, count);
      assert Publication(e.l)[0..count] == Publication(e.l)[..count] && Publication(e.l)[0..] == Publication(e.l)[..4];
      hide Sends, Publication;
    }
  }

  // -------------------------------------------------------------------------------- the programs

  /** The work function takes exactly the protocol's steps for the commands it received and the sends that
      succeeded. `mapped` is the protocol's bookkeeping of what is mapped. */
  method Service(device: Device, link: Link, end: bool, up: bool, calls: seq<MwCalls>, ghost mapped: nat)
      returns (drained: bool, ghost taken: seq<Command>, ghost count: nat, ghost ret: Outcome, ghost mapped': nat)
    requires Inv(link.s) && link.s.At(end).driver.Idle?
    modifies device, link
    ensures Inv(link.s) && link.s.At(end).driver.Idle?
    ensures |taken| <= |calls| && count <= 4
    ensures link.s.At(end).received == old(link.s.At(end).received) + Pairs(taken)
    ensures !drained ==> |taken| == |calls|
    ensures up && drained ==> Pairs(old(link.s.At(!end).placed)) <= link.s.At(end).received
    ensures up && drained ==>
              var l := Drained(old(SideIn(device, link, end, mapped)), taken, calls).l;
              WantsPublish(l) ==>
                (count < 4 ==> ret != Sent) && link.s.At(end).log == old(link.s.At(end).log) + Logged(Publication(l), count, ret)
    ensures drained ==> SideIn(device, link, end, mapped') == Serviced(old(SideIn(device, link, end, mapped)), up, taken, calls, count)
    ensures !drained ==> SideIn(device, link, end, mapped').(pc := P.Draining) == Drained(old(SideIn(device, link, end, mapped)), taken, calls)
  {
    hide Inv, Publication, WantsPublish, SetLink, MarkPeerUnready, Logged;
    ghost var e := SideIn(device, link, end, mapped);
    drained, taken, count, ret := device.ServiceWork(link, end, up, calls);
    mapped' := mapped;
    assert |Pairs(taken)| == |taken|;
    if up {
      ghost var e1 := e.(l := SetLink(e.l, true), pc := P.Draining);
      TakesIs(e1, taken, calls);
      PublishIs(Takes(e1, taken, calls), count);
      mapped' := Takes(e1, taken, calls).mapped;
      hide Takes, Sends, P.TryPublish, Leave, HandleAll;
    }
  }

  /** The flags are no part of what is published. */
  lemma SamePublication(l: Local)
    ensures Publication(l.(localAvailable := true, localPublished := false)) == Publication(l) && |Publication(l)| == 4
  {
  }

  /** SET_AVAILABLE: over an up link the publication is sent, up to the first failure. */
  method SetAvailable(device: Device, link: Link, end: bool, id: Word32, ghost mapped: nat)
      returns (found: bool, ret: Outcome, ghost count: nat)
    requires Inv(link.s) && link.s.At(end).driver.Idle? && Consistent(device.View())
    modifies device, link
    ensures Inv(link.s) && link.s.At(end).driver.Idle? && Consistent(device.View())
    ensures found == OwnsSegment(old(device.View()), id) && count <= 4
    ensures var e := old(SideIn(device, link, end, mapped));
            SideIn(device, link, end, mapped) == if found then MadeAvailable(e, count) else e
    ensures var l := old(device.View());
            if found && l.linkUp
            then link.s.At(end).log == old(link.s.At(end).log) + Logged(Publication(l), count, ret) && (count < 4 ==> ret != Sent)
            else link.s.At(end).log == old(link.s.At(end).log)
  {
    hide Inv;
    SamePublication(device.View());
    hide Publication, Logged;
    count, ret := 0, Sent;
    ghost var e := SideIn(device, link, end, mapped);
    if !device.localBuf || device.localId != id { return false, ret, 0; }
    device.localAvailable := true;
    device.localPublished := false;
    ghost var e1 := e.(l := e.l.(localAvailable := true, localPublished := false));
    ret, count := device.PublishAvailable(link, end);
    PublishIs(e1, count);
    hide Sends, P.TryPublish, Leave;
    return true, ret, count;
  }

  /** A withdrawal, and for REMOVE the free that follows it unless its send fails. */
  method Withdraw(device: Device, link: Link, end: bool, id: Word32, thenFree: bool, ghost mapped: nat) returns (found: bool, ret: Outcome)
    requires Inv(link.s) && link.s.At(end).driver.Idle? && Consistent(device.View())
    modifies device, link
    ensures Inv(link.s) && link.s.At(end).driver.Idle? && Consistent(device.View())
    ensures found == OwnsSegment(old(device.View()), id)
    ensures var e := old(SideIn(device, link, end, mapped));
            SideIn(device, link, end, mapped) == if found then Withdrawn(e, id, thenFree, ret == Sent) else e
    ensures link.s.At(end).log == old(link.s.At(end).log)
            + if found && old(device.linkUp && device.localPublished) then [(Command(UNAVAIL, id), ret)] else []
  {
    hide Inv;
    ret := Sent;
    if !device.localBuf || device.localId != id { return false, ret; }
    ghost var e := SideIn(device, link, end, mapped);
    WithdrawnIs(e, id, thenFree, true);
    WithdrawnIs(e, id, thenFree, false);
    ret := device.PublishUnavailable(link, end, id);
    if thenFree && ret == Sent { device.FreeSegment(); }
    hide Withdrawn;
    return true, ret;
  }

  lemma WithdrawnIs(e: P.Side, id: Word32, thenFree: bool, sent: bool)
    requires e.pc == P.Unlocked
    ensures var should := e.l.linkUp && e.l.localPublished;
            var l := e.l.(localAvailable := false, localPublished := false);
            Withdrawn(e, id, thenFree, sent) ==
              e.(l := if thenFree && (sent || !should) then FreeLocal(l) else l,
                 stream := if should && sent then e.stream + [Command(UNAVAIL, id)] else e.stream)
  {
    var e1 := P.TryUnpublish(e, id, thenFree);
    if e1.pc.Unpublishing? { assert Sends(P.AfterSend(e1), 0) == P.AfterSend(e1); }
  }

  /** SET_UNAVAILABLE. */
  method SetUnavailable(device: Device, link: Link, end: bool, id: Word32, ghost mapped: nat) returns (found: bool, ret: Outcome)
    requires Inv(link.s) && link.s.At(end).driver.Idle? && Consistent(device.View())
    modifies device, link
    ensures Inv(link.s) && link.s.At(end).driver.Idle? && Consistent(device.View())
    ensures found == OwnsSegment(old(device.View()), id)
    ensures var e := old(SideIn(device, link, end, mapped));
            SideIn(device, link, end, mapped) == if found then Withdrawn(e, id, false, ret == Sent) else e
    ensures link.s.At(end).log == old(link.s.At(end).log)
            + if found && old(device.linkUp && device.localPublished) then [(Command(UNAVAIL, id), ret)] else []
  {
    hide Inv, Consistent, Withdrawn;
    found, ret := Withdraw(device, link, end, id, false, mapped);
  }

  /** REMOVE_SEGMENT. */
  method RemoveSegment(device: Device, link: Link, end: bool, id: Word32, ghost mapped: nat) returns (found: bool, ret: Outcome)
    requires Inv(link.s) && link.s.At(end).driver.Idle? && Consistent(device.View())
    modifies device, link
    ensures Inv(link.s) && link.s.At(end).driver.Idle? && Consistent(device.View())
    ensures found == OwnsSegment(old(device.View()), id)
    ensures var e := old(SideIn(device, link, end, mapped));
            SideIn(device, link, end, mapped) == if found then Withdrawn(e, id, true, ret == Sent) else e
    ensures link.s.At(end).log == old(link.s.At(end).log)
            + if found && old(device.linkUp && device.localPublished) then [(Command(UNAVAIL, id), ret)] else []
  {
    hide Inv, Consistent, Withdrawn;
    found, ret := Withdraw(device, link, end, id, true, mapped);
  }
}
