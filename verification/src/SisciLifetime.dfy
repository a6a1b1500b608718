/** How long segment memory outlives its mapping. The promise holds on every run, failed sends and link
    drops included, in which the owner does not free a segment it still advertises, that is while the
    last command it placed is an AVAIL; and freeing such a segment is what breaks it. */
module SisciLifetime {
  import opened Basics
  import Mailbox
  import opened Sisci
  import opened SisciProtocol

  // ------------------------------------------------------------------------------- advertisements

  /** The last command an end placed is an AVAIL. */
  predicate Advertises(stream: seq<Mailbox.Command>) { stream != [] && stream[|stream| - 1].cmd == AVAIL }

  /** What an end advertises is the segment it owns right now. */
  ghost predicate Current(e: Side) {
    Advertises(e.stream) ==>
      |e.stream| >= 4 && e.l.localBuf && IsPublication(e.stream, |e.stream| - 4, e.l.localId, e.l.localSize, e.l.localDma)
  }

  /** The step frees the segment: REMOVE, or a CREATE that neither reuses nor refuses. */
  predicate Frees(e: Side, a: Event) {
    || (a.Free? && e.pc == Freeing)
    || (a.Create? && e.pc == Unlocked && e.l.localBuf && !e.l.localAvailable
        && !(e.l.localId == a.id && e.l.localSize >= (if a.size == 0 then a.defaultSize else a.size)))
  }

  predicate FreesAdvertised(s: System, a: Event) { Frees(s.At(a.end), a) && Advertises(s.At(a.end).stream) }

  /** No step of the run frees a segment its owner advertises. */
  ghost predicate KeepsAdvertised(s: System, schedule: seq<Event>, owner: bool)
    decreases |schedule|
  {
    schedule != [] ==>
      && !(schedule[0].end == owner && FreesAdvertised(s, schedule[0]))
      && KeepsAdvertised(Step(s, schedule[0]), schedule[1..], owner)
  }

  // -------------------------------------------------------------------- what every run keeps

  /** A withdrawal directly follows the AVAIL of its segment. */
  ghost predicate Withdraws(stream: seq<Mailbox.Command>, j: nat)
    requires j < |stream|
  {
    stream[j].cmd == UNAVAIL ==> j >= 1 && stream[j - 1] == Mailbox.Command(AVAIL, stream[j].data)
  }

  ghost predicate Withdrawals(stream: seq<Mailbox.Command>) { forall j :: 0 <= j < |stream| ==> Withdraws(stream, j) }

  ghost predicate LastIs(stream: seq<Mailbox.Command>, id: Word32) {
    stream != [] && stream[|stream| - 1] == Mailbox.Command(AVAIL, id)
  }

  /** A published segment, and one being withdrawn, is the last thing advertised. */
  ghost predicate Announces(e: Side) {
    && Withdrawals(e.stream)
    && (e.l.localPublished ==> LastIs(e.stream, e.l.localId))
    && (e.pc.Unpublishing? ==> LastIs(e.stream, e.pc.id))
  }

  /** A mapped window is that of the last publication received. */
  ghost predicate MapsLast(e: Side) { e.l.peerIo ==> e.taken == e.mapped + 4 }

  ghost predicate LifeInv(s: System) {
    Inv(s) && Announces(s.near) && Announces(s.far) && MapsLast(s.near) && MapsLast(s.far)
  }

  lemma WithdrawalsGrow(stream: seq<Mailbox.Command>, c: Mailbox.Command)
    requires Withdrawals(stream) && (c.cmd == UNAVAIL ==> stream != [] && stream[|stream| - 1] == Mailbox.Command(AVAIL, c.data))
    ensures Withdrawals(stream + [c])
  {
    forall j | 0 <= j < |stream + [c]| ensures Withdraws(stream + [c], j) {
      if j < |stream| { assert Withdraws(stream, j); }
    }
  }

  lemma SendAnnounces(e: Side)
    requires Announces(e) && SideHolds(e) && Outgoing(e).Some?
    ensures Announces(AfterSend(e)) && (MapsLast(e) ==> MapsLast(AfterSend(e)))
  {
    hide Withdrawals, Consistent;
    WithdrawalsGrow(e.stream, Outgoing(e).value);
  }

  lemma TakeMapsLast(e: Side, p: Side, calls: MwCalls)
    requires Direction(p, e) && MapsLast(e) && Withdrawals(p.stream) && e.taken < |p.stream| && Consistent(e.l) && e.l.linkUp
    ensures MapsLast(Take(e, p.stream[e.taken], calls))
  {
    var c := p.stream[e.taken];
    assert Withdraws(p.stream, e.taken) && Follows(p.stream, e.taken);
    hide Withdrawals, Ordered, InProgress, HandleCommand;
    MappingMoves(e.l, c, calls);
  }

  lemma MappingMoves(l: Local, c: Mailbox.Command, calls: MwCalls)
    ensures c.cmd == SEGID || (c.cmd == UNAVAIL && Mailbox.Low(c.data) == l.remoteId) ==> !HandleCommand(l, c, calls).peerIo
    ensures c.cmd != AVAIL && HandleCommand(l, c, calls).peerIo ==> l.peerIo
  {
  }

  lemma TakeAnnounces(e: Side, c: Mailbox.Command, calls: MwCalls)
    requires Announces(e) && e.pc == Draining
    ensures Announces(Take(e, c, calls))
  {
    hide Withdrawals, LastIs;
  }

  lemma OwnAnnounces(s: System, a: Event)
    requires Inv(s) && Announces(s.At(a.end)) && MapsLast(s.At(a.end)) && !(a.Receive? || a.SendOk?)
    ensures Announces(Step(s, a).At(a.end)) && MapsLast(Step(s, a).At(a.end))
  {
    hide Withdrawals, LastIs, Direction, RequestSize;
  }

  lemma StepKeepsLife(s: System, a: Event)
    requires LifeInv(s)
    ensures LifeInv(Step(s, a))
  {
    hide SideHolds, Announces, MapsLast, Tracks, Ordered, InProgress;
    StepKeepsInv(s, a);
    var e, p := s.At(a.end), s.At(!a.end);
    assert Direction(e, p) && Direction(p, e) && SideHolds(e) && Announces(e) && MapsLast(e);
    if a.Receive? {
      if e.pc == Draining && s.InFlight(!a.end) {
        DrainingIsUp(e);
        assert Withdrawals(p.stream) by { AnnouncesWithdrawals(p); }
        TakeAnnounces(e, p.stream[e.taken], a.calls);
        TakeMapsLast(e, p, a.calls);
        hide Take;
      }
    } else if a.SendOk? {
      if Outgoing(e).Some? && !s.InFlight(a.end) {
        SendAnnounces(e);
        hide AfterSend;
      }
      hide Outgoing;
    } else {
      OwnAnnounces(s, a);
      LocalEvent(s, a);
      hide Step;
    }
  }

  lemma DrainingIsUp(e: Side)
    requires SideHolds(e) && e.pc == Draining
    ensures e.l.linkUp && Consistent(e.l)
  {
  }

  lemma AnnouncesWithdrawals(e: Side)
    requires Announces(e)
    ensures Withdrawals(e.stream)
  {
  }

  lemma {:induction false} RunKeepsLife(s: System, schedule: seq<Event>)
    requires LifeInv(s)
    ensures LifeInv(Run(s, schedule))
    decreases |schedule|
  {
    hide LifeInv, Step;
    if schedule != [] {
      StepKeepsLife(s, schedule[0]);
      RunKeepsLife(Step(s, schedule[0]), schedule[1..]);
    }
  }

  lemma ReachableHoldsLife(schedule: seq<Event>)
    ensures LifeInv(Run(START, schedule))
  {
    assert LifeInv(START);
    hide LifeInv, Run;
    RunKeepsLife(START, schedule);
  }

  // --------------------------------------------------------------------------- the exact condition

  lemma WholePublication(e: Side)
    requires InProgress(e) && e.pc == Publishing(3)
    ensures |e.stream| >= 3
    ensures IsPublication(e.stream + [Publication(e.l)[3]], |e.stream| - 3, e.l.localId, e.l.localSize, e.l.localDma)
  {
    LastSent(e, 0);
    LastSent(e, 1);
    LastSent(e, 2);
  }

  lemma SendKeepsCurrent(e: Side)
    requires InProgress(e) && SideHolds(e) && Outgoing(e).Some?
    ensures Current(AfterSend(e))
  {
    if e.pc == Publishing(3) { WholePublication(e); }
    hide InProgress, Consistent, IsPublication;
  }

  lemma TakeKeepsCurrent(e: Side, c: Mailbox.Command, calls: MwCalls)
    ensures Current(Take(e, c, calls)) <==> Current(e)
  {
    hide IsPublication;
  }

  /** A request is never rounded down. */
  lemma RequestCovers(size: Word64, align: Word64)
    ensures RequestSize(size, align).Some? ==> RequestSize(size, align).value >= size
  {
  }

  lemma CreateKeepsCurrentIff(s: System, a: Event)
    requires Inv(s) && Current(s.At(a.end)) && a.Create?
    ensures Current(Step(s, a).At(a.end)) <==> !FreesAdvertised(s, a)
  {
    hide Direction, RequestSize;
    RequestCovers(if a.size == 0 then a.defaultSize else a.size, a.alloc.sizeAlign);
  }

  lemma OtherKeepsCurrentIff(s: System, a: Event)
    requires Inv(s) && Current(s.At(a.end)) && !a.Create? && !a.Receive? && !a.SendOk?
    ensures Current(Step(s, a).At(a.end)) <==> !FreesAdvertised(s, a)
  {
    hide Direction, AllocLocal, IsPublication;
  }

  /** Exactly one kind of step makes an end advertise what it no longer owns: freeing, by REMOVE or by a
      CREATE, while the last command it placed is an AVAIL. */
  lemma StepKeepsCurrentIff(s: System, a: Event)
    requires LifeInv(s) && Current(s.At(a.end))
    ensures Current(Step(s, a).At(a.end)) <==> !FreesAdvertised(s, a)
    ensures Step(s, a).At(!a.end) == s.At(!a.end)
  {
    hide Current, Announces, MapsLast;
    var e, p := s.At(a.end), s.At(!a.end);
    assert Direction(e, p) && SideHolds(e);
    if a.Create? || !(a.Receive? || a.SendOk?) {
      LocalEvent(s, a);
      hide Step, Inv;
      if a.Create? { CreateKeepsCurrentIff(s, a); } else { OtherKeepsCurrentIff(s, a); }
    } else {
      hide Inv, Consistent, Ordered, Tracks;
      if a.Receive? {
        if e.pc == Draining && s.InFlight(!a.end) { TakeKeepsCurrent(e, p.stream[e.taken], a.calls); }
        hide Take;
      } else {
        if Outgoing(e).Some? { SendKeepsCurrent(e); }
        hide AfterSend, Outgoing;
      }
    }
  }

  /** The peer's window maps exactly the segment `owner` holds right now. */
  ghost predicate MapsLiveSegment(owner: Local, user: Local) {
    owner.localBuf && user.window == Some((owner.localDma, owner.localSize)) && user.remoteId == owner.localId
  }

  /** A command that makes `user` unmap what it maps is already in its mailbox: the withdrawal, or the
      start of the next publication. */
  ghost predicate UnmapPending(s: System, owner: bool) {
    s.InFlight(owner) &&
    var next := s.At(owner).stream[s.At(!owner).taken];
    next == Mailbox.Command(UNAVAIL, s.At(!owner).l.remoteId) || next.cmd == SEGID
  }

  /** A mapped window is the last publication its owner advertises, or about to be unmapped. */
  lemma MappedIsAdvertised(s: System, owner: bool)
    requires LifeInv(s) && s.At(!owner).l.peerReady
    ensures var e, l := s.At(owner), s.At(!owner).l;
            || UnmapPending(s, owner)
            || (!s.InFlight(owner) && Advertises(e.stream) && |e.stream| >= 4
                && IsPublication(e.stream, |e.stream| - 4, l.remoteId, l.remoteSize, l.remoteXlat)
                && l.window == Some((l.remoteXlat, l.remoteSize)))
  {
    var e, p := s.At(owner), s.At(!owner);
    assert Direction(e, p) && SideHolds(p) && Withdrawals(e.stream) && MapsLast(p);
    hide Inv, LifeInv;
    if p.taken < |e.stream| { assert Withdraws(e.stream, p.taken) && Follows(e.stream, p.taken); }
    hide Withdrawals, Ordered, InProgress;
  }

  lemma CurrentMeansLive(s: System, owner: bool)
    requires LifeInv(s) && Current(s.At(owner)) && s.At(!owner).l.peerReady
    ensures MapsLiveSegment(s.At(owner).l, s.At(!owner).l) || UnmapPending(s, owner)
  {
    hide LifeInv, UnmapPending;
    MappedIsAdvertised(s, owner);
  }

  lemma {:induction false} RunKeepsCurrent(s: System, schedule: seq<Event>, owner: bool)
    requires LifeInv(s) && Current(s.At(owner)) && KeepsAdvertised(s, schedule, owner)
    ensures Current(Run(s, schedule).At(owner))
    decreases |schedule|
  {
    hide LifeInv, Step, Current, FreesAdvertised;
    if schedule != [] {
      StepKeepsLife(s, schedule[0]);
      if schedule[0].end == owner { StepKeepsCurrentIff(s, schedule[0]); } else { OtherEndKeeps(s, schedule[0]); }
      RunKeepsCurrent(Step(s, schedule[0]), schedule[1..], owner);
    }
  }

  lemma OtherEndKeeps(s: System, a: Event)
    ensures Step(s, a).At(!a.end) == s.At(!a.end)
  {
    hide AllocLocal, Take, AfterSend, TryUnpublish, TryPublish, FreeLocal, MarkPeerUnready, SetLink, Outgoing;
  }

  /** Segment memory outlives its mapping, on every run in which its owner frees no segment it still
      advertises: sends may fail anywhere and links go up and down. Whatever an end has mapped is still
      allocated, at the mapped address and size, or the command that unmaps it waits in its mailbox. */
  lemma MappedMemoryIsAlive(schedule: seq<Event>, owner: bool)
    requires KeepsAdvertised(START, schedule, owner)
    ensures var s := Run(START, schedule);
            s.At(!owner).l.peerReady ==> MapsLiveSegment(s.At(owner).l, s.At(!owner).l) || UnmapPending(s, owner)
  {
    assert LifeInv(START) && Current(START.At(owner));
    hide LifeInv, Run, KeepsAdvertised, Current, UnmapPending, MapsLiveSegment;
    RunKeepsLife(START, schedule);
    RunKeepsCurrent(START, schedule, owner);
    var s := Run(START, schedule);
    if s.At(!owner).l.peerReady { CurrentMeansLive(s, owner); }
  }

  /** The peer maps memory that is gone, and nothing on its way tells it so. */
  ghost predicate Dangling(s: System, owner: bool) {
    s.At(!owner).l.peerReady && !MapsLiveSegment(s.At(owner).l, s.At(!owner).l) && !s.InFlight(owner)
  }

  /** An AVAIL still in the mailbox finds nothing mapped, and the publication it completes. */
  lemma UnreadAdvert(e: Side, p: Side)
    requires Direction(e, p) && Advertises(e.stream) && Current(e) && p.taken < |e.stream|
    ensures !p.l.peerIo && p.taken == |e.stream| - 1 && |e.stream| >= 4
    ensures e.stream[p.taken] == Mailbox.Command(AVAIL, e.l.localId) && p.l.remoteXlat == e.l.localDma && p.l.remoteSize == e.l.localSize
  {
    hide Ordered, InProgress;
  }

  /** The converse: freeing an advertised segment that the peer has mapped leaves the mapping dangling. */
  lemma FreeingAdvertisedDangles(s: System, a: Event)
    requires LifeInv(s) && Current(s.At(a.end)) && FreesAdvertised(s, a) && s.At(!a.end).l.peerReady
    ensures Dangling(Step(s, a), a.end)
  {
    hide Current, UnmapPending, Announces, MapsLast;
    assert !s.InFlight(a.end) by { MappedMeansRead(s, a.end); }
    hide LifeInv, FreesAdvertised;
    MappedIsAdvertised(s, a.end);
    assert !UnmapPending(s, a.end) by { NothingPending(s, a.end); }
    StepKeepsCurrentIff(s, a);
    FreeKeepsStream(s, a);
    NotCurrentNotLive(Step(s, a).At(a.end), s.At(!a.end).l);
  }

  lemma MappedMeansRead(s: System, owner: bool)
    requires LifeInv(s) && Current(s.At(owner)) && Advertises(s.At(owner).stream) && s.At(!owner).l.peerReady
    ensures !s.InFlight(owner)
  {
    assert Direction(s.At(owner), s.At(!owner)) && SideHolds(s.At(!owner));
    hide Direction, Inv, LifeInv, Current;
    if s.InFlight(owner) { UnreadAdvert(s.At(owner), s.At(!owner)); }
  }

  lemma AvailMaps(l: Local, id: Word32, calls: MwCalls)
    requires !l.peerIo && l.remoteXlat != 0 && l.remoteSize != 0 && calls.addrOk && calls.transOk && calls.remapOk
    ensures var l' := HandleCommand(l, Mailbox.Command(AVAIL, id), calls);
            l'.peerReady && l'.window == Some((l'.remoteXlat, l'.remoteSize))
            && l'.remoteId == id && l'.remoteXlat == l.remoteXlat && l'.remoteSize == l.remoteSize
  {
  }

  /** So does freeing it while its AVAIL is still in the mailbox: the peer then maps what is gone. */
  lemma FreeingUnreadDangles(s: System, a: Event, calls: MwCalls)
    requires LifeInv(s) && Current(s.At(a.end)) && FreesAdvertised(s, a) && s.InFlight(a.end) && s.At(!a.end).pc == Draining
    requires s.At(a.end).l.localDma != 0 && s.At(a.end).l.localSize != 0 && calls.addrOk && calls.transOk && calls.remapOk
    ensures Dangling(Step(Step(s, a), Receive(!a.end, calls)), a.end)
  {
    var e, p := s.At(a.end), s.At(!a.end);
    assert Direction(e, p) && IsPublication(e.stream, |e.stream| - 4, e.l.localId, e.l.localSize, e.l.localDma);
    UnreadAdvert(e, p);
    StepKeepsCurrentIff(s, a);
    FreeKeepsStream(s, a);
    hide LifeInv, Current, Direction, FreesAdvertised;
    var s1 := Step(s, a);
    AvailMaps(p.l, e.l.localId, calls);
    var l := HandleCommand(p.l, e.stream[p.taken], calls);
    NotCurrentNotLive(s1.At(a.end), l);
    ReceiveIs(s1, !a.end, calls);
    hide Step, HandleCommand, IsPublication;
  }

  lemma ReceiveIs(s: System, end: bool, calls: MwCalls)
    requires s.At(end).pc == Draining && s.InFlight(!end)
    ensures var s', e := Step(s, Receive(end, calls)), s.At(end);
            && s'.At(!end) == s.At(!end) && s'.At(end).taken == e.taken + 1
            && s'.At(end).l == HandleCommand(e.l, s.At(!end).stream[e.taken], calls)
  {
    hide HandleCommand;
  }

  lemma NothingPending(s: System, owner: bool)
    requires !s.InFlight(owner)
    ensures !UnmapPending(s, owner)
  {
  }

  lemma FreeKeepsStream(s: System, a: Event)
    requires FreesAdvertised(s, a)
    ensures Step(s, a).At(a.end).stream == s.At(a.end).stream
  {
    hide AllocLocal;
  }

  lemma NotCurrentNotLive(e: Side, l: Local)
    requires !Current(e) && l.window == Some((l.remoteXlat, l.remoteSize))
    requires |e.stream| >= 4 && IsPublication(e.stream, |e.stream| - 4, l.remoteId, l.remoteSize, l.remoteXlat)
    ensures !MapsLiveSegment(e.l, l)
  {
  }
}
