/** What the segment protocol promises over every run, and where its lifetime promise stops. */
module SisciTheorems {
  import opened Basics
  import Mailbox
  import opened Sisci
  import opened SisciProtocol
  import opened SisciLifetime

  lemma ReachableHoldsInv(schedule: seq<Event>)
    ensures Inv(Run(START, schedule))
  {
    RunKeepsInv(START, schedule);
  }

  /** Publication is never mixed. Over every run, with sends failing anywhere and links going up and
      down, an end whose peer is ready holds the id, size and address of one whole publication that
      the peer completed, its window is programmed with exactly these, and everything it received
      since was a withdrawal of some other segment. */
  lemma PublicationIsNeverMixed(schedule: seq<Event>, end: bool)
    ensures var s := Run(START, schedule);
            var e, stream := s.At(end), s.At(!end).stream;
            e.l.peerReady ==>
              && e.l.window == Some((e.l.remoteXlat, e.l.remoteSize))
              && e.taken <= |stream|
              && exists at: nat ::
                   && at + 4 <= e.taken
                   && IsPublication(stream, at, e.l.remoteId, e.l.remoteSize, e.l.remoteXlat)
                   && forall j :: at + 4 <= j < e.taken ==> stream[j].cmd == UNAVAIL
  {
    hide Run, Ordered, IsPublication;
    ReachableHoldsInv(schedule);
    var s := Run(START, schedule);
    assert Direction(s.At(!end), s.At(end)) && SideHolds(s.At(end));
  }

  /** At every point of every run both drivers are consistent; a CONNECT that succeeds reports the
      smaller of the published size and the window size of a completed publication with that id, and
      that is positive unless the window is empty. */
  lemma ConnectReportsUsableSize(schedule: seq<Event>, end: bool, id: Word32)
    ensures var s := Run(START, schedule);
            var l, stream := s.At(end).l, s.At(!end).stream;
            && Consistent(l)
            && (Connect(l, id).Some? ==>
                 && Connect(l, id).value == Min64(l.remoteSize, l.peerMapSize) <= l.peerMapSize
                 && (Connect(l, id).value == 0 <==> l.peerMapSize == 0)
                 && exists at: nat :: IsPublication(stream, at, id, l.remoteSize, l.remoteXlat))
  {
    hide Run, Ordered, IsPublication;
    ReachableHoldsInv(schedule);
    var s := Run(START, schedule);
    assert SideHolds(s.At(end));
    if Connect(s.At(end).l, id).Some? {
      PublicationIsNeverMixed(schedule, end);
      var at: nat :| IsPublication(s.At(!end).stream, at, s.At(end).l.remoteId, s.At(end).l.remoteSize, s.At(end).l.remoteXlat);
    }
  }

  /** The last whole publication among the first `t` commands, not counting withdrawals, starts at `at` and
      carries `id`. */
  ghost predicate LastPublication(stream: seq<Mailbox.Command>, t: nat, at: nat, id: Word32) {
    && at + 4 <= t <= |stream|
    && stream[at] == Mailbox.Command(SEGID, id) && stream[at + 1].cmd == SIZE && stream[at + 2].cmd == XLAT
    && stream[at + 3] == Mailbox.Command(AVAIL, id)
    && forall j :: at + 4 <= j < t ==> stream[j].cmd == UNAVAIL
  }

  lemma LastPublicationIsUnique(stream: seq<Mailbox.Command>, t: nat, at: nat, id: Word32, at': nat, id': Word32)
    requires LastPublication(stream, t, at, id) && LastPublication(stream, t, at', id')
    ensures at == at' && id == id'
  {
    assert stream[at + 3].cmd == AVAIL && stream[at' + 3].cmd == AVAIL;
  }

  /** CONNECT succeeds exactly for the id of the last whole publication received, while the peer is ready. */
  lemma ConnectSucceedsIff(schedule: seq<Event>, end: bool, id: Word32)
    ensures var s := Run(START, schedule);
            var e, stream := s.At(end), s.At(!end).stream;
            Connect(e.l, id).Some? <==> e.l.peerReady && exists at: nat :: LastPublication(stream, e.taken, at, id)
  {
    hide Run, Ordered, IsPublication, LastPublication;
    PublicationIsNeverMixed(schedule, end);
    var s := Run(START, schedule);
    var e, stream := s.At(end), s.At(!end).stream;
    if e.l.peerReady {
      var at: nat :|
        && at + 4 <= e.taken && IsPublication(stream, at, e.l.remoteId, e.l.remoteSize, e.l.remoteXlat)
        && forall j :: at + 4 <= j < e.taken ==> stream[j].cmd == UNAVAIL;
      PublicationIsLast(stream, e.taken, at, e.l);
      forall at': nat | LastPublication(stream, e.taken, at', id)
        ensures id == e.l.remoteId
      {
        LastPublicationIsUnique(stream, e.taken, at, e.l.remoteId, at', id);
      }
    }
  }

  lemma PublicationIsLast(stream: seq<Mailbox.Command>, t: nat, at: nat, l: Local)
    requires at + 4 <= t <= |stream| && IsPublication(stream, at, l.remoteId, l.remoteSize, l.remoteXlat)
    requires forall j :: at + 4 <= j < t ==> stream[j].cmd == UNAVAIL
    ensures LastPublication(stream, t, at, l.remoteId)
  {
  }

  // ------------------------------------------------------------------------------- calm runs

  /** Runs without failed sends and with the link up throughout. */
  ghost predicate Calm(a: Event) { !a.SendFail? && (a.Service? ==> a.linkUp) }

  ghost predicate CalmRun(schedule: seq<Event>) { forall i :: 0 <= i < |schedule| ==> Calm(schedule[i]) }

  /** What an end advertises it has published, is publishing again, or is withdrawing; a publication is
      broken off nowhere. */
  ghost predicate CalmSide(e: Side) {
    && (Advertises(e.stream) ==> e.l.linkUp && (e.l.localPublished || e.pc == Publishing(0) || e.pc.Unpublishing?))
    && (e.stream != [] && !Advertises(e.stream) && e.stream[|e.stream| - 1].cmd != UNAVAIL ==> e.pc.Publishing? && e.pc.sent > 0)
  }

  lemma CalmSend(e: Side)
    requires CalmSide(e) && SideHolds(e) && Outgoing(e).Some?
    ensures CalmSide(AfterSend(e))
  {
    hide Consistent;
  }

  lemma CalmTake(e: Side, c: Mailbox.Command, calls: MwCalls)
    requires CalmSide(e) && e.pc == Draining
    ensures CalmSide(Take(e, c, calls))
  {
    hide Advertises;
  }

  lemma CalmOwn(s: System, a: Event)
    requires Inv(s) && CalmSide(s.At(a.end)) && Calm(a) && !(a.Receive? || a.SendOk?)
    ensures CalmSide(Step(s, a).At(a.end)) && !FreesAdvertised(s, a)
  {
    hide Advertises, SisciProtocol.Direction, RequestSize;
  }

  lemma CalmStep(s: System, a: Event, end: bool)
    requires Inv(s) && CalmSide(s.At(end)) && Calm(a)
    ensures CalmSide(Step(s, a).At(end)) && !(a.end == end && FreesAdvertised(s, a))
  {
    hide CalmSide, SisciProtocol.Direction;
    var e, p := s.At(a.end), s.At(!a.end);
    assert SideHolds(e);
    if a.end != end {
      hide Step;
      OtherEndKeeps(s, a);
    } else if a.Receive? {
      if e.pc == Draining && s.InFlight(!a.end) { CalmTake(e, p.stream[e.taken], a.calls); }
      hide Take;
    } else if a.SendOk? {
      if Outgoing(e).Some? { CalmSend(e); }
      hide AfterSend, Outgoing;
    } else {
      CalmOwn(s, a);
      hide Step;
    }
  }

  lemma {:induction false} CalmRunFrom(s: System, schedule: seq<Event>, owner: bool)
    requires Inv(s) && CalmSide(s.At(owner)) && CalmRun(schedule)
    ensures KeepsAdvertised(s, schedule, owner) && CalmSide(Run(s, schedule).At(owner))
    decreases |schedule|
  {
    hide Inv, Step, Calm, CalmSide, FreesAdvertised;
    if schedule != [] {
      CalmStep(s, schedule[0], owner);
      StepKeepsInv(s, schedule[0]);
      CalmRunFrom(Step(s, schedule[0]), schedule[1..], owner);
    }
  }

  /** The withdrawal of what `user` maps is already in its mailbox. */
  ghost predicate WithdrawalPending(s: System, owner: bool) {
    s.InFlight(owner) && s.At(owner).stream[s.At(!owner).taken] == Mailbox.Command(UNAVAIL, s.At(!owner).l.remoteId)
  }

  /** In calm runs no owner frees a segment it advertises, and a segment is freed, by REMOVE or by
      re-creation, only if the peer has not mapped it or its withdrawal is already in the peer's mailbox. */
  lemma CalmFreesAreAnnounced(schedule: seq<Event>, a: Event)
    requires CalmRun(schedule)
    ensures KeepsAdvertised(START, schedule, a.end)
    ensures var s := Run(START, schedule);
            Frees(s.At(a.end), a) ==> !s.At(!a.end).l.peerReady || WithdrawalPending(s, a.end)
  {
    assert CalmSide(START.At(a.end));
    hide Run, KeepsAdvertised, LifeInv, CalmSide;
    RunKeepsInv(START, []);
    CalmRunFrom(START, schedule, a.end);
    ReachableHoldsLife(schedule);
    var s := Run(START, schedule);
    if Frees(s.At(a.end), a) && s.At(!a.end).l.peerReady {
      MappedIsAdvertised(s, a.end);
      CalmFree(s, a);
    }
  }

  lemma CalmFree(s: System, a: Event)
    requires LifeInv(s) && CalmSide(s.At(a.end)) && Frees(s.At(a.end), a)
    ensures !Advertises(s.At(a.end).stream)
    ensures UnmapPending(s, a.end) ==> WithdrawalPending(s, a.end)
  {
    assert SideHolds(s.At(a.end)) && SisciProtocol.Direction(s.At(a.end), s.At(!a.end));
    hide Inv, LifeInv, Ordered, Tracks, InProgress;
  }

  // ------------------------------------------------------------- where the lifetime promise stops

  const MW := MwCalls(true, 0x40_0000, true, true)
  const ALLOC := AllocCalls(true, 1, 0, Some(0x1000), true, true)

  /** The near end creates segment 7 and makes it available; both ends are up. */
  function SetUp(): seq<Event> {
    [Create(false, 7, 0x2000, 0x1000, ALLOC), Service(false, true), ReceiveNone(false), SetAvailable(false, 7), Service(true, true)]
  }

  /** The publication, command by command; the far end maps it. */
  function Transfer(): seq<Event> {
    [SendOk(false), Receive(true, MW), SendOk(false), Receive(true, MW), SendOk(false), Receive(true, MW),
     SendOk(false), Receive(true, MW), ReceiveNone(true)]
  }

  function PublishAndMap(): seq<Event> { SetUp() + Transfer() }

  /** A recorded run agrees with `Run`. */
  lemma {:induction false} UnrollRun(trace: seq<System>, schedule: seq<Event>)
    requires |trace| == |schedule| + 1
    requires forall i :: 0 <= i < |schedule| ==> trace[i + 1] == Step(trace[i], schedule[i])
    ensures Run(trace[0], schedule) == trace[|schedule|]
    decreases |schedule|
  {
    hide Step;
    if schedule != [] { UnrollRun(trace[1..], schedule[1..]); }
  }

  lemma {:induction false} RunAppend(s: System, schedule: seq<Event>, more: seq<Event>)
    ensures Run(s, schedule + more) == Run(Run(s, schedule), more)
    decreases |schedule|
  {
    hide Step;
    if schedule == [] {
      assert schedule + more == more;
    } else {
      assert (schedule + more)[0] == schedule[0] && (schedule + more)[1..] == schedule[1..] + more;
      RunAppend(Step(s, schedule[0]), schedule[1..], more);
    }
  }

  /** Both ends after `PublishAndMap`. */
  ghost predicate SegmentMapped(s: System) {
    && s.near.pc == Unlocked && s.far.pc == Unlocked
    && s.near.l.localBuf && s.near.l.localId == 7 && s.near.l.linkUp && s.near.l.localPublished
    && s.far.l.peerReady && s.far.l.window == Some((0x1000, 0x2000))
    && s.far.taken == |s.near.stream|
  }

  const MINE := FRESH.(localBuf := true, localDma := 0x1000, localSize := 0x2000, localId := 7, localAvailable := true, linkUp := true)
  const READY := System(Side(MINE, Publishing(0), [], 0, 0), Side(FRESH.(linkUp := true), Draining, [], 0, 0))

  lemma SetUpWorks()
    ensures Run(START, SetUp()) == READY
  {
    var s1 := Step(START, Create(false, 7, 0x2000, 0x1000, ALLOC));
    assert s1.near.l == FRESH.(localBuf := true, localDma := 0x1000, localSize := 0x2000, localId := 7);
    var s2 := Step(s1, Service(false, true));
    var s3 := Step(s2, ReceiveNone(false));
    var s4 := Step(s3, SetAvailable(false, 7));
    var s5 := Step(s4, Service(true, true));
    assert s5 == READY;
    hide Step;
    UnrollRun([START, s1, s2, s3, s4, s5], SetUp());
  }

  /** After two of the four commands. */
  const HALFWAY := System(Side(MINE, Publishing(2), [Mailbox.Command(SEGID, 7), Mailbox.Command(SIZE, 0x2000)], 0, 0),
                          Side(FRESH.(linkUp := true, remoteId := 7, remoteSize := 0x2000), Draining, [], 2, 0))

  lemma FirstHalf()
    ensures Step(Step(Step(Step(READY, SendOk(false)), Receive(true, MW)), SendOk(false)), Receive(true, MW)) == HALFWAY
  {
    hide AllocLocal;
    var s2 := Step(Step(READY, SendOk(false)), Receive(true, MW));
    assert s2 == System(Side(MINE, Publishing(1), [Mailbox.Command(SEGID, 7)], 0, 0),
                        Side(FRESH.(linkUp := true, remoteId := 7), Draining, [], 1, 0));
  }

  lemma SecondHalf() returns (s: System)
    ensures s == Step(Step(Step(Step(Step(HALFWAY, SendOk(false)), Receive(true, MW)), SendOk(false)), Receive(true, MW)), ReceiveNone(true))
    ensures SegmentMapped(s)
  {
    hide AllocLocal;
    var s1 := Step(HALFWAY, SendOk(false));
    var s2 := Step(s1, Receive(true, MW));
    assert s2.near == Side(MINE, Publishing(3), s1.near.stream, 0, 0) && |s2.near.stream| == 3;
    assert s2.far == Side(FRESH.(linkUp := true, remoteId := 7, remoteSize := 0x2000, remoteXlat := 0x1000), Draining, [], 3, 0);
    var s3 := Step(s2, SendOk(false));
    assert s3.near.stream == s2.near.stream + [Mailbox.Command(AVAIL, 7)];
    s := Step(Step(s3, Receive(true, MW)), ReceiveNone(true));
  }

  lemma TransferWorks()
    ensures SegmentMapped(Run(READY, Transfer()))
  {
    hide Step, SegmentMapped, READY, HALFWAY;
    FirstHalf();
    var last := SecondHalf();
    var s1 := Step(READY, SendOk(false));
    var s2 := Step(s1, Receive(true, MW));
    var s3 := Step(s2, SendOk(false));
    var s5 := Step(HALFWAY, SendOk(false));
    var s6 := Step(s5, Receive(true, MW));
    var s7 := Step(s6, SendOk(false));
    UnrollRun([READY, s1, s2, s3, HALFWAY, s5, s6, s7, Step(s7, Receive(true, MW)), last], Transfer());
  }

  lemma PublishAndMapWorks()
    ensures SegmentMapped(Run(START, PublishAndMap()))
  {
    hide SegmentMapped, SetUp, Transfer, START, READY;
    SetUpWorks();
    TransferWorks();
    RunAppend(START, SetUp(), Transfer());
  }

  /** A withdrawal whose send fails; a link drop only the owner notices; a second SET_AVAILABLE whose
      publication fails at its first send. */
  function FailedWithdrawal(): seq<Event> { [SetUnavailable(false, 7), SendFail(false), Remove(false, 7)] }

  function UnseenLinkDrop(): seq<Event> { [Service(false, false), Remove(false, 7)] }

  function FailedRepublication(): seq<Event> { [SetAvailable(false, 7), SendFail(false), Remove(false, 7)] }

  /** The owner is about to free what it advertises and its peer has mapped. */
  ghost predicate AboutToDangle(s: System) {
    FreesAdvertised(s, Free(false)) && s.far.l.peerReady && !s.InFlight(false)
  }

  lemma SegmentMappedAdvertises(s: System)
    requires LifeInv(s) && SegmentMapped(s)
    ensures Advertises(s.near.stream)
  {
    hide Inv;
  }

  lemma ContinuationsFree(s: System)
    requires LifeInv(s) && SegmentMapped(s)
    ensures AboutToDangle(Run(s, FailedWithdrawal())) && AboutToDangle(Run(s, UnseenLinkDrop()))
    ensures AboutToDangle(Run(s, FailedRepublication()))
  {
    SegmentMappedAdvertises(s);
    hide LifeInv, Advertises, AllocLocal;
    WithdrawalFrees(s);
    DropFrees(s);
    RepublicationFrees(s);
  }

  lemma WithdrawalFrees(s: System)
    requires SegmentMapped(s) && Advertises(s.near.stream)
    ensures AboutToDangle(Run(s, FailedWithdrawal()))
  {
    hide Advertises, AllocLocal;
    var s1 := Step(s, SetUnavailable(false, 7));
    var s2 := Step(s1, SendFail(false));
    var s3 := Step(s2, Remove(false, 7));
    assert AboutToDangle(s3);
    hide Step, AboutToDangle;
    UnrollRun([s, s1, s2, s3], FailedWithdrawal());
  }

  lemma DropFrees(s: System)
    requires SegmentMapped(s) && Advertises(s.near.stream)
    ensures AboutToDangle(Run(s, UnseenLinkDrop()))
  {
    hide Advertises, AllocLocal;
    var s1 := Step(s, Service(false, false));
    var s2 := Step(s1, Remove(false, 7));
    assert AboutToDangle(s2);
    hide Step, AboutToDangle;
    UnrollRun([s, s1, s2], UnseenLinkDrop());
  }

  lemma RepublicationFrees(s: System)
    requires SegmentMapped(s) && Advertises(s.near.stream)
    ensures AboutToDangle(Run(s, FailedRepublication()))
  {
    hide Advertises, AllocLocal;
    var s1 := Step(s, SetAvailable(false, 7));
    var s2 := Step(s1, SendFail(false));
    var s3 := Step(s2, Remove(false, 7));
    assert AboutToDangle(s3);
    hide Step, AboutToDangle;
    UnrollRun([s, s1, s2, s3], FailedRepublication());
  }

  /** Each of the three lets REMOVE free memory the peer still maps, with nothing on its way to say so. */
  lemma ThreeWaysToDangle(more: seq<Event>)
    requires more == FailedWithdrawal() || more == UnseenLinkDrop() || more == FailedRepublication()
    ensures Dangling(Run(START, PublishAndMap() + more + [Free(false)]), false)
  {
    hide PublishAndMap, Step, SegmentMapped, FailedWithdrawal, UnseenLinkDrop, FailedRepublication, LifeInv, Dangling;
    PublishAndMapWorks();
    var s := Run(START, PublishAndMap());
    ReachableHoldsLife(PublishAndMap());
    ContinuationsFree(s);
    RunAppend(START, PublishAndMap(), more);
    RunAppend(START, PublishAndMap() + more, [Free(false)]);
    var s' := Run(s, more);
    ReachableHoldsLife(PublishAndMap() + more);
    assert Run(s', [Free(false)]) == Step(s', Free(false)) by { RunOne(s', Free(false)); }
    hide Run;
    FreedWhileMapped(s');
  }

  lemma RunOne(s: System, a: Event)
    ensures Run(s, [a]) == Step(s, a)
  {
    hide Step;
    assert [a][1..] == [];
  }

  lemma FreedWhileMapped(s: System)
    requires LifeInv(s) && AboutToDangle(s)
    ensures Dangling(Step(s, Free(false)), false)
  {
    hide LifeInv, AllocLocal;
  }
}
