/** Two SISCI drivers over a pair of one-slot command channels, interleaved at every send, receive
    and lock release. `stream` is everything an end has placed so far and `taken` how much of its
    peer's stream it has received; the slot is full while the two differ. */
module SisciProtocol {
  import opened Basics
  import opened Mailbox
  import opened Sisci

  /** Where an end is while it holds its mutex; `Unlocked` means the mutex is free. */
  datatype Pc = Unlocked | Draining | Publishing(sent: nat) | Unpublishing(id: Word32, thenFree: bool) | Freeing

  /** `mapped` is bookkeeping: where in the peer's stream the publication starts that made the peer ready. */
  datatype Side = Side(l: Local, pc: Pc, stream: seq<Command>, taken: nat, mapped: nat)

  datatype System = System(near: Side, far: Side) {
    function At(end: bool): Side { if end then far else near }
    function Set(end: bool, e: Side): System { if end then this.(far := e) else this.(near := e) }
    /** The slot from `end` to its peer is full. */
    predicate InFlight(end: bool) { At(!end).taken < |At(end).stream| }
  }

  datatype Event = Service(end: bool, linkUp: bool)
                 | Receive(end: bool, calls: MwCalls)
                 | ReceiveNone(end: bool)
                 | SendOk(end: bool)
                 | SendFail(end: bool)
                 | Free(end: bool)
                 | Create(end: bool, id: Word32, size: Word64, defaultSize: Word32, alloc: AllocCalls)
                 | SetAvailable(end: bool, id: Word32)
                 | SetUnavailable(end: bool, id: Word32)
                 | Remove(end: bool, id: Word32)

  /** The command an end is trying to send. */
  function Outgoing(e: Side): Option<Command> {
    if e.pc.Publishing? && e.pc.sent < 4 then Some(Publication(e.l)[e.pc.sent])
    else if e.pc.Unpublishing? then Some(Command(UNAVAIL, e.pc.id))
    else None
  }

  function AfterSend(e: Side): Side
    requires Outgoing(e).Some?
  {
    var e1 := e.(stream := e.stream + [Outgoing(e).value]);
    if e.pc.Unpublishing? then e1.(pc := if e.pc.thenFree then Freeing else Unlocked)
    else if e.pc.sent < 3 then e1.(pc := Publishing(e.pc.sent + 1))
    else e1.(pc := Unlocked, l := e.l.(localPublished := true))
  }

  /** Enter `publish_available_locked`. */
  function TryPublish(e: Side): Side { e.(pc := if WantsPublish(e.l) then Publishing(0) else Unlocked) }

  /** Enter `publish_unavailable_locked`. */
  function TryUnpublish(e: Side, id: Word32, thenFree: bool): Side {
    var should := e.l.linkUp && e.l.localPublished;
    var e1 := e.(l := e.l.(localAvailable := false, localPublished := false));
    if should then e1.(pc := Unpublishing(id, thenFree))
    else e1.(pc := if thenFree then Freeing else Unlocked)
  }

  function Take(e: Side, c: Command, calls: MwCalls): Side {
    e.(l := HandleCommand(e.l, c, calls), taken := e.taken + 1,
       mapped := if c.cmd == AVAIL && e.taken >= 3 then e.taken - 3 else e.mapped)
  }

  function Step(s: System, a: Event): System {
    var e := s.At(a.end);
    match a
    case Service(end, linkUp) =>
      if e.pc != Unlocked then s
      else if !linkUp then s.Set(end, e.(l := MarkPeerUnready(SetLink(e.l, false))))
      else s.Set(end, e.(l := SetLink(e.l, true), pc := Draining))
    case Receive(end, calls) =>
      if e.pc != Draining || !s.InFlight(!end) then s
      else s.Set(end, Take(e, s.At(!end).stream[e.taken], calls))
    case ReceiveNone(end) => if e.pc != Draining || s.InFlight(!end) then s else s.Set(end, TryPublish(e))
    case SendOk(end) => if Outgoing(e).None? || s.InFlight(end) then s else s.Set(end, AfterSend(e))
    case SendFail(end) => if Outgoing(e).None? then s else s.Set(end, e.(pc := Unlocked))
    case Free(end) => if e.pc != Freeing then s else s.Set(end, e.(l := FreeLocal(e.l), pc := Unlocked))
    case Create(end, id, size, defaultSize, alloc) =>
      if e.pc != Unlocked then s else s.Set(end, e.(l := AllocLocal(e.l, id, size, defaultSize, alloc).0))
    case SetAvailable(end, id) =>
      if e.pc != Unlocked || !OwnsSegment(e.l, id) then s
      else s.Set(end, TryPublish(e.(l := e.l.(localAvailable := true, localPublished := false))))
    case SetUnavailable(end, id) =>
      if e.pc != Unlocked || !OwnsSegment(e.l, id) then s else s.Set(end, TryUnpublish(e, id, false))
    case Remove(end, id) =>
      if e.pc != Unlocked || !OwnsSegment(e.l, id) then s else s.Set(end, TryUnpublish(e, id, true))
  }

  function Run(s: System, schedule: seq<Event>): System
    decreases |schedule|
  {
    if schedule == [] then s else Run(Step(s, schedule[0]), schedule[1..])
  }

  const START := System(Side(FRESH, Unlocked, [], 0, 0), Side(FRESH, Unlocked, [], 0, 0))

  // --------------------------------------------------------------------------------- publications

  /** Positions `at .. at+4` of a stream are one whole publication of (id, size, xlat). */
  ghost predicate IsPublication(stream: seq<Command>, at: nat, id: Word32, size: Word64, xlat: Word64) {
    && at + 4 <= |stream|
    && stream[at] == Command(SEGID, id) && stream[at + 1] == Command(SIZE, size)
    && stream[at + 2] == Command(XLAT, xlat) && stream[at + 3] == Command(AVAIL, id)
  }

  /** Each command of a publication directly follows the one before it. */
  ghost predicate Follows(stream: seq<Command>, j: nat)
    requires j < |stream|
  {
    var c := stream[j];
    || (c.cmd == SEGID && c.data < 0x1_0000_0000)
    || (c.cmd == SIZE && j >= 1 && stream[j - 1].cmd == SEGID)
    || (c.cmd == XLAT && j >= 2 && stream[j - 1].cmd == SIZE)
    || (c.cmd == AVAIL && c.data < 0x1_0000_0000 && j >= 3 && stream[j - 1].cmd == XLAT && stream[j - 3] == Command(SEGID, c.data))
    || (c.cmd == UNAVAIL && c.data < 0x1_0000_0000)
  }

  ghost predicate Ordered(stream: seq<Command>) { forall j :: 0 <= j < |stream| ==> Follows(stream, j) }

  /** A publication in progress has placed exactly its first commands, last in the stream. */
  ghost predicate InProgress(e: Side) {
    e.pc.Publishing? ==> e.pc.sent < 4 && e.pc.sent <= |e.stream| && e.stream[|e.stream| - e.pc.sent..] == Publication(e.l)[..e.pc.sent]
  }

  /** What the receiver knows from the `t` commands of `stream` it has taken. */
  ghost predicate Tracks(l: Local, mapped: nat, stream: seq<Command>, t: nat)
    requires t <= |stream|
  {
    && (l.peerIo ==>
          && mapped + 4 <= t
          && IsPublication(stream, mapped, l.remoteId, l.remoteSize, l.remoteXlat)
          && (forall j :: mapped + 4 <= j < t ==> stream[j].cmd == UNAVAIL))
    && (t > 0 && stream[t - 1].cmd == SEGID ==> !l.peerIo && !l.remoteAnnounced && l.remoteId == stream[t - 1].data)
    && (t > 0 && stream[t - 1] == Command(UNAVAIL, l.remoteId) ==> !l.peerIo && !l.remoteAnnounced)
    && (t > 1 && stream[t - 1].cmd == SIZE ==> !l.peerIo && l.remoteSize == stream[t - 1].data)
    && (t > 2 && stream[t - 1].cmd == XLAT ==>
          !l.peerIo && l.remoteXlat == stream[t - 1].data && l.remoteSize == stream[t - 2].data)
  }

  ghost predicate Direction(sender: Side, receiver: Side) {
    && receiver.taken <= |sender.stream| <= receiver.taken + 1
    && Ordered(sender.stream)
    && InProgress(sender)
    && Tracks(receiver.l, receiver.mapped, sender.stream, receiver.taken)
  }

  ghost predicate SideHolds(e: Side) {
    && Consistent(e.l)
    && (e.pc.Publishing? ==> WantsPublish(e.l))
    && (e.pc.Unpublishing? ==> e.l.localBuf && e.l.localId == e.pc.id)
    && (e.pc.Freeing? ==> e.l.localBuf)
    && (e.pc.Unpublishing? || e.pc.Freeing? ==> !e.l.localAvailable && !e.l.localPublished)
    && (e.pc.Draining? ==> e.l.linkUp)
  }

  ghost predicate Inv(s: System) {
    SideHolds(s.near) && SideHolds(s.far) && Direction(s.near, s.far) && Direction(s.far, s.near)
  }

  // ------------------------------------------------------------------------------------- induction

  /** Growing the sender's stream does not change what the receiver has seen. */
  lemma TracksGrows(l: Local, mapped: nat, stream: seq<Command>, t: nat, c: Command)
    requires t <= |stream| && Tracks(l, mapped, stream, t)
    ensures Tracks(l, mapped, stream + [c], t)
  {
    assert forall j :: 0 <= j < |stream| ==> (stream + [c])[j] == stream[j];
  }

  /** The command at `t` is next, and it and the one before it are in order. */
  ghost predicate Due(l: Local, mapped: nat, stream: seq<Command>, t: nat) {
    t < |stream| && Follows(stream, t) && (t > 0 ==> Follows(stream, t - 1)) && Tracks(l, mapped, stream, t)
  }

  ghost predicate Keeps(l: Local, mapped: nat, stream: seq<Command>, t: nat) {
    t <= |stream| && Tracks(l, mapped, stream, t) && Consistent(l) && l.linkUp
  }

  lemma TakeSegId(l: Local, mapped: nat, stream: seq<Command>, t: nat, calls: MwCalls)
    requires Due(l, mapped, stream, t) && Consistent(l) && l.linkUp && stream[t].cmd == SEGID
    ensures Keeps(HandleCommand(l, stream[t], calls), mapped, stream, t + 1)
  {
    hide IsPublication, SetupPeerMw;
  }

  lemma TakeSize(l: Local, mapped: nat, stream: seq<Command>, t: nat, calls: MwCalls)
    requires Due(l, mapped, stream, t) && Consistent(l) && l.linkUp && stream[t].cmd == SIZE
    ensures Keeps(HandleCommand(l, stream[t], calls), mapped, stream, t + 1)
  {
    hide IsPublication, SetupPeerMw, MarkPeerUnready;
  }

  lemma TakeXlat(l: Local, mapped: nat, stream: seq<Command>, t: nat, calls: MwCalls)
    requires Due(l, mapped, stream, t) && Consistent(l) && l.linkUp && stream[t].cmd == XLAT
    ensures Keeps(HandleCommand(l, stream[t], calls), mapped, stream, t + 1)
  {
    hide IsPublication, SetupPeerMw, MarkPeerUnready;
  }

  lemma TakeAvail(l: Local, mapped: nat, stream: seq<Command>, t: nat, calls: MwCalls)
    requires Due(l, mapped, stream, t) && Consistent(l) && l.linkUp && stream[t].cmd == AVAIL
    ensures t >= 3 && Keeps(HandleCommand(l, stream[t], calls), t - 3, stream, t + 1)
  {
    hide MarkPeerUnready;
  }

  lemma TakeUnavail(l: Local, mapped: nat, stream: seq<Command>, t: nat, calls: MwCalls)
    requires Due(l, mapped, stream, t) && Consistent(l) && l.linkUp && stream[t].cmd == UNAVAIL
    ensures Keeps(HandleCommand(l, stream[t], calls), mapped, stream, t + 1)
  {
    hide IsPublication, SetupPeerMw;
  }

  lemma OneOfFive(stream: seq<Command>, t: nat)
    requires t < |stream| && Follows(stream, t)
    ensures stream[t].cmd == SEGID || stream[t].cmd == SIZE || stream[t].cmd == XLAT || stream[t].cmd == AVAIL || stream[t].cmd == UNAVAIL
  {
  }

  /** Taking one more command keeps the receiver in step with the stream: in particular an AVAIL
      finds the size and address of its own publication and a window that is not mapped. */
  lemma TakeTracks(l: Local, mapped: nat, stream: seq<Command>, t: nat, calls: MwCalls)
    requires t < |stream| && Ordered(stream) && Tracks(l, mapped, stream, t) && Consistent(l)
    requires l.linkUp
    ensures var l' := HandleCommand(l, stream[t], calls);
            var mapped' := if stream[t].cmd == AVAIL && t >= 3 then t - 3 else mapped;
            Tracks(l', mapped', stream, t + 1) && Consistent(l') && l'.linkUp
  {
    hide Tracks, Consistent, HandleCommand, Follows;
    assert Follows(stream, t);
    if t > 0 { assert Follows(stream, t - 1); }
    hide Ordered;
    OneOfFive(stream, t);
    if stream[t].cmd == SEGID { TakeSegId(l, mapped, stream, t, calls); }
    else if stream[t].cmd == SIZE { TakeSize(l, mapped, stream, t, calls); }
    else if stream[t].cmd == XLAT { TakeXlat(l, mapped, stream, t, calls); }
    else if stream[t].cmd == AVAIL { TakeAvail(l, mapped, stream, t, calls); }
    else { TakeUnavail(l, mapped, stream, t, calls); }
  }

  /** The last commands of the stream while a publication is under way. */
  lemma LastSent(e: Side, i: nat)
    requires InProgress(e) && e.pc.Publishing? && i < e.pc.sent
    ensures e.stream[|e.stream| - e.pc.sent + i] == Publication(e.l)[i]
  {
    assert e.stream[|e.stream| - e.pc.sent..][i] == Publication(e.l)[..e.pc.sent][i];
  }

  lemma SendFollows(e: Side)
    requires InProgress(e) && Outgoing(e).Some?
    ensures Follows(e.stream + [Outgoing(e).value], |e.stream|)
  {
    if e.pc.Publishing? {
      if e.pc.sent >= 1 { LastSent(e, e.pc.sent - 1); }
      if e.pc.sent == 3 { LastSent(e, 0); }
    }
    hide InProgress;
  }

  lemma OrderedGrows(e: Side)
    requires Ordered(e.stream) && InProgress(e) && Outgoing(e).Some?
    ensures Ordered(e.stream + [Outgoing(e).value])
  {
    SendFollows(e);
    hide InProgress, Outgoing;
    var grown := e.stream + [Outgoing(e).value];
    forall j | 0 <= j < |grown|
      ensures Follows(grown, j)
    {
      if j < |e.stream| { assert Follows(e.stream, j); }
    }
  }

  lemma ProgressGrows(e: Side)
    requires InProgress(e) && Outgoing(e).Some?
    ensures InProgress(AfterSend(e))
  {
    if e.pc.Publishing? && e.pc.sent < 3 {
      var k, c, all := e.pc.sent, Outgoing(e).value, Publication(e.l);
      hide Publication;
      assert (e.stream + [c])[|e.stream| - k..] == e.stream[|e.stream| - k..] + [c];
      assert all[..k + 1] == all[..k] + [c];
    }
  }

  lemma SendKeepsDirection(e: Side, p: Side)
    requires Direction(e, p) && SideHolds(e) && Outgoing(e).Some? && p.taken == |e.stream|
    ensures Direction(AfterSend(e), p) && SideHolds(AfterSend(e))
  {
    hide Ordered, Tracks, InProgress, Publication;
    TracksGrows(p.l, p.mapped, e.stream, p.taken, Outgoing(e).value);
    OrderedGrows(e);
    ProgressGrows(e);
  }

  /** Sending does not touch what the sender tracks of its peer. */
  lemma SendKeepsTracking(e: Side, p: Side)
    requires Direction(p, e) && Outgoing(e).Some?
    ensures Direction(p, AfterSend(e))
  {
    hide Ordered, InProgress, Publication, IsPublication;
  }

  lemma TakeKeepsDirection(e: Side, p: Side, calls: MwCalls)
    requires Direction(p, e) && SideHolds(e) && e.pc == Draining && e.taken < |p.stream|
    ensures Direction(p, Take(e, p.stream[e.taken], calls)) && SideHolds(Take(e, p.stream[e.taken], calls))
  {
    hide Ordered, Tracks, InProgress, Consistent, HandleCommand;
    TakeTracks(e.l, e.mapped, p.stream, e.taken, calls);
  }

  lemma TakeKeepsSending(e: Side, p: Side, calls: MwCalls)
    requires Direction(e, p) && Direction(p, e) && e.pc == Draining && e.taken < |p.stream|
    ensures Direction(Take(e, p.stream[e.taken], calls), p)
  {
    hide Ordered, Tracks, HandleCommand;
  }

  /** A step that neither sends nor receives, seen from both directions. */
  ghost predicate OwnStep(e: Side, e': Side) {
    e' != e ==>
    && e'.stream == e.stream && e'.taken == e.taken && e'.mapped == e.mapped
    && (e'.pc.Publishing? ==> e'.pc.sent == 0)
    && (e'.l.peerIo ==> e'.l.peerIo == e.l.peerIo)
    && (e'.l.remoteAnnounced ==> e.l.remoteAnnounced)
    && e'.l.remoteId == e.l.remoteId && e'.l.remoteSize == e.l.remoteSize && e'.l.remoteXlat == e.l.remoteXlat
  }

  lemma LocalStepKeeps(e: Side, e': Side, p: Side)
    requires OwnStep(e, e') && Direction(e, p) && Direction(p, e)
    ensures Direction(e', p) && Direction(p, e')
  {
    hide Ordered, IsPublication;
  }

  lemma CreateEvent(s: System, a: Event)
    requires Inv(s) && a.Create?
    ensures OwnStep(s.At(a.end), Step(s, a).At(a.end)) && SideHolds(Step(s, a).At(a.end))
    ensures Step(s, a).At(!a.end) == s.At(!a.end)
  {
    hide Direction, AllocLocal, Consistent;
    AllocKeeps(s.At(a.end).l, a.id, a.size, a.defaultSize, a.alloc);
  }

  lemma LocalEvent(s: System, a: Event)
    requires Inv(s) && !(a.Receive? || a.SendOk?)
    ensures OwnStep(s.At(a.end), Step(s, a).At(a.end)) && SideHolds(Step(s, a).At(a.end))
    ensures Step(s, a).At(!a.end) == s.At(!a.end)
  {
    hide Direction, AllocLocal;
    if a.Create? { CreateEvent(s, a); }
  }

  lemma AllocKeeps(l: Local, id: Word32, size: Word64, defaultSize: Word32, calls: AllocCalls)
    requires Consistent(l)
    ensures var l' := AllocLocal(l, id, size, defaultSize, calls).0;
            && Consistent(l')
            && l'.peerIo == l.peerIo && l'.remoteAnnounced == l.remoteAnnounced && l'.remoteId == l.remoteId && l'.remoteSize == l.remoteSize && l'.remoteXlat == l.remoteXlat
            && l'.linkUp == l.linkUp
  {
    hide RequestSize;
  }

  lemma StepKeepsInv(s: System, a: Event)
    requires Inv(s)
    ensures Inv(Step(s, a))
  {
    hide Direction, SideHolds;
    var e, p := s.At(a.end), s.At(!a.end);
    assert Direction(e, p) && Direction(p, e) && SideHolds(e) && SideHolds(p);
    if a.Receive? {
      if e.pc == Draining && s.InFlight(!a.end) {
        TakeKeepsDirection(e, p, a.calls);
        TakeKeepsSending(e, p, a.calls);
        hide Take;
      }
    } else if a.SendOk? {
      if Outgoing(e).Some? && !s.InFlight(a.end) {
        assert p.taken == |e.stream| by { SlotEmpty(e, p); }
        SendKeepsDirection(e, p);
        SendKeepsTracking(e, p);
        hide AfterSend;
      }
      hide Outgoing;
    } else {
      LocalEvent(s, a);
      LocalStepKeeps(e, Step(s, a).At(a.end), p);
      hide Step;
    }
  }

  lemma SlotEmpty(e: Side, p: Side)
    requires Direction(e, p) && p.taken >= |e.stream|
    ensures p.taken == |e.stream|
  {
  }

  lemma {:induction false} RunKeepsInv(s: System, schedule: seq<Event>)
    requires Inv(s)
    ensures Inv(Run(s, schedule))
    decreases |schedule|
  {
    hide Inv, Step;
    if schedule != [] {
      StepKeepsInv(s, schedule[0]);
      RunKeepsInv(Step(s, schedule[0]), schedule[1..]);
    }
  }
}
