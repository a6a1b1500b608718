/** The character-device driver: the outbound window it maps from its peer's SIZE and XLAT commands, and
    the frames it writes through it. */
module AppFrames {
  import opened Basics
  import opened LittleEndian
  import Mailbox

  const HEADER: nat := 16
  const MAGIC: Word32 := 0x49544150

  const SIZE_CMD: Word32 := 0x49544153
  const XLAT_CMD: Word32 := 0x49544158
  const KICK_CMD: Word32 := 0x4954414b

  /** The commands as the peer's state sees them; a KICK and an unknown command leave it alone. */
  datatype Cmd = SIZE | XLAT | OTHER

  datatype Errno = Done | Nothing | NoLink | TooLong | Fault | NotKicked

  /** Which of the calls that set up a window succeed. */
  datatype Calls = Calls(getAddr: bool, setTrans: bool, remap: bool)

  /** What the driver knows of its peer. `announced` is bookkeeping: the last size the peer announced,
      which is the size of its receive buffer. */
  datatype Peer = Peer(linkUp: bool, ready: bool, mapped: bool, mapSize: nat, size: Word64, xlat: Word64, announced: Word64)

  const PROBED: Peer := Peer(false, false, false, 0, 0, 0, 0)

  function FreePeer(p: Peer): Peer { p.(mapped := false, mapSize := 0, size := 0, xlat := 0) }

  function SetUpPeer(p: Peer, window: nat, calls: Calls): (Peer, bool) {
    if p.xlat == 0 || p.size <= HEADER then (p, false)
    else if !calls.getAddr || !calls.setTrans || !calls.remap then (FreePeer(p), false)
    else (FreePeer(p).(mapped := true, mapSize := window, xlat := p.xlat, size := Min(p.size, window)), true)
  }

  function TrySetUp(p: Peer, window: nat, calls: Calls): Peer {
    if p.xlat == 0 || p.size == 0 then p
    else
      var r := SetUpPeer(p, window, calls);
      if r.1 then r.0.(ready := true) else r.0
  }

  function SetLink(p: Peer, up: bool): Peer { p.(linkUp := up, ready := p.ready && up) }

  function Handle(p: Peer, window: nat, cmd: Cmd, data: Word64, calls: Calls): Peer {
    match cmd
    case SIZE => TrySetUp(p.(size := data, announced := data), window, calls)
    case XLAT => TrySetUp(p.(xlat := data), window, calls)
    case OTHER => p
  }

  datatype Event = Link(up: bool) | Command(cmd: Cmd, data: Word64, calls: Calls)

  /** Commands are received only while the link is up. */
  function Step(p: Peer, window: nat, e: Event): Peer {
    match e
    case Link(up) => SetLink(p, up)
    case Command(cmd, data, calls) => if p.linkUp then Handle(p, window, cmd, data, calls) else p
  }

  function Run(p: Peer, window: nat, schedule: seq<Event>): Peer
    decreases |schedule|
  {
    if schedule == [] then p else Step(Run(p, window, schedule[..|schedule| - 1]), window, schedule[|schedule| - 1])
  }

  lemma RunAppend(p: Peer, window: nat, schedule: seq<Event>, e: Event)
    ensures Run(p, window, schedule + [e]) == Step(Run(p, window, schedule), window, e)
  {
    hide Step;
    assert (schedule + [e])[..|schedule|] == schedule;
  }

  /** Over every run, only a peer over an up link is ready, so a link drop stops all commits. */
  lemma {:induction false} ReadyMeansLinkUp(window: nat, schedule: seq<Event>)
    ensures var p := Run(PROBED, window, schedule); p.ready ==> p.linkUp
    decreases |schedule|
  {
    if schedule != [] { ReadyMeansLinkUp(window, schedule[..|schedule| - 1]); }
  }

  // --------------------------------------------------------------------------------- frame bounds

  function PayloadSize(size: Word64): nat { if size <= HEADER then 0 else size - HEADER }

  /** The checks before a frame is written. */
  predicate Commits(p: Peer, len: nat) { p.ready && p.mapped && len < 0x1_0000_0000 && len <= PayloadSize(p.size) }

  /** The promise: every frame the checks let through fits the window and the peer's receive buffer. */
  ghost predicate FramesFit(p: Peer, window: nat) {
    forall len: nat :: Commits(p, len) ==> HEADER + len <= window && HEADER + len <= p.announced
  }

  /** How far into the window a frame can reach when the peer's size is taken to be `size`. */
  function Reach(size: Word64): nat { HEADER + Min(PayloadSize(size), 0xFFFF_FFFF) }

  /** What every run keeps. */
  predicate WellFormed(p: Peer, window: nat) { p.size <= p.announced && (p.mapped ==> p.mapSize == window) }

  ghost predicate Framed(p: Peer, window: nat) {
    WellFormed(p, window) && (p.ready && p.mapped ==> Reach(p.size) <= window && HEADER <= p.announced)
  }

  lemma FramedMeansFit(p: Peer, window: nat)
    requires WellFormed(p, window)
    ensures Framed(p, window) <==> FramesFit(p, window)
  {
    if p.ready && p.mapped {
      var longest := Min(PayloadSize(p.size), 0xFFFF_FFFF);
      assert Commits(p, 0) && Commits(p, longest);
    }
  }

  /** The command maps the window. */
  predicate Maps(p: Peer, e: Event) {
    && p.linkUp && e.Command? && e.calls.getAddr && e.calls.setTrans && e.calls.remap
    && ((e.cmd == SIZE && p.xlat != 0 && e.data > HEADER) || (e.cmd == XLAT && e.data != 0 && p.size > HEADER))
  }

  /** The commands that break the promise. A SIZE is taken although the window stays mapped: it is too
      small for the set-up to be tried, or the address has been zeroed and it exceeds the window. Or a
      window smaller than a header is mapped. */
  predicate Breaks(p: Peer, window: nat, e: Event) {
    || (p.linkUp && e.Command? && e.cmd == SIZE && p.ready && p.mapped
        && (e.data < HEADER || (p.xlat == 0 && Reach(e.data) > window)))
    || (window < HEADER && Maps(p, e))
  }

  lemma StepKeepsFramedIff(p: Peer, window: nat, e: Event)
    requires Framed(p, window)
    ensures WellFormed(Step(p, window, e), window)
    ensures Framed(Step(p, window, e), window) <==> !Breaks(p, window, e)
  {
  }

  /** The promise survives a step exactly if the step is none of these. */
  lemma StepKeepsFramesFitIff(p: Peer, window: nat, e: Event)
    requires WellFormed(p, window) && FramesFit(p, window)
    ensures FramesFit(Step(p, window, e), window) <==> !Breaks(p, window, e)
  {
    hide Step, FramesFit, Framed, Breaks;
    FramedMeansFit(p, window);
    StepKeepsFramedIff(p, window, e);
    FramedMeansFit(Step(p, window, e), window);
  }

  ghost predicate NeverBreaks(p: Peer, window: nat, schedule: seq<Event>)
    decreases |schedule|
  {
    schedule != [] ==>
      var before := schedule[..|schedule| - 1];
      NeverBreaks(p, window, before) && !Breaks(Run(p, window, before), window, schedule[|schedule| - 1])
  }

  /** The promise holds at the start and after each step of the run. */
  ghost predicate AlwaysFit(p: Peer, window: nat, schedule: seq<Event>)
    decreases |schedule|
  {
    && FramesFit(Run(p, window, schedule), window)
    && (schedule != [] ==> AlwaysFit(p, window, schedule[..|schedule| - 1]))
  }

  lemma {:induction false} RunFitsIff(p: Peer, window: nat, schedule: seq<Event>)
    requires WellFormed(p, window) && FramesFit(p, window)
    ensures AlwaysFit(p, window, schedule) <==> NeverBreaks(p, window, schedule)
    ensures AlwaysFit(p, window, schedule) ==> WellFormed(Run(p, window, schedule), window)
    decreases |schedule|
  {
    hide Step, FramesFit, Breaks, WellFormed;
    if schedule != [] {
      var before, e := schedule[..|schedule| - 1], schedule[|schedule| - 1];
      RunFitsIff(p, window, before);
      if AlwaysFit(p, window, before) {
        var q := Run(p, window, before);
        LastFits(p, window, before);
        StepKeepsFramesFitIff(q, window, e);
        StepKeepsWellFormed(q, window, e);
      }
    }
  }

  lemma LastFits(p: Peer, window: nat, schedule: seq<Event>)
    requires AlwaysFit(p, window, schedule)
    ensures FramesFit(Run(p, window, schedule), window)
  {
    hide Run, FramesFit;
  }

  lemma StepKeepsWellFormed(p: Peer, window: nat, e: Event)
    requires WellFormed(p, window)
    ensures WellFormed(Step(p, window, e), window)
  {
  }

  /** Frame bounds, over all orders and contents of SIZE and XLAT, link changes and failed set-ups: at
      every point of a run every frame fits, exactly if no step of the run is one that breaks the promise. */
  lemma FramesAlwaysFitIff(window: nat, schedule: seq<Event>)
    ensures AlwaysFit(PROBED, window, schedule) <==> NeverBreaks(PROBED, window, schedule)
  {
    hide AlwaysFit, NeverBreaks;
    RunFitsIff(PROBED, window, schedule);
  }

  /** A peer announces a buffer larger than a header, at a non-zero address. */
  predicate Sound(e: Event) { e.Command? ==> (e.cmd == SIZE ==> e.data > HEADER) && (e.cmd == XLAT ==> e.data != 0) }

  ghost predicate AllSound(schedule: seq<Event>) { forall i :: 0 <= i < |schedule| ==> Sound(schedule[i]) }

  lemma SoundStep(p: Peer, window: nat, e: Event)
    requires (p.mapped ==> p.xlat != 0) && Sound(e) && window > HEADER
    ensures !Breaks(p, window, e)
    ensures Step(p, window, e).mapped ==> Step(p, window, e).xlat != 0
  {
  }

  /** With such a peer and a window larger than a header, no run breaks the promise. */
  lemma {:induction false} SoundRunsNeverBreak(window: nat, schedule: seq<Event>)
    requires window > HEADER && AllSound(schedule)
    ensures NeverBreaks(PROBED, window, schedule)
    ensures Run(PROBED, window, schedule).mapped ==> Run(PROBED, window, schedule).xlat != 0
    decreases |schedule|
  {
    hide Step, Breaks, Sound;
    if schedule != [] {
      var before, e := schedule[..|schedule| - 1], schedule[|schedule| - 1];
      SoundRunsNeverBreak(window, before);
      SoundStep(Run(PROBED, window, before), window, e);
    }
  }

  /** The frame `len` is committed after the run but does not fit. */
  ghost predicate Overruns(p: Peer, len: nat) { Commits(p, len) && (HEADER + len > p.mapSize || HEADER + len > p.announced) }

  const OK := Calls(true, true, true)

  lemma Connects(size: Word64, xlat: Word64)
    requires size > HEADER && xlat != 0
    ensures Run(PROBED, 0x1000, [Link(true), Command(SIZE, size, OK), Command(XLAT, xlat, OK)]) ==
            Peer(true, true, true, 0x1000, Min(size, 0x1000), xlat, size)
  {
    RunAppend(PROBED, 0x1000, [Link(true), Command(SIZE, size, OK)], Command(XLAT, xlat, OK));
    RunAppend(PROBED, 0x1000, [Link(true)], Command(SIZE, size, OK));
    RunAppend(PROBED, 0x1000, [], Link(true));
    assert [] + [Link(true)] == [Link(true)];
    assert [Link(true)] + [Command(SIZE, size, OK)] == [Link(true), Command(SIZE, size, OK)];
    assert [Link(true), Command(SIZE, size, OK)] + [Command(XLAT, xlat, OK)]
        == [Link(true), Command(SIZE, size, OK), Command(XLAT, xlat, OK)];
  }

  /** Two failing runs. A zero address keeps the window mapped and lets the next size through unchecked;
      a size below a header keeps it mapped over a buffer no header fits. */
  lemma TwoWaysToOverrun()
    ensures var run := [Link(true), Command(SIZE, 0x2000, OK), Command(XLAT, 1, OK)];
            Overruns(Run(PROBED, 0x1000, run + [Command(XLAT, 0, OK)] + [Command(SIZE, 0x2000, OK)]), 0x1FF0)
    ensures var run := [Link(true), Command(SIZE, 0x40, OK), Command(XLAT, 1, OK)];
            Overruns(Run(PROBED, 0x1000, run + [Command(SIZE, 8, OK)]), 0)
  {
    Connects(0x2000, 1);
    Connects(0x40, 1);
    var long, short := [Link(true), Command(SIZE, 0x2000, OK), Command(XLAT, 1, OK)], [Link(true), Command(SIZE, 0x40, OK), Command(XLAT, 1, OK)];
    RunAppend(PROBED, 0x1000, long, Command(XLAT, 0, OK));
    RunAppend(PROBED, 0x1000, long + [Command(XLAT, 0, OK)], Command(SIZE, 0x2000, OK));
    RunAppend(PROBED, 0x1000, short, Command(SIZE, 8, OK));
    hide Run;
  }

  // --------------------------------------------------------------------------------------- frames

  function Header(len: Word32, sequence: Word32): (r: seq<Byte>)
    ensures |r| == HEADER
  {
    Digits(MAGIC, 4) + Digits(len, 4) + Digits(sequence, 4) + Digits(0, 4)
  }

  /** The header on the wire: magic word, length, sequence number and zero flags, each little-endian. */
  lemma HeaderLayout(len: Word32, sequence: Word32)
    ensures var h := Header(len, sequence);
            && h[..4] == [0x50, 0x41, 0x54, 0x49] && Value(h[4..8]) == len && Value(h[8..12]) == sequence && h[12..] == [0, 0, 0, 0]
  {
    FourBytes();
    hide Digits, Value, Power;
    ValueOfDigits(len, 4);
    ValueOfDigits(sequence, 4);
    FixedWords();
    var h := Header(len, sequence);
    assert h[4..8] == Digits(len, 4);
    assert h[8..12] == Digits(sequence, 4);
    assert h[..4] == Digits(MAGIC, 4);
    assert h[12..] == Digits(0, 4);
  }

  lemma FixedWords()
    ensures Digits(MAGIC, 4) == [0x50, 0x41, 0x54, 0x49] && Digits(0, 4) == [0, 0, 0, 0]
  {
    FourDigits(MAGIC);
    FourDigits(0);
    hide Digits;
  }

  lemma FourDigits(n: nat)
    ensures Digits(n, 4) == [n % 256, n / 256 % 256, n / 256 / 256 % 256, n / 256 / 256 / 256 % 256]
  {
    assert Digits(n / 256 / 256, 2) == [n / 256 / 256 % 256, n / 256 / 256 / 256 % 256] by {
      assert Digits(n / 256 / 256 / 256, 1) == [n / 256 / 256 / 256 % 256];
    }
  }

  /** What the receiver makes of its buffer when it is kicked: the payload's length and sequence number. */
  function CompleteRx(rx: seq<Byte>, kicked: Word64): Option<(Word32, Word32)>
    requires |rx| >= HEADER
  {
    ValueIsBounded(rx[..4]); ValueIsBounded(rx[4..8]); ValueIsBounded(rx[8..12]); FourBytes();
    var len := Value(rx[4..8]);
    if Value(rx[..4]) != MAGIC || len != kicked || len > |rx| - HEADER then None
    else Some((len, Value(rx[8..12])))
  }

  lemma FourBytes()
    ensures Power(4) == 0x1_0000_0000
  {
  }

  /** What the receiver accepts starts with the header of a frame of the length it was kicked for, and that frame
      lies inside its buffer. */
  lemma OnlyFramesAreAccepted(rx: seq<Byte>, kicked: Word64)
    requires |rx| >= HEADER && CompleteRx(rx, kicked).Some?
    ensures var (len, sequence) := CompleteRx(rx, kicked).value;
            len == kicked && HEADER + len <= |rx| && rx[..12] == Header(len, sequence)[..12]
  {
    hide Value, Digits, Power;
    FourBytes();
    var (len, sequence) := CompleteRx(rx, kicked).value;
    DigitsOfValue(rx[..4]);
    DigitsOfValue(rx[4..8]);
    DigitsOfValue(rx[8..12]);
    assert rx[..12] == rx[..4] + rx[4..8] + rx[8..12];
  }

  /** A frame written through the window is the frame the receiver reads, whatever else its buffer holds. */
  lemma FrameRoundTrip(rx: seq<Byte>, payload: seq<Byte>, sequence: Word32)
    requires |payload| < 0x1_0000_0000 && |rx| >= HEADER
    requires Header(|payload|, sequence) + payload <= rx
    ensures CompleteRx(rx, |payload|) == Some((|payload|, sequence)) && rx[HEADER..HEADER + |payload|] == payload
  {
    hide Value, Digits, Power;
    FourBytes();
    ValueOfDigits(MAGIC, 4); ValueOfDigits(|payload|, 4); ValueOfDigits(sequence, 4);
    assert rx[..4] == Digits(MAGIC, 4);
    assert rx[4..8] == Digits(|payload|, 4);
    assert rx[8..12] == Digits(sequence, 4);
  }

  /** End to end: the receive buffer and the window are the same memory as far as both reach, so a frame
      committed in a run that never breaks the promise is read back whole from a buffer of the announced size. */
  lemma CommittedFrameIsRead(schedule: seq<Event>, window: seq<Byte>, rx: seq<Byte>, payload: seq<Byte>, sequence: Word32)
    requires NeverBreaks(PROBED, |window|, schedule) && |rx| == Run(PROBED, |window|, schedule).announced
    requires Commits(Run(PROBED, |window|, schedule), |payload|) && Header(|payload|, sequence) + payload <= window
    requires forall i :: 0 <= i < Min(|window|, |rx|) ==> rx[i] == window[i]
    ensures |rx| >= HEADER && CompleteRx(rx, |payload|) == Some((|payload|, sequence))
    ensures rx[HEADER..HEADER + |payload|] == payload
  {
    hide Run, NeverBreaks, AlwaysFit, Header, CompleteRx;
    FramesAlwaysFitIff(|window|, schedule);
    LastFits(PROBED, |window|, schedule);
    var frame := Header(|payload|, sequence) + payload;
    assert rx[..|frame|] == window[..|frame|] == frame;
    FrameRoundTrip(rx, payload, sequence);
  }

  // ---------------------------------------------------------------------------------- the driver

  function ToCmd(cmd: Word32): Cmd { if cmd == SIZE_CMD then SIZE else if cmd == XLAT_CMD then XLAT else OTHER }

  /** The command steps of a drain, each with the outcomes of the calls it made. */
  function Events(taken: seq<Mailbox.Command>, calls: seq<Calls>): seq<Event>
    requires |taken| <= |calls|
  {
    seq(|taken|, i requires 0 <= i < |taken| => Command(ToCmd(taken[i].cmd), taken[i].data, calls[i]))
  }

  /** What a driver tells its peer of its receive buffer. */
  function Announcement(rxBuf: (Word64, Word64)): seq<Mailbox.Command> {
    [Mailbox.Command(SIZE_CMD, rxBuf.0), Mailbox.Command(XLAT_CMD, rxBuf.1)]
  }

  class App {
    /** The memory behind the outbound window. */
    const peerIo: array<Byte>
    var linkUp: bool
    var ready: bool
    var mapped: bool
    var mapSize: nat
    var size: Word64
    var xlat: Word64
    var txSeq: Word32
    /** The receive buffer's size and address, once it is set up. */
    var rxBuf: Option<(Word64, Word64)>
    ghost var announced: Word64

    ghost function View(): Peer
      reads this
    {
      Peer(linkUp, ready, mapped, mapSize, size, xlat, announced)
    }

    constructor (peerIo: array<Byte>)
      ensures this.peerIo == peerIo && View() == PROBED && txSeq == 0 && rxBuf == None
    {
      this.peerIo := peerIo;
      linkUp, ready, mapped, mapSize, size, xlat, txSeq, announced := false, false, false, 0, 0, 0, 0, 0;
      rxBuf := None;
    }

    method UpdateLink(up: bool)
      modifies this
      ensures View() == SetLink(old(View()), up) && txSeq == old(txSeq) && rxBuf == old(rxBuf)
    {
      linkUp := up;
      if !up { ready := false; }
    }

    method FreePeerMw()
      modifies this
      ensures View() == FreePeer(old(View())) && txSeq == old(txSeq) && rxBuf == old(rxBuf)
    {
      mapped, mapSize, size, xlat := false, 0, 0, 0;
    }

    method SetUpPeerMw(calls: Calls) returns (ok: bool)
      modifies this
      ensures ok <==> old(xlat) != 0 && old(size) > 16 && calls.getAddr && calls.setTrans && calls.remap
      ensures ok ==> mapped && mapSize == peerIo.Length && xlat == old(xlat) && size == Min(old(size), peerIo.Length)
      ensures !ok && old(xlat) != 0 && old(size) > 16 ==> !mapped && xlat == 0 && size == 0
      ensures (View(), ok) == SetUpPeer(old(View()), peerIo.Length, calls) && txSeq == old(txSeq) && rxBuf == old(rxBuf)
    {
      var peerXlat, peerSize := xlat, size;
      if peerXlat == 0 || peerSize <= HEADER { return false; }
      FreePeerMw();
      if !calls.getAddr || !calls.setTrans || !calls.remap { return false; }
      mapped := true;
      mapSize, xlat, size := peerIo.Length, peerXlat, Min(peerSize, peerIo.Length);
      return true;
    }

    method TrySetUpPeer(calls: Calls)
      modifies this
      ensures View() == TrySetUp(old(View()), peerIo.Length, calls) && txSeq == old(txSeq) && rxBuf == old(rxBuf)
    {
      if xlat == 0 || size == 0 { return; }
      var ok := SetUpPeerMw(calls);
      if ok { ready := true; }
    }

    method HandleCommand(cmd: Cmd, data: Word64, calls: Calls)
      modifies this
      ensures View() == Handle(old(View()), peerIo.Length, cmd, data, calls) && txSeq == old(txSeq) && rxBuf == old(rxBuf)
    {
      match cmd
      case SIZE =>
        size, announced := data, data;
        TrySetUpPeer(calls);
      case XLAT =>
        xlat := data;
        TrySetUpPeer(calls);
      case OTHER =>
    }

    method CopyToIo(at: nat, bytes: seq<Byte>)
      requires at + |bytes| <= peerIo.Length
      modifies peerIo
      ensures peerIo[..] == old(peerIo[..at]) + bytes + old(peerIo[at + |bytes|..])
    {
      for i := 0 to |bytes|
        invariant peerIo[..] == old(peerIo[..at]) + bytes[..i] + old(peerIo[at + i..])
      {
        peerIo[at + i] := bytes[i];
      }
    }

    /** Receive and handle commands until the mailbox is empty, as long as `calls` provides for them. It stops early
        only for want of `calls`, and otherwise has received everything the peer had placed before. */
    method Drain(link: Mailbox.Link, end: bool, calls: seq<Calls>) returns (drained: bool, ghost taken: seq<Mailbox.Command>)
      requires linkUp && Mailbox.Inv(link.s) && link.s.At(end).driver.Idle?
      modifies this, link
      ensures Mailbox.Inv(link.s) && link.s.At(end).driver.Idle?
      ensures |taken| <= |calls| && View() == Run(old(View()), peerIo.Length, Events(taken, calls))
      ensures link.s.At(end).received == old(link.s.At(end).received) + Mailbox.Pairs(taken)
      ensures link.s.At(end).placed == old(link.s.At(end).placed) && link.s.At(end).log == old(link.s.At(end).log)
      ensures txSeq == old(txSeq) && rxBuf == old(rxBuf)
      ensures !drained ==> |taken| == |calls|
      ensures drained ==> Mailbox.Pairs(old(link.s.At(!end).placed)) <= link.s.At(end).received
    {
      hide Mailbox.Inv, Step, Handle;
      drained, taken := false, [];
      for i := 0 to |calls|
        invariant Mailbox.Inv(link.s) && link.s.At(end).driver.Idle?
        invariant |taken| == i && linkUp && View() == Run(old(View()), peerIo.Length, Events(taken, calls))
        invariant link.s.At(end).received == old(link.s.At(end).received) + Mailbox.Pairs(taken)
        invariant link.s.At(end).placed == old(link.s.At(end).placed) && link.s.At(end).log == old(link.s.At(end).log)
        invariant txSeq == old(txSeq) && rxBuf == old(rxBuf)
        invariant old(link.s.At(!end).placed) <= link.s.At(!end).placed
      {
        ghost var before, placed := link.s.At(end).received, link.s.At(!end).placed;
        var ok, cmd, data := Mailbox.RecvCmd(link, end);
        if !ok {
          Mailbox.PairsPrefix(old(link.s.At(!end).placed), placed);
          return true, taken;
        }
        assert cmd < 0x1_0000_0000 && data < 0x1_0000_0000_0000_0000 by { Mailbox.ReceivedIsCommand(link.s, end, |before|); }
        ghost var last := Mailbox.Command(cmd, data);
        Mailbox.PairsAppend(taken, last);
        RunAppend(old(View()), peerIo.Length, Events(taken, calls), Command(ToCmd(cmd), data, calls[i]));
        assert Events(taken + [last], calls) == Events(taken, calls) + [Command(ToCmd(cmd), data, calls[i])];
        StepIsHandle(View(), peerIo.Length, Command(ToCmd(cmd), data, calls[i]));
        HandleCommand(ToCmd(cmd), data, calls[i]);
        taken := taken + [last];
      }
    }

    /** Announce the own receive buffer, up to the first failed send. */
    method PublishReady(link: Mailbox.Link, end: bool) returns (ret: Mailbox.Outcome, ghost count: nat)
      requires rxBuf.Some? && Mailbox.Inv(link.s) && link.s.At(end).driver.Idle?
      modifies link
      ensures Mailbox.Inv(link.s) && link.s.At(end).driver.Idle? && count <= 2 && (ret == Mailbox.Sent <==> count == 2)
      ensures link.s.At(end).received == old(link.s.At(end).received)
      ensures link.s.At(end).placed == old(link.s.At(end).placed) + Announcement(rxBuf.value)[..count]
      ensures link.s.At(end).log == old(link.s.At(end).log) + Mailbox.Logged(Announcement(rxBuf.value), count, ret)
    {
      hide Mailbox.Inv, Mailbox.SentUpTo, Mailbox.Logged;
      count := 0;
      ghost var before, all := link.s.At(end), Announcement(rxBuf.value);
      Mailbox.NothingSent(before, all);
      ret := Mailbox.SendNext(link, end, SIZE_CMD, rxBuf.value.0, before, all, 0);
      if ret != Mailbox.Sent { return; }
      count := 1;
      ret := Mailbox.SendNext(link, end, XLAT_CMD, rxBuf.value.1, before, all, 1);
      if ret != Mailbox.Sent { return; }
      count := 2;
      Mailbox.AllSent(link.s.At(end), before, all);
    }

    /** The work function: follow the link, set up the receive buffer (`inbound` is what that yields), drain the
        mailbox and, while the peer is not ready, announce the buffer. The peer's state takes exactly the
        steps of the commands received, and frames keep fitting unless one of these breaks the promise. */
    method Service(link: Mailbox.Link, end: bool, up: bool, inbound: Option<(Word64, Word64)>, calls: seq<Calls>)
        returns (drained: bool, ghost taken: seq<Mailbox.Command>, ghost count: nat, ghost ret: Mailbox.Outcome)
      requires Framed(View(), peerIo.Length) && Mailbox.Inv(link.s) && link.s.At(end).driver.Idle?
      modifies this, link
      ensures Mailbox.Inv(link.s) && link.s.At(end).driver.Idle?
      ensures |taken| <= |calls| && count <= 2 && txSeq == old(txSeq)
      ensures View() == Run(old(View()), peerIo.Length, [Link(up)] + Events(taken, calls))
      ensures NeverBreaks(old(View()), peerIo.Length, [Link(up)] + Events(taken, calls)) ==> Framed(View(), peerIo.Length)
      ensures link.s.At(end).received == old(link.s.At(end).received) + Mailbox.Pairs(taken)
      ensures rxBuf == if up && old(rxBuf).None? then inbound else old(rxBuf)
      ensures !drained ==> |taken| == |calls|
      ensures up && rxBuf.Some? && drained ==> Mailbox.Pairs(old(link.s.At(!end).placed)) <= link.s.At(end).received
      ensures if up && rxBuf.Some? && drained && !ready
              then
                && link.s.At(end).placed == old(link.s.At(end).placed) + Announcement(rxBuf.value)[..count]
                && link.s.At(end).log == old(link.s.At(end).log) + Mailbox.Logged(Announcement(rxBuf.value), count, ret)
                && (count < 2 ==> ret != Mailbox.Sent)
              else link.s.At(end).placed == old(link.s.At(end).placed) && link.s.At(end).log == old(link.s.At(end).log)
    {
      hide Step, Framed, NeverBreaks, Mailbox.Inv, Handle, Mailbox.Logged;
      drained, taken, count, ret := true, [], 0, Mailbox.Sent;
      ghost var start := View();
      assert Events([], calls) == [] && [Link(up)] + [] == [Link(up)];
      LinkRun(start, peerIo.Length, up);
      UpdateLink(up);
      if up && rxBuf.None? { rxBuf := inbound; }
      if up && rxBuf.Some? {
        drained, taken := Drain(link, end, calls);
        RunJoin(start, peerIo.Length, [Link(up)], Events(taken, calls));
        if drained && !ready { ret, count := PublishReady(link, end); }
      }
      ghost var events := [Link(up)] + Events(taken, calls);
      if NeverBreaks(start, peerIo.Length, events) { FramedAfter(start, peerIo.Length, events); }
    }

    /** Commit the payload already in the window: write its header and kick the peer. The header is
        written exactly when the checks pass; the kick is placed exactly on success. */
    method TxCommit(link: Mailbox.Link, end: bool, len: nat) returns (ret: Errno, ghost sent: Mailbox.Outcome)
      requires Framed(View(), peerIo.Length) && Mailbox.Inv(link.s) && link.s.At(end).driver.Idle?
      modifies this`txSeq, peerIo, link
      ensures Mailbox.Inv(link.s) && link.s.At(end).driver.Idle?
      ensures ret.Done? || ret.NotKicked? <==> Commits(View(), len)
      ensures Commits(View(), len) ==>
                && len < 0x1_0000_0000 && HEADER + len <= peerIo.Length
                && txSeq == (old(txSeq) + 1) % 0x1_0000_0000
                && peerIo[..] == Header(len, txSeq) + old(peerIo[HEADER..])
      ensures !Commits(View(), len) ==> txSeq == old(txSeq) && peerIo[..] == old(peerIo[..])
      ensures link.s.At(end).placed == old(link.s.At(end).placed) + if ret.Done? then [Mailbox.Command(KICK_CMD, len)] else []
      ensures link.s.At(end).log == old(link.s.At(end).log)
              + if Commits(View(), len) then [(Mailbox.Command(KICK_CMD, len), sent)] else []
      ensures (ret.Done? ==> sent == Mailbox.Sent) && (ret.NotKicked? ==> sent != Mailbox.Sent)
    {
      hide Header, Mailbox.Inv, Mailbox.Pairs;
      sent := Mailbox.Again;
      if !ready || !mapped { return NoLink, sent; }
      if len > 0xFFFF_FFFF || len > PayloadSize(size) { return TooLong, sent; }
      txSeq := (txSeq + 1) % 0x1_0000_0000;
      CopyToIo(0, Header(len, txSeq));
      var kicked := Mailbox.SendCmd(link, end, KICK_CMD, len);
      return if kicked == Mailbox.Sent then Done else NotKicked, kicked;
    }

    /** Write one frame. `copied` is how much of the payload the copy from user space manages. Whatever
        happens, nothing beyond header and payload is touched; on success the whole frame is in the window
        under the next sequence number and the peer has been kicked. */
    method Write(link: Mailbox.Link, end: bool, payload: seq<Byte>, copied: nat)
        returns (ret: Errno, ghost sent: Mailbox.Outcome)
      requires Framed(View(), peerIo.Length) && Mailbox.Inv(link.s) && link.s.At(end).driver.Idle?
      requires copied <= |payload|
      modifies this`txSeq, peerIo, link
      ensures Mailbox.Inv(link.s) && link.s.At(end).driver.Idle?
      ensures ret.Done? || ret.NotKicked? <==> payload != [] && Commits(View(), |payload|) && copied == |payload|
      ensures ret.Done? || ret.NotKicked? ==>
                && |payload| < 0x1_0000_0000 && HEADER + |payload| <= peerIo.Length
                && txSeq == (old(txSeq) + 1) % 0x1_0000_0000
                && peerIo[..] == Header(|payload|, txSeq) + (payload + old(peerIo[HEADER + |payload|..]))
      ensures ret.Fault? ==>
                && HEADER + |payload| <= peerIo.Length && txSeq == old(txSeq)
                && peerIo[..] == old(peerIo[..HEADER]) + payload[..copied] + old(peerIo[HEADER + copied..])
      ensures ret.NoLink? || ret.TooLong? || ret.Nothing? ==> txSeq == old(txSeq) && peerIo[..] == old(peerIo[..])
      ensures link.s.At(end).placed == old(link.s.At(end).placed) + if ret.Done? then [Mailbox.Command(KICK_CMD, |payload|)] else []
      ensures link.s.At(end).log == old(link.s.At(end).log)
              + if ret.Done? || ret.NotKicked? then [(Mailbox.Command(KICK_CMD, |payload|), sent)] else []
      ensures (ret.Done? ==> sent == Mailbox.Sent) && (ret.NotKicked? ==> sent != Mailbox.Sent)
    {
      hide Header, Mailbox.Inv, Mailbox.Pairs;
      sent := Mailbox.Again;
      if payload == [] { return Nothing, sent; }
      if !ready || !mapped { return NoLink, sent; }
      if |payload| > 0xFFFF_FFFF || |payload| > PayloadSize(size) { return TooLong, sent; }
      CopyToIo(HEADER, payload[..copied]);
      if copied < |payload| { return Fault, sent; }
      assert payload[..copied] == payload;
      assert peerIo[HEADER..] == payload + old(peerIo[HEADER + |payload|..]);
      ret, sent := TxCommit(link, end, |payload|);
    }
  }

  lemma {:induction false} RunJoin(p: Peer, window: nat, first: seq<Event>, more: seq<Event>)
    ensures Run(p, window, first + more) == Run(Run(p, window, first), window, more)
    decreases |more|
  {
    hide Step;
    if more == [] {
      assert first + more == first;
    } else {
      var before := more[..|more| - 1];
      RunJoin(p, window, first, before);
      assert (first + more)[..|first + more| - 1] == first + before;
    }
  }

  lemma LinkRun(p: Peer, window: nat, up: bool)
    ensures Run(p, window, [Link(up)]) == SetLink(p, up)
  {
    assert [Link(up)][..0] == [];
  }

  lemma StepIsHandle(p: Peer, window: nat, e: Event)
    requires p.linkUp && e.Command?
    ensures Step(p, window, e) == Handle(p, window, e.cmd, e.data, e.calls) && Step(p, window, e).linkUp
  {
  }

  lemma FramedAfter(p: Peer, window: nat, schedule: seq<Event>)
    requires Framed(p, window) && NeverBreaks(p, window, schedule)
    ensures Framed(Run(p, window, schedule), window)
  {
    hide Run, AlwaysFit, NeverBreaks, FramesFit;
    FramedMeansFit(p, window);
    RunFitsIff(p, window, schedule);
    LastFits(p, window, schedule);
    FramedMeansFit(Run(p, window, schedule), window);
  }
}
