/** One end of the SISCI segment driver: its state and what each locked section does to it. Calls
    into the NTB core and the DMA allocator are parameters. The model stops at removal. */
module Sisci {
  import opened Basics
  import opened Mailbox

  const SEGID: Word32 := 0x53434944
  const SIZE: Word32 := 0x53434953
  const XLAT: Word32 := 0x53434958
  const AVAIL: Word32 := 0x53434941
  const UNAVAIL: Word32 := 0x53434955

  /** The driver's fields. `localBuf` and `peerIo` say whether the pointers are set; `window` is the
      translation programmed into the outbound memory window. */
  datatype Local = Local(linkUp: bool, localAvailable: bool, localPublished: bool, remoteAnnounced: bool, peerReady: bool,
                         localBuf: bool, localDma: Word64, localSize: Word64, localId: Word32,
                         peerIo: bool, peerMapSize: Word64, peerUsable: Word64, window: Option<(Word64, Word64)>,
                         remoteXlat: Word64, remoteSize: Word64, remoteId: Word32)

  const FRESH := Local(false, false, false, false, false, false, 0, 0, 0, false, 0, 0, None, 0, 0, 0)

  /** Outcomes of the calls that map the peer's memory window. */
  datatype MwCalls = MwCalls(addrOk: bool, mapSize: Word64, transOk: bool, remapOk: bool)

  /** Outcomes of the calls that allocate a segment; `dma` is None when the allocation fails. */
  datatype AllocCalls = AllocCalls(alignOk: bool, sizeAlign: Word64, sizeMax: Word64, dma: Option<Word64>, dmaAligned: bool,
                                   transOk: bool)

  datatype Errno = Done | Busy | TooBig | Invalid | NoMemory | NoEntry | NoLinkError | Failed

  function Min64(a: Word64, b: Word64): Word64 { if a < b then a else b }

  // ------------------------------------------------------------------------------- locked sections

  function SetLink(l: Local, up: bool): Local {
    if up then l.(linkUp := true)
    else l.(linkUp := false, peerReady := false, remoteAnnounced := false, localPublished := false)
  }

  function MarkPeerUnready(l: Local): Local {
    l.(peerIo := false, window := None, peerMapSize := 0, peerUsable := 0, peerReady := false)
  }

  function FreeLocal(l: Local): Local {
    l.(localBuf := false, localDma := 0, localSize := 0, localId := 0, localAvailable := false, localPublished := false)
  }

  function SetupPeerMw(l: Local, calls: MwCalls): Local {
    if l.peerIo || !l.remoteAnnounced || l.remoteXlat == 0 || l.remoteSize == 0 || !calls.addrOk || !calls.transOk then l
    else if !calls.remapOk then l.(window := None)
    else
      l.(window := Some((l.remoteXlat, l.remoteSize)), peerIo := true, peerMapSize := calls.mapSize,
         peerUsable := Min64(l.remoteSize, calls.mapSize), peerReady := true)
  }

  /** One pass of the drain loop's switch. */
  function HandleCommand(l: Local, c: Command, calls: MwCalls): Local {
    if c.cmd == SEGID then MarkPeerUnready(l).(remoteId := Low(c.data), remoteAnnounced := false)
    else if c.cmd == SIZE then l.(remoteSize := c.data)
    else if c.cmd == XLAT then l.(remoteXlat := c.data)
    else if c.cmd == AVAIL then SetupPeerMw(l.(remoteId := Low(c.data), remoteAnnounced := true), calls)
    else if c.cmd == UNAVAIL then
      if l.remoteId == Low(c.data) then MarkPeerUnready(l.(remoteAnnounced := false)) else l
    else l
  }

  /** The drain loop over the commands it received, each with the outcomes of the calls it made. */
  function HandleAll(l: Local, cs: seq<Command>, calls: seq<MwCalls>): Local
    requires |cs| <= |calls|
    decreases |cs|
  {
    if cs == [] then l
    else HandleCommand(HandleAll(l, cs[..|cs| - 1], calls), cs[|cs| - 1], calls[|cs| - 1])
  }

  predicate WantsPublish(l: Local) { l.linkUp && l.localAvailable && l.localBuf && !l.localPublished }

  /** The four commands of a publication. */
  function Publication(l: Local): seq<Command> {
    [Command(SEGID, l.localId), Command(SIZE, l.localSize), Command(XLAT, l.localDma), Command(AVAIL, l.localId)]
  }

  predicate OwnsSegment(l: Local, id: Word32) { l.localBuf && l.localId == id }

  lemma AlignUpFits(size: Word64, align: Word64)
    requires align > 1 && size <= 0xFFFF_FFFF_FFFF_FFFF - (align - 1)
    ensures 0 <= (size + align - 1) / align * align < 0x1_0000_0000_0000_0000
  {
    var x := size + align - 1;
    assert x == x / align * align + x % align;
  }

  function AlignUp(size: Word64, align: Word64): Word64
    requires align > 1 && size <= 0xFFFF_FFFF_FFFF_FFFF - (align - 1)
  {
    AlignUpFits(size, align);
    (size + align - 1) / align * align
  }

  function RequestSize(size: Word64, align: Word64): Option<Word64> {
    if align <= 1 then Some(size)
    else if size > 0xFFFF_FFFF_FFFF_FFFF - (align - 1) then None
    else Some(AlignUp(size, align))
  }

  /** Allocate and translate a buffer for an end that has none. */
  function Allocate(l: Local, id: Word32, want: Word64, calls: AllocCalls): (Local, Errno) {
    if !calls.alignOk then (l, Failed)
    else
      var request := RequestSize(want, calls.sizeAlign);
      if request.None? || (calls.sizeMax != 0 && request.value > calls.sizeMax) then (l, TooBig)
      else if request.value == 0 then (l, Invalid)
      else if calls.dma.None? then (l, NoMemory)
      else if !calls.dmaAligned then (l.(localBuf := false, localDma := 0), Invalid)
      else if !calls.transOk then (l.(localBuf := false, localDma := 0), Failed)
      else
        (l.(localBuf := true, localDma := calls.dma.value, localSize := request.value, localId := id,
            localAvailable := false, localPublished := false), Done)
  }

  /** CREATE_SEGMENT. An existing segment is reused, refused or freed first. */
  function AllocLocal(l: Local, id: Word32, size: Word64, defaultSize: Word32, calls: AllocCalls): (Local, Errno) {
    var want := if size == 0 then defaultSize else size;
    if l.localBuf && l.localId == id && l.localSize >= want then (l, Done)
    else if l.localBuf && l.localAvailable then (l, Busy)
    else Allocate(if l.localBuf then FreeLocal(l) else l, id, want, calls)
  }

  /** The least multiple of the alignment that covers a size; none below 2^64 means no request. */
  lemma RequestIsLeast(size: Word64, align: Word64)
    ensures var request := RequestSize(size, align);
            if request.Some? then
              request.value >= size && (align > 1 ==> request.value % align == 0 && request.value < size + align) && (align <= 1 ==> request.value == size)
            else align > 1 && size + align > 0x1_0000_0000_0000_0000
  {
    if align > 1 && size <= 0xFFFF_FFFF_FFFF_FFFF - (align - 1) {
      var x := size + align - 1;
      assert x == x / align * align + x % align;
      MultipleOf(x / align, align);
    }
  }

  lemma MultipleOf(k: nat, align: nat)
    requires align > 0
    ensures k * align % align == 0
  {
    var x := k * align;
    var q, r := x / align, x % align;
    assert x == q * align + r;
    assert (k - q) * align == r;
    if k - q >= 1 {
      Scaled(1, k - q, align);
    } else if k - q <= -1 {
      Scaled(k - q, -1, align);
    }
  }

  lemma Scaled(a: int, b: int, d: nat)
    requires a <= b
    ensures a * d <= b * d
  {
  }

  /** A new segment has the least aligned size that covers the wanted one, within the window's limit; it is refused
      only for a failing call, an empty request, or a request that does not fit. */
  lemma AllocateMeans(l: Local, id: Word32, want: Word64, calls: AllocCalls)
    requires !l.localBuf
    ensures var (l', ret) := Allocate(l, id, want, calls);
            && ret != Busy && (ret == Done <==> l'.localBuf)
            && (ret != Done ==> l' == l || l' == l.(localDma := 0))
            && (ret == Done ==>
                  && l' == l.(localBuf := true, localDma := l'.localDma, localSize := l'.localSize, localId := id,
                              localAvailable := false, localPublished := false)
                  && calls.dma == Some(l'.localDma) && calls.alignOk && calls.dmaAligned && calls.transOk
                  && want <= l'.localSize && 0 < l'.localSize && (calls.sizeMax != 0 ==> l'.localSize <= calls.sizeMax)
                  && (calls.sizeAlign > 1 ==> l'.localSize % calls.sizeAlign == 0 && l'.localSize < want + calls.sizeAlign)
                  && (calls.sizeAlign <= 1 ==> l'.localSize == want))
            && (ret != Done && calls.alignOk && calls.dma.Some? && calls.dmaAligned && calls.transOk ==>
                  || want == 0
                  || (calls.sizeAlign > 1 && want + calls.sizeAlign > 0x1_0000_0000_0000_0000)
                  || (calls.sizeMax != 0 && want + (if calls.sizeAlign > 1 then calls.sizeAlign - 1 else 0) > calls.sizeMax))
  {
    RequestIsLeast(want, calls.sizeAlign);
    hide RequestSize;
  }

  /** CREATE succeeds exactly if the end then owns the segment with at least the wanted size. It keeps what fits,
      refuses to replace what is available, and otherwise the old segment is gone. */
  lemma CreateMeans(l: Local, id: Word32, size: Word64, defaultSize: Word32, calls: AllocCalls)
    ensures var want: Word64 := if size == 0 then defaultSize else size;
            var (l', ret) := AllocLocal(l, id, size, defaultSize, calls);
            var kept := l.localBuf && l.localId == id && l.localSize >= want;
            && (ret == Done <==> l'.localBuf && l'.localId == id && l'.localSize >= want)
            && (ret == Busy <==> l.localBuf && !kept && l.localAvailable)
            && (kept || ret == Busy ==> l' == l)
            && (!kept && ret != Busy ==> (l', ret) == Allocate(if l.localBuf then FreeLocal(l) else l, id, want, calls))
  {
    hide Allocate;
    AllocateMeans(if l.localBuf then FreeLocal(l) else l, id, if size == 0 then defaultSize else size, calls);
  }

  /** CONNECT_SEGMENT after its wait. */
  function Connect(l: Local, id: Word32): Option<Word64> {
    if !l.peerReady || l.remoteId != id then None else Some(l.peerUsable)
  }

  // ---------------------------------------------------------------- what every locked section keeps

  /** At every lock release: a published segment is available, allocated and behind an up link; a
      ready peer is announced, mapped over an up link through a programmed window (and only then is one programmed), and usable up to the smaller of the announced
      size and the window. */
  ghost predicate Consistent(l: Local) {
    && (l.localPublished ==> l.localAvailable && l.linkUp)
    && (l.localAvailable ==> l.localBuf)
    && (l.peerReady <==> l.peerIo)
    && (l.peerIo <==> l.window != None)
    && (l.remoteAnnounced ==> l.linkUp)
    && (l.peerReady ==>
          && l.remoteAnnounced && l.linkUp
          && l.window == Some((l.remoteXlat, l.remoteSize))
          && l.remoteXlat != 0 && l.remoteSize != 0
          && l.peerUsable == Min64(l.remoteSize, l.peerMapSize))
  }

  // ------------------------------------------------------------------------------ the driver object

  class Device {
    var linkUp: bool
    var localAvailable: bool
    var localPublished: bool
    var remoteAnnounced: bool
    var peerReady: bool
    var localBuf: bool
    var localDma: Word64
    var localSize: Word64
    var localId: Word32
    var peerIo: bool
    var peerMapSize: Word64
    var peerUsable: Word64
    var window: Option<(Word64, Word64)>
    var remoteXlat: Word64
    var remoteSize: Word64
    var remoteId: Word32

    ghost function View(): Local
      reads this
    {
      Local(linkUp, localAvailable, localPublished, remoteAnnounced, peerReady, localBuf, localDma, localSize, localId,
            peerIo, peerMapSize, peerUsable, window, remoteXlat, remoteSize, remoteId)
    }

    constructor ()
      ensures View() == FRESH
    {
      linkUp, localAvailable, localPublished, remoteAnnounced, peerReady := false, false, false, false, false;
      localBuf, localDma, localSize, localId := false, 0, 0, 0;
      peerIo, peerMapSize, peerUsable, window := false, 0, 0, None;
      remoteXlat, remoteSize, remoteId := 0, 0, 0;
    }

    method UpdateLink(up: bool)
      modifies this
      ensures View() == SetLink(old(View()), up)
    {
      linkUp := up;
      if !up {
        peerReady := false;
        remoteAnnounced := false;
        localPublished := false;
      }
    }

    method UnmapPeer()
      modifies this
      ensures View() == MarkPeerUnready(old(View()))
    {
      if peerIo {
        peerIo := false;
      }
      window := None;
      peerMapSize := 0;
      peerUsable := 0;
      peerReady := false;
    }

    method FreeSegment()
      modifies this
      ensures View() == FreeLocal(old(View()))
    {
      if localBuf {
        localBuf := false;
      }
      localDma := 0;
      localSize := 0;
      localId := 0;
      localAvailable := false;
      localPublished := false;
    }

    method MapPeer(calls: MwCalls)
      modifies this
      ensures View() == SetupPeerMw(old(View()), calls)
    {
      if peerIo { return; }
      if !remoteAnnounced || remoteXlat == 0 || remoteSize == 0 { return; }
      if !calls.addrOk { return; }
      if !calls.transOk { return; }
      window := Some((remoteXlat, remoteSize));
      peerIo := calls.remapOk;
      if !peerIo {
        window := None;
        return;
      }
      peerMapSize := calls.mapSize;
      peerUsable := Min64(remoteSize, calls.mapSize);
      peerReady := true;
    }

    method Dispatch(cmd: Word32, data: Word64, calls: MwCalls)
      modifies this
      ensures View() == HandleCommand(old(View()), Command(cmd, data), calls)
    {
      if cmd == SEGID {
        UnmapPeer();
        remoteId := Low(data);
        remoteAnnounced := false;
      } else if cmd == SIZE {
        remoteSize := data;
      } else if cmd == XLAT {
        remoteXlat := data;
      } else if cmd == AVAIL {
        remoteId := Low(data);
        remoteAnnounced := true;
        MapPeer(calls);
      } else if cmd == UNAVAIL {
        if remoteId == Low(data) {
          remoteAnnounced := false;
          UnmapPeer();
        }
      }
    }

    method AllocateBuffer(id: Word32, want: Word64, calls: AllocCalls) returns (ret: Errno)
      modifies this
      ensures (View(), ret) == Allocate(old(View()), id, want, calls)
    {
      hide RequestSize;
      if !calls.alignOk { return Failed; }
      var request := RequestSize(want, calls.sizeAlign);
      if request.None? { return TooBig; }
      if calls.sizeMax != 0 && request.value > calls.sizeMax { return TooBig; }
      if request.value == 0 { return Invalid; }
      if calls.dma.None? { return NoMemory; }
      localBuf, localDma := true, calls.dma.value;
      if !calls.dmaAligned || !calls.transOk {
        localBuf, localDma := false, 0;
        return if !calls.dmaAligned then Invalid else Failed;
      }
      localSize := request.value;
      localId := id;
      localAvailable := false;
      localPublished := false;
      return Done;
    }

    method CreateSegment(id: Word32, size: Word64, defaultSize: Word32, calls: AllocCalls) returns (ret: Errno)
      modifies this
      ensures (View(), ret) == AllocLocal(old(View()), id, size, defaultSize, calls)
    {
      hide Allocate;
      var want: Word64 := if size == 0 then defaultSize else size;
      if localBuf {
        if localId == id && localSize >= want { return Done; }
        if localAvailable { return Busy; }
        FreeSegment();
      }
      ret := AllocateBuffer(id, want, calls);
    }

    /** Send the four commands of a publication, stopping at the first failure; the segment counts as
        published exactly when all four were placed. */
    method PublishAvailable(link: Link, end: bool) returns (ret: Outcome, ghost count: nat)
      requires Inv(link.s) && link.s.At(end).driver.Idle?
      modifies this, link
      ensures Inv(link.s) && link.s.At(end).driver.Idle?
      ensures count <= 4
      ensures link.s.At(end).placed == old(link.s.At(end).placed) + Publication(old(View()))[..count]
      ensures WantsPublish(old(View())) ==>
                && (ret == Sent <==> count == 4)
                && link.s.At(end).log == old(link.s.At(end).log) + Logged(Publication(old(View())), count, ret)
      ensures !WantsPublish(old(View())) ==> ret == Sent && count == 0 && link.s.At(end).log == old(link.s.At(end).log)
      ensures View() == if count == 4 then old(View()).(localPublished := true) else old(View())
      ensures link.s.At(end).received == old(link.s.At(end).received)
    {
      hide Inv, SentUpTo, Logged;
      count := 0;
      ret := Sent;
      if !linkUp || !localAvailable || !localBuf || localPublished { return; }
      ghost var before, all := link.s.At(end), Publication(View());
      NothingSent(before, all);
      ret := SendNext(link, end, SEGID, localId, before, all, 0);
      if ret != Sent { return; }
      count := 1;
      ret := SendNext(link, end, SIZE, localSize, before, all, 1);
      if ret != Sent { return; }
      count := 2;
      ret := SendNext(link, end, XLAT, localDma, before, all, 2);
      if ret != Sent { return; }
      count := 3;
      ret := SendNext(link, end, AVAIL, localId, before, all, 3);
      if ret != Sent { return; }
      count := 4;
      AllSent(link.s.At(end), before, all);
      localPublished := true;
    }

    /** The flags are cleared before the send; a failed send leaves them cleared. The withdrawal is sent exactly
        if the segment was published and the link is up. */
    method PublishUnavailable(link: Link, end: bool, id: Word32) returns (ret: Outcome)
      requires Inv(link.s) && link.s.At(end).driver.Idle?
      modifies this, link
      ensures Inv(link.s) && link.s.At(end).driver.Idle?
      ensures View() == old(View()).(localAvailable := false, localPublished := false)
      ensures link.s.At(end).placed == old(link.s.At(end).placed)
              + if old(linkUp && localPublished) && ret == Sent then [Command(UNAVAIL, id)] else []
      ensures link.s.At(end).log == old(link.s.At(end).log)
              + if old(linkUp && localPublished) then [(Command(UNAVAIL, id), ret)] else []
      ensures !old(linkUp && localPublished) ==> ret == Sent
      ensures link.s.At(end).received == old(link.s.At(end).received)
    {
      hide Inv, Pairs;
      var shouldPublish := linkUp && localPublished;
      localAvailable := false;
      localPublished := false;
      if !shouldPublish { return Sent; }
      ret := SendCmd(link, end, UNAVAIL, id);
    }

    /** Receive and dispatch commands until the mailbox is empty, as long as `calls` provides for them.
        What is handled is exactly what was received, in order; it stops early only for want of `calls`, and
        otherwise has received everything the peer had placed before. */
    method Drain(link: Link, end: bool, calls: seq<MwCalls>) returns (drained: bool, ghost taken: seq<Command>)
      requires Inv(link.s) && link.s.At(end).driver.Idle?
      modifies this, link
      ensures Inv(link.s) && link.s.At(end).driver.Idle?
      ensures |taken| <= |calls| && View() == HandleAll(old(View()), taken, calls)
      ensures link.s.At(end).received == old(link.s.At(end).received) + Pairs(taken)
      ensures link.s.At(end).placed == old(link.s.At(end).placed) && link.s.At(end).log == old(link.s.At(end).log)
      ensures !drained ==> |taken| == |calls|
      ensures drained ==> Pairs(old(link.s.At(!end).placed)) <= link.s.At(end).received
    {
      hide Inv, HandleCommand;
      drained, taken := false, [];
      for i := 0 to |calls|
        invariant Inv(link.s) && link.s.At(end).driver.Idle?
        invariant |taken| == i && View() == HandleAll(old(View()), taken, calls)
        invariant link.s.At(end).received == old(link.s.At(end).received) + Pairs(taken)
        invariant link.s.At(end).placed == old(link.s.At(end).placed) && link.s.At(end).log == old(link.s.At(end).log)
        invariant old(link.s.At(!end).placed) <= link.s.At(!end).placed
      {
        ghost var before, placed := link.s.At(end).received, link.s.At(!end).placed;
        var ok, cmd, data := RecvCmd(link, end);
        if !ok {
          PairsPrefix(old(link.s.At(!end).placed), placed);
          return true, taken;
        }
        assert cmd < 0x1_0000_0000 && data < 0x1_0000_0000_0000_0000 by { ReceivedIsCommand(link.s, end, |before|); }
        ghost var last := Command(cmd, data);
        PairsAppend(taken, last);
        assert (taken + [last])[..i] == taken;
        Dispatch(cmd, data, calls[i]);
        taken := taken + [last];
      }
    }

    /** The work function: follow the link, drain the mailbox, publish what is waiting to be published. */
    method ServiceWork(link: Link, end: bool, up: bool, calls: seq<MwCalls>)
        returns (drained: bool, ghost taken: seq<Command>, ghost count: nat, ghost ret: Outcome)
      requires Inv(link.s) && link.s.At(end).driver.Idle?
      modifies this, link
      ensures Inv(link.s) && link.s.At(end).driver.Idle?
      ensures !up ==> drained && View() == MarkPeerUnready(SetLink(old(View()), false)) && link.s == old(link.s)
      ensures |taken| <= |calls| && count <= 4 && (!drained ==> count == 0 && |taken| == |calls|)
      ensures up ==> var l := HandleAll(SetLink(old(View()), true), taken, calls);
                && View() == (if count == 4 then l.(localPublished := true) else l)
                && link.s.At(end).placed == old(link.s.At(end).placed) + Publication(l)[..count]
                && (if drained && WantsPublish(l)
                    then link.s.At(end).log == old(link.s.At(end).log) + Logged(Publication(l), count, ret) && (count < 4 ==> ret != Sent)
                    else count == 0 && link.s.At(end).log == old(link.s.At(end).log))
      ensures link.s.At(end).received == old(link.s.At(end).received) + Pairs(taken)
      ensures up && drained ==> Pairs(old(link.s.At(!end).placed)) <= link.s.At(end).received
    {
      hide Inv, HandleAll, SetLink, MarkPeerUnready, WantsPublish, Pairs, Logged;
      drained, taken, count, ret := true, [], 0, Sent;
      assert Pairs([]) == [] by { NoPairs(); }
      UpdateLink(up);
      if !up {
        UnmapPeer();
        return;
      }
      drained, taken := Drain(link, end, calls);
      if !drained { return; }
      ret, count := PublishAvailable(link, end);
    }
  }

  lemma NoPairs()
    ensures Pairs([]) == []
  {
  }
}
