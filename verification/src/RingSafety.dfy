/** Safety of the ring over every schedule: the invariant, and what it gives the two programs. */
module RingSafety {
  import opened Basics
  import opened RingGeometry
  import opened Ring

  function Slots(c: Config): nat { RxSlotCount(c.capacity, c.rxChunk) }

  function Off(c: Config, i: nat): nat { Offset(c.capacity, c.rxChunk, i) }

  function LenAt(c: Config, i: nat): int { Bytes(c, i + 1) - Bytes(c, i) }

  // ------------------------------------------------------------------------------- frame arithmetic

  /** While bytes are left every frame holds at least one, so frame numbers stay below `total`. */
  lemma {:induction false} FramesAreNonEmpty(c: Config, i: nat)
    requires Bytes(c, i) < c.total
    ensures i <= Bytes(c, i)
  {
    if i > 0 { FramesAreNonEmpty(c, i - 1); }
  }

  lemma PayloadIsFrameLength(c: Config, i: nat)
    requires Bytes(c, i) < c.total
    ensures Payload(c, Bytes(c, i)) == Min(c.chunk, c.total - Bytes(c, i)) == LenAt(c, i)
    ensures Add64(Bytes(c, i), Payload(c, Bytes(c, i))) == Bytes(c, i + 1)
    ensures 0 < LenAt(c, i) <= c.chunk
    ensures Add64(i, 1) == i + 1
  {
    FramesAreNonEmpty(c, i);
  }

  // ------------------------------------------------------------------------------------- invariant

  predicate Unpublished(pc: RxPc) { pc.RClear? || pc.RIssue? || pc.RFence? || pc.RMagic? }

  /** Every header word other than the counters has its final value. */
  ghost predicate HeaderFinal(c: Config, h: Header)
  {
    && h.magic == MAGIC
    && h.version == VERSION
    && h.headerSize == HEADER_SIZE
    && h.slotHeaderSize == SLOT_HEADER_SIZE
    && h.slotCount == Slots(c)
    && h.slotSize == RxSlotSize(c.capacity, c.rxChunk)
  }

  ghost predicate Initialised(c: Config, h: Header, pending: set<Field>)
  {
    forall f :: f !in pending ==> LoadField(h, f) == InitValue(c, f)
  }

  ghost predicate BeforeMagic(c: Config, s: State)
  {
    && s.h.magic != MAGIC
    && s.tx.pc == TMagic && s.tx.pending == map[] && s.tx.sent == 0
    && s.rx.received == 0
    && match s.rx.pc {
         case RClear => s.rx.pending == {}
         case RIssue => s.rx.pending == {}
         case RFence => Initialised(c, s.h, s.rx.pending)
         case _ => s.rx.pending == {} && Initialised(c, s.h, {})
       }
  }

  ghost predicate PlaceHolds(slot: Slot, p: Place, v: nat) {
    match p
    case Total => slot.total == v
    case Flags => slot.flags == v
    case Len => slot.len == v
    case PayloadByte(k) => k in slot.payload && slot.payload[k] == v
  }

  /** The plain part of the slot is frame `i`. */
  ghost predicate Filled(c: Config, slot: Slot, i: nat)
  {
    && slot.total == Bytes(c, i + 1)
    && slot.flags == 0
    && slot.len == LenAt(c, i)
    && forall k: nat :: k < slot.len && k < c.chunk ==> k in slot.payload && slot.payload[k] == c.pattern[k]
  }

  ghost predicate Holds(c: Config, slot: Slot, i: nat)
  {
    slot.seqNo == i + 1 && Filled(c, slot, i)
  }

  /** Each plain store of frame `i` has landed or is still pending with its value. */
  ghost predicate PartlyFilled(slot: Slot, pending: map<Place, nat>, stores: map<Place, nat>) {
    && (forall p :: p in pending ==> p in stores && pending[p] == stores[p])
    && (forall p :: p in stores && p !in pending ==> PlaceHolds(slot, p, stores[p]))
  }

  ghost predicate WindowHolds(c: Config, h: Header, slots: map<nat, Slot>)
  {
    forall i: nat :: h.tail <= i < h.head ==> Holds(c, SlotIn(slots, Off(c, i)), i)
  }

  ghost predicate Counters(c: Config, h: Header)
  {
    && h.tail <= h.head <= h.tail + Slots(c)
    && (h.head == 0 || Bytes(c, h.head - 1) < c.total)
  }

  predicate Handshake(pc: TxPc) { pc.TMagic? || pc.TVersion? || pc.TFlags? || pc.THead? || pc.TTail? || pc.TCount? || pc.TSize? || pc.TRejected? }
  ghost predicate Producing(pc: TxPc) { pc.TLoadHead? || pc.TLoadTail? || pc.TFill? || pc.TBarrier? || pc.TSeq? || pc.TPublish? }
  ghost predicate HasRoom(pc: TxPc) { pc.TFill? || pc.TBarrier? || pc.TSeq? || pc.TPublish? }
  ghost predicate Drained(pc: TxPc) { pc.TTotalBytes? || pc.TElapsed? || pc.TLastBarrier? || pc.TDoneFlag? || pc.TDone? }
  ghost predicate TotalStored(pc: TxPc) { pc.TElapsed? || pc.TLastBarrier? || pc.TDoneFlag? || pc.TDone? }

  ghost predicate TxHolds(c: Config, h: Header, slots: map<nat, Slot>, t: Tx)
  {
    && h.flags == (if t.pc == TDone then DONE else 0)
    && (t.pc != TBarrier ==> t.pending == map[])
    && (Handshake(t.pc) ==> h.head == 0 && t.sent == 0)
    && (t.pc == TSize ==> t.slotCount == Slots(c))
    && (t.pc == TRejected ==> c.chunk > h.slotSize)
    && (!Handshake(t.pc) ==> t.slotCount == Slots(c) && c.chunk <= h.slotSize && t.sent == Bytes(c, h.head))
    && (Producing(t.pc) ==> t.sent < c.total)
    && (Producing(t.pc) && t.pc != TLoadHead ==> t.head == h.head)
    && (HasRoom(t.pc) ==> h.head < h.tail + Slots(c))
    && ((t.pc.TBarrier? || t.pc.TSeq? || t.pc.TPublish?) ==> t.slotAt == Off(c, h.head))
    && (t.pc == TBarrier ==> PartlyFilled(SlotIn(slots, t.slotAt), t.pending, Stores(c, t.sent)))
    && (t.pc == TSeq ==> Filled(c, SlotIn(slots, t.slotAt), h.head))
    && (t.pc == TPublish ==> Holds(c, SlotIn(slots, t.slotAt), h.head))
    && (!Handshake(t.pc) && !Producing(t.pc) ==> t.sent == c.total)
    && (t.pc == TDrainTail ==> t.head == h.head)
    && (Drained(t.pc) ==> h.tail == h.head)
    && (TotalStored(t.pc) ==> h.totalBytes == c.total)
  }

  ghost predicate RxHolds(c: Config, h: Header, sender: TxPc, r: Rx)
  {
    && r.received == Bytes(c, if r.pc == RConsume then h.tail + 1 else h.tail)
    && (!(r.pc.RTail? || r.pc.ROk?) ==> r.tail == h.tail)
    && ((r.pc.RLen? || r.pc.RSeq? || r.pc.RConsume?) ==> h.tail < h.head)
    && (r.pc == RSeq ==> r.len == LenAt(c, h.tail))
    && ((r.pc.RHeadAgain? || r.pc.RElapsed? || r.pc.RTotal? || r.pc.ROk?) ==> sender == TDone)
    && (r.pc == ROk ==> r.reported == c.total)
    && r.pc != RInvalid
  }

  ghost predicate Published(c: Config, s: State)
  {
    && !Unpublished(s.rx.pc)
    && s.rx.pending == {}
    && HeaderFinal(c, s.h)
    && Counters(c, s.h)
    && WindowHolds(c, s.h, s.slots)
    && TxHolds(c, s.h, s.slots, s.tx)
    && RxHolds(c, s.h, s.tx.pc, s.rx)
  }

  ghost predicate Inv(c: Config, s: State)
  {
    if Unpublished(s.rx.pc) then BeforeMagic(c, s) else Published(c, s)
  }

  // ---------------------------------------------------------------------------- inductive steps

  lemma SlotsExist(c: Config)
    ensures 1 <= Slots(c) < TWO32
  {
    SlotsFit(c.capacity, c.rxChunk);
  }

  lemma HeaderGivesOffset(c: Config, h: Header, i: nat)
    requires HeaderFinal(c, h)
    ensures h.slotCount == Slots(c) && SlotAt(h, i) == Off(c, i)
    ensures h.slotSize == RxSlotSize(c.capacity, c.rxChunk)
    ensures h.slotCount != 0
  {
    SlotsExist(c);
    hide SlotOffset, RxSlotCount;
  }

  /** Writing the slot of the next frame leaves every unread slot alone. */
  lemma WriteOutsideWindow(c: Config, h: Header, slots: map<nat, Slot>, slots': map<nat, Slot>)
    requires Counters(c, h) && WindowHolds(c, h, slots)
    requires h.head < h.tail + Slots(c)
    requires forall at: nat :: at != Off(c, h.head) ==> SlotIn(slots', at) == SlotIn(slots, at)
    ensures WindowHolds(c, h, slots')
  {
    hide Offset, RxSlotCount;
    forall i: nat | h.tail <= i < h.head
      ensures Holds(c, SlotIn(slots', Off(c, i)), i)
    {
      WindowIsInjective(c.capacity, c.rxChunk, i, h.head);
      assert SlotIn(slots', Off(c, i)) == SlotIn(slots, Off(c, i));
    }
  }

  lemma StoresComplete(c: Config, slot: Slot, i: nat)
    requires Bytes(c, i) < c.total
    requires PartlyFilled(slot, map[], Stores(c, Bytes(c, i)))
    ensures Filled(c, slot, i)
  {
    PayloadIsFrameLength(c, i);
    var stores := Stores(c, Bytes(c, i));
    assert PlaceHolds(slot, Total, stores[Total]);
    assert PlaceHolds(slot, Flags, stores[Flags]);
    assert PlaceHolds(slot, Len, stores[Len]);
    forall k: nat | k < slot.len && k < c.chunk
      ensures k in slot.payload && slot.payload[k] == c.pattern[k]
    {
      assert PayloadByte(k) in stores && stores[PayloadByte(k)] == c.pattern[k];
      assert PlaceHolds(slot, PayloadByte(k), stores[PayloadByte(k)]);
    }
  }

  lemma LandingKeepsPartlyFilled(slot: Slot, pending: map<Place, nat>, stores: map<Place, nat>, p: Place)
    requires PartlyFilled(slot, pending, stores) && p in pending
    requires p.PayloadByte? ==> stores[p] < 256
    ensures PartlyFilled(StorePlace(slot, p, pending[p]), pending - {p}, stores)
  {
  }

  lemma PayloadStoresAreBytes(c: Config, sent: nat, k: nat)
    requires PayloadByte(k) in Stores(c, sent)
    ensures Stores(c, sent)[PayloadByte(k)] < 256
  {
    assert k < Payload(c, sent);
  }

  /** Where a plain store lands within its slot, as the slot header lays it out. */
  function PlaceStart(p: Place): nat {
    match p
    case Total => 8
    case Len => 16
    case Flags => 20
    case PayloadByte(k) => SLOT_HEADER_SIZE + k
  }

  function PlaceSize(p: Place): nat {
    match p
    case Total => 8
    case Len => 4
    case Flags => 4
    case PayloadByte(_) => 1
  }

  /** A pending store of the sender lies inside the bytes of the slot at head, past its sequence number,
      inside the mapping, and clear of the header and of every unread slot. */
  lemma PendingStoreStaysInSlot(c: Config, s: State, p: Place, i: nat)
    requires Inv(c, s) && p in s.tx.pending
    ensures var from, slot, size := s.tx.slotAt + PlaceStart(p), Off(c, s.h.head), RxSlotSize(c.capacity, c.rxChunk);
            && s.tx.slotAt == slot
            && HEADER_SIZE + 8 <= slot + 8 <= from && from + PlaceSize(p) <= slot + SLOT_HEADER_SIZE + size <= c.capacity
            && (s.h.tail <= i < s.h.head ==>
                  Off(c, i) + SLOT_HEADER_SIZE + size <= slot || slot + SLOT_HEADER_SIZE + size <= Off(c, i))
  {
    hide Bytes, WindowHolds, RxHolds, Filled, SlotOffset, RxSlotCount, RxSlotSize, Offset;
    assert s.tx.pc == TBarrier && p in Stores(c, s.tx.sent);
    SlotInside(c.capacity, c.rxChunk, s.h.head);
    SlotsDisjoint(c.capacity, c.rxChunk, i, s.h.head);
    if s.h.tail <= i < s.h.head { WindowIsInjective(c.capacity, c.rxChunk, i, s.h.head); }
  }

  lemma TxLandKeepsInv(c: Config, s: State, p: Place)
    requires Inv(c, s) && p in s.tx.pending
    ensures Inv(c, Step(c, s, TxLand(p)))
  {
    hide Offset, RxSlotCount, Bytes, Stores, HeaderFinal, Counters, WindowHolds, RxHolds, Filled, NextTx, NextRx;
    var s' := Step(c, s, TxLand(p));
    if p.PayloadByte? { PayloadStoresAreBytes(c, s.tx.sent, p.k); }
    LandingKeepsPartlyFilled(SlotIn(s.slots, s.tx.slotAt), s.tx.pending, Stores(c, s.tx.sent), p);
    WriteOutsideWindow(c, s.h, s.slots, s'.slots);
  }

  lemma RxLandKeepsInv(c: Config, s: State, f: Field, zero: bool)
    requires Inv(c, s) && f in s.rx.pending
    ensures Inv(c, Step(c, s, RxLand(f, zero)))
  {
    hide RxSlotCount, HeaderFinal, Counters, WindowHolds, TxHolds, RxHolds, NextTx, NextRx;
  }

  /** The receiver's part does not depend on where a sender short of DONE is. */
  lemma SenderMovesOn(c: Config, h: Header, r: Rx, pc: TxPc, pc': TxPc)
    requires RxHolds(c, h, pc, r) && pc != TDone
    ensures RxHolds(c, h, pc', r)
  {
    hide Bytes, LenAt;
  }

  lemma GeometryIsFinal(c: Config, h: Header)
    requires HeaderFinal(c, h)
    ensures h.slotCount == Slots(c) > 0 && h.slotSize > 0
  {
    SlotsFit(c.capacity, c.rxChunk);
  }

  lemma HandshakeKeepsTxHolds(c: Config, s: State)
    requires TxHolds(c, s.h, s.slots, s.tx) && HeaderFinal(c, s.h) && Handshake(s.tx.pc)
    ensures var s' := NextTx(c, s); TxHolds(c, s'.h, s'.slots, s'.tx) && s' == s.(tx := s'.tx)
  {
    hide Off, Slots, HeaderFinal, PartlyFilled, Filled, Holds, SlotIn;
    GeometryIsFinal(c, s.h);
  }

  lemma HandshakeKeepsInv(c: Config, s: State)
    requires Published(c, s) && Handshake(s.tx.pc)
    ensures Published(c, NextTx(c, s))
  {
    hide HeaderFinal, Counters, WindowHolds, TxHolds, RxHolds, NextTx;
    HandshakeKeepsTxHolds(c, s);
    SenderMovesOn(c, s.h, s.rx, s.tx.pc, NextTx(c, s).tx.pc);
  }

  lemma PollKeepsInv(c: Config, s: State)
    requires Published(c, s) && (s.tx.pc.TLoadHead? || s.tx.pc.TLoadTail?)
    ensures Published(c, NextTx(c, s))
  {
    FramesAreNonEmpty(c, s.h.head);
    hide Offset, RxSlotCount, HeaderFinal, WindowHolds, Bytes;
    assert s.tx.pc == TLoadTail ==> Sub64(s.h.head, s.h.tail) == s.h.head - s.h.tail;
  }

  lemma FillKeepsInv(c: Config, s: State)
    requires Published(c, s) && (s.tx.pc.TFill? || s.tx.pc.TBarrier?)
    ensures Published(c, NextTx(c, s))
  {
    hide Offset, SlotAt, RxSlotCount, HeaderFinal, Counters, WindowHolds, Bytes, Stores, Filled, RxHolds;
    HeaderGivesOffset(c, s.h, s.h.head);
    SenderMovesOn(c, s.h, s.rx, s.tx.pc, NextTx(c, s).tx.pc);
    if s.tx.pc == TBarrier && s.tx.pending == map[] {
      StoresComplete(c, SlotIn(s.slots, s.tx.slotAt), s.h.head);
    }
  }

  lemma SequenceKeepsInv(c: Config, s: State)
    requires Published(c, s) && s.tx.pc == TSeq
    ensures Published(c, NextTx(c, s))
  {
    PayloadIsFrameLength(c, s.h.head);
    hide Offset, RxSlotCount, HeaderFinal, Counters, WindowHolds, Bytes, Add64;
    WriteOutsideWindow(c, s.h, s.slots, NextTx(c, s).slots);
  }

  lemma WindowGrows(c: Config, h: Header, slots: map<nat, Slot>)
    requires WindowHolds(c, h, slots) && Holds(c, SlotIn(slots, Off(c, h.head)), h.head)
    ensures WindowHolds(c, h.(head := h.head + 1), slots)
  {
    hide Offset, Filled, SlotIn;
  }

  lemma PublishEffect(c: Config, s: State)
    requires Published(c, s) && s.tx.pc == TPublish
    ensures var next := Bytes(c, s.h.head + 1);
            NextTx(c, s) == State(s.h.(head := s.h.head + 1), s.slots,
                                  s.tx.(sent := next, pc := if next < c.total then TLoadHead else TDrainHead), s.rx)
  {
    hide Offset, RxSlotCount, Filled, HeaderFinal, WindowHolds, RxHolds, PartlyFilled, Holds;
    PayloadIsFrameLength(c, s.h.head);
    hide Bytes, Payload, Add64;
  }

  lemma PublishKeepsTxHolds(c: Config, h: Header, slots: map<nat, Slot>, t: Tx)
    requires TxHolds(c, h, slots, t) && t.pc == TPublish
    ensures var next := Bytes(c, h.head + 1);
            TxHolds(c, h.(head := h.head + 1), slots, t.(sent := next, pc := if next < c.total then TLoadHead else TDrainHead))
    ensures Bytes(c, h.head) < c.total && h.head < h.tail + Slots(c) && Holds(c, SlotIn(slots, Off(c, h.head)), h.head)
  {
    hide Off, Slots, Filled, Holds, PartlyFilled, SlotIn, Bytes;
  }

  lemma PublishKeepsInv(c: Config, s: State)
    requires Published(c, s) && s.tx.pc == TPublish
    ensures Published(c, NextTx(c, s))
  {
    hide TxHolds, Off, Slots, Bytes, Holds, SlotIn, NextTx, WindowHolds;
    PublishEffect(c, s);
    PublishKeepsTxHolds(c, s.h, s.slots, s.tx);
    WindowGrows(c, s.h, s.slots);
  }

  lemma FinishKeepsTxHolds(c: Config, s: State)
    requires TxHolds(c, s.h, s.slots, s.tx) && !Handshake(s.tx.pc) && !Producing(s.tx.pc)
    ensures TxHolds(c, NextTx(c, s).h, s.slots, NextTx(c, s).tx)
  {
    hide Off, Slots, Bytes, Filled, Holds, PartlyFilled, SlotIn;
  }

  lemma FinishKeepsInv(c: Config, s: State)
    requires Published(c, s) && !Handshake(s.tx.pc) && !Producing(s.tx.pc)
    ensures Published(c, NextTx(c, s))
  {
    hide TxHolds, Off, Slots, Bytes, Holds, SlotIn;
    FinishKeepsTxHolds(c, s);
  }

  lemma TxStepKeepsInv(c: Config, s: State)
    requires Inv(c, s)
    ensures Inv(c, NextTx(c, s))
  {
    if Unpublished(s.rx.pc) {
      hide Published, RxSlotCount;
    } else {
      if Handshake(s.tx.pc) { HandshakeKeepsInv(c, s); }
      else if (s.tx.pc.TLoadHead? || s.tx.pc.TLoadTail?) { PollKeepsInv(c, s); }
      else if (s.tx.pc.TFill? || s.tx.pc.TBarrier?) { FillKeepsInv(c, s); }
      else if s.tx.pc == TSeq { SequenceKeepsInv(c, s); }
      else if s.tx.pc == TPublish { PublishKeepsInv(c, s); }
      else { FinishKeepsInv(c, s); }
      hide Published, BeforeMagic;
    }
  }

  lemma {:induction false} BytesBelow(c: Config, i: nat, j: nat)
    requires i <= j && Bytes(c, j) < c.total
    ensures Bytes(c, i) < c.total
  {
    if i < j { BytesBelow(c, i, j - 1); }
  }

  lemma RxInitKeepsInv(c: Config, s: State)
    requires BeforeMagic(c, s) && Unpublished(s.rx.pc)
    ensures Inv(c, NextRx(c, s))
  {
    SlotsExist(c);
    hide RxSlotCount, Offset;
    if s.rx.pc == RMagic {
      assert forall f :: LoadField(s.h, f) == InitValue(c, f);
      assert LoadField(s.h, Version) == InitValue(c, Version);
      assert LoadField(s.h, HeaderSize) == InitValue(c, HeaderSize);
      assert LoadField(s.h, SlotHeaderSize) == InitValue(c, SlotHeaderSize);
      assert LoadField(s.h, SlotCount) == InitValue(c, SlotCount);
      assert LoadField(s.h, SlotSize) == InitValue(c, SlotSize);
      assert LoadField(s.h, Head) == InitValue(c, Head) && LoadField(s.h, Tail) == InitValue(c, Tail);
      assert LoadField(s.h, HeaderFlags) == InitValue(c, HeaderFlags);
      hide InitValue, LoadField;
    }
  }

  lemma RxPollKeepsInv(c: Config, s: State)
    requires Published(c, s) && !(s.rx.pc.RLen? || s.rx.pc.RSeq? || s.rx.pc.RConsume?)
    ensures Published(c, NextRx(c, s))
  {
    hide Offset, RxSlotCount, HeaderFinal, WindowHolds, Bytes;
  }

  /** The slot at the tail passes the receiver's validity test. */
  lemma TailSlotIsGood(c: Config, s: State)
    requires Published(c, s) && s.h.tail < s.h.head
    ensures s.h.slotCount != 0
    ensures var slot := SlotIn(s.slots, SlotAt(s.h, s.h.tail));
            && slot.seqNo == Add64(s.h.tail, 1)
            && slot.len == LenAt(c, s.h.tail) <= s.h.slotSize
    ensures Add64(Bytes(c, s.h.tail), LenAt(c, s.h.tail)) == Bytes(c, s.h.tail + 1)
    ensures Add64(s.h.tail, 1) == s.h.tail + 1
  {
    HeaderGivesOffset(c, s.h, s.h.tail);
    hide Offset, SlotAt, RxSlotCount, HeaderFinal, RxHolds, Payload;
    BytesBelow(c, s.h.tail, s.h.head - 1);
    PayloadIsFrameLength(c, s.h.tail);
    hide Bytes, Add64;
    assert Holds(c, SlotIn(s.slots, Off(c, s.h.tail)), s.h.tail);
  }

  lemma RxReadSlotKeepsInv(c: Config, s: State)
    requires Published(c, s) && (s.rx.pc.RLen? || s.rx.pc.RSeq?)
    ensures Published(c, NextRx(c, s))
  {
    TailSlotIsGood(c, s);
    hide SlotAt, LenAt, HeaderFinal, WindowHolds, TxHolds, Counters, Bytes, Add64;
  }

  lemma ConsumingKeepsTxHolds(c: Config, h: Header, slots: map<nat, Slot>, t: Tx)
    requires TxHolds(c, h, slots, t) && h.tail < h.head
    ensures TxHolds(c, h.(tail := h.tail + 1), slots, t)
  {
    hide Offset, RxSlotCount, Bytes, PartlyFilled, Filled, Holds, Stores, SlotIn;
  }

  lemma ConsumeEffect(c: Config, s: State)
    requires Published(c, s) && s.rx.pc == RConsume
    ensures NextRx(c, s) == State(s.h.(tail := s.h.tail + 1), s.slots, s.tx, s.rx.(pc := RTail))
    ensures s.h.tail < s.h.head
  {
    TailSlotIsGood(c, s);
    hide SlotAt, LenAt, HeaderFinal, WindowHolds, TxHolds, Counters, Bytes, Add64, SlotIn;
  }

  lemma RxConsumeKeepsInv(c: Config, s: State)
    requires Published(c, s) && s.rx.pc == RConsume
    ensures Published(c, NextRx(c, s))
  {
    hide NextRx, TxHolds, Holds, Bytes, SlotIn, Off, Slots;
    ConsumeEffect(c, s);
    ConsumingKeepsTxHolds(c, s.h, s.slots, s.tx);
  }

  lemma RxStepKeepsInv(c: Config, s: State)
    requires Inv(c, s)
    ensures Inv(c, NextRx(c, s))
  {
    if Unpublished(s.rx.pc) { RxInitKeepsInv(c, s); }
    else if (s.rx.pc.RLen? || s.rx.pc.RSeq?) { RxReadSlotKeepsInv(c, s); }
    else if s.rx.pc == RConsume { RxConsumeKeepsInv(c, s); }
    else { RxPollKeepsInv(c, s); }
    hide Published, BeforeMagic;
  }

  /** Every step, landing and abort keeps the invariant. */
  lemma StepKeepsInv(c: Config, s: State, a: Action)
    requires Inv(c, s)
    ensures Inv(c, Step(c, s, a))
  {
    hide NextTx, NextRx, HeaderFinal, Counters, WindowHolds, Initialised;
    match a {
      case TxStep => TxStepKeepsInv(c, s);
      case RxStep => RxStepKeepsInv(c, s);
      case TxLand(p) => if p in s.tx.pending { TxLandKeepsInv(c, s, p); }
      case RxLand(f, zero) => if f in s.rx.pending { RxLandKeepsInv(c, s, f, zero); }
      case TxAbort => hide Bytes;
      case RxAbort => hide Bytes;
    }
  }

  lemma {:induction false} RunKeepsInv(c: Config, s: State, schedule: seq<Action>)
    requires Inv(c, s)
    ensures Inv(c, Run(c, s, schedule))
    decreases |schedule|
  {
    hide Inv, Step;
    if schedule != [] {
      StepKeepsInv(c, s, schedule[0]);
      RunKeepsInv(c, Step(c, s, schedule[0]), schedule[1..]);
    }
  }
}
