/** `run_tx` and `run_rx` as written: structured loops over the shared ring. Before every shared
    access the other program and the landing of plain stores run for as long as they like. Each
    access is one step of the transition system in `Ring`, and the branches taken on the loaded
    values are exactly its branches, so the two methods inherit its theorems. A wait loop may poll
    `patience` times without progress before it times out. */
module RingPrograms {
  import opened Ring
  import opened RingSafety
  import opened RingTheorems

  /** A step the other side, or the memory system, may take while the sender is between accesses. */
  predicate OutsideSender(a: Action) { a.RxStep? || a.RxAbort? || a.TxLand? || a.RxLand? }

  predicate OutsideReceiver(a: Action) { a.TxStep? || a.TxAbort? || a.TxLand? || a.RxLand? }

  lemma OutsideSenderStep(c: Config, s: State, a: Action)
    requires OutsideSender(a)
    ensures Step(c, s, a).tx == s.tx.(pending := Step(c, s, a).tx.pending)
    ensures s.tx.pending == map[] ==> Step(c, s, a).tx == s.tx
  {
    hide SlotAt, StorePlace, StoreField, InitValue;
  }

  lemma OutsideReceiverStep(c: Config, s: State, a: Action)
    requires OutsideReceiver(a)
    ensures Step(c, s, a).rx == s.rx.(pending := Step(c, s, a).rx.pending)
    ensures Step(c, s, a).rx.pending <= s.rx.pending
  {
    hide SlotAt, StorePlace, StoreField, InitValue, Stores;
  }

  class SharedRing {
    const c: Config
    var s: State
    /** How many shared accesses each program has made. */
    ghost var txCount: nat
    ghost var rxCount: nat

    constructor (c: Config, h: Header, slots: map<nat, Slot>)
      requires h.magic != MAGIC
      ensures this.c == c && s == Start(h, slots) && Inv(c, s)
    {
      this.c := c;
      s := Start(h, slots);
      txCount, rxCount := 0, 0;
    }

    /** Any number of steps outside the sender. */
    method YieldFromSender()
      requires Inv(c, s)
      modifies this`s
      ensures Inv(c, s) && s.tx == old(s.tx).(pending := s.tx.pending)
      ensures old(s.tx.pending) == map[] ==> s.tx == old(s.tx)
    {
      hide Inv, Step;
      var env: seq<Action> := *;
      for i := 0 to |env|
        invariant Inv(c, s) && s.tx == old(s.tx).(pending := s.tx.pending)
        invariant old(s.tx.pending) == map[] ==> s.tx == old(s.tx)
      {
        if OutsideSender(env[i]) {
          StepKeepsInv(c, s, env[i]);
          OutsideSenderStep(c, s, env[i]);
          s := Step(c, s, env[i]);
        }
      }
    }

    /** Any number of steps outside the receiver. */
    method YieldFromReceiver()
      requires Inv(c, s)
      modifies this`s
      ensures Inv(c, s) && s.rx == old(s.rx).(pending := s.rx.pending) && s.rx.pending <= old(s.rx.pending)
    {
      hide Inv, Step;
      var env: seq<Action> := *;
      for i := 0 to |env|
        invariant Inv(c, s) && s.rx == old(s.rx).(pending := s.rx.pending) && s.rx.pending <= old(s.rx.pending)
      {
        if OutsideReceiver(env[i]) {
          StepKeepsInv(c, s, env[i]);
          OutsideReceiverStep(c, s, env[i]);
          s := Step(c, s, env[i]);
        }
      }
    }

    /** One shared access of the sender; `seen` is the memory it acted on. */
    method TxAccess() returns (seen: State)
      requires Inv(c, s) && s.tx.alive
      modifies this`s, this`txCount
      ensures seen.tx == old(s.tx).(pending := seen.tx.pending) && Inv(c, seen)
      ensures old(s.tx.pending) == map[] ==> seen.tx == old(s.tx)
      ensures s == NextTx(c, seen) && Inv(c, s) && txCount == old(txCount) + 1
    {
      hide Inv, NextTx;
      YieldFromSender();
      seen := s;
      TxStepKeepsInv(c, s);
      s := NextTx(c, s);
      txCount := txCount + 1;
    }

    /** One shared access of the receiver. */
    method RxAccess() returns (seen: State)
      requires Inv(c, s) && s.rx.alive && s.rx.pending == {}
      modifies this`s, this`rxCount
      ensures seen.rx == old(s.rx) && Inv(c, seen)
      ensures s == NextRx(c, seen) && Inv(c, s) && rxCount == old(rxCount) + 1
    {
      hide Inv, NextRx;
      YieldFromReceiver();
      seen := s;
      RxStepKeepsInv(c, s);
      s := NextRx(c, s);
      rxCount := rxCount + 1;
    }

    /** The store barrier: returns once every plain store of the sender has landed. */
    method TxBarrier()
      requires Inv(c, s) && s.tx.alive && s.tx.pc == TBarrier
      modifies this`s
      ensures Inv(c, s) && s.tx == old(s.tx).(pending := map[], pc := TSeq)
    {
      hide Inv;
      YieldFromSender();
      while s.tx.pending != map[]
        invariant Inv(c, s) && s.tx == old(s.tx).(pending := s.tx.pending)
        decreases |s.tx.pending|
      {
        var p :| p in s.tx.pending;
        ghost var was := s.tx.pending;
        TxLandKeepsInv(c, s, p);
        s := Step(c, s, TxLand(p));
        assert s.tx.pending.Keys == was.Keys - {p};
      }
      TxStepKeepsInv(c, s);
      s := NextTx(c, s);
    }

    /** The barrier before the magic store: every plain store of its initialisation has landed. */
    method RxFence()
      requires Inv(c, s) && s.rx.alive && s.rx.pc == RFence
      modifies this`s
      ensures Inv(c, s) && s.rx == old(s.rx).(pending := {}, pc := RMagic)
    {
      hide Inv;
      while s.rx.pending != {}
        invariant Inv(c, s) && s.rx == old(s.rx).(pending := s.rx.pending)
        decreases s.rx.pending
      {
        var f :| f in s.rx.pending;
        RxLandKeepsInv(c, s, f, false);
        s := Step(c, s, RxLand(f, false));
        YieldFromReceiver();
      }
      RxStepKeepsInv(c, s);
      s := NextRx(c, s);
    }
  }

  /** What a finished transfer looks like. */
  ghost predicate Delivered(c: Config, s: State) {
    && s.tx.pc == TDone && s.tx.sent == c.total
    && s.h.head == s.h.tail == Frames(c)
    && s.h.totalBytes == c.total
  }

  lemma DoneIsDelivered(c: Config, s: State)
    requires Inv(c, s) && s.tx.pc == TDone
    ensures Delivered(c, s)
    ensures s.rx.received == c.total
  {
    hide Off, Slots, Filled, WindowHolds, Bytes, Frames;
    ZeroFrames(c);
    LastFrame(c, s.h.head);
  }

  lemma SenderFacts(c: Config, s: State)
    requires Inv(c, s)
    ensures Producing(s.tx.pc) ==> s.tx.sent < c.total
    ensures !Handshake(s.tx.pc) && !Producing(s.tx.pc) ==> s.tx.sent == c.total
    ensures s.tx.pc != TBarrier ==> s.tx.pending == map[]
    ensures Producing(s.tx.pc) ==>
              s.tx.sent < Add64(s.tx.sent, Payload(c, s.tx.sent)) == s.tx.sent + Payload(c, s.tx.sent) <= c.total
    ensures s.tx.pc == TFill ==> s.h.slotCount != 0
  {
    hide Off, Slots, Filled, WindowHolds, Bytes, RxHolds, Payload, Add64;
    if !Unpublished(s.rx.pc) {
      HeaderGivesOffset(c, s.h, 0);
      if Producing(s.tx.pc) { PayloadIsFrameLength(c, s.h.head); }
    }
  }

  /** The sender is between accesses at `pc`, with no plain store outstanding. */
  ghost predicate SenderAt(ring: SharedRing, pc: TxPc, sent: nat)
    reads ring
  {
    Inv(ring.c, ring.s) && ring.s.tx.alive && ring.s.tx.pc == pc && ring.s.tx.sent == sent && ring.s.tx.pending == map[]
  }

  /** Wait until the receiver's header shows an idle ring. */
  method FindRing(ring: SharedRing, patience: nat) returns (found: bool)
    requires SenderAt(ring, TMagic, 0)
    modifies ring
    ensures SenderAt(ring, if found then TCount else TMagic, 0)
    ensures ring.txCount >= old(ring.txCount) + (if found then 0 else patience + 1)
  {
    hide Inv, SlotAt, Stores;
    var budget := patience;
    found := false;
    while !found
      invariant SenderAt(ring, if found then TCount else TMagic, 0)
      invariant 0 <= budget <= patience && ring.txCount >= old(ring.txCount) + patience - budget
      decreases !found, budget
    {
      var seen := ring.TxAccess();
      if seen.h.magic == MAGIC {
        seen := ring.TxAccess();
        if seen.h.version == VERSION {
          seen := ring.TxAccess();
          if seen.h.flags == 0 {
            seen := ring.TxAccess();
            if seen.h.head == 0 {
              seen := ring.TxAccess();
              found := seen.h.tail == 0;
            }
          }
        }
      }
      if !found {
        if budget == 0 { return; }
        budget := budget - 1;
      }
    }
  }

  /** Fill and publish one slot. */
  method SendFrame(ring: SharedRing, sent: nat) returns (total: nat)
    requires SenderAt(ring, TFill, sent)
    modifies ring
    ensures total == sent + Payload(ring.c, sent) && sent < total <= ring.c.total
    ensures SenderAt(ring, if total < ring.c.total then TLoadHead else TDrainHead, total)
    ensures ring.s.tx.slotCount == old(ring.s.tx.slotCount) && ring.txCount >= old(ring.txCount)
  {
    hide Inv, SlotAt, Stores, SlotIn, Payload, Add64;
    var c := ring.c;
    var seen := ring.TxAccess(); // the memcpy and the plain slot stores
    SenderFacts(c, seen);
    ring.TxBarrier();
    SenderFacts(c, ring.s);
    seen := ring.TxAccess(); // seq
    SenderFacts(c, ring.s);
    seen := ring.TxAccess(); // head
    SenderFacts(c, seen);
    total := sent + Payload(c, sent);
  }

  /** Wait until the receiver has consumed everything. */
  method DrainRing(ring: SharedRing, patience: nat) returns (drained: bool)
    requires SenderAt(ring, TDrainHead, ring.c.total)
    modifies ring
    ensures SenderAt(ring, if drained then TTotalBytes else TDrainHead, ring.c.total)
    ensures ring.txCount >= old(ring.txCount) + (if drained then 0 else patience + 1)
  {
    hide Inv, SlotAt, Stores;
    var budget := patience;
    drained := false;
    while !drained
      invariant SenderAt(ring, if drained then TTotalBytes else TDrainHead, ring.c.total)
      invariant 0 <= budget <= patience && ring.txCount >= old(ring.txCount) + patience - budget
      decreases !drained, budget
    {
      var seen := ring.TxAccess();
      var head := seen.h.head;
      seen := ring.TxAccess();
      drained := seen.h.tail == head;
      if !drained {
        if budget == 0 { return; }
        budget := budget - 1;
      }
    }
  }

  /** Read the geometry and refuse a ring whose slots are too small. */
  method ReadGeometry(ring: SharedRing) returns (ok: bool, slotCount: nat)
    requires SenderAt(ring, TCount, 0)
    modifies ring
    ensures ok ==> SenderAt(ring, TLoadHead, 0) && ring.s.tx.slotCount == slotCount
    ensures !ok ==> Inv(ring.c, ring.s) && ring.s.tx.pc == TRejected
    ensures ring.txCount >= old(ring.txCount)
  {
    hide Inv, SlotAt, Stores;
    var seen := ring.TxAccess();
    slotCount := seen.h.slotCount;
    seen := ring.TxAccess();
    var slotSize := seen.h.slotSize;
    ok := !(slotCount == 0 || slotSize == 0 || ring.c.chunk > slotSize);
  }

  /** Report the total and store DONE. */
  method Finish(ring: SharedRing)
    requires SenderAt(ring, TTotalBytes, ring.c.total)
    modifies ring
    ensures Inv(ring.c, ring.s) && ring.s.tx.pc == TDone && Delivered(ring.c, ring.s)
  {
    hide Inv, SlotAt, Stores, Delivered;
    var seen := ring.TxAccess(); // total_bytes
    seen := ring.TxAccess(); // elapsed_ns
    seen := ring.TxAccess(); // store barrier
    seen := ring.TxAccess(); // flags
    DoneIsDelivered(ring.c, ring.s);
  }

  /** One look for a free slot. */
  method PollRoom(ring: SharedRing, sent: nat, slotCount: nat) returns (room: bool)
    requires SenderAt(ring, TLoadHead, sent) && ring.s.tx.slotCount == slotCount
    modifies ring
    ensures SenderAt(ring, if room then TFill else TLoadHead, sent) && ring.s.tx.slotCount == slotCount
    ensures ring.txCount > old(ring.txCount)
  {
    hide Inv, SlotAt, Stores, Sub64;
    var seen := ring.TxAccess();
    var head := seen.h.head;
    seen := ring.TxAccess();
    room := Sub64(head, seen.h.tail) < slotCount;
  }

  /** The sender. It returns 0 exactly when it has stored DONE, and then every frame of the transfer
      has been produced and consumed. It gives up only on a ring whose slots are too small, or after more than
      `patience` accesses of waiting. */
  method RunTx(ring: SharedRing, patience: nat) returns (ret: int)
    requires Inv(ring.c, ring.s)
    requires ring.s.tx == Start(ring.s.h, ring.s.slots).tx
    modifies ring
    ensures Inv(ring.c, ring.s)
    ensures ret == 0 || ret == -1
    ensures ret == 0 <==> ring.s.tx.pc == TDone
    ensures ret == 0 ==> Delivered(ring.c, ring.s)
    ensures ret == -1 ==> ring.s.tx.pc == TRejected || ring.txCount > old(ring.txCount) + patience
  {
    hide Inv, Payload, Delivered;
    var c := ring.c;
    var found := FindRing(ring, patience);
    if !found { return -1; }
    var ok, slotCount := ReadGeometry(ring);
    if !ok { return -1; }

    var sent := 0;
    var budget := patience;
    while sent < c.total
      invariant SenderAt(ring, if sent < c.total then TLoadHead else TDrainHead, sent)
      invariant sent <= c.total && ring.s.tx.slotCount == slotCount
      invariant 0 <= budget <= patience && ring.txCount >= old(ring.txCount) + patience - budget
      decreases c.total - sent, budget
    {
      var room := PollRoom(ring, sent, slotCount);
      if !room {
        if budget == 0 { return -1; }
        budget := budget - 1;
        continue;
      }
      sent := SendFrame(ring, sent);
      budget := patience;
    }

    var drained := DrainRing(ring, patience);
    if !drained { return -1; }
    Finish(ring);
    return 0;
  }

  lemma ReceiverFacts(c: Config, s: State)
    requires Inv(c, s) && (s.rx.pc == RLen || s.rx.pc == RSeq)
    ensures s.h.slotCount != 0
    ensures s.rx.pc == RSeq ==>
              && SlotIn(s.slots, SlotAt(s.h, s.rx.tail)).seqNo == Add64(s.rx.tail, 1)
              && s.rx.len <= s.h.slotSize
              && s.rx.received < Add64(s.rx.received, s.rx.len) == s.rx.received + s.rx.len <= c.total
  {
    hide Off, Slots, Filled, WindowHolds, TxHolds, Bytes, Add64, SlotAt, Holds, HeaderFinal, LenAt;
    TailSlotIsGood(c, s);
    TailFrame(c, s.h);
  }

  lemma TailFrame(c: Config, h: Header)
    requires Counters(c, h) && h.tail < h.head
    ensures 0 < LenAt(c, h.tail)
    ensures Bytes(c, h.tail) + LenAt(c, h.tail) == Bytes(c, h.tail + 1) <= c.total
  {
    hide Slots;
    BytesBelow(c, h.tail, h.head - 1);
    PayloadIsFrameLength(c, h.tail);
  }

  lemma ReceiverDone(c: Config, s: State)
    requires Inv(c, s) && s.rx.pc == ROk
    ensures Delivered(c, s) && s.rx.received == s.rx.reported == c.total
  {
    hide TxHolds, Counters, WindowHolds, HeaderFinal, Bytes;
    SuccessNeedsDone(c, s);
    DoneIsDelivered(c, s);
  }

  /** The receiver is between accesses at `pc`, with no plain store outstanding. */
  ghost predicate ReceiverAt(ring: SharedRing, pc: RxPc, received: nat)
    reads ring
  {
    Inv(ring.c, ring.s) && ring.s.rx.alive && ring.s.rx.pending == {} && ring.s.rx.pc == pc && ring.s.rx.received == received
  }

  /** Lay out the ring and publish it by its magic word. */
  method LayOut(ring: SharedRing)
    requires Inv(ring.c, ring.s)
    requires ring.s.rx == Start(ring.s.h, ring.s.slots).rx
    modifies ring
    ensures ReceiverAt(ring, RTail, 0) && ring.rxCount >= old(ring.rxCount)
  {
    hide Inv, SlotAt, SlotIn;
    var seen := ring.RxAccess(); // magic := 0
    seen := ring.RxAccess(); // memset and the plain header stores
    ring.RxFence();
    seen := ring.RxAccess(); // magic
  }

  /** Look for an unread frame. */
  method PollFrame(ring: SharedRing, received: nat) returns (tail: nat, found: bool)
    requires ReceiverAt(ring, RTail, received)
    modifies ring
    ensures ReceiverAt(ring, if found then RLen else RFlags, received) && ring.s.rx.tail == tail
    ensures ring.rxCount > old(ring.rxCount)
  {
    hide Inv, SlotAt, SlotIn;
    var seen := ring.RxAccess();
    tail := seen.h.tail;
    seen := ring.RxAccess();
    found := tail < seen.h.head;
  }

  /** Take the frame at tail; its slot is never invalid. */
  method ConsumeFrame(ring: SharedRing, tail: nat, received: nat) returns (total: nat)
    requires ReceiverAt(ring, RLen, received) && ring.s.rx.tail == tail
    modifies ring
    ensures received < total <= ring.c.total && ReceiverAt(ring, RTail, total) && ring.rxCount >= old(ring.rxCount)
  {
    hide Inv, SlotAt, SlotIn, Add64;
    var seen := ring.RxAccess();
    ReceiverFacts(ring.c, seen);
    var len := ring.s.rx.len;
    seen := ring.RxAccess();
    ReceiverFacts(ring.c, seen);
    if SlotIn(seen.slots, SlotAt(seen.h, tail)).seqNo != Add64(tail, 1) || len > seen.h.slotSize {
      assert false; // "invalid ring slot"
    }
    total := received + len;
    seen := ring.RxAccess(); // tail
  }

  /** With no frame there, look for the DONE flag and, once it is set over an empty ring, read the report. */
  method PollDone(ring: SharedRing, tail: nat, received: nat) returns (done: bool, reported: nat)
    requires ReceiverAt(ring, RFlags, received) && ring.s.rx.tail == tail
    modifies ring
    ensures !done ==> ReceiverAt(ring, RTail, received)
    ensures done ==> Inv(ring.c, ring.s) && ring.s.rx.pc == ROk && ring.s.rx.received == received && ring.s.rx.reported == reported
    ensures ring.rxCount >= old(ring.rxCount)
  {
    hide Inv, SlotAt, SlotIn, DoneSet;
    done, reported := false, 0;
    var seen := ring.RxAccess();
    if DoneSet(seen.h.flags) {
      seen := ring.RxAccess();
      if tail == seen.h.head {
        seen := ring.RxAccess(); // elapsed_ns
        seen := ring.RxAccess();
        done, reported := true, seen.h.totalBytes;
      }
    }
  }

  /** The receiver. It never returns through its invalid-slot exit; it returns 0 only when the
      sender has stored DONE and every byte of the transfer has arrived, and gives up only after more than
      `patience` accesses of waiting. */
  method RunRx(ring: SharedRing, patience: nat) returns (ret: int, received: nat, reported: nat)
    requires Inv(ring.c, ring.s)
    requires ring.s.rx == Start(ring.s.h, ring.s.slots).rx
    modifies ring
    ensures Inv(ring.c, ring.s)
    ensures ret == 0 || ret == -1
    ensures ret == 0 <==> ring.s.rx.pc == ROk
    ensures ret == 0 ==> Delivered(ring.c, ring.s) && received == reported == ring.c.total
    ensures ring.s.rx.pc != RInvalid
    ensures ret == -1 ==> ring.rxCount > old(ring.rxCount) + patience
  {
    hide Inv, Delivered;
    received, reported := 0, 0;
    LayOut(ring);
    var budget := patience;
    while true
      invariant ReceiverAt(ring, RTail, received) && received <= ring.c.total
      invariant 0 <= budget <= patience && ring.rxCount >= old(ring.rxCount) + patience - budget
      decreases ring.c.total - received, budget
    {
      var tail, found := PollFrame(ring, received);
      if found {
        received := ConsumeFrame(ring, tail, received);
        budget := patience;
        continue;
      }
      var done: bool;
      done, reported := PollDone(ring, tail, received);
      if done {
        ReceiverDone(ring.c, ring.s);
        return 0, received, reported;
      }
      if budget == 0 { return -1, received, reported; }
      budget := budget - 1;
    }
  }
}
