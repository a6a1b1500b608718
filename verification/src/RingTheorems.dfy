/** What the ring promises, over every schedule of the two programs. */
module RingTheorems {
  import opened RingGeometry
  import opened Ring
  import opened RingSafety

  /** States the two programs can be in when they start on a region whose magic word is stale-free. */
  ghost predicate Reachable(c: Config, s: State) {
    exists h: Header, slots: map<nat, Slot>, schedule: seq<Action> ::
      h.magic != MAGIC && s == Run(c, Start(h, slots), schedule)
  }

  lemma ReachableHoldsInv(c: Config, s: State)
    requires Reachable(c, s)
    ensures Inv(c, s)
  {
    var h: Header, slots: map<nat, Slot>, schedule: seq<Action> :|
      h.magic != MAGIC && s == Run(c, Start(h, slots), schedule);
    assert Inv(c, Start(h, slots));
    RunKeepsInv(c, Start(h, slots), schedule);
  }

  lemma {:induction false} RunAppend(c: Config, s: State, schedule: seq<Action>, more: seq<Action>)
    ensures Run(c, s, schedule + more) == Run(c, Run(c, s, schedule), more)
    decreases |schedule|
  {
    hide Step;
    if schedule == [] {
      assert schedule + more == more;
    } else {
      assert (schedule + more)[0] == schedule[0] && (schedule + more)[1..] == schedule[1..] + more;
      RunAppend(c, Step(c, s, schedule[0]), schedule[1..], more);
    }
  }

  lemma StepStaysReachable(c: Config, s: State, a: Action)
    requires Reachable(c, s)
    ensures Reachable(c, Step(c, s, a))
  {
    hide Step;
    var h: Header, slots: map<nat, Slot>, schedule: seq<Action> :|
      h.magic != MAGIC && s == Run(c, Start(h, slots), schedule);
    RunAppend(c, Start(h, slots), schedule, [a]);
    assert Run(c, s, [a]) == Run(c, Step(c, s, a), [a][1..]) == Step(c, s, a);
  }

  // ---------------------------------------------------------------------------------- FIFO refinement

  function ReadFrame(slot: Slot): Frame {
    Frame(slot.total, slot.len, seq(slot.len, k => if k in slot.payload then slot.payload[k] else 0))
  }

  /** The queue as it stands in shared memory: the contents of the slots from tail up to head. */
  function QueueIn(c: Config, h: Header, slots: map<nat, Slot>): seq<Frame> {
    if h.head < h.tail then []
    else seq(h.head - h.tail, k requires 0 <= k => ReadFrame(SlotIn(slots, Off(c, h.tail + k))))
  }

  /** Before the receiver publishes the header there is no queue yet. */
  ghost function Queue(c: Config, s: State): seq<Frame> {
    if Unpublished(s.rx.pc) then [] else QueueIn(c, s.h, s.slots)
  }

  lemma HeldSlotReadsAsFrame(c: Config, slot: Slot, i: nat)
    requires Holds(c, slot, i) && Bytes(c, i) < c.total
    ensures ReadFrame(slot) == FrameAt(c, i)
  {
    PayloadIsFrameLength(c, i);
    hide Bytes;
    assert ReadFrame(slot).payload == FrameAt(c, i).payload;
  }

  /** The slots between tail and head are, in order, the next unread frames of the transfer. */
  lemma QueueIsTheStream(c: Config, s: State)
    requires Inv(c, s) && !Unpublished(s.rx.pc)
    ensures s.h.tail <= s.h.head
    ensures Queue(c, s) == seq(s.h.head - s.h.tail, k requires 0 <= k => FrameAt(c, s.h.tail + k))
  {
    hide Off, Slots, Bytes, Filled, TxHolds, RxHolds;
    forall i: nat | s.h.tail <= i < s.h.head
      ensures ReadFrame(SlotIn(s.slots, Off(c, i))) == FrameAt(c, i)
    {
      BytesBelow(c, i, s.h.head - 1);
      HeldSlotReadsAsFrame(c, SlotIn(s.slots, Off(c, i)), i);
    }
  }

  lemma SenderMovesHead(c: Config, s: State)
    requires Inv(c, s) && !Unpublished(s.rx.pc)
    ensures var s' := NextTx(c, s);
            && s'.rx == s.rx && s'.h.tail == s.h.tail
            && s'.h.head == (if s.tx.pc == TPublish then s.h.head + 1 else s.h.head)
  {
    hide Bytes, Off, Slots, WindowHolds, HeaderFinal, Filled, RxHolds;
    if s.tx.pc == TPublish { PublishEffect(c, s); }
    hide Inv, Add64, Sub64, Stores, SlotAt;
  }

  lemma ReceiverMovesTail(c: Config, s: State)
    requires Inv(c, s) && !Unpublished(s.rx.pc)
    ensures var s' := NextRx(c, s);
            && !Unpublished(s'.rx.pc) && s'.h.head == s.h.head
            && s'.h.tail == (if s.rx.pc == RConsume then s.h.tail + 1 else s.h.tail)
  {
    hide Bytes, Off, Slots, WindowHolds, HeaderFinal, Filled, TxHolds;
    if s.rx.pc == RConsume { ConsumeEffect(c, s); }
    hide Inv, Add64, SlotAt, DoneSet;
  }

  lemma RoomAndFrame(c: Config, s: State)
    requires Inv(c, s) && !Unpublished(s.rx.pc)
    ensures s.rx.pending == {}
    ensures s.rx.pc == RConsume ==> s.h.tail < s.h.head
    ensures s.tx.pc == TPublish ==> s.h.head - s.h.tail < Slots(c)
  {
    hide Bytes, Off, Slots, WindowHolds, HeaderFinal, Filled, PartlyFilled;
  }

  /** The effect of a step on the counters. */
  lemma CountersMove(c: Config, s: State, a: Action)
    requires Inv(c, s) && !Unpublished(s.rx.pc)
    ensures var s' := Step(c, s, a);
            && !Unpublished(s'.rx.pc)
            && s'.h.head == (if a == TxStep && s.tx.alive && s.tx.pc == TPublish then s.h.head + 1 else s.h.head)
            && s'.h.tail == (if a == RxStep && s.rx.alive && s.rx.pc == RConsume then s.h.tail + 1 else s.h.tail)
    ensures s.rx.pc == RConsume ==> s.h.tail < s.h.head
    ensures s.tx.pc == TPublish ==> s.h.head - s.h.tail < Slots(c)
  {
    hide Inv, NextTx, NextRx, Slots, StorePlace, StoreField, InitValue;
    RoomAndFrame(c, s);
    SenderMovesHead(c, s);
    ReceiverMovesTail(c, s);
  }

  /** Refinement of a FIFO queue of at most `Slots(c)` frames. The head store appends exactly the
      next frame of the transfer, the tail store removes exactly the oldest one, and nothing else,
      in particular no landing of a plain store, changes the contents. */
  lemma RingRefinesFifo(c: Config, s: State, a: Action)
    requires Reachable(c, s)
    ensures |Queue(c, s)| <= Slots(c)
    ensures var q, q' := Queue(c, s), Queue(c, Step(c, s, a));
            if Unpublished(s.rx.pc) then q == [] && q' == []
            else if a == TxStep && s.tx.alive && s.tx.pc == TPublish then
              |q| < Slots(c) && q' == q + [FrameAt(c, s.h.head)]
            else if a == RxStep && s.rx.alive && s.rx.pc == RConsume then
              q != [] && q[0] == FrameAt(c, s.h.tail) && q' == q[1..]
            else q' == q
  {
    hide Inv, Step, Slots, Reachable, Bytes, FrameAt, QueueIn;
    ReachableHoldsInv(c, s);
    StepKeepsInv(c, s, a);
    if Unpublished(s.rx.pc) {
      EmptyAtPublication(c, s, a);
    } else {
      RingIsSafe(c, s);
      CountersMove(c, s, a);
      QueueIsTheStream(c, s);
      QueueIsTheStream(c, Step(c, s, a));
      hide Queue;
    }
  }

  lemma EmptyAtPublication(c: Config, s: State, a: Action)
    requires Inv(c, s) && Unpublished(s.rx.pc)
    ensures Queue(c, Step(c, s, a)) == []
  {
    hide Off, Slots, Bytes, Stores, Published, SlotAt;
    if a == RxStep && s.rx.pc == RMagic {
      assert LoadField(s.h, Head) == InitValue(c, Head) && LoadField(s.h, Tail) == InitValue(c, Tail);
    }
  }

  // ------------------------------------------------------------------------------------ safety

  /** In every reachable state: the counters stay within one ring of each other and never wrap,
      every unread slot carries its sequence number and its frame, and the receiver has not taken
      its "invalid ring slot" exit. */
  lemma RingIsSafe(c: Config, s: State)
    requires Reachable(c, s)
    ensures s.rx.pc != RInvalid
    ensures !Unpublished(s.rx.pc) ==>
              && s.h.tail <= s.h.head <= s.h.tail + Slots(c)
              && s.h.head <= c.total < TWO64
              && (forall i: nat :: s.h.tail <= i < s.h.head ==> Holds(c, SlotIn(s.slots, Off(c, i)), i))
              && s.rx.received <= c.total && s.tx.sent <= c.total
  {
    hide Off, Slots, Filled, Bytes, Holds, Reachable, PartlyFilled, HeaderFinal;
    ReachableHoldsInv(c, s);
    if !Unpublished(s.rx.pc) && s.h.head > 0 { FramesAreNonEmpty(c, s.h.head - 1); }
  }

  lemma {:induction false} FullFrames(c: Config, i: nat)
    requires Bytes(c, i) < c.total
    ensures Bytes(c, i) == i * c.chunk
  {
    if i > 0 {
      FullFrames(c, i - 1);
      assert i * c.chunk == (i - 1) * c.chunk + c.chunk;
    }
  }

  lemma QuotientIs(x: nat, d: nat, q: nat)
    requires d > 0 && q * d <= x < q * d + d
    ensures x / d == q
  {
    var r := x - q * d;
    assert x == q * d + r;
    if x / d < q {
      ScaleMonotone(x / d + 1, q, d);
    } else if x / d > q {
      ScaleMonotone(q + 1, x / d, d);
    }
  }

  /** The stream is complete after exactly ceil(total / chunk) frames. */
  lemma LastFrame(c: Config, n: nat)
    requires n > 0 && Bytes(c, n - 1) < c.total && Bytes(c, n) == c.total
    ensures n == Frames(c)
  {
    FullFrames(c, n - 1);
    assert n * c.chunk == (n - 1) * c.chunk + c.chunk;
    QuotientIs(c.total + c.chunk - 1, c.chunk, n);
  }

  /** Byte conservation: the receiver reports success only after the sender has finished, with
      every byte of the transfer received, the sender's own count agreeing, and exactly
      ceil(total / chunk) frames produced and consumed. */
  lemma SuccessMeansEverythingArrived(c: Config, s: State)
    requires Reachable(c, s) && s.rx.pc == ROk
    ensures s.rx.received == s.rx.reported == c.total
    ensures s.tx.pc == TDone && s.tx.sent == c.total
    ensures s.h.head == s.h.tail == Frames(c)
  {
    hide Off, Slots, Filled, WindowHolds, Bytes;
    ReachableHoldsInv(c, s);
    if s.h.head == 0 {
      assert Bytes(c, 0) == 0 by { assert s.h.head == 0; ZeroFrames(c); }
    } else {
      LastFrame(c, s.h.head);
    }
  }

  lemma ZeroFrames(c: Config)
    ensures Bytes(c, 0) == 0
  {
  }

  lemma {:induction false} DeadSenderStays(c: Config, s: State, schedule: seq<Action>)
    requires !s.tx.alive
    ensures Run(c, s, schedule).tx.pc == s.tx.pc && !Run(c, s, schedule).tx.alive
    decreases |schedule|
  {
    hide NextTx;
    if schedule != [] {
      DeadSenderStays(c, Step(c, s, schedule[0]), schedule[1..]);
    }
  }

  /** A sender that aborts before its DONE store makes success impossible for good. */
  lemma AbortedSenderMeansNoSuccess(c: Config, s: State, schedule: seq<Action>)
    requires Reachable(c, s) && !s.tx.alive && s.tx.pc != TDone
    ensures Run(c, s, schedule).rx.pc != ROk
  {
    hide Step, Inv;
    ReachableHoldsInv(c, s);
    RunKeepsInv(c, s, schedule);
    DeadSenderStays(c, s, schedule);
    if Run(c, s, schedule).rx.pc == ROk { SuccessNeedsDone(c, Run(c, s, schedule)); }
  }

  lemma SuccessNeedsDone(c: Config, s: State)
    requires Inv(c, s) && s.rx.pc == ROk
    ensures s.tx.pc == TDone
  {
    hide Off, Slots, Filled, WindowHolds, Bytes, TxHolds;
  }

  // ------------------------------------------------------------------------- header publication

  /** The sender is still in its loop over magic word, version, flags and counters. */
  predicate Searching(pc: TxPc) { pc.TMagic? || pc.TVersion? || pc.TFlags? || pc.THead? || pc.TTail? }

  /** The sender has left its handshake loop only with a final header and with no receiver
      initialisation store still to land. */
  ghost predicate HandshakeIsSound(c: Config, s: State) {
    !Searching(s.tx.pc) ==> HeaderFinal(c, s.h) && s.rx.pending == {} && !Unpublished(s.rx.pc)
  }

  /** A run in which the sender reads a stale magic word, the receiver then starts over, and the
      sender completes its handshake on a half-written header. */
  function StaleRun(): seq<Action> {
    [TxStep, RxStep, RxStep, RxLand(Version, false), RxLand(HeaderFlags, false), RxLand(Head, false), RxLand(Tail, false),
     TxStep, TxStep, TxStep, TxStep]
  }

  lemma StaleMagicBreaksHandshake(c: Config, h: Header, slots: map<nat, Slot>)
    requires h.magic == MAGIC
    ensures var s := Run(c, Start(h, slots), StaleRun());
            s.tx.pc == TCount && SlotCount in s.rx.pending && SlotSize in s.rx.pending
  {
    hide Stores, RxSlotCount, SlotAt;
    var s0 := Start(h, slots);
    var s1 := Step(c, s0, TxStep);
    var s2 := Step(c, s1, RxStep);
    var s3 := Step(c, s2, RxStep);
    var s4 := Step(c, s3, RxLand(Version, false));
    var s5 := Step(c, s4, RxLand(HeaderFlags, false));
    var s6 := Step(c, s5, RxLand(Head, false));
    var s7 := Step(c, s6, RxLand(Tail, false));
    assert s7.tx.pc == TVersion && s7.h.version == VERSION && s7.h.flags == s7.h.head == s7.h.tail == 0;
    assert SlotCount in s7.rx.pending && SlotSize in s7.rx.pending && s7.tx.alive;
    var s8 := Step(c, s7, TxStep);
    var s9 := Step(c, s8, TxStep);
    var s10 := Step(c, s9, TxStep);
    var s11 := Step(c, s10, TxStep);
    assert s11.tx.pc == TCount && s11.rx == s7.rx;
    hide Step, NextTx, NextRx;
    UnrollRun(c, [s0, s1, s2, s3, s4, s5, s6, s7, s8, s9, s10, s11], StaleRun());
  }

  /** A recorded run agrees with `Run`. */
  lemma {:induction false} UnrollRun(c: Config, trace: seq<State>, schedule: seq<Action>)
    requires |trace| == |schedule| + 1
    requires forall i :: 0 <= i < |schedule| ==> trace[i + 1] == Step(c, trace[i], schedule[i])
    ensures Run(c, trace[0], schedule) == trace[|schedule|]
    decreases |schedule|
  {
    hide Step;
    if schedule != [] {
      UnrollRun(c, trace[1..], schedule[1..]);
    }
  }

  /** The handshake is sound on every schedule exactly when the region does not already carry the
      ring's magic word, whatever else it contains. */
  lemma HandshakeSoundIffNoStaleMagic(c: Config, h: Header, slots: map<nat, Slot>)
    ensures (forall schedule: seq<Action> :: HandshakeIsSound(c, Run(c, Start(h, slots), schedule)))
       <==> h.magic != MAGIC
  {
    hide Step;
    if h.magic == MAGIC {
      StaleMagicBreaksHandshake(c, h, slots);
      assert !HandshakeIsSound(c, Run(c, Start(h, slots), StaleRun()));
    } else {
      forall schedule: seq<Action>
        ensures HandshakeIsSound(c, Run(c, Start(h, slots), schedule))
      {
        var s := Run(c, Start(h, slots), schedule);
        assert Reachable(c, s);
        ReachableHoldsInv(c, s);
        hide Bytes, WindowHolds, TxHolds, RxHolds;
      }
    }
  }
}
