/** Deadlock freedom and bounded work: a measure over unsent and unconsumed frames that no step
    ever raises and that, until both programs are finished, some step of one of them lowers. */
module RingProgress {
  import opened Basics
  import opened RingGeometry
  import opened Ring
  import opened RingSafety
  import opened RingTheorems

  /** Steps that are not aborts. */
  ghost predicate Runs(a: Action) { !(a.TxAbort? || a.RxAbort?) }

  predicate IsPublished(s: State) { !Unpublished(s.rx.pc) }

  function HeadOf(s: State): nat { if IsPublished(s) then s.h.head else 0 }
  function TailOf(s: State): nat { if IsPublished(s) then s.h.tail else 0 }

  /** What is left at the level of frames: publication, handshake, frames to produce, frames to
      consume, the DONE store and the receiver's return. */
  function Left(c: Config, s: State): int {
    (if IsPublished(s) then 0 else 1) + (if Handshake(s.tx.pc) then 1 else 0)
    + (Frames(c) - HeadOf(s)) + (Frames(c) - TailOf(s))
    + (if s.tx.pc == TDone then 0 else 1) + (if s.rx.pc == ROk then 0 else 1)
  }

  /** Steps the sender needs to its next such event; 0 when it has to wait for the receiver. */
  function SenderDistance(c: Config, room: bool, drained: bool, t: Tx): nat {
    match t.pc
    case TMagic => 7
    case TVersion => 6
    case TFlags => 5
    case THead => 4
    case TTail => 3
    case TCount => 2
    case TSize => 1
    case TLoadHead => if room then c.chunk + 9 else 0
    case TLoadTail => if room then c.chunk + 8 else 0
    case TFill => c.chunk + 7
    case TBarrier => 3 + |t.pending|
    case TSeq => 2
    case TPublish => 1
    case TDrainHead => if drained then 6 else 0
    case TDrainTail => if drained then 5 else 0
    case TTotalBytes => 4
    case TElapsed => 3
    case TLastBarrier => 2
    case TDoneFlag => 1
    case TDone => 0
    case TRejected => 0
  }

  /** Steps the receiver needs to its next such event; 0 when it has to wait for the sender. */
  function ReceiverDistance(frame: bool, done: bool, r: Rx): nat {
    match r.pc
    case RClear => 4 + |ALL_FIELDS|
    case RIssue => 3 + |ALL_FIELDS|
    case RFence => 2 + |r.pending|
    case RMagic => 1
    case RTail => if frame then 5 else if done then 6 else 0
    case RHead => if frame then 4 else if done then 5 else 0
    case RLen => 3
    case RSeq => 2
    case RConsume => 1
    case RFlags => if frame then 6 else if done then 4 else 0
    case RHeadAgain => 3
    case RElapsed => 2
    case RTotal => 1
    case ROk => 0
    case RInvalid => 0
  }

  function TxDistance(c: Config, s: State): nat {
    if !IsPublished(s) then 0
    else SenderDistance(c, s.h.head < s.h.tail + Slots(c), s.h.head == s.h.tail, s.tx)
  }

  function RxDistance(s: State): nat { ReceiverDistance(s.h.tail < s.h.head, DoneSet(s.h.flags), s.rx) }

  function Weight(c: Config): nat { c.chunk + |ALL_FIELDS| + 20 }

  function Measure(c: Config, s: State): int {
    Left(c, s) * Weight(c) + TxDistance(c, s) + RxDistance(s)
  }

  // ------------------------------------------------------------------------------- bounds

  lemma {:induction false} RangeSize(n: nat, places: set<Place>)
    requires places == set k: nat | k < n :: PayloadByte(k)
    ensures |places| == n
  {
    if n == 0 {
      assert places == {};
    } else {
      var fewer := set k: nat | k < n - 1 :: PayloadByte(k);
      RangeSize(n - 1, fewer);
      assert places == fewer + {PayloadByte(n - 1)};
    }
  }

  lemma StoresAreFew(c: Config, sent: nat)
    ensures |Stores(c, sent)| <= c.chunk + 3
  {
    var n := Payload(c, sent);
    var bytes := set k: nat | k < n :: PayloadByte(k);
    RangeSize(n, bytes);
    assert Stores(c, sent).Keys == {Total, Flags, Len} + bytes;
    assert |{Total, Flags, Len}| == 3;
    assert |{Total, Flags, Len} + bytes| <= 3 + n;
  }

  lemma PendingIsFew(c: Config, s: State)
    requires Inv(c, s) && s.tx.pc == TBarrier
    ensures |s.tx.pending| <= c.chunk + 3
  {
    hide Off, Slots, Bytes, Filled, Holds, HeaderFinal, Counters, WindowHolds, RxHolds, Stores;
    StoresAreFew(c, s.tx.sent);
    SubsetSize(s.tx.pending.Keys, Stores(c, s.tx.sent).Keys);
  }

  lemma FrameNumberBelowFrames(c: Config, i: nat)
    requires Bytes(c, i) < c.total
    ensures i < Frames(c)
  {
    FullFrames(c, i);
    if Frames(c) <= i {
      DivisionLower(c.total + c.chunk - 1, c.chunk);
      ScaleMonotone(Frames(c), i, c.chunk);
    }
  }

  lemma DivisionLower(a: nat, d: nat)
    requires d > 0
    ensures a < a / d * d + d
  {
    assert a == a / d * d + a % d;
  }

  lemma CountersWithinFrames(c: Config, s: State)
    requires Inv(c, s)
    ensures TailOf(s) <= HeadOf(s) <= Frames(c)
  {
    hide Bytes, Frames, Slots, TxHolds, RxHolds, WindowHolds, HeaderFinal;
    if IsPublished(s) && s.h.head > 0 { FrameNumberBelowFrames(c, s.h.head - 1); }
  }

  lemma DistancesAreSmall(c: Config, s: State)
    requires Inv(c, s)
    ensures TxDistance(c, s) <= c.chunk + 9 && RxDistance(s) <= |ALL_FIELDS| + 6
  {
    hide Off, Slots, Bytes, TxHolds, RxHolds, WindowHolds, HeaderFinal, Counters;
    if s.tx.pc == TBarrier { PendingIsFew(c, s); }
    if s.rx.pc == RFence { AllFields(); SubsetSize(s.rx.pending, ALL_FIELDS); }
  }

  lemma AllFields()
    ensures forall f: Field :: f in ALL_FIELDS
  {
    forall f: Field
      ensures f in ALL_FIELDS
    {
      match f
      case Magic =>
      case Version =>
      case HeaderSize =>
      case SlotHeaderSize =>
      case SlotCount =>
      case SlotSize =>
      case HeaderFlags =>
      case Head =>
      case Tail =>
      case TotalBytes =>
      case ElapsedNs =>
    }
  }

  /** One event at the frame level outweighs any change of the distances. */
  lemma EventLowersMeasure(c: Config, s: State, s': State)
    requires Inv(c, s) && Inv(c, s')
    requires Left(c, s') < Left(c, s)
    ensures Measure(c, s') < Measure(c, s)
  {
    hide Inv, Left, TxDistance, RxDistance;
    DistancesAreSmall(c, s');
    var w := Weight(c);
    assert Left(c, s) * w >= (Left(c, s') + 1) * w by { IntScale(Left(c, s') + 1, Left(c, s), w); }
    assert (Left(c, s') + 1) * w == Left(c, s') * w + w;
  }

  lemma IntScale(a: int, b: int, w: nat)
    requires a <= b
    ensures a * w <= b * w
  {
  }

  // ----------------------------------------------------------------- no step raises the measure

  /** A step within the protocol: it is an event, or it keeps `Left` and does not raise the distances. */
  ghost predicate Settles(c: Config, s: State, s': State) {
    || Left(c, s') < Left(c, s)
    || (Left(c, s') == Left(c, s) && TxDistance(c, s') + RxDistance(s') <= TxDistance(c, s) + RxDistance(s))
  }

  /** As above, with the distances falling. */
  ghost predicate Advances(c: Config, s: State, s': State) {
    || Left(c, s') < Left(c, s)
    || (Left(c, s') == Left(c, s) && TxDistance(c, s') + RxDistance(s') < TxDistance(c, s) + RxDistance(s))
  }

  ghost predicate SlotFits(c: Config) { c.chunk <= RxSlotSize(c.capacity, c.rxChunk) }

  /** What the two command lines must agree on: the sender's chunk is no larger than the receiver's, and one slot
      of it fits the mapping. */
  predicate Compatible(c: Config) { c.chunk <= c.rxChunk && 128 + c.chunk <= c.capacity }

  lemma CompatibleMeansFits(c: Config)
    ensures Compatible(c) <==> SlotFits(c)
  {
    LayoutIsMaximal(c.capacity, c.rxChunk);
    SlotsFit(c.capacity, c.rxChunk);
    hide RxSlotCount;
  }

  lemma PollEffect(c: Config, s: State)
    requires Published(c, s) && (s.tx.pc.TLoadHead? || s.tx.pc.TLoadTail?)
    ensures Settles(c, s, NextTx(c, s))
    ensures TxDistance(c, s) > 0 ==> Advances(c, s, NextTx(c, s))
  {
    hide Bytes, Frames, Off, Slots, WindowHolds, RxHolds, Holds, PartlyFilled, HeaderFinal, ReceiverDistance;
    FramesAreNonEmpty(c, s.h.head);
  }

  lemma FillEffect(c: Config, s: State)
    requires Published(c, s) && (s.tx.pc.TFill? || s.tx.pc.TBarrier? || s.tx.pc.TSeq?)
    ensures Settles(c, s, NextTx(c, s))
    ensures s.tx.pending == map[] ==> Advances(c, s, NextTx(c, s))
  {
    hide Bytes, Frames, SlotAt, Slots, Stores, WindowHolds, TxHolds, RxHolds, Counters, HeaderFinal, ReceiverDistance, SlotIn, Add64;
    HeaderGivesOffset(c, s.h, s.h.head);
    StoresAreFew(c, s.tx.sent);
  }

  lemma HeadEffect(c: Config, s: State)
    requires Published(c, s) && s.tx.pc == TPublish
    ensures Advances(c, s, NextTx(c, s))
  {
    hide Bytes, Frames, WindowHolds, TxHolds, RxHolds, Counters, HeaderFinal, SenderDistance, ReceiverDistance, NextTx;
    PublishEffect(c, s);
  }

  lemma DrainEffect(c: Config, s: State)
    requires Published(c, s) && !Handshake(s.tx.pc) && !Producing(s.tx.pc)
    ensures Settles(c, s, NextTx(c, s))
    ensures TxDistance(c, s) > 0 ==> Advances(c, s, NextTx(c, s))
  {
    hide Bytes, Frames, Off, Slots, WindowHolds, RxHolds, Holds, Filled, PartlyFilled, HeaderFinal, Counters, ReceiverDistance;
  }

  lemma TxStepEffect(c: Config, s: State)
    requires Inv(c, s) && SlotFits(c)
    ensures Settles(c, s, NextTx(c, s))
    ensures TxDistance(c, s) > 0 && s.tx.pending == map[] ==> Advances(c, s, NextTx(c, s))
  {
    hide Published, Frames, ReceiverDistance;
    if !IsPublished(s) {
    } else if Handshake(s.tx.pc) {
      HandshakeEffect(c, s);
      hide NextTx;
    } else if s.tx.pc.TLoadHead? || s.tx.pc.TLoadTail? {
      PollEffect(c, s);
      hide NextTx;
    } else if s.tx.pc.TFill? || s.tx.pc.TBarrier? || s.tx.pc.TSeq? {
      FillEffect(c, s);
      hide NextTx;
    } else if s.tx.pc.TPublish? {
      HeadEffect(c, s);
      hide NextTx;
    } else {
      DrainEffect(c, s);
      hide NextTx;
    }
  }

  lemma HandshakeEffect(c: Config, s: State)
    requires Published(c, s) && Handshake(s.tx.pc) && SlotFits(c)
    ensures s.tx.pc != TRejected ==> Advances(c, s, NextTx(c, s))
    ensures Settles(c, s, NextTx(c, s))
  {
    SlotsExist(c);
    hide Bytes, Frames, Off, Slots, WindowHolds, RxHolds, Filled, Holds, PartlyFilled;
  }

  lemma InitEffect(c: Config, s: State)
    requires BeforeMagic(c, s) && !IsPublished(s)
    ensures Settles(c, s, NextRx(c, s))
    ensures s.rx.pending == {} ==> Advances(c, s, NextRx(c, s))
  {
    hide Frames, SenderDistance, Initialised;
    if s.rx.pc == RMagic { MagicEffect(c, s); }
  }

  lemma MagicEffect(c: Config, s: State)
    requires BeforeMagic(c, s) && s.rx.pc == RMagic
    ensures Left(c, NextRx(c, s)) < Left(c, s)
  {
    hide Frames, RxSlotCount;
    assert LoadField(s.h, Head) == InitValue(c, Head) && LoadField(s.h, Tail) == InitValue(c, Tail);
  }

  lemma ReadEffect(c: Config, s: State)
    requires Published(c, s) && (s.rx.pc.RLen? || s.rx.pc.RSeq?)
    ensures Advances(c, s, NextRx(c, s))
  {
    hide Bytes, Frames, WindowHolds, TxHolds, Counters, HeaderFinal, SlotAt, SlotIn, Add64, Slots;
    TailSlotIsGood(c, s);
  }

  lemma TailEffect(c: Config, s: State)
    requires Published(c, s) && s.rx.pc.RConsume?
    ensures Advances(c, s, NextRx(c, s))
  {
    hide Bytes, Frames, WindowHolds, TxHolds, Counters, HeaderFinal, NextRx, SenderDistance, ReceiverDistance;
    ConsumeEffect(c, s);
  }

  lemma DoneMeansDrained(c: Config, s: State)
    requires Published(c, s)
    ensures s.h.flags == DONE ==> s.tx.pc == TDone && s.h.tail == s.h.head
    ensures s.tx.pc == TDone ==> s.h.flags == DONE
  {
    hide Bytes, WindowHolds, RxHolds, HeaderFinal, PartlyFilled, Filled, Holds, Off, Slots, Counters;
  }

  lemma WaitEffect(c: Config, s: State)
    requires Published(c, s) && !(s.rx.pc.RLen? || s.rx.pc.RSeq? || s.rx.pc.RConsume?)
    ensures Settles(c, s, NextRx(c, s))
    ensures RxDistance(s) > 0 ==> Advances(c, s, NextRx(c, s))
  {
    hide Bytes, Frames, WindowHolds, TxHolds, Counters, HeaderFinal, SenderDistance, Slots, DoneSet, SlotAt, SlotIn, Add64;
    DoneMeansDrained(c, s);
  }

  lemma RxStepEffect(c: Config, s: State)
    requires Inv(c, s)
    ensures Settles(c, s, NextRx(c, s))
    ensures RxDistance(s) > 0 && s.rx.pending == {} ==> Advances(c, s, NextRx(c, s))
  {
    hide Published, BeforeMagic, NextRx, SenderDistance;
    if !IsPublished(s) { InitEffect(c, s); }
    else if s.rx.pc.RLen? || s.rx.pc.RSeq? { ReadEffect(c, s); }
    else if s.rx.pc.RConsume? { TailEffect(c, s); }
    else { WaitEffect(c, s); }
  }

  lemma PendingMeansBarrier(c: Config, s: State)
    requires Inv(c, s) && s.tx.pending != map[]
    ensures s.tx.pc == TBarrier && IsPublished(s)
  {
    hide Bytes, WindowHolds, RxHolds, Counters, HeaderFinal, PartlyFilled, Filled, Holds, Off, Slots;
  }

  lemma TxLandEffect(c: Config, s: State, p: Place)
    requires Inv(c, s) && p in s.tx.pending
    ensures Advances(c, s, Step(c, s, TxLand(p)))
  {
    hide Inv, Frames, StorePlace, SlotIn, ReceiverDistance, NextTx, NextRx, StoreField;
    PendingMeansBarrier(c, s);
    assert (s.tx.pending - {p}).Keys == s.tx.pending.Keys - {p};
  }

  lemma RxLandEffect(c: Config, s: State, f: Field, zero: bool)
    requires Inv(c, s) && f in s.rx.pending
    ensures Settles(c, s, Step(c, s, RxLand(f, zero)))
    ensures !zero ==> Advances(c, s, Step(c, s, RxLand(f, zero)))
  {
    hide WindowHolds, TxHolds, RxHolds, Counters, HeaderFinal, Frames, InitValue, StoreField, Initialised;
  }

  lemma StepEffect(c: Config, s: State, a: Action)
    requires Inv(c, s) && Runs(a) && SlotFits(c)
    ensures Settles(c, s, Step(c, s, a))
  {
    hide Inv, NextTx, NextRx, StorePlace, StoreField, InitValue, SlotFits;
    match a {
      case TxStep => TxStepEffect(c, s);
      case RxStep => RxStepEffect(c, s);
      case TxLand(p) => if p in s.tx.pending { TxLandEffect(c, s, p); }
      case RxLand(f, zero) => if f in s.rx.pending { RxLandEffect(c, s, f, zero); }
    }
  }

  lemma EffectOnMeasure(c: Config, s: State, s': State)
    requires Inv(c, s) && Inv(c, s')
    ensures Settles(c, s, s') ==> Measure(c, s') <= Measure(c, s)
    ensures Advances(c, s, s') ==> Measure(c, s') < Measure(c, s)
  {
    hide Inv, TxDistance, RxDistance, Weight;
    if Left(c, s') < Left(c, s) { EventLowersMeasure(c, s, s'); }
    hide Left;
  }

  // ------------------------------------------------------------------------------- the theorems

  ghost predicate Finished(s: State) { s.tx.pc == TDone && s.rx.pc == ROk }

  lemma MeasureIsNonNegative(c: Config, s: State)
    requires Inv(c, s)
    ensures 0 <= Measure(c, s)
  {
    hide Inv, TxDistance, RxDistance, Frames;
    CountersWithinFrames(c, s);
    IntScale(0, Left(c, s), Weight(c));
  }

  /** Polling is free: no step of either program, and no landing, raises the measure. */
  lemma NoStepRaisesMeasure(c: Config, s: State, a: Action)
    requires Reachable(c, s) && Runs(a) && Compatible(c)
    ensures 0 <= Measure(c, Step(c, s, a)) <= Measure(c, s)
  {
    hide Inv, Step, Reachable, Measure, Settles, SlotFits, Compatible;
    CompatibleMeansFits(c);
    ReachableHoldsInv(c, s);
    StepKeepsInv(c, s, a);
    StepEffect(c, s, a);
    EffectOnMeasure(c, s, Step(c, s, a));
    MeasureIsNonNegative(c, Step(c, s, a));
  }

  lemma SenderHasWork(c: Config, s: State)
    requires Published(c, s) && SlotFits(c) && s.h.tail >= s.h.head && s.tx.pc != TDone
    ensures TxDistance(c, s) > 0
  {
    hide Bytes, WindowHolds, PartlyFilled, Filled, Holds, Off, Slots, RxHolds;
    SlotsExist(c);
  }

  lemma ReceiverHasWork(c: Config, s: State)
    requires Published(c, s) && (s.h.tail < s.h.head || s.tx.pc == TDone) && s.rx.pc != ROk
    ensures RxDistance(s) > 0
  {
    hide Bytes, WindowHolds, TxHolds, Slots, HeaderFinal;
    DoneMeansDrained(c, s);
  }

  /** Which step helps: the receiver's while it initialises, has an unread frame or sees DONE; the
      sender's in every other unfinished state. */
  lemma HelpfulStep(c: Config, s: State) returns (a: Action)
    requires Inv(c, s) && s.tx.alive && s.rx.alive && SlotFits(c) && !Finished(s)
    ensures Runs(a) && Advances(c, s, Step(c, s, a))
  {
    hide NextTx, NextRx, Published, BeforeMagic, StorePlace, StoreField, InitValue, Advances, SlotFits;
    if s.rx.pending != {} {
      var f :| f in s.rx.pending;
      a := RxLand(f, false);
      RxLandEffect(c, s, f, false);
    } else if !IsPublished(s) {
      a := RxStep;
      RxStepEffect(c, s);
    } else if s.tx.pending != map[] {
      var p :| p in s.tx.pending;
      a := TxLand(p);
      TxLandEffect(c, s, p);
    } else if s.h.tail < s.h.head || s.tx.pc == TDone {
      a := RxStep;
      if s.rx.pc == ROk { SuccessNeedsDone(c, s); DoneMeansDrained(c, s); }
      ReceiverHasWork(c, s);
      RxStepEffect(c, s);
    } else {
      a := TxStep;
      SenderHasWork(c, s);
      TxStepEffect(c, s);
    }
  }

  /** Deadlock freedom: as long as both programs live and are not both finished, some step of one
      of them strictly lowers the measure. */
  lemma RingIsDeadlockFree(c: Config, s: State)
    requires Reachable(c, s) && s.tx.alive && s.rx.alive && Compatible(c) && !Finished(s)
    ensures exists a: Action :: Runs(a) && Measure(c, Step(c, s, a)) < Measure(c, s)
  {
    hide Inv, Step, Reachable, Measure, Advances, SlotFits, Compatible;
    CompatibleMeansFits(c);
    ReachableHoldsInv(c, s);
    var a := HelpfulStep(c, s);
    StepKeepsInv(c, s, a);
    EffectOnMeasure(c, s, Step(c, s, a));
  }

  lemma HelpfulStepKeepsAlive(c: Config, s: State, a: Action)
    requires Inv(c, s) && s.tx.alive && s.rx.alive && Runs(a)
    ensures Step(c, s, a).tx.alive && Step(c, s, a).rx.alive
  {
    hide Bytes, WindowHolds, PartlyFilled, Filled, Holds, Off, Counters, RxHolds, TxHolds, Stores, SlotAt, StorePlace, StoreField, InitValue;
    SlotsExist(c);
    hide Slots;
  }

  /** From every live reachable state the two programs can finish, in no more steps than the measure. */
  lemma {:induction false} RingCanAlwaysFinish(c: Config, s: State) returns (schedule: seq<Action>)
    requires Reachable(c, s) && s.tx.alive && s.rx.alive && Compatible(c)
    ensures |schedule| <= Measure(c, s) && (forall a :: a in schedule ==> Runs(a))
    ensures Finished(Run(c, s, schedule))
    decreases Measure(c, s)
  {
    hide Inv, Step, Reachable, Measure, Advances, Runs, Finished, SlotFits, Compatible;
    CompatibleMeansFits(c);
    ReachableHoldsInv(c, s);
    MeasureIsNonNegative(c, s);
    if Finished(s) { return []; }
    var a := HelpfulStep(c, s);
    StepKeepsInv(c, s, a);
    StepStaysReachable(c, s, a);
    EffectOnMeasure(c, s, Step(c, s, a));
    HelpfulStepKeepsAlive(c, s, a);
    var rest := RingCanAlwaysFinish(c, Step(c, s, a));
    schedule := [a] + rest;
    assert schedule[0] == a && schedule[1..] == rest;
  }

  /** Where compatibility comes in: the sender gives up in its handshake only for a chunk that does not
      fit a slot, and with such a chunk it never publishes a frame and the receiver never succeeds. */
  lemma OnlyOversizedChunksAreRejected(c: Config, s: State)
    requires Reachable(c, s)
    ensures s.tx.pc == TRejected ==> !Compatible(c)
    ensures !Compatible(c) ==> Handshake(s.tx.pc) && s.rx.pc != ROk && (!Unpublished(s.rx.pc) ==> s.h.head == 0)
  {
    hide Reachable, Bytes, WindowHolds, PartlyFilled, Filled, Holds, Off, Slots, Compatible;
    CompatibleMeansFits(c);
    ReachableHoldsInv(c, s);
  }

  /** The number of measure-lowering steps in a schedule. */
  ghost function UsefulSteps(c: Config, s: State, schedule: seq<Action>): nat
    decreases |schedule|
  {
    if schedule == [] then 0
    else
      var s' := Step(c, s, schedule[0]);
      (if Measure(c, s') < Measure(c, s) then 1 else 0) + UsefulSteps(c, s', schedule[1..])
  }

  /** Bounded work: however the steps are interleaved, only a bounded number of them are useful. */
  lemma {:induction false} UsefulStepsAreBounded(c: Config, s: State, schedule: seq<Action>)
    requires Reachable(c, s) && Compatible(c) && (forall a :: a in schedule ==> Runs(a))
    ensures UsefulSteps(c, s, schedule) <= Measure(c, s)
    decreases |schedule|
  {
    hide Step, Reachable, Measure, Runs, Compatible;
    if schedule != [] {
      NoStepRaisesMeasure(c, s, schedule[0]);
      StepStaysReachable(c, s, schedule[0]);
      UsefulStepsAreBounded(c, Step(c, s, schedule[0]), schedule[1..]);
    } else {
      ReachableHoldsInv(c, s);
      MeasureIsNonNegative(c, s);
    }
  }
}
