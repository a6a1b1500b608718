/** The profiling ring as two interleaved programs over one shared memory. Every shared load and
    store of `run_tx` and `run_rx` is one step. Plain stores (the sender's payload bytes, `total`,
    `flags` and `len`; the receiver's header initialisation) sit in a pending buffer and land one
    by one, in any order, at any time until the next barrier; the release stores take effect at
    once. A timeout, a failed barrier call or a killed process is an abort at any step. */
module Ring {
  import opened Basics
  import opened RingGeometry

  const MAGIC: nat := 0x4e544250
  const VERSION: nat := 1
  const DONE: nat := 1

  /** The command-line choices of both programs and the size of the mapping. `pattern` is what the
      sender copies into every slot; the source fills it with 0xa5. */
  datatype Options = Options(capacity: nat, rxChunk: nat, chunk: nat, total: nat, pattern: seq<Byte>, elapsedNs: nat)

  /** Sizes that option parsing and the receiver's size checks let through. */
  predicate Valid(c: Options) {
    && RxAccepts(c.capacity, c.rxChunk)
    && 0 < c.chunk < TWO32
    && 0 < c.total < TWO64
    && |c.pattern| == c.chunk
  }

  type Config = c: Options | Valid(c) witness Options(129, 1, 1, 1, [0xa5], 0)

  datatype Header = Header(magic: nat, version: nat, headerSize: nat, slotHeaderSize: nat, slotCount: nat,
                           slotSize: nat, flags: nat, head: nat, tail: nat, totalBytes: nat, elapsedNs: nat)

  datatype Slot = Slot(seqNo: nat, total: nat, len: nat, flags: nat, payload: map<nat, Byte>)

  datatype Place = Total | Flags | Len | PayloadByte(k: nat)

  datatype Field = Magic | Version | HeaderSize | SlotHeaderSize | SlotCount | SlotSize | HeaderFlags
                 | Head | Tail | TotalBytes | ElapsedNs

  datatype TxPc = TMagic | TVersion | TFlags | THead | TTail | TCount | TSize
                | TLoadHead | TLoadTail | TFill | TBarrier | TSeq | TPublish
                | TDrainHead | TDrainTail | TTotalBytes | TElapsed | TLastBarrier | TDoneFlag | TDone | TRejected

  datatype RxPc = RClear | RIssue | RFence | RMagic
                | RTail | RHead | RLen | RSeq | RConsume | RFlags | RHeadAgain | RElapsed | RTotal | ROk | RInvalid

  datatype Tx = Tx(pc: TxPc, alive: bool, head: nat, tail: nat, sent: nat, slotCount: nat, slotSize: nat,
                   slotAt: nat, pending: map<Place, nat>)

  datatype Rx = Rx(pc: RxPc, alive: bool, tail: nat, head: nat, len: nat, received: nat, reported: nat,
                   pending: set<Field>)

  /** Slot headers are kept by byte offset; an offset never written reads as some slot value. */
  datatype State = State(h: Header, slots: map<nat, Slot>, tx: Tx, rx: Rx)

  datatype Action = TxStep | RxStep | TxLand(place: Place) | RxLand(field: Field, zero: bool) | TxAbort | RxAbort

  /** The DONE bit of the flags word. */
  predicate DoneSet(flags: nat) { flags % 2 == DONE }

  function Add64(a: nat, b: nat): nat { (a + b) % 0x1_0000_0000_0000_0000 }
  function Sub64(a: nat, b: nat): nat { (a - b) % 0x1_0000_0000_0000_0000 }

  const BLANK := Slot(0, 0, 0, 0, map[])

  function SlotIn(slots: map<nat, Slot>, at: nat): Slot { if at in slots then slots[at] else BLANK }

  function SlotAt(h: Header, index: nat): nat {
    SlotOffset(h.headerSize, h.slotHeaderSize, h.slotSize, h.slotCount, index)
  }

  /** Payload length of the frame that starts after `sent` bytes. */
  function Payload(c: Config, sent: nat): nat {
    var left := Sub64(c.total, sent);
    if left < c.chunk then left else c.chunk
  }

  /** The plain stores that fill a slot. */
  function Stores(c: Config, sent: nat): map<Place, nat>
  {
    map[Total := Add64(sent, Payload(c, sent)), Flags := 0, Len := Payload(c, sent)]
    + (map k: nat | k < Payload(c, sent) :: PayloadByte(k) := c.pattern[k])
  }

  function StorePlace(s: Slot, place: Place, value: nat): Slot {
    match place
    case Total => s.(total := value)
    case Flags => s.(flags := value)
    case Len => s.(len := value)
    case PayloadByte(k) => s.(payload := s.payload[k := value % 256])
  }

  /** The final value each header word gets from the receiver's initialisation. */
  function InitValue(c: Config, f: Field): nat
  {
    match f
    case Version => VERSION
    case HeaderSize => HEADER_SIZE
    case SlotHeaderSize => SLOT_HEADER_SIZE
    case SlotCount => RxSlotCount(c.capacity, c.rxChunk)
    case SlotSize => RxSlotSize(c.capacity, c.rxChunk)
    case _ => 0
  }

  const ALL_FIELDS: set<Field> := {Magic, Version, HeaderSize, SlotHeaderSize, SlotCount, SlotSize, HeaderFlags,
                                   Head, Tail, TotalBytes, ElapsedNs}

  function StoreField(h: Header, f: Field, value: nat): Header {
    match f
    case Magic => h.(magic := value)
    case Version => h.(version := value)
    case HeaderSize => h.(headerSize := value)
    case SlotHeaderSize => h.(slotHeaderSize := value)
    case SlotCount => h.(slotCount := value)
    case SlotSize => h.(slotSize := value)
    case HeaderFlags => h.(flags := value)
    case Head => h.(head := value)
    case Tail => h.(tail := value)
    case TotalBytes => h.(totalBytes := value)
    case ElapsedNs => h.(elapsedNs := value)
  }

  function LoadField(h: Header, f: Field): nat {
    match f
    case Magic => h.magic
    case Version => h.version
    case HeaderSize => h.headerSize
    case SlotHeaderSize => h.slotHeaderSize
    case SlotCount => h.slotCount
    case SlotSize => h.slotSize
    case HeaderFlags => h.flags
    case Head => h.head
    case Tail => h.tail
    case TotalBytes => h.totalBytes
    case ElapsedNs => h.elapsedNs
  }

  // ---------------------------------------------------------------- the sender, one access per step

  function NextTx(c: Config, s: State): State
  {
    var h, t := s.h, s.tx;
    match t.pc
    case TMagic => s.(tx := t.(pc := if h.magic == MAGIC then TVersion else TMagic))
    case TVersion => s.(tx := t.(pc := if h.version == VERSION then TFlags else TMagic))
    case TFlags => s.(tx := t.(pc := if h.flags == 0 then THead else TMagic))
    case THead => s.(tx := t.(pc := if h.head == 0 then TTail else TMagic))
    case TTail => s.(tx := t.(pc := if h.tail == 0 then TCount else TMagic))
    case TCount => s.(tx := t.(slotCount := h.slotCount, pc := TSize))
    case TSize =>
      var ok := t.slotCount != 0 && h.slotSize != 0 && c.chunk <= h.slotSize;
      s.(tx := t.(slotSize := h.slotSize, pc := if ok then TLoadHead else TRejected))
    case TLoadHead => s.(tx := t.(head := h.head, pc := TLoadTail))
    case TLoadTail =>
      s.(tx := t.(tail := h.tail, pc := if Sub64(t.head, h.tail) >= t.slotCount then TLoadHead else TFill))
    case TFill =>
      // a zero slot count here would be a division by zero in the source
      if h.slotCount == 0 then s.(tx := t.(alive := false))
      else s.(tx := t.(slotAt := SlotAt(h, t.head), pending := Stores(c, t.sent), pc := TBarrier))
    case TBarrier => if t.pending == map[] then s.(tx := t.(pc := TSeq)) else s
    case TSeq =>
      s.(slots := s.slots[t.slotAt := SlotIn(s.slots, t.slotAt).(seqNo := Add64(t.head, 1))], tx := t.(pc := TPublish))
    case TPublish =>
      var sent := Add64(t.sent, Payload(c, t.sent));
      s.(h := h.(head := Add64(t.head, 1)),
         tx := t.(sent := sent, pc := if sent < c.total then TLoadHead else TDrainHead))
    case TDrainHead => s.(tx := t.(head := h.head, pc := TDrainTail))
    case TDrainTail => s.(tx := t.(tail := h.tail, pc := if h.tail == t.head then TTotalBytes else TDrainHead))
    case TTotalBytes => s.(h := h.(totalBytes := t.sent), tx := t.(pc := TElapsed))
    case TElapsed => s.(h := h.(elapsedNs := c.elapsedNs), tx := t.(pc := TLastBarrier))
    case TLastBarrier => s.(tx := t.(pc := TDoneFlag))
    case TDoneFlag => s.(h := h.(flags := DONE), tx := t.(pc := TDone))
    case TDone => s
    case TRejected => s
  }

  // -------------------------------------------------------------- the receiver, one access per step

  function NextRx(c: Config, s: State): State
  {
    var h, r := s.h, s.rx;
    match r.pc
    case RClear => s.(h := h.(magic := 0), rx := r.(pc := RIssue))
    case RIssue => s.(rx := r.(pending := ALL_FIELDS, pc := RFence))
    case RFence => if r.pending == {} then s.(rx := r.(pc := RMagic)) else s
    case RMagic => s.(h := h.(magic := MAGIC), rx := r.(pc := RTail))
    case RTail => s.(rx := r.(tail := h.tail, pc := RHead))
    case RHead => s.(rx := r.(head := h.head, pc := if r.tail < h.head then RLen else RFlags))
    case RLen =>
      if h.slotCount == 0 then s.(rx := r.(alive := false))
      else s.(rx := r.(len := SlotIn(s.slots, SlotAt(h, r.tail)).len, pc := RSeq))
    case RSeq =>
      if h.slotCount == 0 then s.(rx := r.(alive := false))
      else if SlotIn(s.slots, SlotAt(h, r.tail)).seqNo != Add64(r.tail, 1) || r.len > h.slotSize then
        s.(rx := r.(pc := RInvalid))
      else
        s.(rx := r.(received := Add64(r.received, r.len), pc := RConsume))
    case RConsume => s.(h := h.(tail := Add64(r.tail, 1)), rx := r.(pc := RTail))
    case RFlags => s.(rx := r.(pc := if DoneSet(h.flags) then RHeadAgain else RTail))
    case RHeadAgain => s.(rx := r.(pc := if r.tail == h.head then RElapsed else RTail))
    case RElapsed => s.(rx := r.(pc := RTotal))
    case RTotal => s.(rx := r.(reported := h.totalBytes, pc := ROk))
    case ROk => s
    case RInvalid => s
  }

  function Step(c: Config, s: State, a: Action): State
  {
    match a
    case TxStep => if s.tx.alive then NextTx(c, s) else s
    case RxStep => if s.rx.alive then NextRx(c, s) else s
    case TxLand(p) =>
      if p !in s.tx.pending then s
      else
        s.(slots := s.slots[s.tx.slotAt := StorePlace(SlotIn(s.slots, s.tx.slotAt), p, s.tx.pending[p])],
           tx := s.tx.(pending := s.tx.pending - {p}))
    case RxLand(f, zero) =>
      // the memset's zero may become visible before the field's final value does
      if f !in s.rx.pending then s
      else if zero then s.(h := StoreField(s.h, f, 0))
      else s.(h := StoreField(s.h, f, InitValue(c, f)), rx := s.rx.(pending := s.rx.pending - {f}))
    case TxAbort => s.(tx := s.tx.(alive := false))
    case RxAbort => s.(rx := s.rx.(alive := false))
  }

  /** Both programs about to touch a region with arbitrary contents. */
  function Start(h: Header, slots: map<nat, Slot>): State {
    State(h, slots, Tx(TMagic, true, 0, 0, 0, 0, 0, 0, map[]), Rx(RClear, true, 0, 0, 0, 0, 0, {}))
  }

  /** The state after a schedule: any sequence of steps, landings and aborts. */
  function Run(c: Config, s: State, schedule: seq<Action>): State
    decreases |schedule|
  {
    if schedule == [] then s else Run(c, Step(c, s, schedule[0]), schedule[1..])
  }

  // ------------------------------------------------------------------------------- the data stream

  /** Bytes in the first `i` frames. */
  function Bytes(c: Config, i: nat): (b: nat)
    ensures b <= c.total
  {
    if i == 0 then 0 else Min(Bytes(c, i - 1) + c.chunk, c.total)
  }

  /** Number of frames of the transfer: ceil(total / chunk). */
  function Frames(c: Config): nat
  {
    (c.total + c.chunk - 1) / c.chunk
  }

  datatype Frame = Frame(total: nat, len: nat, payload: seq<Byte>)

  /** Frame `i` of the transfer. */
  function FrameAt(c: Config, i: nat): Frame
  {
    Frame(Bytes(c, i + 1), Bytes(c, i + 1) - Bytes(c, i), c.pattern[..Min(c.chunk, c.total - Bytes(c, i))])
  }
}
