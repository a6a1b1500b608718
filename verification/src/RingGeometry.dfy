/** The layout of the profiling ring: a 64-byte header followed by `slotCount` slots, each a
    64-byte slot header and a payload of `slotSize` bytes. `size_t` and `uint64_t` arithmetic
    is written out modulo 2^64. */
module RingGeometry {
  import opened Basics

  const TWO32: nat := 0x1_0000_0000
  const TWO64: nat := 0x1_0000_0000_0000_0000
  const HEADER_SIZE: nat := 64
  const SLOT_HEADER_SIZE: nat := 64

  function MaxSlotSize(capacity: nat): nat {
    if capacity <= HEADER_SIZE + SLOT_HEADER_SIZE then 0
    else capacity - HEADER_SIZE - SLOT_HEADER_SIZE
  }

  function CalcSlotCount(capacity: nat, slotSize: nat): nat {
    if slotSize == 0 || capacity <= HEADER_SIZE then 0
    else
      var stride := (SLOT_HEADER_SIZE + slotSize) % TWO64;
      if stride == 0 then 0 // the source would divide by zero; the receiver never asks for such a slot
      else Min((capacity - HEADER_SIZE) / stride, TWO32 - 1)
  }

  /** What the receiver's size checks let through. */
  predicate RxAccepts(capacity: nat, chunk: nat) {
    && capacity < TWO64
    && 0 < chunk < TWO32
    && MaxSlotSize(capacity) != 0
  }

  function RxSlotSize(capacity: nat, chunk: nat): nat { Min(chunk, MaxSlotSize(capacity)) }

  function RxSlotCount(capacity: nat, chunk: nat): nat {
    CalcSlotCount(capacity, RxSlotSize(capacity, chunk))
  }

  /** The byte offset of a slot, from whatever the header words hold. */
  function SlotOffset(headerSize: nat, slotHeaderSize: nat, slotSize: nat, slotCount: nat, index: nat): nat {
    if slotCount == 0 then 0 // callers test for this division by zero
    else (headerSize + (index % slotCount) * ((slotHeaderSize + slotSize) % TWO64) % TWO64) % TWO64
  }

  /** The offset of slot `index` in a ring the receiver has laid out. */
  function Offset(capacity: nat, chunk: nat, index: nat): nat {
    SlotOffset(HEADER_SIZE, SLOT_HEADER_SIZE, RxSlotSize(capacity, chunk), RxSlotCount(capacity, chunk), index)
  }

  /** The first payload byte of a slot. */
  function PayloadOffset(capacity: nat, chunk: nat, index: nat): nat {
    Offset(capacity, chunk, index) + SLOT_HEADER_SIZE
  }

  lemma DivisionBounds(a: nat, d: nat)
    requires d > 0
    ensures a / d * d <= a
    ensures d <= a ==> a / d >= 1
  {
    assert a == a / d * d + a % d;
  }

  lemma ScaleMonotone(a: nat, b: nat, d: nat)
    requires a <= b
    ensures a * d <= b * d
  {
  }

  lemma CountFits(room: nat, stride: nat, n: nat)
    requires 0 < stride <= room && n == Min(room / stride, TWO32 - 1)
    ensures 1 <= n < TWO32 && n * stride <= room
    ensures n == TWO32 - 1 || (n + 1) * stride > room
  {
    DivisionBounds(room, stride);
    ScaleMonotone(n, room / stride, stride);
    assert room < room / stride * stride + stride;
    assert (room / stride + 1) * stride == room / stride * stride + stride;
  }

  /** Whenever the receiver accepts the sizes there is at least one slot (its own zero test
      never fires), and header plus slots fit into the mapping. */
  lemma SlotsFit(capacity: nat, chunk: nat)
    requires RxAccepts(capacity, chunk)
    ensures 1 <= RxSlotCount(capacity, chunk) < TWO32
    ensures HEADER_SIZE + RxSlotCount(capacity, chunk) * (SLOT_HEADER_SIZE + RxSlotSize(capacity, chunk)) <= capacity
    ensures 1 <= RxSlotSize(capacity, chunk) <= chunk
  {
    CountFits(capacity - HEADER_SIZE, SLOT_HEADER_SIZE + RxSlotSize(capacity, chunk), RxSlotCount(capacity, chunk));
    hide RxSlotCount;
  }

  /** The layout wastes nothing: slots are as large as asked for, or one fills the mapping, and no further slot
      would fit. */
  lemma LayoutIsMaximal(capacity: nat, chunk: nat)
    requires RxAccepts(capacity, chunk)
    ensures var size, n := RxSlotSize(capacity, chunk), RxSlotCount(capacity, chunk);
            && (size == chunk || (size < chunk && HEADER_SIZE + SLOT_HEADER_SIZE + size == capacity))
            && (n == TWO32 - 1 || HEADER_SIZE + (n + 1) * (SLOT_HEADER_SIZE + size) > capacity)
  {
    CountFits(capacity - HEADER_SIZE, SLOT_HEADER_SIZE + RxSlotSize(capacity, chunk), RxSlotCount(capacity, chunk));
    hide RxSlotCount;
  }

  lemma Separated(a: nat, b: nat, d: nat)
    requires a < b
    ensures a * d + d <= b * d
  {
    ScaleMonotone(a + 1, b, d);
    assert (a + 1) * d == a * d + d;
  }

  lemma OffsetWithoutWrap(slotSize: nat, n: nat, index: nat)
    requires n != 0
    requires HEADER_SIZE + (index % n) * (SLOT_HEADER_SIZE + slotSize) + SLOT_HEADER_SIZE + slotSize < TWO64
    ensures SlotOffset(HEADER_SIZE, SLOT_HEADER_SIZE, slotSize, n, index)
         == HEADER_SIZE + (index % n) * (SLOT_HEADER_SIZE + slotSize)
  {
    var k := index % n;
    var stride := SLOT_HEADER_SIZE + slotSize;
    assert stride % TWO64 == stride;
    var product := k * stride;
    assert product % TWO64 == product;
  }

  /** The same facts for a layout given by plain numbers. */
  lemma LayoutInside(capacity: nat, slotSize: nat, n: nat, index: nat)
    requires 1 <= n && HEADER_SIZE + n * (SLOT_HEADER_SIZE + slotSize) <= capacity < TWO64
    ensures var at := SlotOffset(HEADER_SIZE, SLOT_HEADER_SIZE, slotSize, n, index);
            && at == HEADER_SIZE + (index % n) * (SLOT_HEADER_SIZE + slotSize)
            && HEADER_SIZE <= at && at + SLOT_HEADER_SIZE + slotSize <= capacity
  {
    hide SlotOffset;
    Separated(index % n, n, SLOT_HEADER_SIZE + slotSize);
    OffsetWithoutWrap(slotSize, n, index);
  }

  lemma LayoutDisjoint(slotSize: nat, a: nat, b: nat)
    ensures var stride := SLOT_HEADER_SIZE + slotSize;
            && (HEADER_SIZE + a * stride == HEADER_SIZE + b * stride <==> a == b)
            && (a != b ==> a * stride + stride <= b * stride || b * stride + stride <= a * stride)
  {
    if a < b {
      Separated(a, b, SLOT_HEADER_SIZE + slotSize);
    } else if b < a {
      Separated(b, a, SLOT_HEADER_SIZE + slotSize);
    }
  }

  /** No step of the address computation wraps, and the whole slot lies between the header and
      the end of the mapping. */
  lemma SlotInside(capacity: nat, chunk: nat, index: nat)
    requires RxAccepts(capacity, chunk)
    ensures 1 <= RxSlotCount(capacity, chunk)
    ensures Offset(capacity, chunk, index)
         == HEADER_SIZE + (index % RxSlotCount(capacity, chunk)) * (SLOT_HEADER_SIZE + RxSlotSize(capacity, chunk))
    ensures HEADER_SIZE <= Offset(capacity, chunk, index)
    ensures PayloadOffset(capacity, chunk, index) + RxSlotSize(capacity, chunk) <= capacity
  {
    hide SlotOffset, RxSlotCount, RxSlotSize, MaxSlotSize;
    SlotsFit(capacity, chunk);
    LayoutInside(capacity, RxSlotSize(capacity, chunk), RxSlotCount(capacity, chunk), index);
  }

  /** Two indices use the same bytes exactly when they are congruent modulo the slot count;
      otherwise their slots, payloads included, do not overlap. */
  lemma SlotsDisjoint(capacity: nat, chunk: nat, i: nat, j: nat)
    requires RxAccepts(capacity, chunk)
    ensures 1 <= RxSlotCount(capacity, chunk)
    ensures Offset(capacity, chunk, i) == Offset(capacity, chunk, j)
       <==> i % RxSlotCount(capacity, chunk) == j % RxSlotCount(capacity, chunk)
    ensures Offset(capacity, chunk, i) != Offset(capacity, chunk, j) ==>
              || PayloadOffset(capacity, chunk, i) + RxSlotSize(capacity, chunk) <= Offset(capacity, chunk, j)
              || PayloadOffset(capacity, chunk, j) + RxSlotSize(capacity, chunk) <= Offset(capacity, chunk, i)
  {
    hide RxAccepts, RxSlotCount, RxSlotSize, Offset;
    SlotInside(capacity, chunk, i);
    SlotInside(capacity, chunk, j);
    var n := RxSlotCount(capacity, chunk);
    LayoutDisjoint(RxSlotSize(capacity, chunk), i % n, j % n);
  }

  lemma NearIndicesDiffer(i: nat, j: nat, n: nat)
    requires i < j < i + n
    ensures i % n != j % n
  {
    if i % n == j % n {
      var q := j / n - i / n;
      assert j - i == q * n by {
        assert i == i / n * n + i % n && j == j / n * n + j % n;
        assert q * n == j / n * n - i / n * n;
      }
      if q >= 1 {
        ScaleMonotone(1, q, n);
      }
      assert false;
    }
  }

  /** Indices closer than the slot count never share a slot: a producer less than a full ring
      ahead of the consumer cannot touch an unread slot. */
  lemma WindowIsInjective(capacity: nat, chunk: nat, i: nat, j: nat)
    requires RxAccepts(capacity, chunk)
    requires i < j < i + RxSlotCount(capacity, chunk)
    ensures Offset(capacity, chunk, i) != Offset(capacity, chunk, j)
  {
    hide RxAccepts, RxSlotCount, RxSlotSize, Offset;
    NearIndicesDiffer(i, j, RxSlotCount(capacity, chunk));
    SlotsDisjoint(capacity, chunk, i, j);
  }
}
