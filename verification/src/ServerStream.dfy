/** The byte stream from the ivshmem server: reassembly of 8-byte messages from arbitrary fragments and
    the table of eventfds the messages build up. */
module ServerStream {
  import opened Basics
  import opened LittleEndian

  type Int64 = m: int | -0x8000_0000_0000_0000 <= m < 0x8000_0000_0000_0000

  const MAX_PEERS: int := 0xFFFF

  // ---------------------------------------------------------------------------------- wire format

  lemma EightBytes()
    ensures Power(8) == 0x1_0000_0000_0000_0000
  {
    assert Power(4) == 0x1_0000_0000;
  }

  function Encode(m: Int64): (r: seq<Byte>)
    ensures |r| == 8
  {
    Digits(if m < 0 then m + 0x1_0000_0000_0000_0000 else m, 8)
  }

  function Decode(bytes: seq<Byte>): Int64
    requires |bytes| == 8
  {
    ValueIsBounded(bytes); EightBytes();
    var v := Value(bytes);
    if v >= 0x8000_0000_0000_0000 then v - 0x1_0000_0000_0000_0000 else v
  }

  /** Messages survive the wire. */
  lemma RoundTrip(m: Int64)
    ensures Decode(Encode(m)) == m
  {
    EightBytes();
    ValueOfDigits(if m < 0 then m + 0x1_0000_0000_0000_0000 else m, 8);
    hide Value, Digits, Power;
  }

  // ------------------------------------------------------------------------------------ reassembly

  /** The messages a byte stream holds, and the bytes of the one still incomplete. */
  function Groups(bytes: seq<Byte>): seq<Int64>
    decreases |bytes|
  {
    if |bytes| < 8 then [] else [Decode(bytes[..8])] + Groups(bytes[8..])
  }

  function Leftover(bytes: seq<Byte>): seq<Byte>
    decreases |bytes|
  {
    if |bytes| < 8 then bytes else Leftover(bytes[8..])
  }

  function Flatten(chunks: seq<seq<Byte>>): seq<Byte>
    decreases |chunks|
  {
    if chunks == [] then [] else Flatten(chunks[..|chunks| - 1]) + chunks[|chunks| - 1]
  }

  function EncodeAll(messages: seq<Int64>): seq<Byte> {
    if messages == [] then [] else Encode(messages[0]) + EncodeAll(messages[1..])
  }

  lemma {:induction false} GroupsOfEncoded(messages: seq<Int64>)
    ensures Groups(EncodeAll(messages)) == messages && Leftover(EncodeAll(messages)) == []
    decreases |messages|
  {
    hide Decode, Encode;
    if messages != [] {
      RoundTrip(messages[0]);
      GroupsOfEncoded(messages[1..]);
      assert EncodeAll(messages)[..8] == Encode(messages[0]);
      assert EncodeAll(messages)[8..] == EncodeAll(messages[1..]);
    }
  }

  /** More bytes complete the message that was left over. */
  lemma {:induction false} GroupsGrow(bytes: seq<Byte>, more: seq<Byte>)
    requires |Leftover(bytes)| + |more| <= 8
    ensures |Leftover(bytes)| < 8
    ensures var all := Leftover(bytes) + more;
            if |all| < 8 then Groups(bytes + more) == Groups(bytes) && Leftover(bytes + more) == all
            else Groups(bytes + more) == Groups(bytes) + [Decode(all)] && Leftover(bytes + more) == []
    decreases |bytes|
  {
    hide Decode;
    if |bytes| >= 8 {
      GroupsGrow(bytes[8..], more);
      assert (bytes + more)[..8] == bytes[..8];
      assert (bytes + more)[8..] == bytes[8..] + more;
    } else if |bytes + more| == 8 {
      assert (bytes + more)[..8] == bytes + more;
    }
  }

  // -------------------------------------------------------------------------------- eventfd table

  datatype Setup = Setup(vmId: nat, vectors: nat)

  /** `eventfds[i]` lists the descriptors of machine i by vector. */
  datatype Device = Device(buffered: seq<Byte>, handled: nat, eventfds: seq<seq<int>>)

  function Resize(eventfds: seq<seq<int>>, n: nat): (r: seq<seq<int>>)
    ensures |r| >= n && eventfds <= r
  {
    if n <= |eventfds| then eventfds else eventfds + seq(n - |eventfds|, _ => [])
  }

  /** The descriptor that comes with message i; -1 if none came. */
  function Fd(fds: seq<int>, i: nat): int { if i < |fds| then fds[i] else -1 }

  /** A negative descriptor announces a disconnect. */
  function ProcessMessage(c: Setup, eventfds: seq<seq<int>>, msg: Int64, fd: int): seq<seq<int>> {
    if msg < 0 || msg > MAX_PEERS then eventfds
    else
      var t := Resize(eventfds, msg + 1);
      if fd < 0 then (if msg == c.vmId then t else t[msg := []])
      else if |t[msg]| >= c.vectors then t
      else t[msg := t[msg] + [fd]]
  }

  /** What the chardev may deliver now. */
  function CanReceive(d: Device): int { 8 - |d.buffered| }

  function Receive(c: Setup, fds: seq<int>, d: Device, chunk: seq<Byte>): Device
    requires |chunk| <= CanReceive(d)
  {
    var all := d.buffered + chunk;
    if |all| < 8 then d.(buffered := all)
    else Device([], d.handled + 1, ProcessMessage(c, d.eventfds, Decode(all), Fd(fds, d.handled)))
  }

  datatype Outcome = AssertionFailed | Running(device: Device)

  /** A run of deliveries; it ends when an assertion of the reader fails. */
  function ReceiveAll(c: Setup, fds: seq<int>, d: Device, chunks: seq<seq<Byte>>): Outcome
    decreases |chunks|
  {
    if chunks == [] then Running(d)
    else
      var before, chunk := ReceiveAll(c, fds, d, chunks[..|chunks| - 1]), chunks[|chunks| - 1];
      if before.AssertionFailed? || CanReceive(before.device) <= 0 || |chunk| > CanReceive(before.device) then AssertionFailed
      else Running(Receive(c, fds, before.device, chunk))
  }

  /** Messages processed one after the other, none of them fragmented. */
  function ProcessAll(c: Setup, fds: seq<int>, eventfds: seq<seq<int>>, messages: seq<Int64>): seq<seq<int>>
    decreases |messages|
  {
    if messages == [] then eventfds
    else
      var before := messages[..|messages| - 1];
      ProcessMessage(c, ProcessAll(c, fds, eventfds, before), messages[|messages| - 1], Fd(fds, |before|))
  }

  function Empty(): seq<seq<int>> { seq(16, _ => []) }

  const REALIZED: Device := Device([], 0, Empty())

  // ---------------------------------------------------------------------------------- main results

  /** No chunk reaches past the end of the message it falls into. */
  predicate Fits(chunks: seq<seq<Byte>>, i: nat)
    requires i < |chunks|
  {
    |Flatten(chunks[..i])| % 8 + |chunks[i]| <= 8
  }

  ghost predicate Respectful(chunks: seq<seq<Byte>>) { forall i :: 0 <= i < |chunks| ==> Fits(chunks, i) }

  lemma {:induction false} LeftoverLength(bytes: seq<Byte>)
    ensures |Leftover(bytes)| == |bytes| % 8
    decreases |bytes|
  {
    if |bytes| >= 8 { LeftoverLength(bytes[8..]); }
  }

  lemma RespectfulPrefix(chunks: seq<seq<Byte>>)
    requires chunks != []
    ensures Respectful(chunks) <==> Respectful(chunks[..|chunks| - 1]) && Fits(chunks, |chunks| - 1)
  {
    var before := chunks[..|chunks| - 1];
    forall i | 0 <= i < |before| ensures Fits(before, i) <==> Fits(chunks, i) {
      assert before[..i] == chunks[..i];
    }
  }

  /** The device's state after a delivery is a function of the bytes so far. */
  function After(c: Setup, fds: seq<int>, bytes: seq<Byte>): Device {
    Device(Leftover(bytes), |Groups(bytes)|, ProcessAll(c, fds, REALIZED.eventfds, Groups(bytes)))
  }

  lemma ReceiveIs(c: Setup, fds: seq<int>, bytes: seq<Byte>, chunk: seq<Byte>)
    requires |Leftover(bytes)| + |chunk| <= 8
    ensures Receive(c, fds, After(c, fds, bytes), chunk) == After(c, fds, bytes + chunk)
  {
    hide Decode, ProcessMessage, Groups, Leftover;
    GroupsGrow(bytes, chunk);
    var all := Leftover(bytes) + chunk;
    if |all| == 8 {
      assert (Groups(bytes) + [Decode(all)])[..|Groups(bytes)|] == Groups(bytes);
    }
  }

  /** Reassembly: the reader's assertions hold exactly for the fragmentations that respect what it said
      it can receive, and then it has processed the 8-byte groups of the stream, whatever the chunks. */
  lemma {:induction false} StreamIsReassembled(c: Setup, fds: seq<int>, chunks: seq<seq<Byte>>)
    ensures ReceiveAll(c, fds, REALIZED, chunks) ==
            if Respectful(chunks) then Running(After(c, fds, Flatten(chunks))) else AssertionFailed
    decreases |chunks|
  {
    hide Receive, Decode, ProcessAll, Groups, Leftover, Fits;
    if chunks == [] {
      assert After(c, fds, []) == REALIZED by { NothingReceived(c, fds); }
      return;
    }
    hide Respectful;
    var before, chunk := chunks[..|chunks| - 1], chunks[|chunks| - 1];
    StreamIsReassembled(c, fds, before);
    RespectfulPrefix(chunks);
    LastFits(chunks);
    if Respectful(chunks) { ReceiveIs(c, fds, Flatten(before), chunk); }
  }

  lemma NothingReceived(c: Setup, fds: seq<int>)
    ensures After(c, fds, []) == REALIZED
  {
  }

  lemma LastFits(chunks: seq<seq<Byte>>)
    requires chunks != []
    ensures var left := |Leftover(Flatten(chunks[..|chunks| - 1]))|;
            left < 8 && (Fits(chunks, |chunks| - 1) <==> |chunks[|chunks| - 1]| <= 8 - left)
  {
    hide Leftover;
    LeftoverLength(Flatten(chunks[..|chunks| - 1]));
  }

  /** The descriptors announced for one machine, in order. */
  function Announced(messages: seq<Int64>, fds: seq<int>, id: nat): seq<int>
    decreases |messages|
  {
    if messages == [] then []
    else
      var before := messages[..|messages| - 1];
      Announced(before, fds, id) + (if messages[|messages| - 1] == id then [Fd(fds, |before|)] else [])
  }

  function Entry(eventfds: seq<seq<int>>, id: nat): seq<int> { if id < |eventfds| then eventfds[id] else [] }

  function Take(s: seq<int>, n: nat): seq<int> { if |s| <= n then s else s[..n] }

  lemma ProcessOne(c: Setup, eventfds: seq<seq<int>>, msg: Int64, fd: int, id: nat)
    requires fd >= 0 && id <= MAX_PEERS
    ensures Entry(ProcessMessage(c, eventfds, msg, fd), id) ==
            if msg == id && |Entry(eventfds, id)| < c.vectors then Entry(eventfds, id) + [fd] else Entry(eventfds, id)
  {
  }

  /** A disconnect empties the entry of the machine it names, and no other; the own entry is never emptied. */
  lemma DisconnectOne(c: Setup, eventfds: seq<seq<int>>, msg: Int64, fd: int, id: nat)
    requires fd < 0 && id <= MAX_PEERS
    ensures Entry(ProcessMessage(c, eventfds, msg, fd), id) == if msg == id && id != c.vmId then [] else Entry(eventfds, id)
  {
  }

  /** With no disconnect, the N-th connect message for a machine lands on vector N-1, and no machine gets
      more eventfds than the device has vectors. */
  lemma {:induction false} EventfdsByVector(c: Setup, fds: seq<int>, messages: seq<Int64>, id: nat)
    requires id <= MAX_PEERS && |fds| >= |messages| && forall i :: 0 <= i < |messages| ==> fds[i] >= 0
    ensures Entry(ProcessAll(c, fds, REALIZED.eventfds, messages), id) == Take(Announced(messages, fds, id), c.vectors)
    decreases |messages|
  {
    hide ProcessMessage;
    if messages != [] {
      var before := messages[..|messages| - 1];
      EventfdsByVector(c, fds, before, id);
      ProcessOne(c, ProcessAll(c, fds, REALIZED.eventfds, before), messages[|messages| - 1], Fd(fds, |before|), id);
    }
  }

  /** End to end: however the server's messages are cut up, each machine ends with its own eventfds. */
  lemma StreamBuildsTable(c: Setup, fds: seq<int>, messages: seq<Int64>, chunks: seq<seq<Byte>>, id: nat)
    requires Respectful(chunks) && Flatten(chunks) == EncodeAll(messages) && id <= MAX_PEERS
    requires |fds| >= |messages| && forall i :: 0 <= i < |messages| ==> fds[i] >= 0
    ensures var r := ReceiveAll(c, fds, REALIZED, chunks);
            && r.Running? && r.device.handled == |messages| && r.device.buffered == []
            && Entry(r.device.eventfds, id) == Take(Announced(messages, fds, id), c.vectors)
  {
    hide Entry, Take, Respectful, Groups, Leftover, ReceiveAll, ProcessAll;
    StreamIsReassembled(c, fds, chunks);
    GroupsOfEncoded(messages);
    EventfdsByVector(c, fds, messages, id);
  }

  // ------------------------------------------------------------------------------------ the reader

  /** The reader as it fills its message buffer in place. */
  class Reader {
    const c: Setup
    const buf: array<Byte>
    var bufferedBytes: nat
    var handled: nat
    var eventfds: seq<seq<int>>

    ghost predicate Valid()
      reads this
    {
      buf.Length == 8 && bufferedBytes < 8
    }

    ghost function View(): Device
      requires Valid()
      reads this, buf
    {
      Device(buf[..bufferedBytes], handled, eventfds)
    }

    constructor (c: Setup)
      ensures Valid() && fresh(buf) && this.c == c && View() == REALIZED
    {
      this.c := c;
      buf := new Byte[8](_ => 0);
      bufferedBytes, handled, eventfds := 0, 0, Empty();
    }

    method MayReceive() returns (room: nat)
      requires Valid()
      ensures room == CanReceive(View()) && room > 0
    {
      return buf.Length - bufferedBytes;
    }

    method Read(chunk: seq<Byte>, fds: seq<int>)
      requires Valid() && |chunk| <= CanReceive(View())
      modifies this, buf
      ensures Valid() && View() == Receive(c, fds, old(View()), chunk)
    {
      var at := bufferedBytes;
      for i := 0 to |chunk|
        modifies buf
        invariant buf[..at] == old(buf[..at]) && buf[at..at + i] == chunk[..i]
      {
        buf[at + i] := chunk[i];
      }
      ghost var all := old(buf[..at]) + chunk;
      assert buf[..at + |chunk|] == all;
      if at + |chunk| < buf.Length {
        bufferedBytes := at + |chunk|;
        return;
      }
      assert buf[..] == all;
      var msg := Decode(buf[..]);
      bufferedBytes := 0;
      Process(msg, Fd(fds, handled));
      handled := handled + 1;
    }

    method Process(msg: Int64, fd: int)
      modifies this`eventfds
      ensures eventfds == ProcessMessage(c, old(eventfds), msg, fd)
    {
      if msg < -1 || msg > MAX_PEERS || msg == -1 { return; }
      if msg >= |eventfds| { eventfds := eventfds + seq(msg + 1 - |eventfds|, _ => []); }
      if fd < 0 {
        if msg != c.vmId { eventfds := eventfds[msg := []]; }
      } else if |eventfds[msg]| < c.vectors {
        eventfds := eventfds[msg := eventfds[msg] + [fd]];
      }
    }
  }
}
