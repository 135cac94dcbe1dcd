/**
  AVRCP fragmentation and reassembly, on byte sequences: how the target splits a vendor response
  that exceeds one packet, how the controller puts the fragments together, and that the second
  undoes the first.
 */
module AvrcpFragments {
  import opened Wrappers

  const VENDOR_HDR := 6  // ctype, subunit, opcode, company id
  const META_HDR := 4    // pdu, packet type, parameter length
  const HDR := VENDOR_HDR + META_HDR

  const SINGLE: byte := 0
  const START: byte := 1
  const CONTINUE: byte := 2
  const END: byte := 3

  /** The response type is the low half of the first byte. */
  function CType(b: byte): byte {
    b % 16
  }

  function PacketType(packet: seq<byte>): byte
    requires |packet| >= HDR
  {
    packet[VENDOR_HDR + 1] % 4
  }

  function Pdu(packet: seq<byte>): byte
    requires |packet| >= HDR
  {
    packet[VENDOR_HDR]
  }

  /** A 16-bit length, most significant byte first; longer values lose their upper bits. */
  function BigEndian(n: nat): seq<byte> {
    [(n / 256 % 256) as byte, (n % 256) as byte]
  }

  function VendorHeader(ctype: byte): (r: seq<byte>)
    ensures |r| == VENDOR_HDR
  {
    [CType(ctype), 0x48, 0x00, 0x00, 0x19, 0x58]
  }

  /** The header written in front of what is left of a response. */
  function EndHeader(ctype: byte, pdu: byte, length: nat): (r: seq<byte>)
    ensures |r| == HDR
  {
    VendorHeader(ctype) + [pdu, END] + BigEndian(length)
  }

  /** The packet with its type and parameter length rewritten. */
  function Retyped(packet: seq<byte>, kind: byte, length: nat): (r: seq<byte>)
    requires |packet| >= HDR
    ensures |r| == |packet|
  {
    packet[..VENDOR_HDR + 1] + [kind] + BigEndian(length) + packet[HDR..]
  }

  // ---------------------------------------------------------------------------
  // Splitting
  // ---------------------------------------------------------------------------

  /** What the target holds back once `max` bytes of `message` are sent: a packet in its own right. */
  function Remainder(message: seq<byte>, pdu: byte, max: nat): (r: seq<byte>)
    requires HDR < max < |message|
    ensures |r| == |message| - (max - HDR)
    ensures r[HDR..] == message[max..] && PacketType(r) == END
  {
    EndHeader(message[0], pdu, |message| - max) + message[max..]
  }

  function StartPacket(message: seq<byte>, max: nat): (r: seq<byte>)
    requires HDR < max < |message|
    ensures |r| == max
  {
    Retyped(message[..max], START, max - HDR)
  }

  function ContinuePacket(held: seq<byte>, max: nat): (r: seq<byte>)
    requires HDR < max < |held|
    ensures |r| == max
  {
    Retyped(held[..max], CONTINUE, max - HDR)
  }

  /** The packets that answer successive continuation requests. */
  function Rest(held: seq<byte>, pdu: byte, max: nat): (r: seq<seq<byte>>)
    requires HDR < max
    ensures r != []
    decreases |held|
  {
    if |held| <= max then [held]
    else [ContinuePacket(held, max)] + Rest(Remainder(held, pdu, max), pdu, max)
  }

  /** All packets of a response longer than `max`. */
  function Fragments(message: seq<byte>, max: nat): seq<seq<byte>>
    requires HDR < max < |message|
  {
    [StartPacket(message, max)] + Rest(Remainder(message, Pdu(message), max), Pdu(message), max)
  }

  lemma OneMore(n: int, d: int)
    ensures (n + 1) * d == n * d + d && (n - 1) * d == n * d - d
  {
  }

  /** Each continuation takes `max - HDR` bytes off, so the length bounds their number from both sides. */
  lemma {:induction false} RestCount(held: seq<byte>, pdu: byte, max: nat)
    requires HDR < max && HDR < |held|
    ensures (|Rest(held, pdu, max)| - 1) * (max - HDR) < |held| - HDR <= |Rest(held, pdu, max)| * (max - HDR)
    decreases |held|
  {
    if |held| > max {
      var next := Remainder(held, pdu, max);
      RestCount(next, pdu, max);
      assert |Rest(held, pdu, max)| == |Rest(next, pdu, max)| + 1;
      OneMore(|Rest(next, pdu, max)|, max - HDR);
    }
  }

  // ---------------------------------------------------------------------------
  // Putting together
  // ---------------------------------------------------------------------------

  /** What the controller does with a response packet. */
  datatype Verdict =
    | Report(message: seq<byte>)    // handed to the application
    | Request(pdu: byte)            // ask for the next fragment
    | Abort(pdu: byte)              // too long: dropped, and the peer told to stop
    | Drop                          // a fragment without a START

  /** The message under reassembly, and the PDU of its START packet. */
  datatype Assembly = Assembly(partial: Option<seq<byte>>, pdu: byte)

  /** A reassembled message: type SINGLE, and the length of all its parameters. */
  function Whole(bytes: seq<byte>): (r: seq<byte>)
    requires |bytes| >= HDR
    ensures |r| == |bytes|
  {
    Retyped(bytes, SINGLE, |bytes| - HDR)
  }

  /** One response packet into a buffer of `room` bytes. */
  function Receive(a: Assembly, packet: seq<byte>, room: nat): (r: (Assembly, Verdict))
    requires |packet| >= HDR && (a.partial.Some? ==> HDR <= |a.partial.value| <= room)
    requires PacketType(packet) == START ==> |packet| <= room
    ensures r.0.partial.Some? ==> HDR <= |r.0.partial.value| <= room
  {
    var kind := PacketType(packet);
    if kind == SINGLE then (a.(partial := None), Report(packet))
    else if kind == START then (Assembly(Some(packet), Pdu(packet)), Request(Pdu(packet)))
    else if a.partial.None? then (a, Drop)
    else if |a.partial.value| + |packet| - HDR > room then (a.(partial := None), Abort(a.pdu))
    else
      var bytes := a.partial.value + packet[HDR..];
      if kind == END then (a.(partial := None), Report(Whole(bytes)))
      else (a.(partial := Some(bytes)), Request(a.pdu))
  }

  /** The verdict on the last of several packets. */
  function ReceiveAll(a: Assembly, packets: seq<seq<byte>>, room: nat): (Assembly, Verdict)
    requires packets != [] && (forall p :: p in packets ==> HDR <= |p| && (PacketType(p) == START ==> |p| <= room))
    requires a.partial.Some? ==> HDR <= |a.partial.value| <= room
    decreases |packets|
  {
    var r := Receive(a, packets[0], room);
    if |packets| == 1 then r else ReceiveAll(r.0, packets[1..], room)
  }

  // ---------------------------------------------------------------------------
  // The round trip
  // ---------------------------------------------------------------------------

  lemma RetypedParts(packet: seq<byte>, kind: byte, length: nat)
    requires |packet| >= HDR && kind < 4
    ensures PacketType(Retyped(packet, kind, length)) == kind && Pdu(Retyped(packet, kind, length)) == Pdu(packet)
    ensures Retyped(packet, kind, length)[HDR..] == packet[HDR..]
  {
  }

  /** Rewriting type and length twice is rewriting them once, also with bytes added in between. */
  lemma RetypedTwice(packet: seq<byte>, tail: seq<byte>, k1: byte, n1: nat, k2: byte, n2: nat)
    requires |packet| >= HDR
    ensures Retyped(Retyped(packet, k1, n1) + tail, k2, n2) == Retyped(packet + tail, k2, n2)
  {
    var once := Retyped(packet, k1, n1) + tail;
    assert once[..VENDOR_HDR + 1] == (packet + tail)[..VENDOR_HDR + 1];
    assert once[HDR..] == packet[HDR..] + tail == (packet + tail)[HDR..];
  }

  lemma {:induction false} RestSizes(held: seq<byte>, pdu: byte, max: nat)
    requires HDR < max && HDR <= |held|
    ensures forall p :: p in Rest(held, pdu, max) ==> HDR <= |p| <= max
    decreases |held|
  {
    if |held| > max {
      RestSizes(Remainder(held, pdu, max), pdu, max);
    }
  }

  lemma LastFragment(a: Assembly, packet: seq<byte>, room: nat)
    requires |packet| >= HDR && PacketType(packet) == END
    requires a.partial.Some? && HDR <= |a.partial.value| && |a.partial.value| + |packet| - HDR <= room
    ensures Receive(a, packet, room) == (a.(partial := None), Report(Whole(a.partial.value + packet[HDR..])))
  {
    hide Whole;
  }

  lemma MiddleFragment(a: Assembly, held: seq<byte>, max: nat, room: nat)
    requires HDR < max < |held| && max <= room
    requires a.partial.Some? && HDR <= |a.partial.value| && |a.partial.value| + |held| - HDR <= room
    ensures PacketType(ContinuePacket(held, max)) == CONTINUE
    ensures Receive(a, ContinuePacket(held, max), room)
            == (a.(partial := Some(a.partial.value + held[HDR..max])), Request(a.pdu))
  {
    hide Retyped, Whole;
    RetypedParts(held[..max], CONTINUE, max - HDR);
    assert held[..max][HDR..] == held[HDR..max];
  }

  /** Reassembling what is left: it completes the bytes already there. */
  lemma {:induction false} RestReassembles(a: Assembly, held: seq<byte>, pdu: byte, max: nat, room: nat)
    requires HDR < max <= room && HDR <= |held| && PacketType(held) == END
    requires a.partial.Some? && HDR <= |a.partial.value| && |a.partial.value| + |held| - HDR <= room
    requires forall p :: p in Rest(held, pdu, max) ==> HDR <= |p| <= room
    ensures ReceiveAll(a, Rest(held, pdu, max), room)
            == (a.(partial := None), Report(Whole(a.partial.value + held[HDR..])))
    decreases |held|
  {
    hide Retyped, EndHeader, Whole, PacketType, Pdu, ContinuePacket, Remainder, Receive;
    if |held| <= max {
      LastFragment(a, held, room);
    } else {
      var packet := ContinuePacket(held, max);
      var next := Remainder(held, pdu, max);
      var bytes := a.partial.value + held[HDR..max];
      MiddleFragment(a, held, max, room);
      assert Rest(held, pdu, max)[1..] == Rest(next, pdu, max);
      RestReassembles(a.(partial := Some(bytes)), next, pdu, max, room);
      assert bytes + held[max..] == a.partial.value + (held[HDR..max] + held[max..]);
      assert held[HDR..max] + held[max..] == held[HDR..];
    }
  }

  /** Splitting any response and reassembling the packets rebuilds it as one single packet. */
  lemma RoundTrip(a: Assembly, message: seq<byte>, max: nat, room: nat)
    requires HDR < max < |message| <= room
    requires a.partial.Some? ==> HDR <= |a.partial.value| <= room
    ensures forall p :: p in Fragments(message, max) ==> HDR <= |p| <= max
    ensures ReceiveAll(a, Fragments(message, max), room)
            == (Assembly(None, Pdu(message)), Report(Whole(message)))
  {
    hide Retyped, EndHeader, PacketType, Rest;
    var pdu := Pdu(message);
    var start, held := StartPacket(message, max), Remainder(message, pdu, max);
    RetypedParts(message[..max], START, max - HDR);
    RestSizes(held, pdu, max);
    assert Fragments(message, max)[1..] == Rest(held, pdu, max);
    assert Receive(a, start, room).0 == Assembly(Some(start), pdu);
    assert |start| + |held| - HDR == |message|;
    RestReassembles(Assembly(Some(start), pdu), held, pdu, max, room);
    assert message[..max] + message[max..] == message && |start + held[HDR..]| == |message|;
    RetypedTwice(message[..max], message[max..], START, max - HDR, SINGLE, |message| - HDR);
  }

  /** A response that was built as a single packet comes back byte for byte. */
  lemma SinglePacketUnchanged(message: seq<byte>)
    requires |message| >= HDR && message[VENDOR_HDR + 1] == SINGLE
    requires message[VENDOR_HDR + 2..HDR] == BigEndian(|message| - HDR)
    ensures Whole(message) == message
  {
    assert message == message[..VENDOR_HDR + 1] + [SINGLE] + message[VENDOR_HDR + 2..HDR] + message[HDR..];
  }

  /** Two assemblies that will answer alike. */
  predicate Alike(a: Assembly, b: Assembly) {
    a.partial == b.partial && (a.partial.Some? ==> a.pdu == b.pdu)
  }

  /** A SINGLE or START packet drops whatever is being assembled: what follows it does not depend on what came before. */
  lemma {:induction false} EarlierDropped(a: Assembly, b: Assembly, packets: seq<seq<byte>>, room: nat)
    requires packets != [] && (forall p :: p in packets ==> HDR <= |p| && (PacketType(p) == START ==> |p| <= room))
    requires a.partial.Some? ==> HDR <= |a.partial.value| <= room
    requires b.partial.Some? ==> HDR <= |b.partial.value| <= room
    requires PacketType(packets[0]) in {SINGLE, START} || Alike(a, b)
    ensures ReceiveAll(a, packets, room).1 == ReceiveAll(b, packets, room).1
    ensures PacketType(packets[0]) == SINGLE ==> Receive(a, packets[0], room).1 == Report(packets[0])
    decreases |packets|
  {
    var ra, rb := Receive(a, packets[0], room), Receive(b, packets[0], room);
    assert ra.1 == rb.1 && Alike(ra.0, rb.0) by { ReceiveAlike(a, b, packets[0], room); }
    if |packets| > 1 {
      assert forall p :: p in packets[1..] ==> p in packets;
      hide Receive;
      EarlierDropped(ra.0, rb.0, packets[1..], room);
    }
  }

  lemma ReceiveAlike(a: Assembly, b: Assembly, packet: seq<byte>, room: nat)
    requires HDR <= |packet| && (PacketType(packet) == START ==> |packet| <= room)
    requires a.partial.Some? ==> HDR <= |a.partial.value| <= room
    requires b.partial.Some? ==> HDR <= |b.partial.value| <= room
    requires PacketType(packet) in {SINGLE, START} || Alike(a, b)
    ensures var ra, rb := Receive(a, packet, room), Receive(b, packet, room); ra.1 == rb.1 && Alike(ra.0, rb.0)
  {
    hide PacketType, Pdu, Whole;
  }

  // ---------------------------------------------------------------------------
  // The header of every packet
  // ---------------------------------------------------------------------------

  /** The parameter length that a packet states: bytes 8 and 9, the more significant one first. */
  function StatedLength(packet: seq<byte>): int
    requires |packet| >= HDR
  {
    packet[8] as int * 256 + packet[9] as int
  }

  /**
    The packet of a vendor response of type `ctype` and the given PDU and packet type: the vendor
    header names panel and company, and the length is that of its own parameters, in 16 bits.
   */
  ghost predicate Headed(packet: seq<byte>, ctype: byte, pdu: byte, kind: byte) {
    && |packet| >= HDR
    && packet[0] == ctype % 16 && packet[1] == 0x48 && packet[2] == 0 && packet[3] == 0 && packet[4] == 0x19 && packet[5] == 0x58
    && packet[6] == pdu && packet[7] == kind
    && StatedLength(packet) == (|packet| - 10) % 0x10000
  }

  lemma LengthBytes(n: nat)
    ensures (n / 256 % 256) * 256 + n % 256 == n % 0x10000
  {
    assert n == 256 * (n / 256) + n % 256;
    assert n / 256 == 256 * (n / 256 / 256) + n / 256 % 256;
  }

  /** Rewriting type and length gives a headed packet. */
  lemma RetypedHeaded(packet: seq<byte>, ctype: byte, kind: byte)
    requires |packet| >= HDR && packet[..VENDOR_HDR] == VendorHeader(ctype)
    ensures Headed(Retyped(packet, kind, |packet| - HDR), ctype, Pdu(packet), kind)
    ensures Retyped(packet, kind, |packet| - HDR)[..VENDOR_HDR] == VendorHeader(ctype)
  {
    var r := Retyped(packet, kind, |packet| - HDR);
    assert r[..VENDOR_HDR] == packet[..VENDOR_HDR] && r[..VENDOR_HDR][0] == r[0] && r[..VENDOR_HDR][1] == r[1] && r[..VENDOR_HDR][2] == r[2]
        && r[..VENDOR_HDR][3] == r[3] && r[..VENDOR_HDR][4] == r[4] && r[..VENDOR_HDR][5] == r[5];
    LengthBytes(|packet| - HDR);
  }

  lemma RemainderHeaded(message: seq<byte>, ctype: byte, pdu: byte, max: nat)
    requires HDR < max < |message| && message[..VENDOR_HDR] == VendorHeader(ctype)
    ensures Headed(Remainder(message, pdu, max), ctype, pdu, END)
    ensures Remainder(message, pdu, max)[..VENDOR_HDR] == VendorHeader(ctype)
  {
    var r := Remainder(message, pdu, max);
    assert message[..VENDOR_HDR][0] == message[0];
    assert r[..VENDOR_HDR] == VendorHeader(message[0]) == VendorHeader(ctype);
    LengthBytes(|message| - max);
  }

  lemma HeadedPdu(packet: seq<byte>, ctype: byte, pdu: byte, kind: byte)
    requires Headed(packet, ctype, pdu, kind)
    ensures |packet| >= HDR && packet[VENDOR_HDR] == pdu
  {
  }

  /** The type of packet `i` of `n`. */
  function KindOf(i: nat, n: nat): byte {
    if i == n - 1 then END else if i == 0 then START else CONTINUE
  }

  /** Only the two lowest bits of byte 7 tell a packet's type, and the four lowest of byte 0 a response's. */
  lemma TypeBits(packet: seq<byte>, high: byte, low: byte)
    requires |packet| >= HDR && low < 4 && high < 64 && packet[7] as int == high as int * 4 + low as int
    ensures PacketType(packet) == low
  {
  }

  /** The type of packet `i` of the `n` that follow the START packet. */
  function LaterKind(i: nat, n: nat): byte {
    if i == n - 1 then END else CONTINUE
  }

  /** The packets after the START packet, all with the right header. */
  ghost predicate LaterHeaded(packets: seq<seq<byte>>, ctype: byte, pdu: byte) {
    forall i :: 0 <= i < |packets| ==> Headed(packets[i], ctype, pdu, LaterKind(i, |packets|))
  }

  lemma LaterSnoc(first: seq<byte>, later: seq<seq<byte>>, ctype: byte, pdu: byte)
    requires Headed(first, ctype, pdu, CONTINUE) && LaterHeaded(later, ctype, pdu) && later != []
    ensures LaterHeaded([first] + later, ctype, pdu)
  {
    hide Headed;
    var all := [first] + later;
    forall i | 0 <= i < |all| ensures Headed(all[i], ctype, pdu, LaterKind(i, |all|)) {
      if i > 0 {
        assert all[i] == later[i - 1] && LaterKind(i, |all|) == LaterKind(i - 1, |later|);
      }
    }
  }

  lemma {:induction false} RestHeaded(held: seq<byte>, ctype: byte, pdu: byte, max: nat)
    requires HDR < max && Headed(held, ctype, pdu, END) && held[..VENDOR_HDR] == VendorHeader(ctype)
    ensures LaterHeaded(Rest(held, pdu, max), ctype, pdu)
    decreases |held|
  {
    hide Headed, VendorHeader, Retyped, Remainder;
    if |held| > max {
      assert Pdu(held[..max]) == pdu by { HeadedPdu(held, ctype, pdu, END); }
      assert held[..max][..VENDOR_HDR] == held[..VENDOR_HDR];
      RetypedHeaded(held[..max], ctype, CONTINUE);
      RemainderHeaded(held, ctype, pdu, max);
      RestHeaded(Remainder(held, pdu, max), ctype, pdu, max);
      assert |held[..max]| == max;
      LaterSnoc(ContinuePacket(held, max), Rest(Remainder(held, pdu, max), pdu, max), ctype, pdu);
    }
  }

  /**
    Every packet of a split response, and the response as it is put together again, has the vendor
    header and the PDU of the response, the packet type of its place, and its own length.
   */
  lemma AllHeaded(ctype: byte, payload: seq<byte>, max: nat)
    requires HDR < max < VENDOR_HDR + |payload|
    ensures var message := VendorHeader(ctype) + payload;
            var packets := Fragments(message, max);
            && (forall i :: 0 <= i < |packets| ==> Headed(packets[i], ctype, payload[0], KindOf(i, |packets|)))
            && Headed(Whole(message), ctype, payload[0], SINGLE)
  {
    hide Headed, Retyped, Rest;
    var message := VendorHeader(ctype) + payload;
    assert message[..VENDOR_HDR] == VendorHeader(ctype) && message[..max][..VENDOR_HDR] == VendorHeader(ctype);
    assert Pdu(message) == payload[0] && Pdu(message[..max]) == payload[0];
    RetypedHeaded(message[..max], ctype, START);
    RetypedHeaded(message, ctype, SINGLE);
    RemainderHeaded(message, ctype, payload[0], max);
    RestHeaded(Remainder(message, payload[0], max), ctype, payload[0], max);
    var packets, rest := Fragments(message, max), Rest(Remainder(message, payload[0], max), payload[0], max);
    assert rest != [] && |message[..max]| == max && packets == [StartPacket(message, max)] + rest;
    forall i | 0 <= i < |packets| ensures Headed(packets[i], ctype, payload[0], KindOf(i, |packets|)) {
      if i > 0 {
        assert packets[i] == rest[i - 1] && KindOf(i, |packets|) == LaterKind(i - 1, |rest|);
      }
    }
  }

  // ---------------------------------------------------------------------------
  // Any packets at all
  // ---------------------------------------------------------------------------

  /** The parameters of several packets, in order. */
  function Payloads(packets: seq<seq<byte>>): seq<byte>
    requires forall p :: p in packets ==> |p| >= HDR
  {
    if packets == [] then [] else packets[0][HDR..] + Payloads(packets[1..])
  }

  /** While only CONTINUE packets follow a START and nothing is cut off, the buffer is the START packet and all payloads in order. */
  lemma {:induction false} ContinuesAccumulate(a: Assembly, packets: seq<seq<byte>>, room: nat)
    requires packets != [] && (forall p :: p in packets ==> HDR <= |p| && PacketType(p) == CONTINUE)
    requires a.partial.Some? && HDR <= |a.partial.value| <= room
    ensures var r := ReceiveAll(a, packets, room);
            if |a.partial.value| + |Payloads(packets)| <= room
            then r == (a.(partial := Some(a.partial.value + Payloads(packets))), Request(a.pdu))
            else r.0.partial.None? && (r.1 == Abort(a.pdu) || r.1 == Drop)
    decreases |packets|
  {
    var r := Receive(a, packets[0], room);
    if |packets| == 1 {
      assert Payloads(packets) == packets[0][HDR..] + [] == packets[0][HDR..];
    } else if r.0.partial.Some? {
      assert forall p :: p in packets[1..] ==> p in packets;
      ContinuesAccumulate(r.0, packets[1..], room);
      assert a.partial.value + (packets[0][HDR..] + Payloads(packets[1..]))
          == a.partial.value + packets[0][HDR..] + Payloads(packets[1..]);
    } else {
      ContinuesDropped(r.0, packets[1..], room);
    }
  }

  lemma {:induction false} ContinuesDropped(a: Assembly, packets: seq<seq<byte>>, room: nat)
    requires packets != [] && (forall p :: p in packets ==> HDR <= |p| && PacketType(p) == CONTINUE)
    requires a.partial.None?
    ensures ReceiveAll(a, packets, room) == (a, Drop)
  {
    if |packets| > 1 {
      assert forall p :: p in packets[1..] ==> p in packets;
      ContinuesDropped(a, packets[1..], room);
    }
  }
}
