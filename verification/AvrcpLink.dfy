/**
  The two ends of an AVRCP control channel as the source has them: packet buffers with an offset
  and a length that are changed in place.  The methods are proved against `AvrcpFragments`, and
  `Exchange` runs both ends against each other.
 */
module AvrcpLink {
  import opened AvrcpFragments
  import opened Wrappers

  /** A BT_HDR: `len` bytes of payload at `offset` in the buffer. */
  class Packet {
    const data: array<byte>
    var offset: nat
    var len: nat

    constructor (data: array<byte>, offset: nat, len: nat)
      ensures this.data == data && this.offset == offset && this.len == len
    {
      this.data, this.offset, this.len := data, offset, len;
    }

    ghost predicate Valid()
      reads this
    {
      offset + len <= data.Length
    }

    function Bytes(): (r: seq<byte>)
      requires Valid()
      reads this, data
      ensures |r| == len
    {
      data[offset..offset + len]
    }

    /** memcpy of `bytes` to position `at`. */
    method Write(at: nat, bytes: seq<byte>)
      requires at + |bytes| <= data.Length
      modifies data
      ensures data[..] == old(data[..at]) + bytes + old(data[at + |bytes|..])
    {
      ghost var all := data[..];
      for i := 0 to |bytes|
        invariant data[..] == all[..at] + bytes[..i] + all[at + i..]
      {
        ghost var now := data[..];
        data[at + i] := bytes[i];
        assert data[..] == now[at + i := bytes[i]];
      }
    }
  }

  /** Puts `header` in front of the payload, in place. */
  method Prepend(p: Packet, header: seq<byte>)
    requires p.Valid() && |header| <= p.offset
    modifies p, p.data
    ensures p.Valid() && p.offset == old(p.offset) - |header| && p.Bytes() == header + old(p.Bytes())
  {
    ghost var before, payload, at := p.data[..], p.Bytes(), p.offset - |header|;
    assert payload == before[at + |header|..at + |header| + |payload|];
    p.offset := p.offset - |header|;
    p.len := p.len + |header|;
    p.Write(p.offset, header);
    ghost var after := p.data[..];
    assert p.Bytes() == after[at..at + (|header| + |payload|)];
    assert after == before[..at] + header + before[at + |header|..];
    Overwritten(before, at, header, |payload|);
  }

  /** `header` written over `all` at `at`, read together with the `n` bytes after it. */
  lemma Overwritten(all: seq<byte>, at: nat, header: seq<byte>, n: nat)
    requires at + |header| + n <= |all|
    ensures var written := all[..at] + header + all[at + |header|..];
            && |written| == |all|
            && written[at..at + (|header| + n)] == header + all[at + |header|..at + |header| + n]
  {
  }

  /** What the controller may send while a fragmented response is outstanding; `Split` is a command that is not a single packet. */
  datatype Command = Continuation(pdu: byte) | Abortion(pdu: byte) | Split | Other

  datatype Status = BadCommand | BadParameter

  /** What the target does with it. */
  datatype Reply = Sent(packet: seq<byte>) | Accepted | Rejected(status: Status) | ToApplication

  /** The responding end. */
  class Target {
    const max: nat
    var fragEnabled: bool
    var fmsg: Packet?
    var fragPdu: byte

    ghost predicate Valid()
      reads this, fmsg
    {
      && HDR < max && (fragEnabled <==> fmsg != null)
      && (fmsg != null ==> fmsg.Valid() && HDR < fmsg.len)
    }

    /** The packet held back, if any. */
    ghost function Held(): Option<seq<byte>>
      requires Valid()
      reads this, fmsg, if fmsg != null then {fmsg.data} else {}
    {
      if fmsg == null then None else Some(fmsg.Bytes())
    }

    constructor (max: nat)
      requires HDR < max
      ensures this.max == max && Valid() && fmsg == null
    {
      this.max, fragEnabled, fmsg, fragPdu := max, false, null, 0;
    }

    /** Turns the packet into what is left of it after `max` bytes, in place. */
    method PrepEndFrag(p: Packet, pdu: byte)
      requires p.Valid() && HDR < max < p.len
      modifies p, p.data
      ensures p.Valid() && p.Bytes() == Remainder(old(p.Bytes()), pdu, max)
    {
      hide EndHeader, PacketType;
      ghost var bytes, all := p.Bytes(), p.data[..];
      var rspType := p.data[p.offset];
      p.len := p.len - (max - VENDOR_HDR - META_HDR);
      p.offset := p.offset + (max - VENDOR_HDR - META_HDR);
      var header := EndHeader(rspType, pdu, p.len - VENDOR_HDR - META_HDR);
      p.Write(p.offset, header);
      assert p.data[..] == all[..p.offset] + header + all[p.offset + HDR..];
      Overwritten(all, p.offset, header, p.len - HDR);
      assert bytes[max..] == all[p.offset + HDR..p.offset + p.len];
      assert p.Bytes() == p.data[..][p.offset..p.offset + p.len];
    }

    /** A copy of the first `max` bytes with its own packet type. */
    method Fragment(p: Packet, kind: byte) returns (packet: seq<byte>)
      requires p.Valid() && HDR < max < p.len
      ensures packet == Retyped(p.Bytes()[..max], kind, max - HDR)
    {
      var bytes := p.data[p.offset..p.offset + max];
      assert bytes == p.Bytes()[..max];
      packet := bytes[..VENDOR_HDR + 1] + [kind] + BigEndian(max - VENDOR_HDR - META_HDR) + bytes[HDR..];
    }

    /** A vendor response: its header is put in front, and it is split if it is too long. */
    method MsgReq(ctype: byte, p: Packet) returns (packet: seq<byte>)
      requires Valid() && p.Valid() && VENDOR_HDR <= p.offset && 0 < p.len
      modifies this, p, p.data
      ensures Valid()
      ensures var message := VendorHeader(ctype) + old(p.Bytes());
              if |message| <= max then packet == message && Held() == None
              else
                && packet == StartPacket(message, max) && fragPdu == Pdu(message)
                && fmsg == p && Held() == Some(Remainder(message, fragPdu, max))
    {
      hide Retyped, EndHeader, VendorHeader, PacketType, Remainder;
      ghost var payload := p.Bytes();
      Prepend(p, VendorHeader(ctype));
      ghost var message := VendorHeader(ctype) + payload;
      fragEnabled, fmsg := false, null;
      if p.len > max {
        packet := Fragment(p, START);
        var pdu := p.data[p.offset + VENDOR_HDR];
        fragEnabled, fmsg, fragPdu := true, p, pdu;
        PrepEndFrag(p, pdu);
      } else {
        packet := p.data[p.offset..p.offset + p.len];
      }
    }

    /** The next fragment of the response held back. */
    method SendContinueFrag() returns (packet: seq<byte>)
      requires Valid() && fragEnabled
      modifies this, fmsg, fmsg.data
      ensures Valid() && fragPdu == old(fragPdu)
      ensures var held := old(Held()).value;
              if |held| > max then
                && packet == ContinuePacket(held, max) && Held() == Some(Remainder(held, fragPdu, max))
                && fmsg == old(fmsg)
              else packet == held && Held() == None
    {
      var p := fmsg;
      if p.len > max {
        packet := Fragment(p, CONTINUE);
        PrepEndFrag(p, fragPdu);
      } else {
        packet := p.data[p.offset..p.offset + p.len];
        fragEnabled, fmsg := false, null;
      }
    }

    /** A single-packet command that arrives: continuation, explicit or implicit abort. */
    method OnCommand(c: Command) returns (reply: Reply)
      requires Valid()
      modifies this, fmsg, if fmsg != null then {fmsg.data} else {}
      ensures Valid() && fragPdu == old(fragPdu)
      ensures c.Split? ==> reply == Rejected(BadCommand) && fragEnabled == old(fragEnabled) && Held() == old(Held())
      ensures old(!fragEnabled) && !c.Split? ==> reply == ToApplication && Held() == None
      ensures old(fragEnabled) && !c.Split? && c != Continuation(fragPdu) ==>
                && Held() == None
                && reply == (if c.Other? then ToApplication else if c == Abortion(fragPdu) then Accepted else Rejected(BadParameter))
      ensures old(fragEnabled) && c == Continuation(fragPdu) ==>
                var held := old(Held()).value;
                if |held| > max then
                  && reply == Sent(ContinuePacket(held, max)) && Held() == Some(Remainder(held, fragPdu, max))
                  && fmsg == old(fmsg)
                else reply == Sent(held) && Held() == None
    {
      reply := ToApplication;
      if c.Split? {
        reply := Rejected(BadCommand);
      } else if fragEnabled {
        if c == Continuation(fragPdu) {
          var packet := SendContinueFrag();
          reply := Sent(packet);
        } else {
          if c == Abortion(fragPdu) {
            reply := Accepted;
          } else if !c.Other? {
            reply := Rejected(BadParameter);
          }
          fmsg := null;
          fragEnabled := false;
        }
      }
    }
  }

  /** The requesting end: one reassembly buffer of `room` bytes. */
  class Controller {
    const room: nat
    var rmsg: array?<byte>
    var len: nat
    var rasmPdu: byte

    ghost predicate Valid()
      reads this
    {
      rmsg != null ==> rmsg.Length == room && HDR <= len <= room
    }

    ghost function View(): Assembly
      requires Valid()
      reads this, rmsg
    {
      Assembly(if rmsg == null then None else Some(rmsg[..len]), rasmPdu)
    }

    constructor (room: nat)
      ensures this.room == room && Valid() && rmsg == null
    {
      this.room, rmsg, len, rasmPdu := room, null, 0, 0;
    }

    /** A response packet; the reassembly offset never leaves the buffer. */
    method Receive(packet: seq<byte>) returns (v: Verdict)
      requires Valid() && |packet| >= HDR && (PacketType(packet) == START ==> |packet| <= room)
      modifies this, rmsg
      ensures Valid() && (rmsg != null ==> if PacketType(packet) == START then fresh(rmsg) else rmsg == old(rmsg))
      ensures (View(), v) == AvrcpFragments.Receive(old(View()), packet, room)
    {
      var kind := PacketType(packet);
      if kind == SINGLE || kind == START {
        rmsg := null;
      }
      if kind == SINGLE {
        return Report(packet);
      }
      if kind == START {
        rasmPdu := Pdu(packet);
        rmsg := new byte[room];
        len := 0;
        assert rmsg[..0] == [];
        Append(packet);
        assert rmsg[..len] == packet;
        return Request(rasmPdu);
      }
      if rmsg == null {
        return Drop;
      }
      var fits := len + (|packet| - HDR) <= room;
      var payload := packet[HDR..];
      if !fits {
        payload := payload[..room - len];
        kind := END;
      }
      ghost var bytes := rmsg[..len];
      Append(payload);
      ghost var all := rmsg[..len];
      assert all == bytes + payload;
      if kind == END {
        assert rmsg[..VENDOR_HDR + 1] == all[..VENDOR_HDR + 1] && rmsg[HDR..len] == all[HDR..];
        var whole := rmsg[..VENDOR_HDR + 1] + [SINGLE] + BigEndian(len - VENDOR_HDR - META_HDR) + rmsg[HDR..len];
        rmsg := null;
        v := if fits then Report(whole) else Abort(rasmPdu);
      } else {
        v := Request(rasmPdu);
      }
    }

    method Append(bytes: seq<byte>)
      requires rmsg != null && len + |bytes| <= rmsg.Length
      modifies this`len, rmsg
      ensures len == old(len) + |bytes| && rmsg[..len] == old(rmsg[..len]) + bytes
    {
      for i := 0 to |bytes|
        invariant len == old(len) && rmsg == old(rmsg)
        invariant rmsg[..len + i] == old(rmsg[..len]) + bytes[..i]
      {
        rmsg[len + i] := bytes[i];
      }
      len := len + |bytes|;
    }
  }

  /** What is already assembled and what is still held, put together, is the response. */
  ghost predicate Halfway(a: Assembly, held: seq<byte>, pdu: byte, whole: seq<byte>, max: nat, room: nat) {
    && HDR < max <= room && HDR < |held| && PacketType(held) == END && a.pdu == pdu
    && a.partial.Some? && HDR <= |a.partial.value| <= room
    && Whole(a.partial.value + held[HDR..]) == whole
  }

  /** The packet that answers a continuation request. */
  function Answer(held: seq<byte>, max: nat): seq<byte>
    requires HDR < max
  {
    if |held| > max then ContinuePacket(held, max) else held
  }

  lemma AnswerAdvances(a: Assembly, held: seq<byte>, pdu: byte, whole: seq<byte>, max: nat, room: nat)
    requires Halfway(a, held, pdu, whole, max, room)
    ensures |Answer(held, max)| >= HDR && PacketType(Answer(held, max)) != START
    ensures var r := Receive(a, Answer(held, max), room);
            if |a.partial.value| + |Answer(held, max)| - HDR > room then r.1 == Abort(pdu) && |whole| > room
            else if |held| <= max then r.1 == Report(whole) && |whole| <= room
            else r.1 == Request(pdu) && r.0.partial.Some? && Halfway(r.0, Remainder(held, pdu, max), pdu, whole, max, room)
  {
    hide Whole, Retyped, EndHeader, PacketType;
    if |held| > max {
      RetypedParts(held[..max], CONTINUE, max - HDR);
      assert held[..max][HDR..] == held[HDR..max];
      assert a.partial.value + held[HDR..max] + held[max..] == a.partial.value + held[HDR..] by {
        assert held[HDR..max] + held[max..] == held[HDR..];
      }
    }
  }

  lemma StartIsHalfway(message: seq<byte>, max: nat, room: nat)
    requires HDR < max < |message| && max <= room
    ensures PacketType(StartPacket(message, max)) == START && Pdu(StartPacket(message, max)) == Pdu(message)
    ensures Halfway(Assembly(Some(StartPacket(message, max)), Pdu(message)), Remainder(message, Pdu(message), max),
                    Pdu(message), Whole(message), max, room)
  {
    hide Retyped, EndHeader;
    RetypedParts(message[..max], START, max - HDR);
    assert message[..max] + message[max..] == message;
    RetypedTwice(message[..max], message[max..], START, max - HDR, SINGLE, |message| - HDR);
  }

  /** The two ends between a fragment and the next request. */
  ghost predicate Waiting(t: Target, c: Controller, held: seq<byte>, a: Assembly, pdu: byte)
    reads t, t.fmsg, if t.fmsg != null then {t.fmsg.data} else {}, c, c.rmsg
  {
    && t.Valid() && c.Valid() && t.fragEnabled && t.fragPdu == pdu && t.Held() == Some(held) && c.View() == a
    && t.fmsg.data != c.rmsg
  }

  /** One request and its answer. */
  method Round(t: Target, c: Controller, ghost held: seq<byte>, ghost a: Assembly, ghost whole: seq<byte>, pdu: byte)
    returns (v: Verdict)
    requires Waiting(t, c, held, a, pdu) && Halfway(a, held, pdu, whole, t.max, c.room)
    modifies t, t.fmsg, t.fmsg.data, c, c.rmsg
    ensures || v == Request(pdu)
            || (v == Abort(pdu) && |whole| > c.room)
            || (v == Report(whole) && |whole| <= c.room && |held| <= t.max)
    ensures t.Valid() && (t.fmsg == null || t.fmsg == old(t.fmsg)) && t.fragPdu == pdu
    ensures v.Request? ==>
              && |held| > t.max && t.fmsg == old(t.fmsg) && c.rmsg == old(c.rmsg)
              && var a' := Receive(a, Answer(held, t.max), c.room).0;
                 Waiting(t, c, Remainder(held, pdu, t.max), a', pdu)
                 && Halfway(a', Remainder(held, pdu, t.max), pdu, whole, t.max, c.room)
  {
    hide Whole, Retyped, EndHeader, PacketType, Halfway, Remainder, AvrcpFragments.Receive;
    AnswerAdvances(a, held, pdu, whole, t.max, c.room);
    var reply := t.OnCommand(Continuation(pdu));
    v := c.Receive(reply.packet);
  }

  /**
    A response of any length travels from target to controller by continuation requests.  If it fits
    the controller's buffer it arrives whole, after one request for each fragment but the first;
    otherwise nothing is reported and the controller aborts.
   */
  method Exchange(ctype: byte, payload: seq<byte>, max: nat, room: nat) returns (v: Verdict, rounds: nat)
    requires HDR < max <= room && max < VENDOR_HDR + |payload|
    ensures var message := VendorHeader(ctype) + payload;
            if |message| <= room then
              && v == Report(Whole(message)) && rounds == |Fragments(message, max)| - 1
              && Headed(v.message, ctype, payload[0], SINGLE)
            else v == Abort(Pdu(message))
  {
    AllHeaded(ctype, payload, max);
    hide Whole, Retyped, EndHeader, PacketType, Halfway, Remainder, AvrcpFragments.Receive, StartPacket, VendorHeader, Pdu, Headed;
    ghost var message := VendorHeader(ctype) + payload;
    ghost var pdu, whole := Pdu(message), Whole(message);
    var t, c, request := Opening(ctype, payload, max, room);
    ghost var a, held := c.View(), Remainder(message, pdu, max);
    ghost var total := |Rest(held, pdu, max)|;
    v, rounds := Request(request), 0;
    while v.Request?
      invariant t.max == max && c.room == room && fresh(t) && fresh(c)
      invariant v == Request(pdu) || (v == Report(whole) && |whole| <= room) || (v == Abort(pdu) && |whole| > room)
      invariant v.Request? ==> Waiting(t, c, held, a, pdu) && Halfway(a, held, pdu, whole, max, room)
      invariant t.Valid() && (t.fmsg != null ==> fresh(t.fmsg) && fresh(t.fmsg.data))
      invariant v.Request? ==> fresh(c.rmsg)
      invariant v.Request? ==> rounds + |Rest(held, pdu, max)| == total
      invariant v.Report? ==> rounds == total
      decreases if v.Request? then |held| + 1 else 0
    {
      v := Round(t, c, held, a, whole, v.pdu);
      rounds := rounds + 1;
      if v.Request? {
        a, held := Receive(a, Answer(held, max), room).0, Remainder(held, pdu, max);
      }
    }
    if v.Abort? {
      var _ := t.OnCommand(Abortion(v.pdu));
      assert t.Held() == None;
    }
  }

  /** A packet with room for the vendor header in front. */
  method Build(payload: seq<byte>) returns (p: Packet)
    ensures fresh(p) && fresh(p.data) && p.Valid() && p.offset == VENDOR_HDR && p.Bytes() == payload
  {
    var data := new byte[VENDOR_HDR + |payload|];
    p := new Packet(data, VENDOR_HDR, |payload|);
    p.Write(VENDOR_HDR, payload);
    assert p.Bytes() == payload;
  }

  /** The response is submitted, and its START packet received. */
  method Opening(ctype: byte, payload: seq<byte>, max: nat, room: nat)
    returns (t: Target, c: Controller, pdu: byte)
    requires HDR < max <= room && max < VENDOR_HDR + |payload|
    ensures var message := VendorHeader(ctype) + payload;
            var a := Assembly(Some(StartPacket(message, max)), Pdu(message));
            && fresh(t) && fresh(c) && t.max == max && c.room == room && pdu == Pdu(message)
            && Waiting(t, c, Remainder(message, pdu, max), a, pdu)
            && fresh(t.fmsg) && fresh(t.fmsg.data) && fresh(c.rmsg)
            && Halfway(a, Remainder(message, pdu, max), pdu, Whole(message), max, room)
  {
    hide Whole, Retyped, EndHeader, Halfway, Remainder, StartPacket, Pdu, PacketType, VendorHeader;
    var p := Build(payload);
    t := new Target(max);
    c := new Controller(room);
    ghost var message := VendorHeader(ctype) + payload;
    StartIsHalfway(message, max, room);
    var packet := t.MsgReq(ctype, p);
    var v := c.Receive(packet);
    pdu := v.pdu;
  }
}
