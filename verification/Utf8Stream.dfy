/**
  The UTF-8 code and the cursor of `EncodingInputStream`: decoding undoes encoding for every
  sequence of 32-bit values, and the cursor's look-ahead, seeking and text slices agree.
 */
module Utf8Stream {

  type Byte = bv8
  type CodePoint = bv32

  // ---------------------------------------------------------------------------
  // Encoding and decoding one code point
  // ---------------------------------------------------------------------------

  /** What survives encoding: values beyond the Unicode range become U+FFFD. */
  function Sanitized(cp: CodePoint): CodePoint {
    if cp <= 0x10FFFF then cp else 0xFFFD
  }

  /** A continuation byte with the lowest six of the given bits. */
  function Tail(bits: CodePoint): Byte {
    (0x80 | (bits & 0x3F)) as Byte
  }

  function EncodeOne(cp: CodePoint): (r: seq<Byte>)
    ensures 1 <= |r| <= 4
  {
    if cp <= 0x7F then [cp as Byte]
    else if cp <= 0x7FF then [(0xC0 | (cp >> 6)) as Byte, Tail(cp)]
    else if cp <= 0xFFFF then [(0xE0 | (cp >> 12)) as Byte, Tail(cp >> 6), Tail(cp)]
    else if cp <= 0x10FFFF then [(0xF0 | (cp >> 18)) as Byte, Tail(cp >> 12), Tail(cp >> 6), Tail(cp)]
    else [0xEF, 0xBF, 0xBD]
  }

  /** `istream::get`: all ones once the stream has ended. */
  function Get(bytes: seq<Byte>, i: nat): Byte {
    if i < |bytes| then bytes[i] else 0xFF
  }

  /** How many bytes the lead byte announces, itself included; an invalid one stands alone. */
  function Length(first: Byte): (n: nat)
    ensures n > 0
  {
    if first < 0x80 then 1
    else if first >> 5 == 0x6 then 2
    else if first >> 4 == 0xE then 3
    else if first >> 3 == 0x1E then 4
    else 1
  }

  function Combine2(a: Byte, b: Byte): CodePoint {
    ((a & 0x1F) as CodePoint << 6) | (b & 0x3F) as CodePoint
  }

  function Combine3(a: Byte, b: Byte, c: Byte): CodePoint {
    ((a & 0x0F) as CodePoint << 12) | ((b & 0x3F) as CodePoint << 6) | (c & 0x3F) as CodePoint
  }

  function Combine4(a: Byte, b: Byte, c: Byte, d: Byte): CodePoint {
    ((a & 0x07) as CodePoint << 18) | ((b & 0x3F) as CodePoint << 12) | ((c & 0x3F) as CodePoint << 6)
    | (d & 0x3F) as CodePoint
  }

  /** The code point at `p`: the continuation bytes are not checked, missing ones read as all ones. */
  function DecodeOne(bytes: seq<Byte>, p: nat): CodePoint {
    var first := Get(bytes, p);
    if p >= |bytes| then 0
    else if first < 0x80 then first as CodePoint
    else if first >> 5 == 0x6 then Combine2(first, Get(bytes, p + 1))
    else if first >> 4 == 0xE then Combine3(first, Get(bytes, p + 1), Get(bytes, p + 2))
    else if first >> 3 == 0x1E then Combine4(first, Get(bytes, p + 1), Get(bytes, p + 2), Get(bytes, p + 3))
    else 0xFFFD
  }

  lemma OneByte(cp: CodePoint)
    requires cp <= 0x7F
    ensures cp as Byte < 0x80 && cp as Byte as CodePoint == cp
  {
  }

  lemma TwoBytes(cp: CodePoint)
    requires 0x7F < cp <= 0x7FF
    ensures var a, b := (0xC0 | (cp >> 6)) as Byte, (0x80 | (cp & 0x3F)) as Byte;
            a >= 0x80 && a >> 5 == 0x6 && Combine2(a, b) == cp
  {
  }

  lemma ThreeBytes(cp: CodePoint)
    requires 0x7FF < cp <= 0xFFFF
    ensures var a, b, c := (0xE0 | (cp >> 12)) as Byte, (0x80 | ((cp >> 6) & 0x3F)) as Byte, (0x80 | (cp & 0x3F)) as Byte;
            a >= 0x80 && a >> 5 != 0x6 && a >> 4 == 0xE && Combine3(a, b, c) == cp
  {
  }

  lemma FourBytes(cp: CodePoint)
    requires 0xFFFF < cp <= 0x10FFFF
    ensures var a, b := (0xF0 | (cp >> 18)) as Byte, (0x80 | ((cp >> 12) & 0x3F)) as Byte;
            var c, d := (0x80 | ((cp >> 6) & 0x3F)) as Byte, (0x80 | (cp & 0x3F)) as Byte;
            a >= 0x80 && a >> 5 != 0x6 && a >> 4 != 0xE && a >> 3 == 0x1E && Combine4(a, b, c, d) == cp
  {
  }

  /** Wherever an encoded code point stands, it is decoded, and exactly its bytes are taken. */
  lemma DecodesOne(before: seq<Byte>, cp: CodePoint, after: seq<Byte>)
    ensures var bytes := before + EncodeOne(cp) + after;
            DecodeOne(bytes, |before|) == Sanitized(cp) && Length(bytes[|before|]) == |EncodeOne(cp)|
  {
    var bytes, p := before + EncodeOne(cp) + after, |before|;
    assert forall i :: 0 <= i < |EncodeOne(cp)| ==> Get(bytes, p + i) == EncodeOne(cp)[i];
    assert Get(bytes, p + 0) == EncodeOne(cp)[0];
    if cp <= 0x7F {
      OneByte(cp);
    } else if cp <= 0x7FF {
      TwoBytes(cp);
    } else if cp <= 0xFFFF {
      ThreeBytes(cp);
    } else if cp <= 0x10FFFF {
      FourBytes(cp);
    }
  }

  /** A byte `10xxxxxx` with the lowest six of the given bits. */
  predicate Continues(b: Byte, bits: CodePoint) {
    b >> 6 == 0x2 && (b & 0x3F) as CodePoint == bits & 0x3F
  }

  /** The bytes are those of the table in section 3 of RFC 3629: `110xxxxx 10xxxxxx`, */
  lemma TwoByteForm(cp: CodePoint)
    requires 0x7F < cp <= 0x7FF
    ensures var r := EncodeOne(cp);
            |r| == 2 && r[0] >> 5 == 0x6 && (r[0] & 0x1F) as CodePoint == cp >> 6 && Continues(r[1], cp)
  {
  }

  /** `1110xxxx 10xxxxxx 10xxxxxx`, */
  lemma ThreeByteForm(cp: CodePoint)
    requires 0x7FF < cp <= 0xFFFF
    ensures var r := EncodeOne(cp);
            |r| == 3 && r[0] >> 4 == 0xE && (r[0] & 0x0F) as CodePoint == cp >> 12 && Continues(r[1], cp >> 6) && Continues(r[2], cp)
  {
    LeadOfThree(cp);
    ContinuationByte(cp >> 6);
    ContinuationByte(cp);
    hide Continues, Tail;
  }

  lemma ContinuationByte(bits: CodePoint)
    ensures Continues(Tail(bits), bits)
  {
  }

  lemma LeadOfThree(cp: CodePoint)
    requires cp <= 0xFFFF
    ensures var a := (0xE0 | (cp >> 12)) as Byte; a >> 4 == 0xE && (a & 0x0F) as CodePoint == cp >> 12
  {
  }

  lemma LeadOfFour(cp: CodePoint)
    requires cp <= 0x1FFFFF
    ensures var a := (0xF0 | (cp >> 18)) as Byte; a >> 3 == 0x1E && (a & 0x07) as CodePoint == cp >> 18
  {
  }

  /** and `11110xxx 10xxxxxx 10xxxxxx 10xxxxxx`. */
  lemma FourByteForm(cp: CodePoint)
    requires 0xFFFF < cp <= 0x10FFFF
    ensures var r := EncodeOne(cp);
            |r| == 4 && r[0] >> 3 == 0x1E && (r[0] & 0x07) as CodePoint == cp >> 18
            && Continues(r[1], cp >> 12) && Continues(r[2], cp >> 6) && Continues(r[3], cp)
  {
    LeadOfFour(cp);
    ContinuationByte(cp >> 12);
    ContinuationByte(cp >> 6);
    ContinuationByte(cp);
    hide Continues, Tail;
  }

  /** The other two cases: ASCII stands for itself, and what is beyond Unicode is written as U+FFFD. */
  lemma OtherForms(cp: CodePoint)
    ensures cp <= 0x7F ==> |EncodeOne(cp)| == 1 && EncodeOne(cp)[0] as CodePoint == cp
    ensures cp > 0x10FFFF ==> EncodeOne(cp) == EncodeOne(0xFFFD)
  {
  }

  /** A lead byte that begins no sequence is taken alone, as U+FFFD; what a stream that ends early lacks reads as ones, and at its end there is 0. */
  lemma IllFormed(bytes: seq<Byte>, p: nat)
    ensures p < |bytes| && (0x80 <= bytes[p] < 0xC0 || bytes[p] >= 0xF8) ==> DecodeOne(bytes, p) == 0xFFFD && Length(bytes[p]) == 1
    ensures p < |bytes| ==> DecodeOne(bytes, p) == DecodeOne(bytes + [0xFF, 0xFF, 0xFF], p)
    ensures p >= |bytes| ==> DecodeOne(bytes, p) == 0
  {
    if p < |bytes| {
      if 0x80 <= bytes[p] < 0xC0 || bytes[p] >= 0xF8 {
        NoLead(bytes[p]);
      }
      var more := bytes + [0xFF, 0xFF, 0xFF];
      assert forall i :: 0 <= i < |bytes| ==> more[i] == bytes[i];
      assert Get(bytes, p) == Get(more, p) && Get(bytes, p + 1) == Get(more, p + 1);
      assert Get(bytes, p + 2) == Get(more, p + 2) && Get(bytes, p + 3) == Get(more, p + 3);
      hide Get, Combine2, Combine3, Combine4;
    }
  }

  lemma NoLead(b: Byte)
    requires 0x80 <= b < 0xC0 || b >= 0xF8
    ensures b >= 0x80 && b >> 5 != 0x6 && b >> 4 != 0xE && b >> 3 != 0x1E
  {
  }

  // ---------------------------------------------------------------------------
  // Sequences
  // ---------------------------------------------------------------------------

  function EncodeAll(cps: seq<CodePoint>): seq<Byte> {
    if cps == [] then [] else EncodeAll(cps[..|cps| - 1]) + EncodeOne(cps[|cps| - 1])
  }

  function DecodeAll(bytes: seq<Byte>, p: nat): seq<CodePoint>
    decreases |bytes| - p
  {
    if p >= |bytes| then [] else [DecodeOne(bytes, p)] + DecodeAll(bytes, p + Length(bytes[p]))
  }

  function AllSanitized(cps: seq<CodePoint>): (r: seq<CodePoint>)
    ensures |r| == |cps|
  {
    seq(|cps|, i requires 0 <= i < |cps| => Sanitized(cps[i]))
  }

  lemma {:induction false} EncodeConcat(a: seq<CodePoint>, b: seq<CodePoint>)
    ensures EncodeAll(a + b) == EncodeAll(a) + EncodeAll(b)
  {
    hide EncodeOne;
    if b == [] {
      assert a + b == a;
    } else {
      assert (a + b)[..|a + b| - 1] == a + b[..|b| - 1];
      EncodeConcat(a, b[..|b| - 1]);
    }
  }

  lemma EncodeSingle(cp: CodePoint)
    ensures EncodeAll([cp]) == EncodeOne(cp)
  {
    assert [cp][..0] == [];
  }

  lemma {:induction false} DecodesFrom(done: seq<CodePoint>, todo: seq<CodePoint>)
    ensures DecodeAll(EncodeAll(done + todo), |EncodeAll(done)|) == AllSanitized(todo)
    decreases |todo|
  {
    hide EncodeOne, DecodeOne, Length, Sanitized, EncodeAll;
    var bytes := EncodeAll(done + todo);
    if todo == [] {
      assert done + todo == done;
    } else {
      var cp, tail := todo[0], todo[1..];
      assert [cp] + tail == todo && done + [cp] + tail == done + todo;
      EncodeConcat(done, [cp]);
      EncodeSingle(cp);
      DecodesOne(EncodeAll(done), cp, EncodeAll(tail));
      EncodeConcat(done + [cp], tail);
      assert bytes == EncodeAll(done) + EncodeOne(cp) + EncodeAll(tail);
      DecodesFrom(done + [cp], tail);
      assert AllSanitized(todo) == [Sanitized(cp)] + AllSanitized(tail);
    }
  }

  /** Decoding what was encoded gives the code points back, with no byte left over. */
  lemma RoundTrip(cps: seq<CodePoint>)
    ensures DecodeAll(EncodeAll(cps), 0) == AllSanitized(cps)
    ensures (forall i :: 0 <= i < |cps| ==> cps[i] <= 0x10FFFF) ==> DecodeAll(EncodeAll(cps), 0) == cps
  {
    DecodesFrom([], cps);
    assert [] + cps == cps;
    if forall i :: 0 <= i < |cps| ==> cps[i] <= 0x10FFFF {
      assert AllSanitized(cps) == cps;
    }
  }

  /** Encoding a slice in two parts is encoding it whole. */
  lemma SlicesJoin(cps: seq<CodePoint>, a: nat, b: nat, c: nat)
    requires a <= b <= c <= |cps|
    ensures EncodeAll(cps[a..b]) + EncodeAll(cps[b..c]) == EncodeAll(cps[a..c])
  {
    EncodeConcat(cps[a..b], cps[b..c]);
    assert cps[a..b] + cps[b..c] == cps[a..c];
  }

  /** Distinct sequences of Unicode values have distinct encodings. */
  lemma EncodingInjective(a: seq<CodePoint>, b: seq<CodePoint>)
    requires EncodeAll(a) == EncodeAll(b)
    ensures AllSanitized(a) == AllSanitized(b)
  {
    RoundTrip(a);
    RoundTrip(b);
  }

  lemma EncodeNext(vec: seq<CodePoint>, start: nat, i: nat)
    requires start <= i < |vec|
    ensures EncodeAll(vec[start..i + 1]) == EncodeAll(vec[start..i]) + EncodeOne(vec[i])
  {
    hide EncodeOne;
    assert vec[start..i + 1][..i - start] == vec[start..i];
  }

  /** The code points of a slice; out-of-range bounds give the empty text. */
  method EncodeUtf8(vec: seq<CodePoint>, start: nat, end: nat) returns (result: seq<Byte>)
    ensures result == if start < end <= |vec| then EncodeAll(vec[start..end]) else []
  {
    hide EncodeOne;
    result := [];
    if start >= |vec| || end > |vec| || start >= end {
      return;
    }
    for i := start to end
      invariant result == EncodeAll(vec[start..i])
    {
      EncodeNext(vec, start, i);
      result := result + EncodeOne(vec[i]);
    }
  }

  // ---------------------------------------------------------------------------
  // The stream
  // ---------------------------------------------------------------------------

  datatype Symbol = Eof | Symbol(cp: CodePoint)

  /** The character at an absolute position. */
  function At(data: seq<CodePoint>, position: int): Symbol {
    if 0 <= position < |data| then Symbol(data[position]) else Eof
  }

  /** `LT(i)` at cursor `p`: ahead of it for positive, behind it for negative `i`. */
  function Look(data: seq<CodePoint>, p: nat, i: int): Symbol {
    if i == 0 then Symbol(0) else if i > 0 then At(data, p + i - 1) else At(data, p + i)
  }

  /** Moving the cursor shifts what it sees: forwards, backwards, and across. */
  lemma LookShifts(data: seq<CodePoint>, p: nat, k: nat, i: int)
    ensures i > 0 ==> Look(data, p + k, i) == Look(data, p, i + k)
    ensures i < 0 ==> Look(data, p, i) == Look(data, p + k, i - k)
    ensures 0 < i <= k ==> Look(data, p + k, i - k - 1) == Look(data, p, i)
  {
  }

  /** `LT(k)` is the k-th character from the cursor on, `LT(-k)` the k-th before it; beyond either end it is EOF. */
  lemma LookIs(data: seq<CodePoint>, p: nat, k: nat)
    requires p <= |data| && k > 0
    ensures Look(data, p, 0) == Symbol(0)
    ensures Look(data, p, k) == if k <= |data[p..]| then Symbol(data[p..][k - 1]) else Eof
    ensures Look(data, p, 0 - k) == if k <= |data[..p]| then Symbol(data[..p][|data[..p]| - k]) else Eof
  {
  }

  class EncodingInputStream {
    const data: seq<CodePoint>
    var p: nat

    constructor (data: seq<CodePoint>)
      ensures this.data == data && p == 0
    {
      this.data, p := data, 0;
    }

    /** False where the source throws. */
    method Consume() returns (ok: bool)
      modifies this
      ensures ok == (old(p) < |data|) && p == if ok then old(p) + 1 else old(p)
    {
      ok := p < |data|;
      if ok {
        p := p + 1;
      }
    }

    method LT(i: int) returns (r: Symbol)
      ensures r == Look(data, p, i)
    {
      if i == 0 {
        return Symbol(0);
      }
      var position, k := p as int, i;
      if k < 0 {
        k := k + 1;
        if position + k - 1 < 0 {
          return Eof;
        }
      }
      if position + k - 1 >= |data| {
        return Eof;
      }
      r := Symbol(data[position + k - 1]);
    }

    /** Jumps back, walks forward; never past the end, and without an error. */
    method Seek(index: nat)
      requires p <= |data|
      modifies this
      ensures p == if index <= |data| then index else |data|
    {
      if index <= p {
        p := index;
        return;
      }
      var target := if index < |data| then index else |data|;
      while p < target
        invariant p <= |data| && (p <= target || p == old(p))
      {
        var ok := Consume();
      }
    }

    /** The text from `a` to `b`, both included. */
    method GetText(a: int, b: int) returns (text: seq<Byte>)
      ensures text == if 0 <= a <= b && a < |data| then EncodeAll(data[a..if b < |data| then b + 1 else |data|]) else []
    {
      if a < 0 || b < 0 {
        return [];
      }
      var stop := if b >= |data| then |data| - 1 else b;
      if a >= |data| {
        return [];
      }
      text := EncodeUtf8(data, a, stop + 1);
    }
  }

  /** Walking through a stream: `LT(1)` is each time the character stepped over, and `LT(-1)` the one stepped over last. */
  method Walk(data: seq<CodePoint>) returns (next: seq<Symbol>, last: seq<Symbol>)
    ensures |next| == |last| == |data| && forall i :: 0 <= i < |data| ==> next[i] == last[i] == Symbol(data[i])
  {
    var stream := new EncodingInputStream(data);
    next, last := [], [];
    var more := true;
    while |next| < |data|
      invariant fresh(stream) && stream.data == data && stream.p == |next| == |last| <= |data|
      invariant forall i :: 0 <= i < |next| ==> next[i] == last[i] == Symbol(data[i])
    {
      var ahead := stream.LT(1);
      more := stream.Consume();
      var behind := stream.LT(-1);
      LookIs(data, |next|, 1);
      LookIs(data, |next| + 1, 1);
      next, last := next + [ahead], last + [behind];
    }
  }

  /** The whole text of a stream decodes to its data. */
  method Reread(data: seq<CodePoint>) returns (cps: seq<CodePoint>)
    ensures cps == AllSanitized(data)
  {
    var stream := new EncodingInputStream(data);
    var bytes := stream.GetText(0, |data|);
    assert |data| > 0 ==> data[0..|data|] == data;
    cps := DecodeStream(bytes);
    RoundTrip(data);
  }

  lemma DecodeNext(cps: seq<CodePoint>, bytes: seq<Byte>, p: nat)
    requires p < |bytes|
    ensures cps + DecodeAll(bytes, p) == cps + [DecodeOne(bytes, p)] + DecodeAll(bytes, p + Length(bytes[p]))
  {
    hide DecodeOne, Length;
  }

  /** Decodes a byte stream to its end. */
  method DecodeStream(bytes: seq<Byte>) returns (cps: seq<CodePoint>)
    ensures cps == DecodeAll(bytes, 0)
  {
    hide DecodeOne, Length;
    cps := [];
    var p := 0;
    while p < |bytes|
      invariant cps + DecodeAll(bytes, p) == DecodeAll(bytes, 0)
      decreases |bytes| - p
    {
      DecodeNext(cps, bytes, p);
      cps := cps + [DecodeOne(bytes, p)];
      p := p + Length(bytes[p]);
    }
  }
}
