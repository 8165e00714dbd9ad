/** UTF-8 as the splitter reads it: any bytes at all, a malformed sequence
    giving U+FFFD for one byte. Well-formed text is defined on its own, by the
    encodings of RFC 3629 section 3 and RFC 2781 section 2.1. */
module Utf8 {
  import opened Seqs

  type Text = seq<Byte>

  /** What a C string of these bytes reads as. */
  function CStr(t: Text): (c: Text)
    ensures c <= t && (c == t <==> 0 !in t)
  {
    if t == [] || t[0] == 0 then []
    else
      assert t == [t[0]] + t[1..];
      [t[0]] + CStr(t[1..])
  }

  const REPLACEMENT := 0xFFFD

  /** A code point and the bytes it takes. */
  datatype Point = Point(cp: nat, len: nat)

  /** Bytes a lead byte announces; 0 when it leads nothing. */
  function LeadLen(lead: Byte): (n: nat)
    ensures n <= 4
  {
    if lead < 0x80 then 1
    else if lead / 32 == 0x06 then 2
    else if lead / 16 == 0x0E then 3
    else if lead / 8 == 0x1E then 4
    else 0
  }

  function LeadBits(lead: Byte, n: nat): nat {
    if n == 1 then lead else if n == 2 then lead % 32 else if n == 3 then lead % 16 else lead % 8
  }

  predicate IsContinuation(b: Byte) {
    b / 64 == 2
  }

  /** The value of the first k bytes of a sequence of n. */
  function Value(t: Text, i: nat, n: nat, k: nat): nat
    requires 0 < k && i + k <= |t|
  {
    if k == 1 then LeadBits(t[i], n) else Value(t, i, n, k - 1) * 64 + t[i + k - 1] % 64
  }

  predicate Continues(t: Text, i: nat, n: nat)
    requires i + n <= |t|
  {
    forall j :: i < j < i + n ==> IsContinuation(t[j])
  }

  function Decode(t: Text, i: nat): (p: Point)
    requires i < |t|
    ensures 0 < p.len <= 4 && i + p.len <= |t|
  {
    var n := LeadLen(t[i]);
    if n == 0 || i + n > |t| || !Continues(t, i, n) then Point(REPLACEMENT, 1)
    else Point(Value(t, i, n, n), n)
  }

  method DecodeAt(t: Text, i: nat) returns (p: Point)
    requires i < |t|
    ensures p == Decode(t, i)
  {
    var n := LeadLen(t[i]);
    if n == 0 || i + n > |t| {
      return Point(REPLACEMENT, 1);
    }
    var cp: nat := LeadBits(t[i], n);
    var k := 1;
    while k < n
      invariant 1 <= k <= n
      invariant forall j :: i < j < i + k ==> IsContinuation(t[j])
      invariant cp == Value(t, i, n, k)
    {
      if !IsContinuation(t[i + k]) {
        return Point(REPLACEMENT, 1);
      }
      cp := cp * 64 + t[i + k] % 64;
      k := k + 1;
    }
    return Point(cp, n);
  }

  // ------------------------------------------------------------ lengths

  function UnitsOf(cp: nat): nat {
    if cp >= 0x10000 then 2 else 1
  }

  /** UTF-16 length of any bytes. */
  function Utf16Len(t: Text): nat {
    if t == [] then 0
    else
      var p := Decode(t, 0);
      UnitsOf(p.cp) + Utf16Len(t[p.len..])
  }

  lemma {:induction false} ValueOfPart(t: Text, i: nat, m: nat, n: nat, k: nat)
    requires 0 < k && i + m + k <= |t|
    ensures Value(t[m..], i, n, k) == Value(t, i + m, n, k)
  {
    if k > 1 {
      ValueOfPart(t, i, m, n, k - 1);
    }
  }

  lemma DecodeOfPart(t: Text, m: nat, i: nat)
    requires m + i < |t|
    ensures Decode(t[m..], i) == Decode(t, m + i)
  {
    var n := LeadLen(t[m + i]);
    if n > 0 && m + i + n <= |t| {
      ValueOfPart(t, i, m, n, n);
      assert forall j :: i < j < i + n ==> t[m..][j] == t[m + j];
      assert forall j :: m + i < j < m + i + n ==> t[j] == t[m..][j - m];
    }
  }

  method Utf16Length(t: Text) returns (n: nat)
    ensures n == Utf16Len(t)
  {
    n := 0;
    var i := 0;
    while i < |t|
      invariant 0 <= i <= |t|
      invariant Utf16Len(t) == n + Utf16Len(t[i..])
      decreases |t| - i
    {
      DecodeOfPart(t, i, 0);
      var p := DecodeAt(t, i);
      assert t[i..][p.len..] == t[i + p.len..];
      n := n + UnitsOf(p.cp);
      i := i + p.len;
    }
  }

  lemma {:induction false} ValueOfHead(a: Text, b: Text, n: nat, k: nat)
    requires 0 < k <= |a|
    ensures Value(a + b, 0, n, k) == Value(a, 0, n, k)
  {
    if k > 1 {
      ValueOfHead(a, b, n, k - 1);
    }
  }

  predicate EndsInAscii(t: Text) {
    t != [] && t[|t| - 1] < 0x80
  }

  /** An ASCII byte ends whatever came before it. */
  lemma DecodeOfHead(a: Text, b: Text)
    requires EndsInAscii(a)
    ensures Decode(a + b, 0) == Decode(a, 0)
  {
    var n := LeadLen(a[0]);
    if 0 < n <= |a| {
      ValueOfHead(a, b, n, n);
      assert forall j :: 0 < j < n ==> (a + b)[j] == a[j];
    } else if n > |a| && n <= |a + b| {
      assert (a + b)[|a| - 1] == a[|a| - 1];
      assert !IsContinuation((a + b)[|a| - 1]);
    }
  }

  /** The length adds up across a cut that follows an ASCII byte, whatever the
      bytes on either side. */
  lemma {:induction false} Additive(a: Text, b: Text)
    requires a == [] || EndsInAscii(a)
    ensures Utf16Len(a + b) == Utf16Len(a) + Utf16Len(b)
    decreases |a|
  {
    if a == [] {
      assert a + b == b;
    } else {
      DecodeOfHead(a, b);
      var p := Decode(a, 0);
      assert (a + b)[p.len..] == a[p.len..] + b;
      Additive(a[p.len..], b);
    }
  }

  // ------------------------------------------------------------ well-formed text

  /** A code point that text may hold: no surrogate, nothing past U+10FFFF. */
  predicate IsScalar(cp: nat) {
    cp < 0xD800 || 0xE000 <= cp <= 0x10FFFF
  }

  /** Section 3 of RFC 3629. */
  function Encode(cp: nat): (t: Text)
    requires IsScalar(cp)
    ensures 0 < |t| <= 4
  {
    if cp < 0x80 then [cp]
    else if cp < 0x800 then [0xC0 + cp / 64, 0x80 + cp % 64]
    else if cp < 0x10000 then [0xE0 + cp / 4096, 0x80 + cp / 64 % 64, 0x80 + cp % 64]
    else [0xF0 + cp / 262144, 0x80 + cp / 4096 % 64, 0x80 + cp / 64 % 64, 0x80 + cp % 64]
  }

  predicate Scalars(cps: seq<nat>) {
    forall i :: 0 <= i < |cps| ==> IsScalar(cps[i])
  }

  function EncodeAll(cps: seq<nat>): Text
    requires Scalars(cps)
  {
    if cps == [] then [] else Encode(cps[0]) + EncodeAll(cps[1..])
  }

  /** Section 2.1 of RFC 2781. */
  function Utf16(cp: nat): seq<nat>
    requires IsScalar(cp)
  {
    if cp < 0x10000 then [cp]
    else
      var u := cp - 0x10000;
      [0xD800 + u / 0x400, 0xDC00 + u % 0x400]
  }

  function Utf16All(cps: seq<nat>): seq<nat>
    requires Scalars(cps)
  {
    if cps == [] then [] else Utf16(cps[0]) + Utf16All(cps[1..])
  }

  lemma EncodeShape(cp: nat)
    requires IsScalar(cp)
    ensures var t := Encode(cp);
            LeadLen(t[0]) == |t| && Continues(t, 0, |t|) && Value(t, 0, |t|, |t|) == cp
  {
    var t := Encode(cp);
    if cp < 0x80 {
    } else if cp < 0x800 {
      TwoBytes(cp);
    } else if cp < 0x10000 {
      ThreeBytes(cp);
    } else {
      FourBytes(cp);
    }
  }

  lemma TwoBytes(cp: nat)
    requires 0x80 <= cp < 0x800
    ensures var t := Encode(cp); LeadLen(t[0]) == 2 && Continues(t, 0, 2) && Value(t, 0, 2, 2) == cp
  {
  }

  lemma ThreeBytes(cp: nat)
    requires 0x800 <= cp < 0x10000 && IsScalar(cp)
    ensures var t := Encode(cp); LeadLen(t[0]) == 3 && Continues(t, 0, 3) && Value(t, 0, 3, 3) == cp
  {
    var t := Encode(cp);
    assert cp / 64 / 64 == cp / 4096 < 16;
    assert Value(t, 0, 3, 3) == Value(t, 0, 3, 2) * 64 + t[2] % 64;
    assert Value(t, 0, 3, 2) == Value(t, 0, 3, 1) * 64 + t[1] % 64;
  }

  lemma FourBytes(cp: nat)
    requires 0x10000 <= cp && IsScalar(cp)
    ensures var t := Encode(cp); LeadLen(t[0]) == 4 && Continues(t, 0, 4) && Value(t, 0, 4, 4) == cp
  {
    var t := Encode(cp);
    assert cp / 64 / 64 == cp / 4096 && cp / 4096 / 64 == cp / 262144 < 8;
    assert Value(t, 0, 4, 4) == Value(t, 0, 4, 3) * 64 + t[3] % 64;
    assert Value(t, 0, 4, 3) == Value(t, 0, 4, 2) * 64 + t[2] % 64;
    assert Value(t, 0, 4, 2) == Value(t, 0, 4, 1) * 64 + t[1] % 64;
  }

  /** What was encoded is what is decoded, wherever it stands. */
  lemma DecodeEncoded(cp: nat, rest: Text)
    requires IsScalar(cp)
    ensures Decode(Encode(cp) + rest, 0) == Point(cp, |Encode(cp)|)
  {
    var t := Encode(cp);
    EncodeShape(cp);
    ValueOfHead(t, rest, |t|, |t|);
    assert forall j :: 0 < j < |t| ==> (t + rest)[j] == t[j];
    assert Continues(t + rest, 0, |t|);
  }

  lemma FirstOfAll(cps: seq<nat>)
    requires Scalars(cps) && cps != []
    ensures EncodeAll(cps) != [] && Decode(EncodeAll(cps), 0) == Point(cps[0], |Encode(cps[0])|)
    ensures EncodeAll(cps)[..|Encode(cps[0])|] == Encode(cps[0])
    ensures EncodeAll(cps)[|Encode(cps[0])|..] == EncodeAll(cps[1..])
  {
    DecodeEncoded(cps[0], EncodeAll(cps[1..]));
  }

  function DecodeAll(t: Text): seq<nat> {
    if t == [] then []
    else
      var p := Decode(t, 0);
      [p.cp] + DecodeAll(t[p.len..])
  }

  lemma {:induction false} DecodesAll(cps: seq<nat>)
    requires Scalars(cps)
    ensures DecodeAll(EncodeAll(cps)) == cps
  {
    if cps != [] {
      FirstOfAll(cps);
      DecodesAll(cps[1..]);
    }
  }

  /** On well-formed text the length is the number of UTF-16 code units. */
  lemma {:induction false} LengthIsUtf16(cps: seq<nat>)
    requires Scalars(cps)
    ensures Utf16Len(EncodeAll(cps)) == |Utf16All(cps)|
  {
    if cps != [] {
      FirstOfAll(cps);
      LengthIsUtf16(cps[1..]);
    }
  }
}
