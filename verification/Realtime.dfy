/** Sound on the wire: base64 (section 4 of RFC 4648) with a 32-bit accumulator,
    and PCM16 little endian, in exact arithmetic. */
module Realtime {
  import opened Arithmetic
  import opened Seqs

  type Six = v: int | 0 <= v < 64

  const WORD := 0x1_0000_0000

  // ------------------------------------------------------------ the alphabet

  /** The alphabet in order: capitals, small letters, digits, plus, slash. */
  function Letter(v: Six): char {
    if v < 26 then (('A' as int) + v) as char
    else if v < 52 then (('a' as int) + v - 26) as char
    else if v < 62 then (('0' as int) + v - 52) as char
    else if v == 62 then '+'
    else '/'
  }

  /** What a character is worth, -1 outside the alphabet. */
  function Value(c: char): (v: int)
    ensures -1 <= v < 64
  {
    if 'A' <= c <= 'Z' then c as int - 'A' as int
    else if 'a' <= c <= 'z' then c as int - 'a' as int + 26
    else if '0' <= c <= '9' then c as int - '0' as int + 52
    else if c == '+' then 62
    else if c == '/' then 63
    else -1
  }

  lemma LetterIsValue(v: Six)
    ensures Value(Letter(v)) == v && Letter(v) != '='
  {
  }

  // ------------------------------------------------------------ encoding

  function Triple(a: Byte, b: Byte, c: Byte): (t: nat)
    ensures t < 0x1000000
  {
    a * 65536 + b * 256 + c
  }

  /** The four characters of up to three bytes. */
  function Group(t: seq<Byte>): string
    requires 0 < |t| <= 3
  {
    var a, b, c := t[0], if |t| > 1 then t[1] else 0, if |t| > 2 then t[2] else 0;
    var x := Triple(a, b, c);
    [Letter(x / 262144), Letter(x / 4096 % 64),
     if |t| > 1 then Letter(x / 64 % 64) else '=',
     if |t| > 2 then Letter(x % 64) else '=']
  }

  function Encode(data: seq<Byte>): string {
    if data == [] then ""
    else if |data| <= 3 then Group(data)
    else Group(data[..3]) + Encode(data[3..])
  }

  /** What is left from place i on, nothing when that is past the end. */
  function From(data: seq<Byte>, i: nat): seq<Byte> {
    if i <= |data| then data[i..] else []
  }

  function Three(data: seq<Byte>): seq<Byte> {
    if |data| <= 3 then data else data[..3]
  }

  lemma EncodeStep(data: seq<Byte>, i: nat)
    requires i < |data|
    ensures Encode(From(data, i)) == Group(Three(From(data, i))) + Encode(From(data, i + 3))
  {
    hide Group;
    var rest := data[i..];
    if |rest| <= 3 {
      assert From(data, i + 3) == [];
      assert Group(rest) + [] == Group(rest);
    } else {
      assert rest[3..] == data[i + 3..];
    }
  }

  method EncodeBytes(data: seq<Byte>) returns (out: string)
    ensures out == Encode(data)
  {
    hide Encode, Group;
    out := "";
    var i := 0;
    assert From(data, 0) == data;
    while i < |data|
      invariant 0 <= i
      invariant Encode(data) == out + Encode(From(data, i))
    {
      EncodeStep(data, i);
      var group := Group(Three(From(data, i)));
      ghost var rest := Encode(From(data, i + 3));
      assert out + (group + rest) == out + group + rest;
      out := out + group;
      i := i + 3;
    }
    EncodeNothing(data, i);
  }

  lemma EncodeNothing(data: seq<Byte>, i: nat)
    requires i >= |data|
    ensures Encode(From(data, i)) == ""
  {
  }

  // ------------------------------------------------------------ decoding

  /** The accumulator: 32 bits that wrap, and how many of them wait. */
  datatype Acc = Acc(bits: nat, count: nat, out: seq<Byte>)

  function Pow2(n: nat): nat {
    if n == 0 then 1 else 2 * Pow2(n - 1)
  }

  predicate Waits(n: nat) {
    n == 0 || n == 2 || n == 4 || n == 6
  }

  function Take(a: Acc, v: Six): Acc
    requires a.bits < WORD && Waits(a.count)
  {
    var bits := (a.bits * 64 + v) % WORD;
    if a.count + 6 >= 8 then Acc(bits, a.count - 2, a.out + [bits / Pow2(a.count - 2) % 256])
    else Acc(bits, a.count + 6, a.out)
  }

  lemma TakeKeeps(a: Acc, v: Six)
    requires a.bits < WORD && Waits(a.count)
    ensures Take(a, v).bits < WORD && Waits(Take(a, v).count)
  {
  }

  function DecodeFrom(a: Acc, s: string): (r: Acc)
    requires a.bits < WORD && Waits(a.count)
    decreases |s|
  {
    if s == "" then a
    else
      var v := Value(s[0]);
      if v < 0 then DecodeFrom(a, s[1..])
      else
        TakeKeeps(a, v);
        DecodeFrom(Take(a, v), s[1..])
  }

  function Decode(s: string): seq<Byte> {
    DecodeFrom(Acc(0, 0, []), s).out
  }

  method DecodeString(s: string) returns (out: seq<Byte>)
    ensures out == Decode(s)
  {
    out := [];
    var bits: nat, count: nat := 0, 0;
    var i := 0;
    while i < |s|
      invariant 0 <= i <= |s| && bits < WORD && Waits(count)
      invariant DecodeFrom(Acc(0, 0, []), s) == DecodeFrom(Acc(bits, count, out), s[i..])
    {
      assert s[i..][1..] == s[i + 1..];
      var value := Value(s[i]);
      i := i + 1;
      if value < 0 {
        continue;
      }
      TakeKeeps(Acc(bits, count, out), value);
      bits := (bits * 64 + value) % WORD;
      count := count + 6;
      if count >= 8 {
        count := count - 8;
        out := out + [bits / Pow2(count) % 256];
      }
    }
  }

  // ------------------------------------------------------------ the wrap is harmless

  lemma Powers()
    ensures Pow2(0) == 1 && Pow2(2) == 4 && Pow2(4) == 16 && Pow2(6) == 64
  {
  }

  /** The low bits after six more came in: `low` was below p, and the word is a
      multiple of 64 p. */
  lemma WrapKeepsLow(bits: nat, v: Six, p: nat, words: nat)
    requires p > 0 && WORD == words * (64 * p)
    ensures (bits * 64 + v) % WORD % (64 * p) == bits % p * 64 + v < 64 * p
  {
    var q, low := bits / p, bits % p;
    var wide := bits * 64 + v;
    var wraps, r := wide / WORD, wide % WORD;
    assert bits == q * p + low && wide == wraps * WORD + r;
    assert wraps * WORD == wraps * words * (64 * p) by {
      assert wraps * (words * (64 * p)) == wraps * words * (64 * p);
    }
    assert q * p * 64 == q * (64 * p);
    assert (q - wraps * words) * (64 * p) == q * (64 * p) - wraps * words * (64 * p);
    assert r == (q - wraps * words) * (64 * p) + (low * 64 + v);
    DivIs(r, 64 * p, q - wraps * words, low * 64 + v);
  }

  /** A byte and the rest of low bits, out of a wider number. */
  lemma ByteOfLow(r: nat, d: nat)
    requires d > 0
    ensures r / d % 256 == r % (256 * d) / d && r % d == r % (256 * d) % d
  {
    var m, t := r / (256 * d), r % (256 * d);
    assert r == m * (256 * d) + t;
    var q, s := t / d, t % d;
    assert t == q * d + s;
    assert m * (256 * d) == m * 256 * d;
    assert (m * 256 + q) * d == m * 256 * d + q * d;
    DivIs(r, d, m * 256 + q, s);
    assert q < 256 by {
      if q >= 256 {
        MulBelow(d, 256, q);
      }
    }
    DivIs(m * 256 + q, 256, m, q);
  }

  /** What really waits is the low bits: the first six of a group. */
  lemma TakesFirst(a: Acc, v: Six)
    requires a.bits < WORD && a.count == 0
    ensures var r := Take(a, v); r.bits < WORD && r.count == 6 && r.bits % 64 == v && r.out == a.out
  {
  }

  lemma TakesSecond(a: Acc, v: Six, t: nat)
    requires a.bits < WORD && a.count == 6 && t == a.bits % 64 * 64 + v
    ensures t / 16 < 256
    ensures var r := Take(a, v); r.bits < WORD && r.count == 4 && r.bits % 16 == t % 16 && r.out == a.out + [t / 16]
  {
    Powers();
    WrapKeepsLow(a.bits, v, 64, 1048576);
    hide Pow2;
    ByteOfLow((a.bits * 64 + v) % WORD, 16);
  }

  lemma TakesThird(a: Acc, v: Six, t: nat)
    requires a.bits < WORD && a.count == 4 && t == a.bits % 16 * 64 + v
    ensures t / 4 < 256
    ensures var r := Take(a, v); r.bits < WORD && r.count == 2 && r.bits % 4 == t % 4 && r.out == a.out + [t / 4]
  {
    Powers();
    WrapKeepsLow(a.bits, v, 16, 4194304);
    hide Pow2;
    ByteOfLow((a.bits * 64 + v) % WORD, 4);
  }

  lemma TakesFourth(a: Acc, v: Six, t: nat)
    requires a.bits < WORD && a.count == 2 && t == a.bits % 4 * 64 + v
    ensures t < 256
    ensures var r := Take(a, v); r.bits < WORD && r.count == 0 && r.out == a.out + [t]
  {
    Powers();
    WrapKeepsLow(a.bits, v, 4, 16777216);
    hide Pow2;
  }

  // ------------------------------------------------------------ round trip

  lemma {:induction false} DecodeAppend(a: Acc, s: string, t: string)
    requires a.bits < WORD && Waits(a.count)
    ensures var mid := DecodeFrom(a, s);
            mid.bits < WORD && Waits(mid.count) && DecodeFrom(a, s + t) == DecodeFrom(mid, t)
    decreases |s|
  {
    hide Value, Take;
    if s == "" {
      assert s + t == t;
    } else {
      assert (s + t)[1..] == s[1..] + t;
      var v := Value(s[0]);
      if v < 0 {
        DecodeAppend(a, s[1..], t);
      } else {
        TakeKeeps(a, v);
        DecodeAppend(Take(a, v), s[1..], t);
      }
    }
  }

  /** One character of the alphabet. */
  lemma TakeLetter(a: Acc, v: Six, rest: string)
    requires a.bits < WORD && Waits(a.count)
    ensures Take(a, v).bits < WORD && Waits(Take(a, v).count)
    ensures DecodeFrom(a, [Letter(v)] + rest) == DecodeFrom(Take(a, v), rest)
  {
  }

  lemma SkipPad(a: Acc, rest: string)
    requires a.bits < WORD && Waits(a.count)
    ensures DecodeFrom(a, "=" + rest) == DecodeFrom(a, rest)
  {
  }

  /** Where the bits of three bytes lie in the four sixes. */
  lemma SixesOf(a: Byte, b: Byte, c: Byte)
    ensures var x := Triple(a, b, c);
            && x / 262144 == a / 4 && x / 4096 % 64 == a % 4 * 16 + b / 16
            && x / 64 % 64 == b % 16 * 4 + c / 64 && x % 64 == c % 64
  {
    var x := Triple(a, b, c);
    DivIs(x, 262144, a / 4, a % 4 * 65536 + b * 256 + c);
    DivIs(x, 4096, a * 16 + b / 16, b % 16 * 256 + c);
    DivIs(a * 16 + b / 16, 64, a / 4, a % 4 * 16 + b / 16);
    DivIs(x, 64, a * 1024 + b * 4 + c / 64, c % 64);
    DivIs(a * 1024 + b * 4 + c / 64, 64, a * 16 + b / 16, b % 16 * 4 + c / 64);
  }

  /** The sixes put back together, two by two. */
  lemma Rejoined(a: Byte, b: Byte, c: Byte)
    ensures var t1 := a / 4 * 64 + (a % 4 * 16 + b / 16); t1 / 16 == a && t1 % 16 == b / 16
    ensures var t2 := b / 16 * 64 + (b % 16 * 4 + c / 64); t2 / 4 == b && t2 % 4 == c / 64
    ensures c / 64 * 64 + c % 64 == c
  {
  }

  /** The state after the first one, two, three and four letters of a group. */
  lemma Sixes(acc: Acc, a: Byte, b: Byte, c: Byte) returns (s1: Acc, s2: Acc, s3: Acc)
    requires acc.bits < WORD && acc.count == 0
    ensures var x := Triple(a, b, c);
            && s1 == Take(Take(acc, x / 262144), x / 4096 % 64) && Ready(s1) && s1.out == acc.out + [a]
            && s2 == Take(s1, x / 64 % 64) && Ready(s2) && s2.out == acc.out + [a, b]
            && s3 == Take(s2, x % 64) && Ready(s3) && s3.count == 0 && s3.out == acc.out + [a, b, c]
  {
    var x := Triple(a, b, c);
    SixesOf(a, b, c);
    Rejoined(a, b, c);
    hide Triple, Take, Pow2;
    var s0 := Take(acc, x / 262144);
    TakesFirst(acc, x / 262144);
    s1 := Take(s0, x / 4096 % 64);
    TakesSecond(s0, x / 4096 % 64, a / 4 * 64 + (a % 4 * 16 + b / 16));
    s2 := Take(s1, x / 64 % 64);
    TakesThird(s1, x / 64 % 64, b / 16 * 64 + (b % 16 * 4 + c / 64));
    s3 := Take(s2, x % 64);
    TakesFourth(s2, x % 64, c);
  }

  predicate Ready(a: Acc) {
    a.bits < WORD && Waits(a.count)
  }

  /** A full group gives back its three bytes and leaves nothing waiting; a last
      one, padded, gives back its one or two. */
  lemma GroupDecodes(acc: Acc, t: seq<Byte>)
    requires acc.bits < WORD && acc.count == 0 && 0 < |t| <= 3
    ensures var r := DecodeFrom(acc, Group(t));
            Ready(r) && r.out == acc.out + t && (|t| == 3 ==> r.count == 0)
  {
    var a, b, c := t[0], if |t| > 1 then t[1] else 0, if |t| > 2 then t[2] else 0;
    var s1, s2, s3 := Sixes(acc, a, b, c);
    var x := Triple(a, b, c);
    var v0, v1, v2, v3 := x / 262144, x / 4096 % 64, x / 64 % 64, x % 64;
    hide Letter, Triple, Take;
    var tail := Group(t)[2..];
    assert Group(t) == [Letter(v0)] + ([Letter(v1)] + tail);
    TakeLetter(acc, v0, [Letter(v1)] + tail);
    TakeLetter(Take(acc, v0), v1, tail);
    if |t| == 1 {
      assert tail == "=" + "=" && t == [a];
      SkipPad(s1, "=");
      SkipPad(s1, "");
      assert "=" + "" == "=";
    } else if |t| == 2 {
      assert tail == [Letter(v2)] + "=" && t == [a, b];
      TakeLetter(s1, v2, "=");
      SkipPad(s2, "");
      assert "=" + "" == "=";
    } else {
      assert tail == [Letter(v2)] + [Letter(v3)] && t == [a, b, c];
      TakeLetter(s1, v2, [Letter(v3)]);
      TakeLetter(s2, v3, "");
      assert [Letter(v3)] + "" == [Letter(v3)];
    }
  }

  lemma {:induction false} EncodedDecodes(acc: Acc, data: seq<Byte>)
    requires acc.bits < WORD && acc.count == 0
    ensures DecodeFrom(acc, Encode(data)).out == acc.out + data
    decreases |data|
  {
    hide Group, DecodeFrom;
    if data == [] {
      assert acc.out + [] == acc.out;
      DecodesNothing(acc);
    } else if |data| <= 3 {
      GroupDecodes(acc, data);
    } else {
      GroupDecodes(acc, data[..3]);
      DecodeAppend(acc, Group(data[..3]), Encode(data[3..]));
      EncodedDecodes(DecodeFrom(acc, Group(data[..3])), data[3..]);
      assert acc.out + data[..3] + data[3..] == acc.out + data;
    }
  }

  lemma DecodesNothing(acc: Acc)
    requires Ready(acc)
    ensures DecodeFrom(acc, "") == acc
  {
  }

  /** Every byte string comes back, though the accumulator wraps. */
  lemma RoundTrip(data: seq<Byte>)
    ensures Decode(Encode(data)) == data
  {
    EncodedDecodes(Acc(0, 0, []), data);
    assert [] + data == data;
    hide DecodeFrom, Encode;
  }

  function Letters(s: string): string {
    if s == "" then "" else (if Value(s[0]) < 0 then "" else [s[0]]) + Letters(s[1..])
  }

  lemma {:induction false} OnlyLettersCount(a: Acc, s: string)
    requires Ready(a)
    ensures DecodeFrom(a, s) == DecodeFrom(a, Letters(s))
    decreases |s|
  {
    hide Value, Take;
    if s != "" {
      var v := Value(s[0]);
      if v < 0 {
        OnlyLettersCount(a, s[1..]);
        assert "" + Letters(s[1..]) == Letters(s[1..]);
      } else {
        TakeKeeps(a, v);
        OnlyLettersCount(Take(a, v), s[1..]);
        assert Letters(s)[1..] == Letters(s[1..]);
      }
    }
  }

  /** Padding, line breaks and anything else outside the alphabet never change
      the result. */
  lemma OthersAreIgnored(s: string)
    ensures Decode(s) == Decode(Letters(s))
  {
    OnlyLettersCount(Acc(0, 0, []), s);
  }

  // ------------------------------------------------------------ samples

  type Sample = n: int | -32768 <= n < 32768

  function Clamp(x: real): real {
    if x > 1.0 then 1.0 else if x < -1.0 then -1.0 else x
  }

  /** A cast to an integer drops the fraction, towards zero. */
  function Truncate(x: real): int {
    if x >= 0.0 then x.Floor else -((-x).Floor)
  }

  function ToSample(x: real): (n: Sample)
    ensures -32767 <= n <= 32767
  {
    Truncate(Clamp(x) * 32767.0)
  }

  function ToFloat(n: Sample): real {
    n as real / 32768.0
  }

  /** Little endian, two's complement. */
  function ToBytes(n: Sample): seq<Byte> {
    var u := n % 65536;
    [u % 256, u / 256]
  }

  function FromBytes(low: Byte, high: Byte): Sample {
    var u := low + 256 * high;
    if u >= 32768 then u - 65536 else u
  }

  lemma BytesRoundTrip(n: Sample)
    ensures var t := ToBytes(n); |t| == 2 && FromBytes(t[0], t[1]) == n
  {
  }

  function PcmBytes(pcm: seq<real>): seq<Byte> {
    if pcm == [] then [] else ToBytes(ToSample(pcm[0])) + PcmBytes(pcm[1..])
  }

  function PcmFloats(bytes: seq<Byte>): seq<real> {
    if |bytes| < 2 then [] else [ToFloat(FromBytes(bytes[0], bytes[1]))] + PcmFloats(bytes[2..])
  }

  method FloatsOf(bytes: seq<Byte>) returns (out: seq<real>)
    ensures out == PcmFloats(bytes)
  {
    out := [];
    var i := 0;
    while i < |bytes| / 2
      invariant 0 <= i <= |bytes| / 2 && PcmFloats(bytes) == out + PcmFloats(bytes[2 * i..])
    {
      assert bytes[2 * i..][2..] == bytes[2 * (i + 1)..];
      out := out + [ToFloat(FromBytes(bytes[2 * i], bytes[2 * i + 1]))];
      i := i + 1;
    }
  }

  method PcmOf(pcm: seq<real>) returns (out: string)
    ensures out == Encode(PcmBytes(pcm))
  {
    var bytes: seq<Byte> := [];
    var i := 0;
    while i < |pcm|
      invariant 0 <= i <= |pcm| && PcmBytes(pcm) == bytes + PcmBytes(pcm[i..])
    {
      assert pcm[i..][1..] == pcm[i + 1..];
      bytes := bytes + ToBytes(ToSample(pcm[i]));
      i := i + 1;
    }
    assert bytes + [] == bytes;
    out := EncodeBytes(bytes);
  }

  function Trip(x: real): real {
    ToFloat(ToSample(x))
  }

  /** The sound of a whole frame, there and back. */
  lemma {:induction false} FrameTrip(pcm: seq<real>)
    ensures PcmFloats(Decode(Encode(PcmBytes(pcm)))) == seq(|pcm|, i requires 0 <= i < |pcm| => Trip(pcm[i]))
  {
    RoundTrip(PcmBytes(pcm));
    FloatsOfBytes(pcm);
    hide Decode, Encode, PcmBytes, PcmFloats, Trip;
  }

  lemma {:induction false} FloatsOfBytes(pcm: seq<real>)
    ensures PcmFloats(PcmBytes(pcm)) == seq(|pcm|, i requires 0 <= i < |pcm| => Trip(pcm[i]))
  {
    hide ToSample, ToFloat, FromBytes, ToBytes;
    if pcm != [] {
      FloatsOfBytes(pcm[1..]);
      BytesRoundTrip(ToSample(pcm[0]));
      assert PcmBytes(pcm)[2..] == PcmBytes(pcm[1..]);
    }
  }

  /** A clamped sample moves by less than two steps. */
  lemma TripMovesLittle(x: real)
    ensures -2.0 / 32768.0 < Trip(x) - Clamp(x) < 2.0 / 32768.0
  {
    var y := Clamp(x);
    var n := ToSample(x) as real;
    assert -1.0 < n - y * 32767.0 < 1.0;
    assert -2.0 < n - y * 32768.0 < 2.0;
    assert Trip(x) == n / 32768.0;
  }

  /** A sample that was 16 bits already loses exactly one step of magnitude,
      towards zero, unless it is zero. */
  lemma TripLosesOneStep(n: Sample)
    ensures var m := ToSample(ToFloat(n));
            m == if n > 0 then n - 1 else if n < 0 then n + 1 else 0
  {
    var x := ToFloat(n);
    assert Clamp(x) == x;
    assert x * 32767.0 == n as real - x;
  }
}
