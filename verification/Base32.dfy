/** Base32 of section 6 of RFC 4648, unpadded, as loops over a 32-bit accumulator. */
module Base32 {
  import opened Prelude

  type Byte = b: nat | b < 256
  type Quintet = q: nat | q < 32

  const ALPHABET := "ABCDEFGHIJKLMNOPQRSTUVWXYZ234567"

  // ----- Bits --------------------------------------------------------------------------------------------------

  function Pow2(n: nat): (p: nat)
    ensures p > 0
  {
    if n == 0 then 1 else 2 * Pow2(n - 1)
  }

  /** The lowest `width` bits of `v`, most significant first. */
  function BitsOf(v: nat, width: nat): (bits: seq<bool>)
    ensures |bits| == width
  {
    if width == 0 then [] else BitsOf(v / 2, width - 1) + [v % 2 == 1]
  }

  function Bit(b: bool): nat {
    if b then 1 else 0
  }

  function Value(bits: seq<bool>): nat {
    if bits == [] then 0 else 2 * Value(bits[..|bits| - 1]) + Bit(bits[|bits| - 1])
  }

  function Zeros(n: nat): (bits: seq<bool>)
    ensures |bits| == n && forall i :: 0 <= i < n ==> !bits[i]
  {
    if n == 0 then [] else Zeros(n - 1) + [false]
  }

  lemma {:induction false} ValueBound(bits: seq<bool>)
    ensures Value(bits) < Pow2(|bits|)
  {
    if bits != [] {
      ValueBound(bits[..|bits| - 1]);
    }
  }

  lemma {:induction false} ValueOfBits(v: nat, width: nat)
    requires v < Pow2(width)
    ensures Value(BitsOf(v, width)) == v
  {
    if width > 0 {
      ValueOfBits(v / 2, width - 1);
      assert BitsOf(v, width)[..width - 1] == BitsOf(v / 2, width - 1);
    }
  }

  lemma {:induction false} BitsOfValue(bits: seq<bool>)
    ensures BitsOf(Value(bits), |bits|) == bits
  {
    if bits != [] {
      var init := bits[..|bits| - 1];
      BitsOfValue(init);
      assert Value(bits) / 2 == Value(init);
      assert bits == init + [bits[|bits| - 1]];
    }
  }

  // ----- Groups of bits ---------------------------------------------------------------------------------------

  /** The values of the whole groups of `k` bits at the front. */
  function Groups(bits: seq<bool>, k: nat): seq<nat>
    requires k > 0
  {
    if |bits| < k then [] else [Value(bits[..k])] + Groups(bits[k..], k)
  }

  /** The bits left after the whole groups. */
  function Left(bits: seq<bool>, k: nat): (left: seq<bool>)
    requires k > 0
    ensures |left| < k
  {
    if |bits| < k then bits else Left(bits[k..], k)
  }

  lemma {:induction false} GroupsAppend(a: seq<bool>, b: seq<bool>, k: nat)
    requires k > 0
    ensures Groups(a + b, k) == Groups(a, k) + Groups(Left(a, k) + b, k)
    ensures Left(a + b, k) == Left(Left(a, k) + b, k)
  {
    if |a| >= k {
      assert (a + b)[..k] == a[..k] && (a + b)[k..] == a[k..] + b;
      GroupsAppend(a[k..], b, k);
      Assoc([Value(a[..k])], Groups(a[k..], k), Groups(Left(a, k) + b, k));
    }
  }

  /** The bits of a list of groups. */
  function Spread(groups: seq<nat>, k: nat): seq<bool> {
    if groups == [] then [] else Spread(groups[..|groups| - 1], k) + BitsOf(groups[|groups| - 1], k)
  }

  lemma {:induction false} SpreadAppend(a: seq<nat>, b: seq<nat>, k: nat)
    ensures Spread(a + b, k) == Spread(a, k) + Spread(b, k)
  {
    if b == [] {
      assert a + b == a;
    } else {
      assert (a + b)[..|a + b| - 1] == a + b[..|b| - 1];
      SpreadAppend(a, b[..|b| - 1], k);
      Assoc(Spread(a, k), Spread(b[..|b| - 1], k), BitsOf(b[|b| - 1], k));
    }
  }

  lemma SpreadOne(v: nat, k: nat)
    ensures Spread([v], k) == BitsOf(v, k)
  {
    assert [v][..0] == [];
  }

  lemma SpreadFront(v: nat, rest: seq<nat>, k: nat)
    ensures Spread([v] + rest, k) == BitsOf(v, k) + Spread(rest, k)
  {
    SpreadAppend([v], rest, k);
    SpreadOne(v, k);
  }

  lemma GroupsFront(front: seq<bool>, rest: seq<bool>, k: nat)
    requires k > 0 && |front| == k
    ensures Groups(front + rest, k) == [Value(front)] + Groups(rest, k) && Left(front + rest, k) == Left(rest, k)
  {
    assert (front + rest)[..k] == front && (front + rest)[k..] == rest;
  }

  /** Grouping and spreading again loses only what was left over. */
  lemma {:induction false} SpreadGroups(bits: seq<bool>, k: nat)
    requires k > 0
    ensures Spread(Groups(bits, k), k) + Left(bits, k) == bits
  {
    if |bits| < k {
      assert [] + bits == bits;
    } else {
      var front, rest := bits[..k], bits[k..];
      assert bits == front + rest;
      SpreadGroups(rest, k);
      GroupsFront(front, rest, k);
      SpreadFront(Value(front), Groups(rest, k), k);
      BitsOfValue(front);
      Assoc(front, Spread(Groups(rest, k), k), Left(rest, k));
    }
  }

  /** Spreading and grouping again gives the same groups. */
  lemma {:induction false} GroupsSpread(groups: seq<nat>, k: nat, more: seq<bool>)
    requires k > 0 && |more| < k && forall i :: 0 <= i < |groups| ==> groups[i] < Pow2(k)
    ensures Groups(Spread(groups, k) + more, k) == groups && Left(Spread(groups, k) + more, k) == more
    decreases |groups|
  {
    if groups == [] {
      assert [] + more == more;
    } else {
      var first, rest := groups[0], groups[1..];
      assert groups == [first] + rest;
      SpreadFront(first, rest, k);
      ValueOfBits(first, k);
      GroupsSpread(rest, k, more);
      Assoc(BitsOf(first, k), Spread(rest, k), more);
      GroupsFront(BitsOf(first, k), Spread(rest, k) + more, k);
    }
  }

  lemma {:induction false} GroupsBound(bits: seq<bool>, k: nat, i: nat)
    requires k > 0 && i < |Groups(bits, k)|
    ensures Groups(bits, k)[i] < Pow2(k)
  {
    if i == 0 {
      ValueBound(bits[..k]);
    } else {
      GroupsBound(bits[k..], k, i - 1);
    }
  }

  // ----- What encoding and decoding mean -----------------------------------------------------------------------

  /** Fives of bits, the last filled up with zeros. */
  function Quintets(bits: seq<bool>): seq<nat> {
    var left := Left(bits, 5);
    Groups(bits, 5) + (if left == [] then [] else [Value(left + Zeros(5 - |left|))])
  }

  /** `ALPHABET[q & 31]`: see `AlphabetOrder`. */
  function Letter(q: nat): char {
    if q % 32 < 26 then (q % 32 + 65) as char else (q % 32 + 24) as char
  }

  function Letters(qs: seq<nat>): string {
    if qs == [] then "" else Letters(qs[..|qs| - 1]) + [Letter(qs[|qs| - 1])]
  }

  /** The bytes' bits, most significant first, in fives, as letters. */
  function Encoded(bytes: seq<Byte>): string {
    Letters(Quintets(Spread(bytes, 8)))
  }

  /** `ALPHABET.indexOf(c)`: see `IndexOfAlphabet`. */
  function Index(c: char): (r: int)
    ensures -1 <= r < 32
  {
    if 'A' <= c <= 'Z' then c as int - 65 else if '2' <= c <= '7' then c as int - 24 else -1
  }

  /** Positions 0 to 25 are `A` to `Z`, and 26 to 31 are `2` to `7`. */
  lemma AlphabetOrder(q: nat)
    ensures ALPHABET[q % 32] == Letter(q)
  {
    AlphabetAt(q % 32);
  }

  lemma AlphabetAt(i: nat)
    requires i < 32
    ensures ALPHABET[i] as int == if i < 26 then i + 65 else i + 24
  {
  }

  /** The only position of a character in the alphabet, or -1 if it has none. */
  lemma IndexOfAlphabet(c: char, i: nat)
    requires i < 32
    ensures ALPHABET[i] == c <==> Index(c) == i
  {
    AlphabetAt(i);
  }

  /** Upper-casing outside ASCII, where one character can become several. */
  type Casing = char -> string

  function Upper(casing: Casing, c: char): string {
    if 'a' <= c <= 'z' then [(c as int - 32) as char] else if c as int < 128 then [c] else casing(c)
  }

  function UpperAll(casing: Casing, s: string): string {
    if s == "" then "" else UpperAll(casing, s[..|s| - 1]) + Upper(casing, s[|s| - 1])
  }

  /** `str.replace(/=+$/, '')`. */
  function Unpadded(s: string): string {
    if s != "" && s[|s| - 1] == '=' then Unpadded(s[..|s| - 1]) else s
  }

  /** The alphabet positions of a text; other characters are skipped. */
  function Indices(s: string): (qs: seq<nat>)
    ensures forall i :: 0 <= i < |qs| ==> qs[i] < 32
  {
    if s == "" then []
    else
      var i := Index(s[|s| - 1]);
      Indices(s[..|s| - 1]) + (if i < 0 then [] else [i])
  }

  /** The letters' bits in eights; what does not fill a byte is dropped. */
  function Decoded(casing: Casing, s: string): seq<nat> {
    Groups(Spread(Indices(UpperAll(casing, Unpadded(s))), 5), 8)
  }

  // ----- The accumulator -------------------------------------------------------------------------------------------

  const TWO32 := 0x1_0000_0000

  /** `v << n` before it is cut to 32 bits. */
  function Doubled(v: nat, n: nat): nat {
    if n == 0 then v else 2 * Doubled(v, n - 1)
  }

  /** `(v << n) | low` as the unsigned 32-bit pattern: bits shifted past the top are lost. */
  function ShiftIn(v: nat, n: nat, low: nat): nat {
    (Doubled(v, n) + low) % TWO32
  }

  /** `v >>> n`. */
  function Halved(v: nat, n: nat): nat {
    if n == 0 then v else Halved(v / 2, n - 1)
  }

  /** The low bits of the accumulator are `bits`. */
  predicate Holds(v: nat, bits: seq<bool>) {
    BitsOf(v, |bits|) == bits
  }

  lemma DivModUnique(x: nat, a: nat, q: nat, r: nat)
    requires a > 0 && x == a * q + r && r < a
    ensures x / a == q && x % a == r
  {
    var q1, r1 := x / a, x % a;
    assert x == a * q1 + r1;
    if q1 < q {
      MulLess(a, q1, q);
    } else if q < q1 {
      MulLess(a, q, q1);
    }
  }

  lemma MulLess(a: nat, b: nat, c: nat)
    requires b < c
    ensures a * b + a <= a * c
  {
    MulSplit(a, b, c - b);
    MulAtLeast(a, c - b);
  }

  lemma MulSplit(a: nat, b: nat, d: nat)
    ensures a * (b + d) == a * b + a * d
  {
  }

  lemma MulAtLeast(a: nat, d: nat)
    requires d > 0
    ensures a * d >= a
  {
  }

  lemma {:induction false} DoubleProduct(a: nat, p: nat, q: nat)
    requires a == 2 * p
    ensures a * q == 2 * (p * q)
  {
    if q > 0 {
      DoubleProduct(a, p, q - 1);
      assert a * q == a * (q - 1) + a && p * q == p * (q - 1) + p;
    }
  }

  lemma HalfStep(x: nat, p: nat, q: nat, r: nat, t: nat)
    requires p > 0 && t == p * q && x == 2 * t + r && r < 2 * p
    ensures r == 2 * ((x / 2) % p) + x % 2
  {
    HalfParts(x, t, r);
    DivModUnique(x / 2, p, q, r / 2);
  }

  lemma Euclid(x: nat, a: nat)
    requires a > 0
    ensures x / a >= 0 && x == a * (x / a) + x % a && x % a < a
  {
  }

  /** The remainder by an even number, one bit at a time. */
  lemma HalfMod(x: nat, p: nat, a: nat)
    requires p > 0 && a == 2 * p
    ensures x % a == 2 * ((x / 2) % p) + x % 2
  {
    Euclid(x, a);
    var q, r := x / a, x % a;
    DoubleProduct(a, p, q);
    HalfStep(x, p, q, r, p * q);
  }

  lemma HalfParts(x: nat, t: nat, r: nat)
    requires x == 2 * t + r
    ensures x / 2 == t + r / 2 && x % 2 == r % 2
  {
  }

  /** Cutting to `m` bits leaves the lower ones alone. */
  lemma {:induction false} BitsOfCut(x: nat, m: nat, width: nat)
    requires width <= m
    ensures BitsOf(x % Pow2(m), width) == BitsOf(x, width)
  {
    if width > 0 {
      HalfMod(x, Pow2(m - 1), Pow2(m));
      BitsOfCut(x / 2, m - 1, width - 1);
    }
  }

  lemma {:induction false} ValueOfLowBits(v: nat, width: nat)
    ensures Value(BitsOf(v, width)) == v % Pow2(width)
  {
    if width > 0 {
      ValueOfLowBits(v / 2, width - 1);
      HalfMod(v, Pow2(width - 1), Pow2(width));
      assert BitsOf(v, width)[..width - 1] == BitsOf(v / 2, width - 1);
    }
  }

  lemma {:induction false} BitsOfDoubled(v: nat, width: nat, n: nat, low: nat)
    requires low < Pow2(n)
    ensures BitsOf(Doubled(v, n) + low, width + n) == BitsOf(v, width) + BitsOf(low, n)
  {
    if n == 0 {
      NilRight(BitsOf(v, width));
    } else {
      BitsOfDoubled(v, width, n - 1, low / 2);
      var x := Doubled(v, n) + low;
      assert x / 2 == Doubled(v, n - 1) + low / 2 && x % 2 == low % 2;
      Assoc(BitsOf(v, width), BitsOf(low / 2, n - 1), [low % 2 == 1]);
    }
  }

  lemma Pow32()
    ensures Pow2(32) == TWO32
  {
    assert Pow2(8) == 256;
    assert Pow2(16) == 0x1_0000;
    assert Pow2(24) == 0x100_0000;
  }

  /** Shifting in a group appends its bits, as long as all of them stay below the 32nd. */
  lemma HoldsShifted(v: nat, bits: seq<bool>, n: nat, low: nat)
    requires Holds(v, bits) && low < Pow2(n) && |bits| + n <= 32
    ensures Holds(ShiftIn(v, n, low), bits + BitsOf(low, n))
  {
    Pow32();
    BitsOfDoubled(v, |bits|, n, low);
    BitsOfCut(Doubled(v, n) + low, 32, |bits| + n);
  }

  lemma {:induction false} BitsOfTop(v: nat, width: nat, k: nat)
    requires k <= width
    ensures BitsOf(v, width)[..k] == BitsOf(Halved(v, width - k), k)
  {
    if k < width {
      BitsOfTop(v / 2, width - 1, k);
      assert BitsOf(v, width)[..k] == BitsOf(v / 2, width - 1)[..k];
    }
  }

  lemma {:induction false} BitsOfLow(v: nat, width: nat, k: nat)
    requires k <= width
    ensures BitsOf(v, width)[k..] == BitsOf(v, width - k)
  {
    if k < width {
      BitsOfLow(v / 2, width - 1, k);
      assert BitsOf(v, width)[k..] == BitsOf(v / 2, width - 1)[k..] + [v % 2 == 1];
    }
  }

  /** The top group of what the accumulator holds, and what it holds below. */
  lemma HoldsSplit(v: nat, bits: seq<bool>, k: nat)
    requires Holds(v, bits) && k <= |bits|
    ensures Halved(v, |bits| - k) % Pow2(k) == Value(bits[..k])
    ensures Holds(v, bits[k..])
  {
    BitsOfTop(v, |bits|, k);
    BitsOfLow(v, |bits|, k);
    ValueOfLowBits(Halved(v, |bits| - k), k);
  }

  lemma PowersUsed()
    ensures Pow2(5) == 32 && Pow2(8) == 256
  {
    assert Pow2(3) == 8;
  }

  // ----- The loops -------------------------------------------------------------------------------

  lemma LettersAppend(qs: seq<nat>, q: nat)
    ensures Letters(qs + [q]) == Letters(qs) + [Letter(q)]
  {
    assert (qs + [q])[..|qs|] == qs;
  }

  /** One byte's whole fives go out and the rest stays in the accumulator. */
  method EmitQuintets(out: string, value: nat, bits: nat, ghost done: seq<nat>, ghost pending: seq<bool>)
    returns (text: string, left: nat)
    requires |pending| == bits && Holds(value, pending) && out == Letters(done)
    ensures text == Letters(done + Groups(pending, 5))
    ensures left == |Left(pending, 5)| && Holds(value, Left(pending, 5))
  {
    text, left := out, bits;
    ghost var qs: seq<nat>, rest := done, pending;
    NilRight(done);
    while left >= 5
      invariant left == |rest| && Holds(value, rest) && text == Letters(qs)
      invariant qs + Groups(rest, 5) == done + Groups(pending, 5) && Left(rest, 5) == Left(pending, 5)
    {
      PowersUsed();
      HoldsSplit(value, rest, 5);
      left := left - 5;
      var q: nat := Halved(value, left) % 32;
      LettersAppend(qs, q);
      text := text + [Letter(q)];
      Assoc(qs, [q], Groups(rest[5..], 5));
      qs, rest := qs + [q], rest[5..];
    }
    NilRight(qs);
  }

  lemma SpreadLast(groups: seq<nat>, i: nat, k: nat)
    requires i < |groups|
    ensures Spread(groups[..i + 1], k) == Spread(groups[..i], k) + BitsOf(groups[i], k)
  {
    assert groups[..i + 1][..i] == groups[..i];
  }

  /** Shifts one byte in and sends out the whole fives. */
  method EncodeByte(out: string, value: nat, bits: nat, byte: Byte, ghost seen: seq<bool>)
    returns (text: string, shifted: nat, left: nat)
    requires out == Letters(Groups(seen, 5)) && bits == |Left(seen, 5)| && Holds(value, Left(seen, 5))
    ensures var after := seen + BitsOf(byte, 8);
      text == Letters(Groups(after, 5)) && left == |Left(after, 5)| && Holds(shifted, Left(after, 5))
  {
    PowersUsed();
    HoldsShifted(value, Left(seen, 5), 8, byte);
    GroupsAppend(seen, BitsOf(byte, 8), 5);
    shifted := ShiftIn(value, 8, byte);
    text, left := EmitQuintets(out, shifted, bits + 8, Groups(seen, 5), Left(seen, 5) + BitsOf(byte, 8));
  }

  method Encode(buf: seq<Byte>) returns (out: string)
    ensures out == Encoded(buf)
  {
    var bits: nat, value: nat := 0, 0;
    out := "";
    var i := 0;
    ghost var seen: seq<bool> := [];
    while i < |buf|
      invariant 0 <= i <= |buf| && seen == Spread(buf[..i], 8)
      invariant out == Letters(Groups(seen, 5)) && bits == |Left(seen, 5)| && Holds(value, Left(seen, 5))
    {
      out, value, bits := EncodeByte(out, value, bits, buf[i], seen);
      SpreadLast(buf, i, 8);
      seen := seen + BitsOf(buf[i], 8);
      i := i + 1;
    }
    assert buf[..i] == buf;
    LastLetter(value, seen, Groups(seen, 5));
    if bits > 0 {
      out := out + [Letter(Doubled(value, 5 - bits) % TWO32 % 32)];
    }
  }

  lemma LastLetter(value: nat, seen: seq<bool>, groups: seq<nat>)
    requires Holds(value, Left(seen, 5)) && groups == Groups(seen, 5)
    ensures var bits := |Left(seen, 5)|;
      Letters(Quintets(seen))
      == (if bits > 0 then Letters(groups) + [Letter(Doubled(value, 5 - bits) % TWO32 % 32)] else Letters(groups))
  {
    var left := Left(seen, 5);
    if left == [] {
      NilRight(groups);
    } else {
      var last := Value(left + Zeros(5 - |left|));
      assert Quintets(seen) == groups + [last];
      LettersAppend(groups, last);
      assert Doubled(value, 5 - |left|) % TWO32 % 32 == last by {
        LastQuintet(value, left);
      }
    }
  }

  lemma {:induction false} ZerosAreZero(n: nat)
    ensures BitsOf(0, n) == Zeros(n)
  {
    if n > 0 {
      ZerosAreZero(n - 1);
    }
  }

  /** `(value << (5 - bits)) & 31` is the last group filled up with zeros. */
  lemma LastQuintet(value: nat, left: seq<bool>)
    requires Holds(value, left) && 0 < |left| < 5
    ensures Doubled(value, 5 - |left|) % TWO32 % 32 == Value(left + Zeros(5 - |left|))
  {
    var n := 5 - |left|;
    PowersUsed();
    ZerosAreZero(n);
    HoldsShifted(value, left, n, 0);
    ValueOfLowBits(ShiftIn(value, n, 0), 5);
  }

  lemma IndicesLast(s: string, i: nat)
    requires i < |s|
    ensures Indices(s[..i + 1]) == Indices(s[..i]) + (if Index(s[i]) < 0 then [] else [Index(s[i])])
  {
    assert s[..i + 1][..i] == s[..i];
  }

  /** Five more bits make at most one byte. */
  lemma OneByte(left: seq<bool>, q: seq<bool>)
    requires |left| < 8 && |q| == 5
    ensures Groups(left + q, 8) == if |left| + 5 < 8 then [] else [Value((left + q)[..8])]
    ensures Left(left + q, 8) == if |left| + 5 < 8 then left + q else (left + q)[8..]
  {
  }

  /** The byte that five more bits complete, if any. */
  method PushByte(bytes: seq<nat>, value: nat, bits: nat, ghost left: seq<bool>, ghost q: seq<bool>)
    returns (out: seq<nat>, rest: nat)
    requires |left| < 8 && |q| == 5 && bits == |left| + 5 && Holds(value, left + q)
    ensures out == bytes + Groups(left + q, 8)
    ensures rest == |Left(left + q, 8)| && Holds(value, Left(left + q, 8))
  {
    OneByte(left, q);
    if bits >= 8 {
      PowersUsed();
      HoldsSplit(value, left + q, 8);
      return bytes + [Halved(value, bits - 8) % 256], bits - 8;
    }
    NilRight(bytes);
    return bytes, bits;
  }

  method Decode(casing: Casing, str: string) returns (bytes: seq<nat>)
    ensures bytes == Decoded(casing, str)
  {
    var s := UpperAll(casing, Unpadded(str));
    bytes := [];
    var bits: nat, value: nat := 0, 0;
    var i := 0;
    ghost var seen: seq<bool> := [];
    while i < |s|
      invariant 0 <= i <= |s| && seen == Spread(Indices(s[..i]), 5)
      invariant bytes == Groups(seen, 8) && bits == |Left(seen, 8)| && Holds(value, Left(seen, 8))
    {
      var idx := Index(s[i]);
      IndicesLast(s, i);
      if idx < 0 {
        NilRight(Indices(s[..i]));
        i := i + 1;
        continue;
      }
      ghost var left, q := Left(seen, 8), BitsOf(idx, 5);
      PowersUsed();
      SpreadAppend(Indices(s[..i]), [idx], 5);
      SpreadOne(idx, 5);
      HoldsShifted(value, left, 5, idx);
      GroupsAppend(seen, q, 8);
      bytes, bits := PushByte(bytes, ShiftIn(value, 5, idx), bits + 5, left, q);
      value := ShiftIn(value, 5, idx);
      seen := seen + q;
      i := i + 1;
    }
    assert s[..i] == s;
  }

  // ----- Round trips -----------------------------------------------------------------------------

  predicate IsLetter(c: char) {
    Index(c) >= 0
  }

  lemma LetterIndex(q: nat)
    requires q < 32
    ensures Index(Letter(q)) == q
  {
  }

  predicate AllLetters(s: string) {
    forall i :: 0 <= i < |s| ==> IsLetter(s[i])
  }

  lemma LetterFacts(casing: Casing, c: char)
    requires IsLetter(c)
    ensures c != '=' && Upper(casing, c) == [c] && 0 <= Index(c) < 32 && Letter(Index(c)) == c
  {
  }

  lemma AllButLast(s: string)
    requires AllLetters(s) && s != ""
    ensures AllLetters(s[..|s| - 1]) && IsLetter(s[|s| - 1])
  {
  }

  lemma {:induction false} UpperLetters(casing: Casing, s: string)
    requires AllLetters(s)
    ensures UpperAll(casing, s) == s
  {
    if s != "" {
      AllButLast(s);
      UpperLetters(casing, s[..|s| - 1]);
      LetterFacts(casing, s[|s| - 1]);
      assert s == s[..|s| - 1] + [s[|s| - 1]];
    }
  }

  lemma {:induction false} IndexedLetters(casing: Casing, s: string)
    requires AllLetters(s)
    ensures |Indices(s)| == |s| && Letters(Indices(s)) == s
  {
    if s != "" {
      var last := s[|s| - 1];
      AllButLast(s);
      IndexedLetters(casing, s[..|s| - 1]);
      LetterFacts(casing, last);
      IndicesLast(s, |s| - 1);
      assert s[..|s| - 1 + 1] == s;
      LettersAppend(Indices(s[..|s| - 1]), Index(last));
      assert s == s[..|s| - 1] + [last];
    }
  }

  /** Letters need no trimming and no upper-casing. */
  lemma LettersAsTheyAre(casing: Casing, s: string)
    requires AllLetters(s)
    ensures Unpadded(s) == s && UpperAll(casing, s) == s && |Indices(s)| == |s| && Letters(Indices(s)) == s
  {
    if s != "" {
      AllButLast(s);
      LetterFacts(casing, s[|s| - 1]);
    }
    UpperLetters(casing, s);
    IndexedLetters(casing, s);
  }

  lemma {:induction false} LettersAreLetters(qs: seq<nat>)
    requires forall i :: 0 <= i < |qs| ==> qs[i] < 32
    ensures |Letters(qs)| == |qs| && AllLetters(Letters(qs)) && Indices(Letters(qs)) == qs
  {
    if qs != [] {
      var init, last := qs[..|qs| - 1], qs[|qs| - 1];
      LettersAreLetters(init);
      LetterIndex(last);
      var s := Letters(qs);
      assert s[..|s| - 1] == Letters(init);
      assert qs == init + [last];
    }
  }

  lemma QuintetsBound(bits: seq<bool>)
    ensures forall i :: 0 <= i < |Quintets(bits)| ==> Quintets(bits)[i] < 32
  {
    PowersUsed();
    forall i | 0 <= i < |Quintets(bits)|
      ensures Quintets(bits)[i] < 32
    {
      if i < |Groups(bits, 5)| {
        GroupsBound(bits, 5, i);
      } else {
        ValueBound(Left(bits, 5) + Zeros(5 - |Left(bits, 5)|));
      }
    }
  }

  /** How many zeros fill up the last group. */
  function Fill(bits: seq<bool>): (n: nat)
    ensures n < 5
  {
    if Left(bits, 5) == [] then 0 else 5 - |Left(bits, 5)|
  }

  lemma SpreadQuintets(bits: seq<bool>)
    ensures Spread(Quintets(bits), 5) == bits + Zeros(Fill(bits))
  {
    var left := Left(bits, 5);
    SpreadGroups(bits, 5);
    if left == [] {
      NilRight(Groups(bits, 5));
      NilRight(bits);
      NilRight(Spread(Groups(bits, 5), 5));
    } else {
      var last := left + Zeros(Fill(bits));
      SpreadAppend(Groups(bits, 5), [Value(last)], 5);
      SpreadOne(Value(last), 5);
      BitsOfValue(last);
      Assoc(Spread(Groups(bits, 5), 5), left, Zeros(Fill(bits)));
    }
  }

  lemma {:induction false} SpreadLength(groups: seq<nat>, k: nat)
    ensures |Spread(groups, k)| == |groups| * k
  {
    if groups != [] {
      SpreadLength(groups[..|groups| - 1], k);
      OneMore(|groups| - 1, k);
    }
  }

  lemma OneMore(n: nat, k: nat)
    ensures (n + 1) * k == n * k + k
  {
  }

  /** Decoding an encoded byte sequence gives it back, although bits of the accumulator are lost
      at the top all the time, and the text has as many letters as there are groups of five bits. */
  lemma RoundTrip(casing: Casing, bytes: seq<Byte>)
    ensures Decoded(casing, Encoded(bytes)) == bytes
    ensures |Encoded(bytes)| == (8 * |bytes| + 4) / 5
  {
    var bits := Spread(bytes, 8);
    var qs := Quintets(bits);
    QuintetsBound(bits);
    LettersAreLetters(qs);
    LettersAsTheyAre(casing, Letters(qs));
    SpreadQuintets(bits);
    PowersUsed();
    GroupsSpread(bytes, 8, Zeros(Fill(bits)));
    SpreadLength(qs, 5);
    SpreadLength(bytes, 8);
  }

  /** Text that encoding could have produced: letters only, and after the last whole byte fewer
      than five bits, all zero. */
  predicate CanonicalText(s: string) {
    AllLetters(s) && |Left(Spread(Indices(s), 5), 8)| < 5
    && Left(Spread(Indices(s), 5), 8) == Zeros(|Left(Spread(Indices(s), 5), 8)|)
  }

  /** The bytes and the leftover bits of a text, as bits. */
  lemma CanonicalBits(s: string)
    ensures var bits := Spread(Indices(s), 5);
      Spread(Groups(bits, 8), 8) + Left(bits, 8) == bits
  {
    SpreadGroups(Spread(Indices(s), 5), 8);
  }

  lemma {:induction false} LeftLength(bits: seq<bool>, k: nat)
    requires k > 0
    ensures |Left(bits, k)| == |bits| % k
  {
    if |bits| >= k {
      LeftLength(bits[k..], k);
      assert |bits| % k == (|bits| - k) % k by {
        ModSub(|bits|, k);
      }
    }
  }

  lemma ModSub(x: nat, k: nat)
    requires 0 < k <= x
    ensures x % k == (x - k) % k
  {
    var y := x - k;
    Euclid(y, k);
    assert x == k * (y / k + 1) + y % k;
    DivModUnique(x, k, y / k + 1, y % k);
  }

  lemma {:induction false} GroupsInject(a: seq<nat>, b: seq<nat>, k: nat)
    requires k > 0 && Spread(a, k) == Spread(b, k)
    requires (forall i :: 0 <= i < |a| ==> a[i] < Pow2(k)) && (forall i :: 0 <= i < |b| ==> b[i] < Pow2(k))
    ensures a == b
  {
    GroupsSpread(a, k, []);
    GroupsSpread(b, k, []);
  }

  /** Canonical text: what encoding makes of its bytes has the same bits. */
  lemma CanonicalEncodes(s: string)
    requires CanonicalText(s)
    ensures Letters(Quintets(Spread(Groups(Spread(Indices(s), 5), 8), 8))) == s
  {
    var bits := Spread(Indices(s), 5);
    var whole, left := Spread(Groups(bits, 8), 8), Left(bits, 8);
    CanonicalBits(s);
    SpreadQuintets(whole);
    SpreadLength(Indices(s), 5);
    SpreadLength(Quintets(whole), 5);
    FillIs(whole, |left|, |Indices(s)|, |Quintets(whole)|);
    QuintetsBound(whole);
    PowersUsed();
    GroupsInject(Quintets(whole), Indices(s), 5);
    LettersAsTheyAre((c: char) => [c], s);
  }

  /** Two fillings below five that reach a multiple of five are the same. */
  lemma FillIs(bits: seq<bool>, n: nat, a: nat, b: nat)
    requires n < 5 && |bits| + n == a * 5 && |bits| + Fill(bits) == b * 5
    ensures Fill(bits) == n
  {
  }

  lemma ByteValues(s: string)
    ensures forall i :: 0 <= i < |Groups(Spread(Indices(s), 5), 8)| ==> Groups(Spread(Indices(s), 5), 8)[i] < 256
  {
    PowersUsed();
    var bits := Spread(Indices(s), 5);
    forall i | 0 <= i < |Groups(bits, 8)|
      ensures Groups(bits, 8)[i] < 256
    {
      GroupsBound(bits, 8, i);
    }
  }

  /** Encoded text is canonical. */
  lemma EncodedIsCanonical(bytes: seq<Byte>)
    ensures CanonicalText(Encoded(bytes))
  {
    var bits := Spread(bytes, 8);
    QuintetsBound(bits);
    LettersAreLetters(Quintets(bits));
    SpreadQuintets(bits);
    PowersUsed();
    GroupsSpread(bytes, 8, Zeros(Fill(bits)));
  }

  /** Encoding undoes decoding exactly on canonical text. */
  lemma EncodeUndoesDecode(casing: Casing, s: string)
    ensures var bytes := Decoded(casing, s);
      (forall i :: 0 <= i < |bytes| ==> bytes[i] < 256) && (Encoded(bytes) == s <==> CanonicalText(s))
  {
    ByteValues(UpperAll(casing, Unpadded(s)));
    if CanonicalText(s) {
      LettersAsTheyAre(casing, s);
      CanonicalEncodes(s);
    } else {
      EncodedIsCanonical(Decoded(casing, s));
    }
  }
}
