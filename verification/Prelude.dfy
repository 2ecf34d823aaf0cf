/** Datatypes and small functions shared by every component. */
module Prelude {

  datatype Option<+T> = None | Some(value: T)

  datatype Result<+T, +E> = Ok(value: T) | Err(error: E)

  /** A JSON value. `null` and `undefined` are identified. */
  datatype Value =
    | Null
    | Bool(b: bool)
    | Num(n: real)
    | Str(s: string)
    | List(items: seq<Value>)
    | Record(fields: map<string, Value>)

  function Digit(d: nat): char
    requires d < 10
  {
    "0123456789"[d]
  }

  /** Decimal text of a natural number. */
  function NatText(n: nat): string {
    if n < 10 then [Digit(n)] else NatText(n / 10) + [Digit(n % 10)]
  }

  function IntText(n: int): string {
    if n < 0 then "-" + NatText(-n) else NatText(n)
  }

  lemma {:induction false} NatTextDigits(n: nat)
    ensures |NatText(n)| > 0
    ensures forall i :: 0 <= i < |NatText(n)| ==> '0' <= NatText(n)[i] <= '9'
  {
    if n >= 10 {
      NatTextDigits(n / 10);
    }
  }

  lemma DigitInjective(c: nat, d: nat)
    requires c < 10 && d < 10 && Digit(c) == Digit(d)
    ensures c == d
  {
    DigitIs(c);
    DigitIs(d);
  }

  lemma DigitIs(d: nat)
    requires d < 10
    ensures Digit(d) as int == d + '0' as int
  {
  }

  /** The last digit, and the text before it. */
  lemma NatTextEnd(n: nat)
    ensures var s := NatText(n);
      s != "" && s[|s| - 1] == Digit(n % 10) && s[..|s| - 1] == (if n < 10 then "" else NatText(n / 10))
  {
  }

  lemma {:induction false} NatTextInjective(m: nat, n: nat)
    requires NatText(m) == NatText(n)
    ensures m == n
  {
    NatTextEnd(m);
    NatTextEnd(n);
    DigitInjective(m % 10, n % 10);
    if m >= 10 && n >= 10 {
      NatTextInjective(m / 10, n / 10);
    } else {
      NatTextDigits(m / 10);
      NatTextDigits(n / 10);
    }
  }

  function Join(parts: seq<string>, separator: string): string {
    if parts == [] then ""
    else if |parts| == 1 then parts[0]
    else parts[0] + separator + Join(parts[1..], separator)
  }

  /** The last entry under a key, as an object literal keeps it. */
  function FindBranch<H>(branches: seq<(string, H)>, key: string): Option<H> {
    if branches == [] then None
    else if branches[|branches| - 1].0 == key then Some(branches[|branches| - 1].1)
    else FindBranch(branches[..|branches| - 1], key)
  }

  /** Entry `i` is the one a key leads to: the last under it. */
  predicate LeadsTo<H>(branches: seq<(string, H)>, key: string, i: nat) {
    && i < |branches| && branches[i].0 == key
    && forall j :: i < j < |branches| ==> branches[j].0 != key
  }

  predicate NoSuchBranch<H>(branches: seq<(string, H)>, key: string) {
    forall i :: 0 <= i < |branches| ==> branches[i].0 != key
  }

  lemma {:induction false} BranchFound<H>(branches: seq<(string, H)>, key: string)
    ensures NoSuchBranch(branches, key) ==> FindBranch(branches, key) == None
    ensures forall i: nat :: LeadsTo(branches, key, i) ==> FindBranch(branches, key) == Some(branches[i].1)
  {
    if branches != [] && branches[|branches| - 1].0 != key {
      var init := branches[..|branches| - 1];
      BranchFound(init, key);
      forall i: nat | LeadsTo(branches, key, i)
        ensures LeadsTo(init, key, i)
      {
        assert forall j :: i < j < |init| ==> init[j] == branches[j];
      }
    }
  }

  /** Reversal, as `[...items].reverse()`. */
  function Reverse<T>(items: seq<T>): (r: seq<T>)
    ensures |r| == |items|
    ensures forall i :: 0 <= i < |r| ==> r[i] == items[|items| - 1 - i]
  {
    if items == [] then [] else Reverse(items[1..]) + [items[0]]
  }

  lemma {:induction false} ReverseAppend<T>(a: seq<T>, b: seq<T>)
    ensures Reverse(a + b) == Reverse(b) + Reverse(a)
  {
    assert forall i :: 0 <= i < |a + b| ==> Reverse(a + b)[i] == (Reverse(b) + Reverse(a))[i];
  }

  lemma Assoc<T>(a: seq<T>, b: seq<T>, c: seq<T>)
    ensures (a + b) + c == a + (b + c)
  {
  }

  lemma NilRight<T>(a: seq<T>)
    ensures a + [] == a
  {
  }
}
