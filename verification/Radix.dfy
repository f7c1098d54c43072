/** Fixed-width big-endian numerals in octets and in hexadecimal digits. */
module Radix {
  import opened Prelude

  datatype Base = Hex | Octet

  function Size(base: Base): nat {
    if base.Hex? then 16 else 256
  }

  function Scaled(v: int, base: Base): int {
    if base.Hex? then v * 16 else v * 256
  }

  function High(n: nat, base: Base): nat {
    if base.Hex? then n / 16 else n / 256
  }

  function Low(n: nat, base: Base): nat {
    if base.Hex? then n % 16 else n % 256
  }

  /** How many numbers `width` digits can write. */
  function Capacity(base: Base, width: nat): nat {
    if width == 0 then 1 else Scaled(Capacity(base, width - 1), base)
  }

  /** The `width` digits of `n`, most significant first. */
  function Digits(n: nat, base: Base, width: nat): (digits: seq<int>)
    ensures |digits| == width && IsNumeral(digits, base)
  {
    if width == 0 then [] else Digits(High(n, base), base, width - 1) + [Low(n, base)]
  }

  function Value(digits: seq<int>, base: Base): int {
    if digits == [] then 0 else Scaled(Value(digits[..|digits| - 1], base), base) + digits[|digits| - 1]
  }

  predicate IsNumeral(digits: seq<int>, base: Base) {
    forall k :: 0 <= k < |digits| ==> 0 <= digits[k] < Size(base)
  }

  /** A number that fits is the value of its digits. */
  lemma {:induction false} DigitsHaveValue(n: nat, base: Base, width: nat)
    requires n < Capacity(base, width)
    ensures Value(Digits(n, base, width), base) == n
    decreases width
  {
    if width > 0 {
      DigitsHaveValue(High(n, base), base, width - 1);
      assert Digits(n, base, width)[..width - 1] == Digits(High(n, base), base, width - 1);
    }
  }

  lemma HighAndLow(v: nat, digit: nat, capacity: nat, base: Base)
    requires digit < Size(base) && v < capacity
    ensures var n := Scaled(v, base) + digit;
            0 <= n < Scaled(capacity, base) && High(n, base) == v && Low(n, base) == digit
  {}

  /** A numeral fits in its width and is the numeral of its value. */
  lemma {:induction false} ValueHasDigits(digits: seq<int>, base: Base)
    requires IsNumeral(digits, base)
    ensures 0 <= Value(digits, base) < Capacity(base, |digits|)
    ensures Digits(Value(digits, base), base, |digits|) == digits
    decreases |digits|
  {
    if digits != [] {
      hide Scaled, High, Low;
      var front, last := digits[..|digits| - 1], digits[|digits| - 1];
      ValueHasDigits(front, base);
      HighAndLow(Value(front, base), last, Capacity(base, |front|), base);
      assert front + [last] == digits;
    }
  }

  // ---- Octets ----

  function Octets(n: nat, width: nat): (bytes: seq<Byte>)
    ensures |bytes| == width
  {
    Digits(n, Octet, width)
  }

  function Number(bytes: seq<Byte>): nat {
    ValueHasDigits(bytes, Octet);
    Value(bytes, Octet)
  }

  /** A number that fits is read back. */
  lemma NumberOf(n: nat, width: nat)
    requires n < Capacity(Octet, width)
    ensures Number(Octets(n, width)) == n
  {
    DigitsHaveValue(n, Octet, width);
  }

  lemma OctetsOf(bytes: seq<Byte>)
    ensures Number(bytes) < Capacity(Octet, |bytes|) && Octets(Number(bytes), |bytes|) == bytes
  {
    ValueHasDigits(bytes, Octet);
  }

  /** Numbers of one width never start one another. */
  lemma OctetsPrefix(x: nat, y: nat, width: nat, s: seq<Byte>, t: seq<Byte>)
    requires x < Capacity(Octet, width) && y < Capacity(Octet, width) && Octets(x, width) + s == Octets(y, width) + t
    ensures x == y && s == t
  {
    var a, b := Octets(x, width), Octets(y, width);
    assert a == (a + s)[..width] && b == (b + t)[..width];
    assert s == (a + s)[width..] && t == (b + t)[width..];
    NumberOf(x, width);
    NumberOf(y, width);
  }
}
