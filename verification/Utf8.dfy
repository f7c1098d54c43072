/** UTF-8, section 3 of RFC 3629: enough of it to show that distinct texts have distinct bytes. */
module Utf8 {
  import opened Prelude

  function Encoded(c: char): (bytes: seq<Byte>)
    ensures 1 <= |bytes| <= 4
  {
    var n := c as int;
    if n < 0x80 then [n]
    else if n < 0x800 then [0xC0 + n / 64, 0x80 + n % 64]
    else if n < 0x1_0000 then [0xE0 + n / 4096, 0x80 + n / 64 % 64, 0x80 + n % 64]
    else [0xF0 + n / 262144, 0x80 + n / 4096 % 64, 0x80 + n / 64 % 64, 0x80 + n % 64]
  }

  function Bytes(text: string): seq<Byte> {
    if text == "" then [] else Encoded(text[0]) + Bytes(text[1..])
  }

  /** The code point four leading bytes spell. */
  function Leading(b0: int, b1: int, b2: int, b3: int): int {
    if b0 < 0xC0 then b0
    else if b0 < 0xE0 then (b0 - 0xC0) * 64 + (b1 - 0x80)
    else if b0 < 0xF0 then (b0 - 0xE0) * 4096 + (b1 - 0x80) * 64 + (b2 - 0x80)
    else (b0 - 0xF0) * 262144 + (b1 - 0x80) * 4096 + (b2 - 0x80) * 64 + (b3 - 0x80)
  }

  lemma Sextets(n: nat)
    ensures n == n / 64 * 64 + n % 64
    ensures n / 64 == n / 4096 * 64 + n / 64 % 64
    ensures n / 4096 == n / 262144 * 64 + n / 4096 % 64
  {}

  lemma LeadingIsCode(c: char, rest: seq<Byte>)
    requires |rest| >= 4
    ensures var bytes := Encoded(c) + rest; Leading(bytes[0], bytes[1], bytes[2], bytes[3]) == c as int
  {
    Sextets(c as int);
  }

  lemma CharacterPrefix(c: char, d: char, s: seq<Byte>, t: seq<Byte>)
    requires Encoded(c) + s == Encoded(d) + t
    ensures c == d && s == t
  {
    var pad := [0, 0, 0, 0];
    assert Encoded(c) + (s + pad) == Encoded(d) + (t + pad) by {
      assert Encoded(c) + (s + pad) == (Encoded(c) + s) + pad;
      assert Encoded(d) + (t + pad) == (Encoded(d) + t) + pad;
    }
    LeadingIsCode(c, s + pad);
    LeadingIsCode(d, t + pad);
    assert s == (Encoded(c) + s)[|Encoded(c)|..] && t == (Encoded(d) + t)[|Encoded(d)|..];
  }

  /** Texts with the same bytes are the same text. */
  lemma {:induction false} BytesAreExact(a: string, b: string)
    requires Bytes(a) == Bytes(b)
    ensures a == b
    decreases |a|
  {
    if a != "" && b != "" {
      CharacterPrefix(a[0], b[0], Bytes(a[1..]), Bytes(b[1..]));
      BytesAreExact(a[1..], b[1..]);
    }
  }
}
