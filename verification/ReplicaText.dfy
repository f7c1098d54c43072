/** The text form of a replica identity: sixteen hexadecimal digits, a colon, sixty-four more. */
module ReplicaText {
  import opened Prelude
  import opened Identity
  import opened Radix

  const LENGTH := 81
  const COLON: Byte := 58

  predicate Valid(id: ReplicaId) {
    id.physicalId <= U64_MAX && |id.bootNonce| == 32
  }

  predicate IsHex(c: Byte) {
    48 <= c <= 57 || 97 <= c <= 102
  }

  function HexOf(digit: int): (c: Byte)
    requires 0 <= digit < 16
    ensures IsHex(c) && DigitOf(c) == digit
  {
    if digit < 10 then 48 + digit else 87 + digit
  }

  function DigitOf(c: Byte): (digit: int)
    ensures IsHex(c) ==> 0 <= digit < 16
  {
    if c < 97 then c - 48 else c - 87
  }

  lemma HexIsOneToOne(c: Byte)
    requires IsHex(c)
    ensures HexOf(DigitOf(c)) == c
  {}

  function TextOf(digits: seq<int>): (text: seq<Byte>)
    requires IsNumeral(digits, Hex)
    ensures |text| == |digits| && forall k :: 0 <= k < |text| ==> text[k] == HexOf(digits[k])
  {
    seq(|digits|, k requires 0 <= k < |digits| => HexOf(digits[k]))
  }

  function DigitsOf(text: seq<Byte>): (digits: seq<int>)
    ensures |digits| == |text| && forall k :: 0 <= k < |text| ==> digits[k] == DigitOf(text[k])
  {
    seq(|text|, k requires 0 <= k < |text| => DigitOf(text[k]))
  }

  /** Two digits for each byte. */
  function NonceText(nonce: seq<Byte>): (text: seq<Byte>)
    ensures |text| == 2 * |nonce|
    ensures forall k :: 0 <= k < |nonce| ==>
              text[2 * k] == HexOf(nonce[k] / 16) && text[2 * k + 1] == HexOf(nonce[k] % 16)
  {
    if nonce == [] then []
    else
      var last := nonce[|nonce| - 1];
      NonceText(nonce[..|nonce| - 1]) + [HexOf(last / 16), HexOf(last % 16)]
  }

  function Printed(id: ReplicaId): seq<Byte> {
    TextOf(Digits(id.physicalId, Hex, 16)) + [COLON] + NonceText(id.bootNonce)
  }

  predicate Canonical(text: seq<Byte>) {
    && |text| == LENGTH
    && text[16] == COLON
    && forall k :: 0 <= k < |text| && k != 16 ==> IsHex(text[k])
  }

  function NonceByte(text: seq<Byte>, k: nat): Byte
    requires Canonical(text) && k < 32
  {
    16 * DigitOf(text[17 + 2 * k]) + DigitOf(text[18 + 2 * k])
  }

  function Parsed(text: seq<Byte>): Option<ReplicaId> {
    if !Canonical(text) then None
    else Some(ReplicaId(
                PhysicalId(text),
                seq(32, k requires 0 <= k < 32 => NonceByte(text, k))))
  }

  function PhysicalId(text: seq<Byte>): nat
    requires Canonical(text)
  {
    ValueHasDigits(DigitsOf(text[..16]), Hex);
    Value(DigitsOf(text[..16]), Hex)
  }

  method Print(id: ReplicaId) returns (text: seq<Byte>)
    requires Valid(id)
    ensures text == Printed(id)
  {
    text := TextOf(Digits(id.physicalId, Hex, 16)) + [COLON];
    ghost var head := text;
    for k := 0 to |id.bootNonce|
      invariant text == head + NonceText(id.bootNonce[..k])
    {
      assert id.bootNonce[..k + 1][..k] == id.bootNonce[..k];
      text := text + [HexOf(id.bootNonce[k] / 16), HexOf(id.bootNonce[k] % 16)];
    }
    assert id.bootNonce[..|id.bootNonce|] == id.bootNonce;
  }

  method Parse(text: seq<Byte>) returns (id: Option<ReplicaId>)
    ensures id == Parsed(text)
  {
    if |text| != LENGTH || text[16] != COLON || exists k :: 0 <= k < |text| && k != 16 && !IsHex(text[k]) {
      return None;
    }
    var nonce := new Byte[32](_ => 0);
    for k := 0 to 32
      invariant forall j :: 0 <= j < k ==> nonce[j] == NonceByte(text, j)
    {
      nonce[k] := 16 * DigitOf(text[17 + 2 * k]) + DigitOf(text[18 + 2 * k]);
    }
    assert nonce[..] == seq(32, k requires 0 <= k < 32 => NonceByte(text, k));
    return Some(ReplicaId(PhysicalId(text), nonce[..]));
  }

  lemma SixteenDigits()
    ensures Capacity(Hex, 16) == TWO_TO_64
  {
    assert Capacity(Hex, 4) == 0x1_0000;
    assert Capacity(Hex, 8) == 0x1_0000_0000;
    assert Capacity(Hex, 12) == 0x1_0000_0000_0000;
  }

  lemma PrintedIsCanonical(id: ReplicaId)
    requires Valid(id)
    ensures Canonical(Printed(id))
  {
    var text := Printed(id);
    forall k | 0 <= k < |text| && k != 16 ensures IsHex(text[k]) {
      if k > 16 {
        var tail := NonceText(id.bootNonce);
        assert text[k] == tail[k - 17];
        var j := (k - 17) / 2;
        assert k - 17 == 2 * j || k - 17 == 2 * j + 1;
        assert tail[2 * j] == HexOf(id.bootNonce[j] / 16);
      }
    }
  }

  /** What is printed parses to what was printed. */
  lemma PrintedParses(id: ReplicaId)
    requires Valid(id)
    ensures Parsed(Printed(id)) == Some(id)
  {
    var text, digits := Printed(id), Digits(id.physicalId, Hex, 16);
    PrintedIsCanonical(id);
    assert text[..16] == TextOf(digits);
    assert DigitsOf(text[..16]) == digits;
    SixteenDigits();
    DigitsHaveValue(id.physicalId, Hex, 16);
    var nonce := Parsed(text).value.bootNonce;
    forall k | 0 <= k < 32 ensures nonce[k] == id.bootNonce[k] {
      assert text[17 + 2 * k] == NonceText(id.bootNonce)[2 * k];
      assert text[18 + 2 * k] == NonceText(id.bootNonce)[2 * k + 1];
    }
    assert nonce == id.bootNonce;
  }

  lemma NonceTextBack(text: seq<Byte>, nonce: seq<Byte>)
    requires Canonical(text) && |nonce| == 32 && forall k :: 0 <= k < 32 ==> nonce[k] == NonceByte(text, k)
    ensures NonceText(nonce) == text[17..]
  {
    var tail := NonceText(nonce);
    forall i | 0 <= i < 64 ensures tail[i] == text[17..][i] {
      var k := i / 2;
      NonceDigits(text, k);
      assert tail[2 * k] == HexOf(nonce[k] / 16) && tail[2 * k + 1] == HexOf(nonce[k] % 16);
      assert i == 2 * k || i == 2 * k + 1;
    }
  }

  /** What parses is a valid identity and prints back to exactly the text that was parsed. */
  lemma ParsedPrints(text: seq<Byte>)
    requires Parsed(text).Some?
    ensures Valid(Parsed(text).value) && Printed(Parsed(text).value) == text
  {
    var id := Parsed(text).value;
    var digits := DigitsOf(text[..16]);
    ValueHasDigits(digits, Hex);
    SixteenDigits();
    forall k | 0 <= k < 16 ensures TextOf(digits)[k] == text[k] {
      HexIsOneToOne(text[k]);
    }
    assert TextOf(digits) == text[..16];
    NonceTextBack(text, id.bootNonce);
    assert text == text[..16] + [COLON] + text[17..];
  }

  lemma NonceDigits(text: seq<Byte>, k: nat)
    requires Canonical(text) && k < 32
    ensures HexOf(NonceByte(text, k) / 16) == text[17 + 2 * k] && HexOf(NonceByte(text, k) % 16) == text[18 + 2 * k]
  {
    HexIsOneToOne(text[17 + 2 * k]);
    HexIsOneToOne(text[18 + 2 * k]);
  }
}
