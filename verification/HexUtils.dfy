/** Hexadecimal text and raw bytes (src/hex_utils.rs). Text is the UTF-8 byte
    sequence the source iterates over, so shifts and ors are those of u8. */
module HexUtils {
  import opened Prelude

  /** The value of one accepted digit, in either case. */
  function Nibble(c: u8): Option<u8> {
    if 0x41 <= c <= 0x46 then Some(c - 0x41 + 10)
    else if 0x61 <= c <= 0x66 then Some(c - 0x61 + 10)
    else if 0x30 <= c <= 0x39 then Some(c - 0x30)
    else None
  }

  predicate AllHex(text: seq<u8>) {
    forall i :: 0 <= i < |text| ==> Nibble(text[i]).Some?
  }

  function LowerDigit(n: u8): u8
    requires n < 16
  {
    if n < 10 then 0x30 + n else 0x61 + (n - 10)
  }

  function LowerCase(c: u8): u8 {
    if 0x41 <= c <= 0x46 then c + 0x20 else c
  }

  /** The byte spelled by the k-th pair of digits. */
  function PairAt(text: seq<u8>, k: nat): u8
    requires 2 * k + 1 < |text|
    requires Nibble(text[2 * k]).Some? && Nibble(text[2 * k + 1]).Some?
  {
    (Nibble(text[2 * k]).value << 4) | Nibble(text[2 * k + 1]).value
  }

  /** The bytes spelled by the complete pairs of `text`. */
  function Decoded(text: seq<u8>): seq<u8>
    requires AllHex(text)
  {
    seq(|text| / 2, k requires 0 <= k < |text| / 2 => PairAt(text, k))
  }

  function Decode(text: seq<u8>): Option<seq<u8>> {
    if AllHex(text) then Some(Decoded(text)) else None
  }

  /** The i-th digit of the lower-case spelling, high half first. */
  function DigitAt(bytes: seq<u8>, i: nat): u8
    requires i < 2 * |bytes|
  {
    HalvesAreSmall(bytes[i / 2]);
    LowerDigit(if i % 2 == 0 then bytes[i / 2] >> 4 else bytes[i / 2] & 0x0f)
  }

  function Encode(bytes: seq<u8>): seq<u8> {
    seq(2 * |bytes|, i requires 0 <= i < 2 * |bytes| => DigitAt(bytes, i))
  }

  method ToVec(hex: seq<u8>) returns (out: Option<seq<u8>>)
    ensures out == Decode(hex)
  {
    var bytes: seq<u8> := [];
    var b: u8 := 0;
    for idx := 0 to |hex|
      invariant AllHex(hex[..idx])
      invariant bytes == Decoded(hex[..idx])
      invariant b == Carried(hex, idx)
    {
      CarriedIsSmall(hex, idx);
      assert b <= 15;  // the shift below loses no bits
      b := b << 4;
      var digit := Nibble(hex[idx]);
      if digit == None {
        assert hex[idx] in hex;
        return None;
      }
      b := b | digit.value;
      OneMoreDigit(hex, idx);
      if idx % 2 == 1 {
        bytes := bytes + [b];
        b := 0;
      }
    }
    assert hex[..|hex|] == hex;
    return Some(bytes);
  }

  /** The accumulator before the digit at `idx`: the high half of a byte whose
      low half has not been read yet. */
  ghost function Carried(hex: seq<u8>, idx: nat): u8
    requires idx <= |hex| && AllHex(hex[..idx])
  {
    if idx % 2 == 0 then 0 else Nibble(hex[..idx][idx - 1]).value
  }

  lemma CarriedIsSmall(hex: seq<u8>, idx: nat)
    requires idx <= |hex| && AllHex(hex[..idx])
    ensures Carried(hex, idx) <= 15
  {}

  lemma OneMoreDigit(hex: seq<u8>, idx: nat)
    requires idx < |hex| && AllHex(hex[..idx]) && Nibble(hex[idx]).Some?
    ensures AllHex(hex[..idx + 1])
    ensures var b := (Carried(hex, idx) << 4) | Nibble(hex[idx]).value;
            if idx % 2 == 1
            then Decoded(hex[..idx + 1]) == Decoded(hex[..idx]) + [b]
            else Decoded(hex[..idx + 1]) == Decoded(hex[..idx]) && Carried(hex, idx + 1) == b
  {
    var before, after := hex[..idx], hex[..idx + 1];
    assert after == before + [hex[idx]];
    forall k | 0 <= k < idx / 2 ensures Decoded(after)[k] == Decoded(before)[k] {
      assert after[2 * k] == before[2 * k] && after[2 * k + 1] == before[2 * k + 1];
    }
    if idx % 2 == 1 {
      assert Decoded(after)[idx / 2] == PairAt(after, idx / 2);
    } else {
      ZeroHighHalf(Nibble(hex[idx]).value);
    }
  }

  lemma ZeroHighHalf(d: u8)
    ensures ((0 as u8) << 4) | d == d
  {}

  method HexStr(value: seq<u8>) returns (res: seq<u8>)
    ensures res == Encode(value)
  {
    res := [];
    for i := 0 to |value|
      invariant res == Encode(value[..i])
    {
      HalvesAreSmall(value[i]);
      assert value[..i + 1] == value[..i] + [value[i]];
      res := res + [LowerDigit(value[i] >> 4), LowerDigit(value[i] & 0x0f)];
    }
    assert value[..|value|] == value;
  }

  lemma HalvesAreSmall(v: u8)
    ensures v >> 4 < 16 && v & 0x0f < 16
    ensures ((v >> 4) << 4) | (v & 0x0f) == v
  {}

  lemma DigitIsRead(n: u8)
    requires n < 16
    ensures Nibble(LowerDigit(n)) == Some(n)
  {}

  /** Decoding undoes encoding, for every byte sequence. */
  lemma EncodeThenDecode(v: seq<u8>)
    ensures Decode(Encode(v)) == Some(v)
  {
    hide DigitAt, PairAt, Nibble;
    var text := Encode(v);
    forall i | 0 <= i < |text| ensures Nibble(text[i]).Some? {
      DigitsAreRead(v, i / 2);
    }
    assert AllHex(text);
    forall k | 0 <= k < |v| ensures Decoded(text)[k] == v[k] {
      DigitsAreRead(v, k);
    }
    assert Decoded(text) == v;
  }

  lemma DigitsAreRead(v: seq<u8>, k: nat)
    requires k < |v|
    ensures var text := Encode(v);
            Nibble(text[2 * k]).Some? && Nibble(text[2 * k + 1]).Some? && PairAt(text, k) == v[k]
  {
    var text := Encode(v);
    assert text[2 * k] == DigitAt(v, 2 * k) && text[2 * k + 1] == DigitAt(v, 2 * k + 1);
    HalvesAreSmall(v[k]);
    DigitIsRead(v[k] >> 4);
    DigitIsRead(v[k] & 0x0f);
  }

  /** Encoding what was decoded gives the lower-case text back, without the
      digit an odd length leaves over. */
  lemma DecodeThenEncode(text: seq<u8>)
    requires AllHex(text)
    ensures |Encode(Decoded(text))| == |text| - |text| % 2
    ensures forall i :: 0 <= i < |text| - |text| % 2 ==> Encode(Decoded(text))[i] == LowerCase(text[i])
  {}

  /** Two accepted texts of even length name the same bytes exactly when they
      differ only in case. */
  lemma DecodeAgreesUpToCase(a: seq<u8>, b: seq<u8>)
    requires AllHex(a) && AllHex(b) && |a| % 2 == 0 && |a| == |b|
    ensures Decoded(a) == Decoded(b) <==>
            forall i :: 0 <= i < |a| ==> LowerCase(a[i]) == LowerCase(b[i])
  {
    DecodeThenEncode(a);
    DecodeThenEncode(b);
    if forall i :: 0 <= i < |a| ==> LowerCase(a[i]) == LowerCase(b[i]) {
      forall k | 0 <= k < |a| / 2 ensures Decoded(a)[k] == Decoded(b)[k] {
        SameDigit(a[2 * k], b[2 * k]);
        SameDigit(a[2 * k + 1], b[2 * k + 1]);
      }
    }
  }

  lemma SameDigit(c: u8, d: u8)
    requires Nibble(c).Some? && Nibble(d).Some? && LowerCase(c) == LowerCase(d)
    ensures Nibble(c) == Nibble(d)
  {}

  /** "0123456789abcdef" and its upper-case form. */
  const LOWER_DIGITS: seq<u8> :=
    [0x30, 0x31, 0x32, 0x33, 0x34, 0x35, 0x36, 0x37, 0x38, 0x39, 0x61, 0x62, 0x63, 0x64, 0x65, 0x66]
  const UPPER_DIGITS: seq<u8> :=
    [0x30, 0x31, 0x32, 0x33, 0x34, 0x35, 0x36, 0x37, 0x38, 0x39, 0x41, 0x42, 0x43, 0x44, 0x45, 0x46]

  /** A byte is read as a digit exactly when it is one, in either case, and then
      as its place among them. */
  lemma NibbleExactly(c: u8, n: u8)
    ensures |LOWER_DIGITS| == |UPPER_DIGITS| == 16
    ensures Nibble(c) == Some(n) <==> n < 16 && (c == LOWER_DIGITS[n] || c == UPPER_DIGITS[n])
  {}

  /** A decoded byte is sixteen times its first digit and its second. */
  lemma DecodedValue(text: seq<u8>, k: nat)
    requires AllHex(text) && k < |text| / 2
    ensures Decoded(text)[k] as nat == 16 * (Nibble(text[2 * k]).value as nat) + Nibble(text[2 * k + 1]).value as nat
  {
    PairValue(Nibble(text[2 * k]).value, Nibble(text[2 * k + 1]).value);
  }

  lemma PairValue(hi: u8, lo: u8)
    requires hi < 16 && lo < 16
    ensures ((hi << 4) | lo) as nat == 16 * (hi as nat) + lo as nat
  {
    assert (hi << 4) | lo == hi * 16 + lo;
  }

  /** Each byte is printed as its two digits in base sixteen, in lower case. */
  lemma EncodeExactly(v: seq<u8>, k: nat)
    requires k < |v|
    ensures |Encode(v)| == 2 * |v| && v[k] as nat < 256
    ensures Encode(v)[2 * k] == LOWER_DIGITS[v[k] as nat / 16] && Encode(v)[2 * k + 1] == LOWER_DIGITS[v[k] as nat % 16]
  {
    assert Encode(v)[2 * k] == DigitAt(v, 2 * k) && Encode(v)[2 * k + 1] == DigitAt(v, 2 * k + 1);
    HalvesAreSmall(v[k]);
    HalvesAreQuotients(v[k]);
    LowerDigitExactly(v[k] >> 4);
    LowerDigitExactly(v[k] & 0x0f);
  }

  lemma HalvesAreQuotients(b: u8)
    ensures (b >> 4) as nat == b as nat / 16 && (b & 0x0f) as nat == b as nat % 16
  {
    assert b >> 4 == b / 16 && b & 0x0f == b % 16;
  }

  lemma LowerDigitExactly(n: u8)
    requires n < 16
    ensures LowerDigit(n) == LOWER_DIGITS[n as nat]
  {}
}
