/** Decimal u64 text, as `{}` prints it and `parse::<u64>` reads it. */
module Decimal {
  import opened Prelude

  const PLUS: u8 := 0x2B
  const DIGITS: Text := [0x30, 0x31, 0x32, 0x33, 0x34, 0x35, 0x36, 0x37, 0x38, 0x39]

  function DigitValue(c: u8): Option<nat> {
    if 0x30 <= c <= 0x39 then Some((c - 0x30) as nat) else None
  }

  function Show(n: nat): (text: Text)
    ensures text != []
  {
    if n < 10 then [DIGITS[n]] else Show(n / 10) + [DIGITS[n % 10]]
  }

  /** The number a run of digits spells; None at the first other byte. */
  function Value(text: Text): Option<nat> {
    if text == [] then Some(0)
    else
      var last := |text| - 1;
      match (Value(text[..last]), DigitValue(text[last]))
      case (Some(high), Some(d)) => Some(10 * high + d)
      case _ => None
  }

  /** One leading plus sign is allowed; no text, no digits or too large a
      number are not. */
  function ParseU64(text: Text): Option<u64> {
    var digits := if |text| > 1 && text[0] == PLUS then text[1..] else text;
    match Value(digits)
    case Some(v) => if digits != [] && v <= U64_MAX then Some(v) else None
    case None => None
  }

  lemma DigitIsRead(d: nat)
    requires d < 10
    ensures DigitValue(DIGITS[d]) == Some(d) && 0x30 <= DIGITS[d] <= 0x39
  {}

  lemma ValueOfMore(text: Text, d: nat)
    requires d < 10 && Value(text).Some?
    ensures Value(text + [DIGITS[d]]) == Some(10 * Value(text).value + d)
  {
    hide DigitValue;
    DigitIsRead(d);
    assert (text + [DIGITS[d]])[..|text|] == text;
  }

  lemma {:induction false} ValueOfShow(n: nat)
    ensures Value(Show(n)) == Some(n)
  {
    hide DigitValue, Value;
    if n < 10 {
      ValueOfNothing();
      ValueOfMore([], n);
      assert [] + [DIGITS[n]] == Show(n);
    } else {
      ValueOfShow(n / 10);
      ValueOfMore(Show(n / 10), n % 10);
    }
  }

  lemma ValueOfNothing()
    ensures Value([]) == Some(0)
  {}

  lemma {:induction false} ShowsDigits(n: nat)
    ensures forall c :: c in Show(n) ==> 0x30 <= c <= 0x39
    ensures n > 0 ==> Show(n)[0] != DIGITS[0]
  {
    hide DigitValue;
    DigitIsRead(n % 10);
    if n >= 10 {
      ShowsDigits(n / 10);
    }
  }

  /** Every u64 is read back from its printed form. */
  lemma ShowThenParse(n: u64)
    ensures ParseU64(Show(n)) == Some(n)
  {
    ValueOfShow(n);
    ShowsDigits(n);
    assert Show(n)[0] in Show(n);
  }

  function Pow10(n: nat): nat {
    if n == 0 then 1 else 10 * Pow10(n - 1)
  }

  predicate AllDigits(text: Text) {
    forall i :: 0 <= i < |text| ==> DigitValue(text[i]).Some?
  }

  /** A text has a value exactly when it is all digits, and the digits in front
      weigh more: by ten for each that follows. */
  lemma {:induction false} ValueOfAppend(a: Text, b: Text)
    ensures Value(a + b).Some? <==> Value(a).Some? && Value(b).Some?
    ensures Value(a + b).Some? ==> Value(a + b).value == Value(a).value * Pow10(|b|) + Value(b).value
  {
    hide DigitValue;
    if b == [] {
      assert a + b == a;
    } else {
      var init := b[..|b| - 1];
      ValueOfAppend(a, init);
      assert (a + b)[..|a + b| - 1] == a + init;
      if Value(a + b).Some? {
        OneMorePlace(Value(a).value, Pow10(|init|));
      }
    }
  }

  lemma OneMorePlace(v: nat, place: nat)
    ensures 10 * (v * place) == v * (10 * place)
  {}

  lemma {:induction false} ValueExactly(text: Text)
    ensures Value(text).Some? <==> AllDigits(text)
  {
    hide DigitValue;
    if text != [] {
      var init := text[..|text| - 1];
      ValueExactly(init);
      assert text == init + [text[|text| - 1]];
    }
  }

  /** One digit is its place among ten. */
  lemma DigitExactly(c: u8, d: nat)
    ensures Value([c]) == Some(d) <==> d < 10 && c == DIGITS[d]
  {
    assert [c][..0] == [];
    if d < 10 {
      DigitIsRead(d);
    }
  }

  /** Exactly the texts read as a number: some digits, after one plus sign or
      none, that are worth it and fit. */
  lemma ParseExactly(text: Text, v: u64)
    ensures ParseU64(text) == Some(v) <==>
            exists digits :: (text == digits || text == [PLUS] + digits) && digits != [] && AllDigits(digits)
                             && Value(digits) == Some(v)
  {
    if ParseU64(text) == Some(v) {
      var digits := if |text| > 1 && text[0] == PLUS then text[1..] else text;
      ValueExactly(digits);
      assert text == digits || text == [PLUS] + digits;
    }
    if digits :|
       (text == digits || text == [PLUS] + digits) && digits != [] && AllDigits(digits) && Value(digits) == Some(v) {
      assert text == [PLUS] + digits ==> text[1..] == digits;
      assert DigitValue(digits[0]).Some? && DigitValue(PLUS).None?;
    }
  }
}
