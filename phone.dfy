/**
 * The phone formatting done before a rider is contacted on WhatsApp: keep the
 * digits, then put the number in Nigerian international form (country code 234).
 */
module Phone {

  const CountryCode: string := "234"

  /** `\d` of a JavaScript regular expression without the `u` flag. */
  predicate IsDigit(c: char)
  {
    '0' <= c <= '9'
  }

  predicate AllDigits(s: string)
  {
    forall i :: 0 <= i < |s| ==> IsDigit(s[i])
  }

  /** `s.replace(/\D/g, '')`: the digits of `s`, in order. */
  function Digits(s: string): (d: string)
    ensures AllDigits(d)
    ensures |d| <= |s|
    ensures AllDigits(s) ==> d == s
  {
    if s == [] then []
    else (if IsDigit(s[0]) then [s[0]] else []) + Digits(s[1..])
  }

  /** Removing non-digits commutes with concatenation. */
  lemma {:induction false} DigitsAppend(a: string, b: string)
    ensures Digits(a + b) == Digits(a) + Digits(b)
  {
    if a == [] {
      assert a + b == b;
    } else {
      assert (a + b)[1..] == a[1..] + b;
      DigitsAppend(a[1..], b);
    }
  }

  /** Removing non-digits twice is the same as once. */
  lemma DigitsIdempotent(s: string)
    ensures Digits(Digits(s)) == Digits(s)
  {
  }

  /**
   * The international form of a string of digits: left alone when it already
   * starts with 234; otherwise a leading 0 (the trunk prefix) is replaced by
   * 234, and any other number gets 234 in front.
   */
  function International(clean: string): (r: string)
    requires AllDigits(clean)
    ensures AllDigits(r)
    ensures CountryCode <= r
    ensures CountryCode <= clean ==> r == clean
    ensures !(CountryCode <= clean) ==> |r| <= |clean| + 3 && r[3..] == TrunkStripped(clean)
  {
    if CountryCode <= clean then clean
    else if |clean| > 0 && clean[0] == '0' then CountryCode + clean[1..]
    else CountryCode + clean
  }

  /** A national number without its single leading trunk 0, when it has one. */
  function TrunkStripped(clean: string): (r: string)
    ensures |clean| > 0 && clean[0] == '0' ==> clean == "0" + r
    ensures (|clean| == 0 || clean[0] != '0') ==> r == clean
  {
    if |clean| > 0 && clean[0] == '0' then clean[1..] else clean
  }

  /** The number `handleWhatsAppCall` puts into the wa.me link. */
  function NormalizePhone(phone: string): (r: string)
    ensures AllDigits(r)
    ensures CountryCode <= r
    ensures CountryCode <= Digits(phone) ==> r == Digits(phone)
    ensures !(CountryCode <= Digits(phone)) ==> r == CountryCode + TrunkStripped(Digits(phone))
  {
    International(Digits(phone))
  }

  /** A number that has been formatted once is not changed by formatting it again. */
  lemma NormalizePhoneIdempotent(phone: string)
    ensures NormalizePhone(NormalizePhone(phone)) == NormalizePhone(phone)
  {
    var r := NormalizePhone(phone);
    assert Digits(r) == r;
  }

  /** Separators typed between the digits do not change the formatted number. */
  lemma NormalizePhoneIgnoresSeparators(a: string, sep: string, b: string)
    requires forall i :: 0 <= i < |sep| ==> !IsDigit(sep[i])
    ensures NormalizePhone(a + sep + b) == NormalizePhone(a + b)
  {
    DigitsAppend(a + sep, b);
    DigitsAppend(a, sep);
    DigitsAppend(a, b);
    NoDigits(sep);
    assert Digits(a + sep) == Digits(a);
    assert Digits(a + sep + b) == Digits(a + b);
  }

  lemma {:induction false} NoDigits(s: string)
    requires forall i :: 0 <= i < |s| ==> !IsDigit(s[i])
    ensures Digits(s) == []
  {
    if s != [] {
      NoDigits(s[1..]);
    }
  }

  /** 08012345678 becomes 2348012345678. */
  lemma NormalizeTrunkExample(phone: string)
    requires phone == "08012345678"
    ensures NormalizePhone(phone) == "2348012345678"
  {
    assert AllDigits(phone);
    assert Digits(phone) == phone;
    assert phone[1..] == "8012345678";
  }

  /** 8012345678 becomes 2348012345678. */
  lemma NormalizeBareExample(phone: string)
    requires phone == "8012345678"
    ensures NormalizePhone(phone) == "2348012345678"
  {
    assert AllDigits(phone);
    assert Digits(phone) == phone;
  }

  /** 2348012345678 is kept. */
  lemma NormalizeInternationalExample(phone: string)
    requires phone == "2348012345678"
    ensures NormalizePhone(phone) == "2348012345678"
  {
    assert AllDigits(phone);
    assert Digits(phone) == phone;
  }

  /** A leading plus sign, as typed before an international number, is dropped with the other non-digits. */
  lemma NormalizePlusPrefixed(phone: string)
    requires |phone| > 0 && phone[0] == '+' && AllDigits(phone[1..])
    ensures NormalizePhone(phone) == International(phone[1..])
  {
    assert Digits(phone) == Digits(phone[1..]);
  }

  /** +2348012345678, as typed with the plus sign, becomes 2348012345678. */
  lemma NormalizeTypedInternationalExample(phone: string)
    requires phone == "+2348012345678"
    ensures NormalizePhone(phone) == "2348012345678"
  {
    assert phone[1..] == "2348012345678";
    assert AllDigits(phone[1..]);
    NormalizePlusPrefixed(phone);
    assert CountryCode <= phone[1..];
  }
}
