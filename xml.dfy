/** The element tree the codec reads and writes (an abstraction of an lxml
    element), and the two text conversions the codec applies to integers:
    Python's `str(int)` and `int(str)`. */
module Xml {
  import opened Wrappers

  /** An element: its tag, its text (`None` when the element carries none)
      and its children in document order. Attributes, tails and namespace
      maps are not modelled. */
  datatype Element = Element(tag: string, text: Option<string>, children: seq<Element>)

  /** An element holding only text, as `ET.SubElement` followed by setting `.text`. */
  function Leaf(tag: string, text: string): Element
  {
    Element(tag, Some(text), [])
  }

  /** A character lxml accepts in element text: the `Char` production of
      section 2.2 of XML 1.0, that is tab, line feed, carriage return and
      every character from U+0020 on except U+FFFE and U+FFFF (a Dafny
      `char` is a Unicode scalar value, so surrogates cannot occur). */
  predicate XmlChar(c: char)
  {
    c == '\t' || c == '\n' || c == '\r' || (c as int >= 0x20 && c as int != 0xFFFE && c as int != 0xFFFF)
  }

  /** Text lxml stores; for any other text, setting `.text` raises
      `ValueError` (no NUL bytes or control characters). */
  predicate XmlText(s: string)
  {
    forall i :: 0 <= i < |s| ==> XmlChar(s[i])
  }

  /** The tags of a sequence of elements. */
  function Tags(cs: seq<Element>): (r: seq<string>)
    ensures |r| == |cs|
    ensures forall i :: 0 <= i < |cs| ==> r[i] == cs[i].tag
  {
    if cs == [] then [] else Tags(cs[..|cs| - 1]) + [cs[|cs| - 1].tag]
  }

  /** Python's `str.removeprefix`: only an exact leading `prefix` is removed. */
  function RemovePrefix(s: string, prefix: string): (r: string)
    ensures prefix <= s ==> prefix + r == s
    ensures !(prefix <= s) ==> r == s
  {
    if prefix <= s then s[|prefix|..] else s
  }

  predicate IsDigit(c: char)
  {
    '0' <= c <= '9'
  }

  predicate AllDigits(s: string)
  {
    forall i :: 0 <= i < |s| ==> IsDigit(s[i])
  }

  function DigitChar(d: nat): (c: char)
    requires d < 10
    ensures IsDigit(c) && c as int - '0' as int == d
  {
    ('0' as int + d) as char
  }

  /** Decimal digits of a natural number, most significant first, no leading zeros. */
  function NatToString(n: nat): (r: string)
    ensures |r| > 0 && AllDigits(r)
    ensures (r[0] == '0') == (n == 0)
  {
    if n < 10 then [DigitChar(n)] else NatToString(n / 10) + [DigitChar(n % 10)]
  }

  /** Python's `str(i)` for an `int`. */
  function IntToString(i: int): (r: string)
    ensures |r| > 0
    ensures (r[0] == '-') == (i < 0)
  {
    if i < 0 then "-" + NatToString(-i) else NatToString(i)
  }

  /** `str(i)` is always text lxml stores: a sign and decimal digits. */
  lemma IntTextIsXml(i: int)
    ensures XmlText(IntToString(i))
  {
    var r := IntToString(i);
    forall k | 0 <= k < |r| ensures XmlChar(r[k]) {
      if i < 0 && k > 0 {
        assert r[k] == NatToString(-i)[k - 1];
      }
    }
  }

  /** The value of a string of decimal digits. */
  function DigitsValue(s: string): nat
    requires AllDigits(s)
  {
    if s == [] then 0 else DigitsValue(s[..|s| - 1]) * 10 + (s[|s| - 1] as int - '0' as int)
  }

  /** Python's `int(s)` on ASCII input: an optional sign followed by at least one
      decimal digit; `None` stands for the `ValueError` Python raises otherwise. */
  function ParseDecimal(s: string): (r: Option<int>)
    ensures r.Some? ==> |s| > 0
  {
    if |s| > 0 && (s[0] == '-' || s[0] == '+') then
      var digits := s[1..];
      if |digits| > 0 && AllDigits(digits) then
        var v: int := DigitsValue(digits);
        Some(if s[0] == '-' then -v else v)
      else None
    else if |s| > 0 && AllDigits(s) then Some(DigitsValue(s))
    else None
  }

  lemma {:induction false} DigitsValueOfNat(n: nat)
    ensures DigitsValue(NatToString(n)) == n
  {
    if n >= 10 {
      var prefix := NatToString(n / 10);
      var s := prefix + [DigitChar(n % 10)];
      assert s[..|s| - 1] == prefix;
      DigitsValueOfNat(n / 10);
    }
  }

  /** `int(str(i)) == i`: the decoder's `parse_int` inverts the encoder's `str`. */
  lemma IntToStringRoundTrip(i: int)
    ensures ParseDecimal(IntToString(i)) == Some(i)
  {
    if i < 0 {
      var s := IntToString(i);
      assert s[1..] == NatToString(-i);
      DigitsValueOfNat(-i);
    } else {
      DigitsValueOfNat(i);
    }
  }
}
