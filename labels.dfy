/** The item labels handed to the association miner: product id 42 travels as
    "p_42" (`"p_{$id}"`) and comes back through `(int) str_replace('p_', '', $lbl)`. */
module Labels {

  predicate IsDigit(c: char) { '0' <= c <= '9' }

  function DigitChar(d: nat): char
    requires d < 10
  {
    ('0' as int + d) as char
  }

  /** Decimal digits of n, most significant first, without leading zeros. */
  function Digits(n: nat): (s: string)
    ensures |s| > 0 && forall i :: 0 <= i < |s| ==> IsDigit(s[i])
  {
    if n < 10 then [DigitChar(n)] else Digits(n / 10) + [DigitChar(n % 10)]
  }

  /** PHP's decimal string form of an integer. */
  function IntToString(n: int): string {
    if n < 0 then "-" + Digits(-n) else Digits(n)
  }

  /** `"p_{$id}"` */
  function Label(id: int): string {
    "p_" + IntToString(id)
  }

  /** `str_replace('p_', '', s)`: every non-overlapping occurrence, scanned left to right, removed. */
  function RemovePrefixMarks(s: string): (r: string)
    ensures |r| <= |s|
  {
    if |s| >= 2 && s[0] == 'p' && s[1] == '_' then RemovePrefixMarks(s[2..])
    else if s == [] then []
    else [s[0]] + RemovePrefixMarks(s[1..])
  }

  /** The leading run of digits. */
  function DigitPrefix(s: string): (r: string)
    ensures |r| <= |s| && r == s[..|r|]
    ensures forall i :: 0 <= i < |r| ==> IsDigit(r[i])
  {
    if s != [] && IsDigit(s[0]) then [s[0]] + DigitPrefix(s[1..]) else []
  }

  /** Value of a digit string (0 for the empty string). */
  function DigitsValue(s: string): nat
    requires forall i :: 0 <= i < |s| ==> IsDigit(s[i])
  {
    if s == [] then 0
    else
      assert IsDigit(s[|s| - 1]);
      DigitsValue(s[..|s| - 1]) * 10 + (s[|s| - 1] as int - '0' as int) as nat
  }

  predicate IsLeadingSpace(c: char) {
    c == ' ' || c == '\t' || c == '\n' || c == '\r' || c == '\U{B}' || c == '\U{C}'
  }

  function SkipLeadingSpace(s: string): string {
    if s != [] && IsLeadingSpace(s[0]) then SkipLeadingSpace(s[1..]) else s
  }

  /** Leading whitespace, an optional sign and the leading digits, read as an
      integer (0 when no digit follows): what `(int)` yields on the decimal
      form of an int, which is all the labels hold. Exponent forms and
      digit runs beyond PHP_INT_MAX are not read the way `(int)` reads them. */
  function ToInt(s: string): int {
    var t := SkipLeadingSpace(s);
    if t != [] && t[0] == '-' then -(DigitsValue(DigitPrefix(t[1..])) as int)
    else if t != [] && t[0] == '+' then DigitsValue(DigitPrefix(t[1..]))
    else DigitsValue(DigitPrefix(t))
  }

  /** `(int) str_replace('p_', '', $lbl)` */
  function LabelId(lbl: string): int {
    ToInt(RemovePrefixMarks(lbl))
  }

  lemma {:induction false} DigitsValueOfDigits(n: nat)
    ensures DigitsValue(Digits(n)) == n
  {
    if n >= 10 {
      DigitsValueOfDigits(n / 10);
      var s := Digits(n);
      assert s[..|s| - 1] == Digits(n / 10);
    }
  }

  lemma {:induction false} DigitPrefixAll(s: string)
    requires forall i :: 0 <= i < |s| ==> IsDigit(s[i])
    ensures DigitPrefix(s) == s
  {
    if s != [] {
      DigitPrefixAll(s[1..]);
    }
  }

  lemma {:induction false} RemoveMarksKeepsDigits(s: string)
    requires forall i :: 0 <= i < |s| ==> IsDigit(s[i]) || s[i] == '-'
    ensures RemovePrefixMarks(s) == s
  {
    if s != [] {
      RemoveMarksKeepsDigits(s[1..]);
    }
  }

  lemma NaturalRoundTrip(n: nat)
    ensures ToInt(Digits(n)) == n
  {
    var ds := Digits(n);
    assert SkipLeadingSpace(ds) == ds;
    DigitPrefixAll(ds);
    DigitsValueOfDigits(n);
  }

  lemma IntRoundTrip(id: int)
    ensures ToInt(IntToString(id)) == id
  {
    if id < 0 {
      var ds := Digits(-id);
      var s := IntToString(id);
      assert SkipLeadingSpace(s) == s;
      assert s[1..] == ds;
      DigitPrefixAll(ds);
      DigitsValueOfDigits(-id);
    } else {
      NaturalRoundTrip(id);
    }
  }

  /** Decoding a label gives back the product id it was made from. */
  lemma LabelRoundTrip(id: int)
    ensures LabelId(Label(id)) == id
  {
    var body := IntToString(id);
    assert Label(id)[2..] == body;
    RemoveMarksKeepsDigits(body);
    assert RemovePrefixMarks(Label(id)) == body;
    IntRoundTrip(id);
  }

  /** Distinct products get distinct labels. */
  lemma LabelInjective(a: int, b: int)
    requires Label(a) == Label(b)
    ensures a == b
  {
    LabelRoundTrip(a);
    LabelRoundTrip(b);
  }
}
