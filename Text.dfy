/**
 * The string operations both halves of the tracker apply to what they
 * exchange: the ASCII case mapping of statuses (Python's `str.lower`,
 * JavaScript's `toLowerCase`) and Python's `int()` on a decimal string,
 * with `str()` as its printing counterpart.
 */
module Text {
  import opened Json

  // ---------------------------------------------------------------------------
  // Case mapping

  predicate IsUpper(c: char) { 'A' <= c <= 'Z' }

  function LowerChar(c: char): (d: char)
    ensures !IsUpper(d)
    ensures !IsUpper(c) ==> d == c
    ensures IsUpper(c) ==> d as int == c as int + 32
  {
    if IsUpper(c) then (c as int + 32) as char else c
  }

  /** A string with no upper-case ASCII letter. */
  predicate IsLowerCase(s: string) {
    forall i :: 0 <= i < |s| ==> !IsUpper(s[i])
  }

  /** `s.lower()` in Python and `s.toLowerCase()` in JavaScript, on ASCII letters. */
  function Lower(s: string): (r: string)
    ensures |r| == |s|
    ensures forall i :: 0 <= i < |s| ==> r[i] == LowerChar(s[i])
  {
    if s == [] then [] else [LowerChar(s[0])] + Lower(s[1..])
  }

  /** Lowering yields a lower-case string, and a lower-case string is its own
      lower-case form: together, lowering twice is lowering once. */
  lemma LowerIsLowerCase(s: string)
    ensures IsLowerCase(Lower(s))
    ensures IsLowerCase(s) <==> Lower(s) == s
    ensures Lower(Lower(s)) == Lower(s)
  {
  }

  // ---------------------------------------------------------------------------
  // Python's int() on a string

  predicate IsDigit(c: char) { '0' <= c <= '9' }

  predicate AllDigits(s: string) {
    forall i :: 0 <= i < |s| ==> IsDigit(s[i])
  }

  /** The characters `int()` strips around the digits of an ASCII string:
      space, tab, line feed, vertical tab, form feed and carriage return. */
  predicate IsSpace(c: char) {
    c == ' ' || 9 <= c as int <= 13
  }

  predicate AllSpace(s: string) {
    forall i :: 0 <= i < |s| ==> IsSpace(s[i])
  }

  function TrimStart(s: string): string
  {
    if s != [] && IsSpace(s[0]) then TrimStart(s[1..]) else s
  }

  function TrimEnd(s: string): string
  {
    if s != [] && IsSpace(s[|s| - 1]) then TrimEnd(s[..|s| - 1]) else s
  }

  /** The value of a string of decimal digits, most significant first. */
  function DigitsValue(s: string): nat
    requires AllDigits(s)
  {
    if s == [] then 0 else DigitsValue(s[..|s| - 1]) * 10 + (s[|s| - 1] as int - '0' as int)
  }

  /** The most digits `int()` converts from a decimal string
      (`sys.get_int_max_str_digits()`, by default); leading zeros count. */
  const MaxStrDigits: nat := 4300

  /** A run of one to `MaxStrDigits` decimal digits, and its value. */
  function ParseDigits(d: string): (r: Option<nat>)
    ensures r.Some? <==> 0 < |d| <= MaxStrDigits && AllDigits(d)
  {
    if 0 < |d| <= MaxStrDigits && AllDigits(d) then Some(DigitsValue(d)) else None
  }

  /** The text `int()` converts once white space is stripped: an optional sign
      and then one to `MaxStrDigits` decimal digits. */
  predicate IsNumeral(t: string) {
    var d := if |t| > 0 && (t[0] == '-' || t[0] == '+') then t[1..] else t;
    0 < |d| <= MaxStrDigits && AllDigits(d)
  }

  /** `int(s)` for a Python string `s`: surrounding white space is dropped,
      then an optional sign and at least one decimal digit must remain.
      `None` is the `ValueError` Python raises otherwise. */
  function ParseInt(s: string): (r: Option<int>)
    ensures r.Some? <==> IsNumeral(TrimEnd(TrimStart(s)))
    ensures r.Some? && TrimEnd(TrimStart(s))[0] == '-' ==> r.value <= 0
    ensures r.Some? && TrimEnd(TrimStart(s))[0] != '-' ==> r.value >= 0
  {
    ParseNumeral(TrimEnd(TrimStart(s)))
  }

  /** The value of a stripped text: an optional sign, then digits. */
  function ParseNumeral(t: string): (r: Option<int>)
  {
    var unsigned := if |t| > 0 && (t[0] == '-' || t[0] == '+') then ParseDigits(t[1..]) else ParseDigits(t);
    match unsigned
    case None => None
    case Some(v) => var w: int := v; Some(if |t| > 0 && t[0] == '-' then -w else w)
  }

  function DigitChar(d: nat): (c: char)
    requires d < 10
    ensures IsDigit(c)
  {
    ('0' as int + d) as char
  }

  /** The decimal text of a natural number, without leading zeros. */
  function ShowNat(n: nat): (s: string)
    ensures |s| > 0 && AllDigits(s)
    ensures |s| > 1 ==> s[0] != '0'
  {
    if n < 10 then [DigitChar(n)] else ShowNat(n / 10) + [DigitChar(n % 10)]
  }

  /** `str(n)` in Python for an integer `n`. Where `int()` has its digit
      limit, `str` refuses a number of more than `MaxStrDigits` digits too
      (`ValueError`); the text is still defined here for every `n`. */
  function ShowInt(n: int): (s: string)
  {
    if n < 0 then "-" + ShowNat(-n) else ShowNat(n)
  }

  lemma {:induction false} DigitsValueOfShowNat(n: nat)
    ensures DigitsValue(ShowNat(n)) == n
  {
    var s := ShowNat(n);
    if n >= 10 {
      DigitsValueOfShowNat(n / 10);
      assert s[..|s| - 1] == ShowNat(n / 10);
    }
  }

  lemma TrimKeepsUnpadded(s: string)
    requires |s| > 0 && !IsSpace(s[0]) && !IsSpace(s[|s| - 1])
    ensures TrimEnd(TrimStart(s)) == s
  {
  }

  /** The text `str` prints has no white space to strip. */
  lemma ShowIntIsTrimmed(n: int)
    ensures TrimEnd(TrimStart(ShowInt(n))) == ShowInt(n)
  {
    var d := ShowNat(if n < 0 then -n else n);
    assert IsDigit(d[0]) && IsDigit(d[|d| - 1]);
    var s := if n < 0 then "-" + d else d;
    assert s == ShowInt(n);
    assert s[|s| - 1] == d[|d| - 1];
    TrimKeepsUnpadded(s);
  }

  /** Parsing what `str` prints gives the number back, as long as it has at
      most `MaxStrDigits` digits; a longer one raises. */
  lemma ParseShowInt(n: int)
    ensures |ShowNat(if n < 0 then -n else n)| <= MaxStrDigits ==> ParseInt(ShowInt(n)) == Some(n)
    ensures |ShowNat(if n < 0 then -n else n)| > MaxStrDigits ==> ParseInt(ShowInt(n)) == None
  {
    var s := ShowInt(n);
    ShowIntIsTrimmed(n);
    if n < 0 {
      DigitsValueOfShowNat(-n);
      assert s[1..] == ShowNat(-n);
    } else {
      DigitsValueOfShowNat(n);
      assert s == ShowNat(n);
    }
  }

  lemma {:induction false} TrimStartPadded(p: string, s: string)
    requires AllSpace(p)
    ensures TrimStart(p + s) == TrimStart(s)
    decreases |p|
  {
    if p != [] {
      assert (p + s)[1..] == p[1..] + s;
      TrimStartPadded(p[1..], s);
    } else {
      assert p + s == s;
    }
  }

  lemma {:induction false} TrimEndPadded(s: string, q: string)
    requires AllSpace(q)
    ensures TrimEnd(s + q) == TrimEnd(s)
    decreases |q|
  {
    if q != [] {
      var q' := q[..|q| - 1];
      assert (s + q)[..|s + q| - 1] == s + q';
      TrimEndPadded(s, q');
    } else {
      assert s + q == s;
    }
  }

  lemma {:induction false} TrimBothPadded(s: string, q: string)
    requires AllSpace(q)
    ensures TrimEnd(TrimStart(s + q)) == TrimEnd(TrimStart(s))
    decreases |s|
  {
    if s == [] {
      assert s + q == q + [];
      TrimStartPadded(q, []);
    } else if IsSpace(s[0]) {
      assert (s + q)[1..] == s[1..] + q;
      TrimBothPadded(s[1..], q);
    } else {
      TrimEndPadded(s, q);
    }
  }

  /** White space around the text never changes what `int()` makes of it. */
  lemma ParseIntIgnoresPadding(p: string, s: string, q: string)
    requires AllSpace(p) && AllSpace(q)
    ensures ParseInt(p + s + q) == ParseInt(s)
  {
    assert p + s + q == p + (s + q);
    TrimStartPadded(p, s + q);
    TrimBothPadded(s, q);
  }

  /** A leading zero adds nothing to the value of a run of digits. */
  lemma {:induction false} DigitsValueLeadingZero(t: string)
    requires AllDigits(t)
    ensures AllDigits("0" + t) && DigitsValue("0" + t) == DigitsValue(t)
    decreases |t|
  {
    if t != [] {
      var init := t[..|t| - 1];
      DigitsValueLeadingZero(init);
      assert ("0" + t)[..|"0" + t| - 1] == "0" + init;
    }
  }

  lemma UnsignedNumeral(t: string)
    requires AllDigits(t) && 0 < |t| <= MaxStrDigits
    ensures ParseInt(t) == Some(DigitsValue(t))
  {
    assert IsDigit(t[0]) && IsDigit(t[|t| - 1]);
    TrimKeepsUnpadded(t);
    assert ParseInt(t) == ParseNumeral(t);
  }

  lemma SignedNumeral(sign: char, t: string)
    requires sign == '-' || sign == '+'
    requires AllDigits(t) && 0 < |t| <= MaxStrDigits
    ensures ParseInt([sign] + t) == Some(if sign == '-' then -(DigitsValue(t) as int) else DigitsValue(t) as int)
  {
    var s := [sign] + t;
    assert IsDigit(t[|t| - 1]) && s[|s| - 1] == t[|t| - 1];
    TrimKeepsUnpadded(s);
    assert ParseInt(s) == ParseNumeral(s);
    assert s[1..] == t;
  }

  lemma PlusSign(t: string)
    requires AllDigits(t) && 0 < |t| <= MaxStrDigits
    ensures ParseInt("+" + t) == ParseInt(t)
  {
    UnsignedNumeral(t);
    SignedNumeral('+', t);
  }

  lemma MinusSign(t: string)
    requires AllDigits(t) && 0 < |t| <= MaxStrDigits
    ensures ParseInt(t).Some? && ParseInt("-" + t) == Some(-ParseInt(t).value)
  {
    UnsignedNumeral(t);
    SignedNumeral('-', t);
  }

  lemma LeadingZero(t: string)
    requires AllDigits(t) && 0 < |t| < MaxStrDigits
    ensures ParseInt("0" + t) == ParseInt(t)
  {
    DigitsValueLeadingZero(t);
    UnsignedNumeral(t);
    UnsignedNumeral("0" + t);
  }

  lemma MinusLeadingZero(t: string)
    requires AllDigits(t) && 0 < |t| < MaxStrDigits
    ensures ParseInt("-0" + t) == ParseInt("-" + t)
  {
    DigitsValueLeadingZero(t);
    SignedNumeral('-', t);
    SignedNumeral('-', "0" + t);
    assert "-0" + t == ['-'] + ("0" + t);
  }

  /** A `+` sign and leading zeros do not change what `int()` gives, and `-`
      negates the value of the digits, so `"+50"`, `"050"` and `"50"` are all
      50 and `"-007"` is -7. */
  lemma ParseIntSignAndZeros(t: string)
    requires AllDigits(t) && 0 < |t| < MaxStrDigits
    ensures ParseInt(t).Some?
    ensures ParseInt("+" + t) == ParseInt(t)
    ensures ParseInt("0" + t) == ParseInt(t)
    ensures ParseInt("-" + t) == Some(-ParseInt(t).value)
    ensures ParseInt("-0" + t) == ParseInt("-" + t)
  {
    PlusSign(t);
    MinusSign(t);
    LeadingZero(t);
    MinusLeadingZero(t);
  }
}
