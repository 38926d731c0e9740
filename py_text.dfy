/** The few pieces of Python's text handling that the scripts rely on:
    `str.isdigit`, `int(...)` and `float(...)` on strings, `str.lower` and
    the substring test `x in s`, each over a restricted, stated grammar. */
module PyText {
  import opened Wrappers

  predicate IsDigit(c: char) { '0' <= c <= '9' }

  /** Every character is a decimal digit (the empty string qualifies). */
  predicate AllDigits(s: string) { forall i :: 0 <= i < |s| ==> IsDigit(s[i]) }

  /** `s.isdigit()`: at least one character, all of them digits. */
  predicate IsDigitString(s: string) { |s| > 0 && AllDigits(s) }

  function Pow10(k: nat): (p: nat)
    ensures p >= 1
  {
    if k == 0 then 1 else 10 * Pow10(k - 1)
  }

  /** The value of a digit string read in base ten; leading zeros allowed. */
  function DigitsValue(s: string): (v: nat)
    requires AllDigits(s)
  {
    if s == [] then 0
    else DigitsValue(s[..|s| - 1]) * 10 + ((s[|s| - 1] as int) - ('0' as int))
  }

  /** Python's `str(n)` for a natural number. */
  function Show(n: nat): (s: string)
    ensures IsDigitString(s)
    decreases n
  {
    if n < 10 then [('0' as int + n) as char]
    else Show(n / 10) + [('0' as int + n % 10) as char]
  }

  /** Reading back what `Show` wrote gives the number again. */
  lemma {:induction false} ShowValue(n: nat)
    ensures DigitsValue(Show(n)) == n
    decreases n
  {
    if n >= 10 {
      var s := Show(n);
      assert s[..|s| - 1] == Show(n / 10);
      ShowValue(n / 10);
    }
  }

  /** Splits a leading `+` or `-` off `s`: whether it was `-`, and the rest. */
  function SplitSign(s: string): (r: (bool, string))
    ensures |r.1| <= |s|
  {
    if |s| > 0 && s[0] == '-' then (true, s[1..])
    else if |s| > 0 && s[0] == '+' then (false, s[1..])
    else (false, s)
  }

  /** Python's `int(s)` on a string: an optional sign and one or more digits.
      `None` stands for the `ValueError` Python raises on anything else. */
  function ParseInt(s: string): (r: Option<int>)
    ensures r.Some? <==> IsDigitString(SplitSign(s).1)
  {
    var (negative, body) := SplitSign(s);
    if !IsDigitString(body) then None
    else if negative then Some(-(DigitsValue(body) as int))
    else Some(DigitsValue(body))
  }

  /** The first index of `c` in `s`, or `|s|` when `c` does not occur. */
  function IndexOf(s: string, c: char): (i: nat)
    ensures i <= |s|
    ensures forall j :: 0 <= j < i ==> s[j] != c
    ensures i < |s| ==> s[i] == c
  {
    if s == [] then 0
    else if s[0] == c then 0
    else 1 + IndexOf(s[1..], c)
  }

  /** The value of decimal digits `w.f`: the whole part plus the fraction
      scaled by the number of fractional digits. */
  function DecimalValue(w: string, f: string): (v: real)
    requires AllDigits(w) && AllDigits(f)
    ensures v >= 0.0
  {
    DigitsValue(w) as real + DigitsValue(f) as real / Pow10(|f|) as real
  }

  /** Unsigned decimal notation: digits with an optional fractional part
      (`12`, `12.`, `12.5`, `.5`), read exactly. */
  function UnsignedDecimal(body: string): (r: Option<real>)
  {
    var dot := IndexOf(body, '.');
    var whole := body[..dot];
    var frac := if dot < |body| then body[dot + 1..] else [];
    if AllDigits(whole) && AllDigits(frac) && |whole| + |frac| > 0 && '.' !in frac then
      Some(DecimalValue(whole, frac))
    else None
  }

  /** Python's `float(s)` over decimal notation only: an optional sign, then
      unsigned decimal notation. `None` stands for the `ValueError` Python
      raises on anything else. */
  function ParseDecimal(s: string): (r: Option<real>)
  {
    var (negative, body) := SplitSign(s);
    match UnsignedDecimal(body)
    case None => None
    case Some(v) => if negative then Some(-v) else Some(v)
  }

  lemma ShowHasNoSign(n: nat)
    ensures SplitSign(Show(n)) == (false, Show(n))
    ensures '.' !in Show(n) && ':' !in Show(n)
  {
    assert IsDigit(Show(n)[0]);
  }

  /** `int(str(n))` and `int("-" + str(n))` give the number back. */
  lemma ParseIntShow(n: nat)
    ensures ParseInt(Show(n)) == Some(n)
    ensures ParseInt("-" + Show(n)) == Some(-(n as int))
  {
    ShowHasNoSign(n);
    ShowValue(n);
    assert ("-" + Show(n))[1..] == Show(n);
  }

  /** `float(w + "." + f)` for digit strings: the whole part plus the
      fraction scaled by the number of fractional digits. */
  lemma ParseDecimalParts(w: string, f: string)
    requires IsDigitString(w) && AllDigits(f)
    ensures ParseDecimal(w + "." + f)
         == Some(DecimalValue(w, f))
  {
    var s := w + "." + f;
    assert SplitSign(s) == (false, s) by { assert s[0] == w[0]; assert IsDigit(w[0]); }
    DotSplit(w, f);
    var dot := IndexOf(s, '.');
    assert dot < |s|;
    var whole, frac := s[..dot], s[dot + 1..];
    assert whole == w && frac == f;
    assert UnsignedDecimal(s) == Some(DecimalValue(w, f));
  }

  /** The unsigned reading of `w + "." + f` splits at the dot between them. */
  lemma DotSplit(w: string, f: string)
    requires AllDigits(w) && AllDigits(f)
    ensures var s := w + "." + f;
      IndexOf(s, '.') == |w| && s[..|w|] == w && s[|w| + 1..] == f && '.' !in f
  {
    var s := w + "." + f;
    assert s[|w|] == '.';
    assert forall j :: 0 <= j < |w| ==> s[j] == w[j];
    assert forall j :: 0 <= j < |w| ==> IsDigit(w[j]);
    assert s[..|w|] == w;
    assert s[|w| + 1..] == f;
    assert forall j :: 0 <= j < |f| ==> IsDigit(f[j]);
  }

  /** `str.lower` restricted to ASCII letters. */
  function LowerChar(c: char): (d: char)
    ensures 'A' <= c <= 'Z' ==> 'a' <= d <= 'z' && d as int == c as int + 32
    ensures !('A' <= c <= 'Z') ==> d == c
  {
    if 'A' <= c <= 'Z' then (c as int - 'A' as int + 'a' as int) as char else c
  }

  function Lower(s: string): (r: string)
    ensures |r| == |s|
    ensures forall i :: 0 <= i < |s| ==> r[i] == LowerChar(s[i])
  {
    seq(|s|, i requires 0 <= i < |s| => LowerChar(s[i]))
  }

  /** Python's `needle in hay` on strings, scanning from the left. */
  function Contains(hay: string, needle: string): bool
    decreases |hay|
  {
    if |hay| < |needle| then false
    else hay[..|needle|] == needle || Contains(hay[1..], needle)
  }

  /** `needle` sits in `hay` at offset `i`. */
  ghost predicate OccursAt(hay: string, needle: string, i: int)
  {
    0 <= i && i + |needle| <= |hay| && hay[i..i + |needle|] == needle
  }

  /** The scan of `Contains` finds `needle` exactly when it occurs somewhere. */
  lemma {:induction false} ContainsIff(hay: string, needle: string)
    ensures Contains(hay, needle) <==> exists i :: OccursAt(hay, needle, i)
    decreases |hay|
  {
    if |hay| < |needle| {
      assert forall i :: !OccursAt(hay, needle, i);
    } else if hay[..|needle|] == needle {
      assert OccursAt(hay, needle, 0);
    } else {
      ContainsIff(hay[1..], needle);
      if Contains(hay[1..], needle) {
        var i :| OccursAt(hay[1..], needle, i);
        assert hay[i + 1..i + 1 + |needle|] == hay[1..][i..i + |needle|];
        assert OccursAt(hay, needle, i + 1);
      }
      if exists i :: OccursAt(hay, needle, i) {
        var i :| OccursAt(hay, needle, i);
        assert i != 0;
        assert hay[1..][i - 1..i - 1 + |needle|] == hay[i..i + |needle|];
        assert OccursAt(hay[1..], needle, i - 1);
      }
    }
  }
}
