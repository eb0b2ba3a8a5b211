/**
 * Amount normalisation: `to_num`, which turns one raw table cell into an
 * amount of won and never fails.  A missing cell is 0; anything else is
 * printed as text, stripped of thousands separators, the won sign and
 * spaces, trimmed, and parsed; text that does not parse is 0.
 */
module Amount {
  import opened Wrappers

  /** A raw cell as the CSV reader hands it over: empty (NaN), text, or a number. */
  datatype Cell = Missing | Text(s: string) | Num(n: int)

  /** The characters `to_num` deletes wherever they occur. */
  predicate IsNoise(c: char) {
    c == ',' || c == '원' || c == ' '
  }

  /** Python's whitespace (`str.isspace`), which `str.strip()` trims from both ends. */
  predicate IsSpace(c: char) {
    || ('\t' <= c <= '\r')
    || ('\U{1C}' <= c <= ' ')
    || c == '\U{85}' || c == '\U{A0}' || c == '\U{1680}'
    || ('\U{2000}' <= c <= '\U{200A}')
    || c == '\U{2028}' || c == '\U{2029}' || c == '\U{202F}' || c == '\U{205F}'
    || c == '\U{3000}'
  }

  predicate IsDigit(c: char) {
    '0' <= c <= '9'
  }

  predicate AllDigits(s: string) {
    forall i :: 0 <= i < |s| ==> IsDigit(s[i])
  }

  /** `s` with every noise character deleted and every other character kept, in order. */
  function RemoveNoise(s: string): (r: string)
    ensures |r| <= |s|
  {
    if s == [] then []
    else if IsNoise(s[0]) then RemoveNoise(s[1..])
    else [s[0]] + RemoveNoise(s[1..])
  }

  /** Every separator, won sign and space is gone after RemoveNoise. */
  lemma {:induction false} RemoveNoiseSpec(s: string)
    ensures forall i :: 0 <= i < |RemoveNoise(s)| ==> !IsNoise(RemoveNoise(s)[i])
  {
    if s != [] {
      RemoveNoiseSpec(s[1..]);
    }
  }

  /** `s` without its leading whitespace. */
  function TrimStart(s: string): (r: string)
    ensures |r| <= |s|
  {
    if s != [] && IsSpace(s[0]) then TrimStart(s[1..]) else s
  }

  /** `s` without its trailing whitespace. */
  function TrimEnd(s: string): (r: string)
    ensures |r| <= |s|
  {
    if s != [] && IsSpace(s[|s| - 1]) then TrimEnd(s[..|s| - 1]) else s
  }

  /** TrimStart drops exactly the leading run of whitespace. */
  lemma {:induction false} TrimStartSpec(s: string)
    ensures TrimStart(s) == s[|s| - |TrimStart(s)|..]
    ensures forall i :: 0 <= i < |s| - |TrimStart(s)| ==> IsSpace(s[i])
    ensures TrimStart(s) != [] ==> !IsSpace(TrimStart(s)[0])
  {
    if s != [] && IsSpace(s[0]) {
      TrimStartSpec(s[1..]);
    }
  }

  /** TrimEnd drops exactly the trailing run of whitespace. */
  lemma {:induction false} TrimEndSpec(s: string)
    ensures TrimEnd(s) == s[..|TrimEnd(s)|]
    ensures forall i :: |TrimEnd(s)| <= i < |s| ==> IsSpace(s[i])
    ensures TrimEnd(s) != [] ==> !IsSpace(TrimEnd(s)[|TrimEnd(s)| - 1])
  {
    if s != [] && IsSpace(s[|s| - 1]) {
      TrimEndSpec(s[..|s| - 1]);
    }
  }

  /** The text `to_num` hands to the parser: noise removed, then trimmed at both ends. */
  function Clean(s: string): string {
    TrimEnd(TrimStart(RemoveNoise(s)))
  }

  /**
   * What `to_num` parses has no separator, won sign or space anywhere and no
   * other whitespace at either end.
   */
  lemma CleanSpec(s: string)
    ensures |Clean(s)| <= |s|
    ensures forall i :: 0 <= i < |Clean(s)| ==> !IsNoise(Clean(s)[i])
    ensures Clean(s) != [] ==> !IsSpace(Clean(s)[0]) && !IsSpace(Clean(s)[|Clean(s)| - 1])
  {
    var removed := RemoveNoise(s);
    var left := TrimStart(removed);
    RemoveNoiseSpec(s);
    TrimStartSpec(removed);
    TrimEndSpec(left);
    var r := TrimEnd(left);
    assert forall i :: 0 <= i < |r| ==> r[i] == removed[|removed| - |left| + i];
  }

  /** Value of a string of decimal digits, most significant first. */
  function DigitsValue(s: string): nat
    requires AllDigits(s)
  {
    if s == [] then 0 else 10 * DigitsValue(s[..|s| - 1]) + (s[|s| - 1] as int - '0' as int)
  }

  /**
   * The number a cleaned string spells: an optional sign followed by one or
   * more decimal digits.  Anything else does not parse.
   */
  function ParseInteger(t: string): Option<int> {
    if |t| > 1 && (t[0] == '+' || t[0] == '-') && AllDigits(t[1..]) then
      var v: int := DigitsValue(t[1..]);
      Some(if t[0] == '-' then -v else v)
    else if |t| > 0 && AllDigits(t) then
      Some(DigitsValue(t))
    else
      None
  }

  /** The parse with its fallback: text that does not parse counts as 0. */
  function ParseOrZero(t: string): int {
    match ParseInteger(t)
    case Some(v) => v
    case None => 0
  }

  function DigitChar(d: nat): (c: char)
    requires d < 10
    ensures IsDigit(c) && c as int - '0' as int == d
  {
    ('0' as int + d) as char
  }

  /** Decimal text of a natural number, as `str` prints it. */
  function ShowNat(n: nat): (s: string)
    ensures |s| > 0 && AllDigits(s)
  {
    if n < 10 then [DigitChar(n)] else ShowNat(n / 10) + [DigitChar(n % 10)]
  }

  /** Decimal text of an integer, as `str` prints it: a minus sign, then the digits. */
  function ShowInt(n: int): string {
    if n < 0 then "-" + ShowNat(-n) else ShowNat(n)
  }

  /** `to_num`: the amount in a cell, 0 when the cell is missing or does not parse. */
  function ToNum(c: Cell): (r: int)
    ensures c.Missing? ==> r == 0
    ensures c.Num? ==> r == c.n
  {
    match c
    case Missing => 0
    case Text(s) => ParseOrZero(Clean(s))
    case Num(n) =>
      ShowIntRoundTrip(n);
      ParseOrZero(Clean(ShowInt(n)))
  }

  lemma {:induction false} DigitsOfShowNat(n: nat)
    ensures DigitsValue(ShowNat(n)) == n
  {
    if n >= 10 {
      var s := ShowNat(n);
      assert s[..|s| - 1] == ShowNat(n / 10);
      DigitsOfShowNat(n / 10);
    }
  }

  /** Printed numbers hold only a sign and digits, and begin and end with no whitespace. */
  lemma ShowIntShape(n: int)
    ensures ShowInt(n) != []
    ensures forall i :: 0 <= i < |ShowInt(n)| ==> !IsNoise(ShowInt(n)[i])
    ensures !IsSpace(ShowInt(n)[0]) && !IsSpace(ShowInt(n)[|ShowInt(n)| - 1])
  {
    var s := ShowInt(n);
    var d := if n < 0 then ShowNat(-n) else ShowNat(n);
    assert forall i :: 0 <= i < |s| ==> s[i] == '-' || IsDigit(s[i]) by {
      if n < 0 {
        assert forall i :: 1 <= i < |s| ==> s[i] == d[i - 1];
      }
    }
    assert IsDigit(s[|s| - 1]);
  }

  lemma {:induction false} RemoveNoiseKeeps(s: string)
    requires forall i :: 0 <= i < |s| ==> !IsNoise(s[i])
    ensures RemoveNoise(s) == s
  {
    if s != [] {
      RemoveNoiseKeeps(s[1..]);
    }
  }

  lemma CleanShowInt(n: int)
    ensures Clean(ShowInt(n)) == ShowInt(n)
  {
    var s := ShowInt(n);
    ShowIntShape(n);
    RemoveNoiseKeeps(s);
    assert TrimStart(s) == s;
    assert TrimEnd(s) == s;
  }

  lemma ParseShowInt(n: int)
    ensures ParseInteger(ShowInt(n)) == Some(n)
  {
    var s := ShowInt(n);
    if n < 0 {
      assert s[1..] == ShowNat(-n);
      DigitsOfShowNat(-n);
    } else {
      DigitsOfShowNat(n);
    }
  }

  /** Printing a number and cleaning and parsing the text gives the number back. */
  lemma ShowIntRoundTrip(n: int)
    ensures Clean(ShowInt(n)) == ShowInt(n)
    ensures ParseInteger(ShowInt(n)) == Some(n)
  {
    CleanShowInt(n);
    ParseShowInt(n);
  }

  lemma {:induction false} RemoveNoiseAppend(a: string, b: string)
    ensures RemoveNoise(a + b) == RemoveNoise(a) + RemoveNoise(b)
  {
    if a == [] {
      assert a + b == b;
    } else {
      assert (a + b)[0] == a[0];
      assert (a + b)[1..] == a[1..] + b;
      RemoveNoiseAppend(a[1..], b);
    }
  }

  /** Deleting one separator, won sign or space anywhere in a text cell does not change its amount. */
  lemma NoiseInsensitive(a: string, c: char, b: string)
    requires IsNoise(c)
    ensures ToNum(Text(a + [c] + b)) == ToNum(Text(a + b))
  {
    assert RemoveNoise(a + [c] + b) == RemoveNoise(a + b) by {
      RemoveNoiseAppend(a + [c], b);
      RemoveNoiseAppend(a, [c]);
      RemoveNoiseAppend(a, b);
      assert RemoveNoise([c]) == [];
      assert RemoveNoise(a) + [] == RemoveNoise(a);
    }
    assert Clean(a + [c] + b) == Clean(a + b);
  }

  lemma {:induction false} TrimStartSkips(w: string, x: string)
    requires forall i :: 0 <= i < |w| ==> IsSpace(w[i])
    requires x != [] && !IsSpace(x[0])
    ensures TrimStart(w + x) == x
  {
    if w != [] {
      assert (w + x)[1..] == w[1..] + x;
      TrimStartSkips(w[1..], x);
    }
  }

  lemma {:induction false} TrimEndSkips(x: string, w: string)
    requires forall i :: 0 <= i < |w| ==> IsSpace(w[i])
    requires x != [] && !IsSpace(x[|x| - 1])
    ensures TrimEnd(x + w) == x
  {
    if w != [] {
      assert (x + w)[..|x + w| - 1] == x + w[..|w| - 1];
      TrimEndSkips(x, w[..|w| - 1]);
    }
  }

  /** Only spaces and noise remain of a padding once the noise is removed. */
  lemma {:induction false} PaddingCleansToSpace(w: string)
    requires forall i :: 0 <= i < |w| ==> IsNoise(w[i]) || IsSpace(w[i])
    ensures forall i :: 0 <= i < |RemoveNoise(w)| ==> IsSpace(RemoveNoise(w)[i])
  {
    if w != [] {
      PaddingCleansToSpace(w[1..]);
    }
  }

  /**
   * A number printed with any mix of whitespace, separators and won signs
   * before and after it reads back as that number: `" 500 "` gives 500 and
   * `"1234567원"` gives 1234567.
   */
  lemma PaddedNumber(pre: string, n: int, post: string)
    requires forall i :: 0 <= i < |pre| ==> IsNoise(pre[i]) || IsSpace(pre[i])
    requires forall i :: 0 <= i < |post| ==> IsNoise(post[i]) || IsSpace(post[i])
    ensures ToNum(Text(pre + ShowInt(n) + post)) == n
  {
    CleanPadded(pre, n, post);
    ParseShowInt(n);
  }

  lemma CleanPadded(pre: string, n: int, post: string)
    requires forall i :: 0 <= i < |pre| ==> IsNoise(pre[i]) || IsSpace(pre[i])
    requires forall i :: 0 <= i < |post| ==> IsNoise(post[i]) || IsSpace(post[i])
    ensures Clean(pre + ShowInt(n) + post) == ShowInt(n)
  {
    var s := ShowInt(n);
    ShowIntShape(n);
    var p, q := RemoveNoise(pre), RemoveNoise(post);
    assert RemoveNoise(pre + s + post) == p + (s + q) by {
      RemoveNoiseKeeps(s);
      RemoveNoiseAppend(pre + s, post);
      RemoveNoiseAppend(pre, s);
    }
    PaddingCleansToSpace(pre);
    PaddingCleansToSpace(post);
    TrimPadding(p, s, q);
  }

  lemma TrimPadding(p: string, s: string, q: string)
    requires forall i :: 0 <= i < |p| ==> IsSpace(p[i])
    requires forall i :: 0 <= i < |q| ==> IsSpace(q[i])
    requires s != [] && !IsSpace(s[0]) && !IsSpace(s[|s| - 1])
    ensures TrimEnd(TrimStart(p + (s + q))) == s
  {
    TrimStartSkips(p, s + q);
    TrimEndSkips(s, q);
  }

  lemma {:induction false} RemoveNoiseAddsNoDigit(s: string)
    requires forall i :: 0 <= i < |s| ==> !IsDigit(s[i])
    ensures forall i :: 0 <= i < |RemoveNoise(s)| ==> !IsDigit(RemoveNoise(s)[i])
  {
    if s != [] {
      RemoveNoiseAddsNoDigit(s[1..]);
    }
  }

  /** Text without a single decimal digit in it never parses, so it counts as 0. */
  lemma NoDigitsIsZero(s: string)
    requires forall i :: 0 <= i < |s| ==> !IsDigit(s[i])
    ensures ToNum(Text(s)) == 0
  {
    var removed := RemoveNoise(s);
    RemoveNoiseAddsNoDigit(s);
    var left := TrimStart(removed);
    var t := TrimEnd(left);
    TrimStartSpec(removed);
    TrimEndSpec(left);
    if |t| > 0 {
      assert t[|t| - 1] == removed[|removed| - |left| + |t| - 1];
    }
  }

  lemma ShowSevenDigits()
    ensures ShowInt(1234567) == "1234567"
  {
    assert ShowNat(12) == ShowNat(1) + "2";
    assert ShowNat(123) == ShowNat(12) + "3";
    assert ShowNat(1234) == ShowNat(123) + "4";
    assert ShowNat(12345) == ShowNat(1234) + "5";
    assert ShowNat(123456) == ShowNat(12345) + "6";
    assert ShowNat(1234567) == ShowNat(123456) + "7";
  }

  /** `"1,234,567원"` (written in three pieces) reads as 1234567. */
  lemma GroupedExample()
    ensures ToNum(Text("1," + "234," + "567원")) == 1234567
  {
    assert RemoveNoise("1," + "234," + "567원") == "1234567" by {
      assert RemoveNoise("1,") == "1";
      assert RemoveNoise("234,") == "234";
      assert RemoveNoise("567원") == "567";
      RemoveNoiseAppend("1,", "234,");
      RemoveNoiseAppend("1," + "234,", "567원");
    }
    assert TrimStart("1234567") == "1234567";
    assert TrimEnd("1234567") == "1234567";
    ShowSevenDigits();
    ParseShowInt(1234567);
  }

  /** `" 500 "` reads as 500; empty text reads as 0. */
  lemma PaddedExample()
    ensures ToNum(Text(" 500 ")) == 500
    ensures ToNum(Text("")) == 0
  {
    assert ShowNat(50) == ShowNat(5) + "0";
    assert ShowNat(500) == ShowNat(50) + "0";
    assert " 500 " == " " + ShowInt(500) + " ";
    PaddedNumber(" ", 500, " ");
    NoDigitsIsZero("");
  }
}
