/**
 * The text operations the bot applies to user input and to environment
 * variables: Python's str.strip(), str.replace(), str.split() and the
 * int() and float() conversions of a numeral, restricted to the decimal
 * notation (no exponent, no "inf"/"nan", no digit-group underscores).
 */
module Numerals {
  import opened Wrappers

  /** The ASCII whitespace that strip(), int() and float() discard. */
  predicate IsSpace(c: char) {
    c == ' ' || c == '\t' || c == '\n' || c == '\r' || c as int == 11 || c as int == 12 || 28 <= c as int <= 31
  }

  predicate AllSpace(s: string) {
    forall i :: 0 <= i < |s| ==> IsSpace(s[i])
  }

  /** Drops the leading whitespace: what is dropped is all whitespace, what is kept starts with a non-space. */
  function TrimLeft(s: string): (r: string)
    ensures |r| <= |s| && r == s[|s| - |r|..]
    ensures r == [] || !IsSpace(r[0])
    ensures AllSpace(s[..|s| - |r|])
    decreases |s|
  {
    if |s| > 0 && IsSpace(s[0]) then
      var r := TrimLeft(s[1..]);
      TrimLeftStep(s, r);
      r
    else s
  }

  lemma TrimLeftStep(s: string, r: string)
    requires |s| > 0 && IsSpace(s[0]) && |r| <= |s| - 1 && AllSpace(s[1..][..|s| - 1 - |r|])
    ensures AllSpace(s[..|s| - |r|])
  {
    var dropped := s[..|s| - |r|];
    forall i | 0 <= i < |dropped| ensures IsSpace(dropped[i]) {
      if i > 0 {
        assert dropped[i] == s[1..][..|s| - 1 - |r|][i - 1];
      }
    }
  }

  /** Drops the trailing whitespace: what is dropped is all whitespace, what is kept ends with a non-space. */
  function TrimRight(s: string): (r: string)
    ensures |r| <= |s| && r == s[..|r|]
    ensures r == [] || !IsSpace(r[|r| - 1])
    ensures AllSpace(s[|r|..])
    decreases |s|
  {
    if |s| > 0 && IsSpace(s[|s| - 1]) then
      var r := TrimRight(s[..|s| - 1]);
      TrimRightStep(s, r);
      r
    else s
  }

  lemma TrimRightStep(s: string, r: string)
    requires |s| > 0 && IsSpace(s[|s| - 1]) && |r| <= |s| - 1 && AllSpace(s[..|s| - 1][|r|..])
    ensures AllSpace(s[|r|..])
  {
    var dropped := s[|r|..];
    forall i | 0 <= i < |dropped| ensures IsSpace(dropped[i]) {
      if i < |s| - 1 - |r| {
        assert dropped[i] == s[..|s| - 1][|r|..][i];
      }
    }
  }

  /** str.strip() with no argument. */
  function Strip(s: string): string {
    TrimRight(TrimLeft(s))
  }

  /** No whitespace at either end of the text. */
  predicate Unpadded(s: string) {
    s == [] || (!IsSpace(s[0]) && !IsSpace(s[|s| - 1]))
  }

  lemma {:induction false} TrimLeftPadded(pre: string, s: string)
    requires AllSpace(pre) && (s == [] || !IsSpace(s[0]))
    ensures TrimLeft(pre + s) == s
    decreases |pre|
  {
    if pre != [] {
      assert (pre + s)[1..] == pre[1..] + s;
      TrimLeftPadded(pre[1..], s);
    } else {
      assert pre + s == s;
    }
  }

  lemma {:induction false} TrimRightPadded(s: string, post: string)
    requires AllSpace(post) && (s == [] || !IsSpace(s[|s| - 1]))
    ensures TrimRight(s + post) == s
    decreases |post|
  {
    if post != [] {
      assert (s + post)[..|s + post| - 1] == s + post[..|post| - 1];
      TrimRightPadded(s, post[..|post| - 1]);
    } else {
      assert s + post == s;
    }
  }

  /** Stripping removes exactly the whitespace padding around an unpadded core. */
  lemma StripPadded(pre: string, core: string, post: string)
    requires AllSpace(pre) && AllSpace(post) && Unpadded(core)
    ensures Strip(pre + core + post) == core
  {
    if core == [] {
      assert pre + core + post == pre + post;
      assert AllSpace(pre + post);
      TrimLeftPadded(pre + post, []);
      assert pre + post + [] == pre + post;
      assert Strip(pre + core + post) == TrimRight([]);
    } else {
      assert pre + core + post == pre + (core + post);
      TrimLeftPadded(pre, core + post);
      TrimRightPadded(core, post);
    }
  }

  /** Stripping removes only whitespace: any other character of the text survives it. */
  lemma StripKeeps(s: string, i: nat) returns (j: nat)
    requires i < |s| && !IsSpace(s[i])
    ensures j < |Strip(s)| && Strip(s)[j] == s[i]
  {
    var l := TrimLeft(s);
    var r := TrimRight(l);
    j := i - (|s| - |l|);
    assert l[j] == s[i];
    assert r[j] == s[i];
  }

  /** Stripped text has no padding left, so stripping twice is stripping once. */
  lemma StripIdempotent(s: string)
    ensures Unpadded(Strip(s)) && Strip(Strip(s)) == Strip(s)
  {
    var l := TrimLeft(s);
    var r := TrimRight(l);
    if r != [] {
      assert r[0] == l[0];
    }
    StripUnpadded(r);
  }

  /** str.replace(old, new) for one-character strings. */
  function ReplaceChar(s: string, from: char, to: char): (r: string)
    ensures |r| == |s|
    ensures forall i :: 0 <= i < |s| ==> r[i] == (if s[i] == from then to else s[i])
  {
    seq(|s|, i requires 0 <= i < |s| => if s[i] == from then to else s[i])
  }

  predicate IsDigit(c: char) { '0' <= c <= '9' }

  predicate AllDigits(s: string) {
    forall i :: 0 <= i < |s| ==> IsDigit(s[i])
  }

  function DigitValue(c: char): (d: nat)
    requires IsDigit(c)
    ensures d < 10
  {
    c as int - '0' as int
  }

  function DigitChar(d: nat): (c: char)
    requires d < 10
    ensures IsDigit(c) && DigitValue(c) == d
  {
    ('0' as int + d) as char
  }

  /** The value of a string of decimal digits, most significant first. */
  function DigitsValue(s: string): nat
    requires AllDigits(s)
    decreases |s|
  {
    if s == [] then 0 else 10 * DigitsValue(s[..|s| - 1]) + DigitValue(s[|s| - 1])
  }

  function Pow10(n: nat): (p: nat)
    ensures p >= 1
  {
    if n == 0 then 1 else 10 * Pow10(n - 1)
  }

  /** str() of a natural number: its decimal digits, which read back as the number. */
  function ShowNat(n: nat): (s: string)
    ensures s != [] && AllDigits(s)
    ensures DigitsValue(s) == n
    decreases n
  {
    if n < 10 then
      var s := [DigitChar(n)];
      assert s[..0] == [];
      s
    else
      var hi := ShowNat(n / 10);
      var s := hi + [DigitChar(n % 10)];
      assert s[..|s| - 1] == hi;
      s
  }

  /** str() of an integer: a minus sign before the digits of a negative number. */
  function ShowInt(n: int): string {
    if n < 0 then "-" + ShowNat(-n) else ShowNat(n)
  }

  /** An optional leading sign: whether it is a minus, and the rest of the text. */
  function SplitSign(t: string): (bool, string) {
    if |t| > 0 && (t[0] == '-' || t[0] == '+') then (t[0] == '-', t[1..]) else (false, t)
  }

  /** Python's int() of text: surrounding whitespace, an optional sign, then one or more decimal digits. */
  function ParseInt(s: string): Option<int> {
    var (negative, body) := SplitSign(Strip(s));
    if body != [] && AllDigits(body) then
      var magnitude: int := DigitsValue(body);
      Some(if negative then -magnitude else magnitude)
    else
      None
  }

  function IndexOf(s: string, c: char): (i: nat)
    requires c in s
    ensures i < |s| && s[i] == c && c !in s[..i]
  {
    if s[0] == c then 0 else
      var j := IndexOf(s[1..], c);
      assert s[..j + 1] == [s[0]] + s[1..][..j];
      j + 1
  }

  /** The number the digits around a decimal point spell. */
  function PointValue(whole: string, fraction: string): real
    requires AllDigits(whole) && AllDigits(fraction)
  {
    DigitsValue(whole) as real + DigitsValue(fraction) as real / Pow10(|fraction|) as real
  }

  /** An unsigned decimal: digits, or digits around one point with at least one digit overall. */
  function DecimalValue(body: string): Option<real> {
    if '.' in body then
      var i := IndexOf(body, '.');
      var whole, fraction := body[..i], body[i + 1..];
      if |whole| + |fraction| > 0 && AllDigits(whole) && AllDigits(fraction) then
        Some(PointValue(whole, fraction))
      else
        None
    else if body != [] && AllDigits(body) then
      Some(DigitsValue(body) as real)
    else
      None
  }

  /** Python's float() of text, restricted to decimal notation. */
  function ParseFloat(s: string): Option<real> {
    var (negative, body) := SplitSign(Strip(s));
    match DecimalValue(body)
    case None => None
    case Some(v) => Some(if negative then -v else v)
  }

  /** The price and rate inputs: a decimal comma is read as a point, the text stripped, then float(). */
  function ParseCommaDecimal(text: string): Option<real> {
    ParseFloat(Strip(ReplaceChar(text, ',', '.')))
  }

  /** Text that starts with a letter or a symbol other than a sign or a decimal mark is no number. */
  lemma LeadingSymbolNoNumber(s: string)
    requires |s| > 0 && !IsDigit(s[0]) && !IsSpace(s[0])
    requires s[0] != '+' && s[0] != '-' && s[0] != '.' && s[0] != ','
    ensures ParseCommaDecimal(s) == None
  {
    var r := ReplaceChar(s, ',', '.');
    assert r[0] == s[0];
    assert TrimLeft(r) == r;
    var t := Strip(r);
    assert t != [] && t[0] == r[0];
    StripIdempotent(r);
    assert SplitSign(t) == (false, t);
    if '.' in t {
      var i := IndexOf(t, '.');
      assert i > 0 && t[..i][0] == t[0];
    } else {
      assert !AllDigits(t);
    }
  }

  /** A price typed with a decimal comma, "1234,5", reads as the decimal 1234.5. */
  lemma CommaDecimal(whole: string, fraction: string)
    requires AllDigits(whole) && AllDigits(fraction) && |whole| + |fraction| > 0
    ensures ParseCommaDecimal(whole + [','] + fraction)
      == Some(PointValue(whole, fraction))
  {
    var t := whole + ['.'] + fraction;
    CommaBecomesPoint(whole, fraction);
    assert !IsSpace(t[0]) && t[0] != '-' && t[0] != '+' by {
      if |whole| > 0 { assert t[0] == whole[0]; }
    }
    assert !IsSpace(t[|t| - 1]) by {
      if |fraction| > 0 { assert t[|t| - 1] == fraction[|fraction| - 1]; }
    }
    StripUnpadded(t);
    assert SplitSign(t) == (false, t);
    PointDecimal(whole, fraction);
  }

  lemma CommaBecomesPoint(whole: string, fraction: string)
    requires AllDigits(whole) && AllDigits(fraction)
    ensures ReplaceChar(whole + [','] + fraction, ',', '.') == whole + ['.'] + fraction
  {
    var s := whole + [','] + fraction;
    var t := whole + ['.'] + fraction;
    forall i | 0 <= i < |s| ensures ReplaceChar(s, ',', '.')[i] == t[i] {
      if i < |whole| {
        assert s[i] == whole[i] && t[i] == whole[i];
      } else if i > |whole| {
        assert s[i] == fraction[i - |whole| - 1] && t[i] == fraction[i - |whole| - 1];
      }
    }
  }

  lemma PointDecimal(whole: string, fraction: string)
    requires AllDigits(whole) && AllDigits(fraction) && |whole| + |fraction| > 0
    ensures DecimalValue(whole + ['.'] + fraction)
      == Some(PointValue(whole, fraction))
  {
    var t := whole + ['.'] + fraction;
    FirstPoint(whole, fraction);
    var w, f := t[..|whole|], t[|whole| + 1..];
    assert w == whole && f == fraction;
  }

  lemma FirstPoint(whole: string, fraction: string)
    requires AllDigits(whole)
    ensures '.' in whole + ['.'] + fraction
    ensures IndexOf(whole + ['.'] + fraction, '.') == |whole|
  {
    var t := whole + ['.'] + fraction;
    assert t[|whole|] == '.';
    var i := IndexOf(t, '.');
    assert t[i] == '.' && '.' !in t[..i];
  }

  lemma StripUnpadded(s: string)
    requires Unpadded(s)
    ensures Strip(s) == s
  {
    assert [] + s == s;
    TrimLeftPadded([], s);
    assert s + [] == s;
    TrimRightPadded(s, []);
  }

  /** Reading back what str() wrote gives the number: int(str(n)) == n. */
  lemma ParseShowInt(n: int)
    ensures ParseInt(ShowInt(n)) == Some(n)
  {
    var t := ShowInt(n);
    if n < 0 {
      var d := ShowNat(-n);
      assert t == ['-'] + d;
      assert !IsSpace(t[|t| - 1]) by { assert t[|t| - 1] == d[|d| - 1]; }
      StripUnpadded(t);
      assert t[1..] == d;
      assert SplitSign(t) == (true, d);
    } else {
      var d := ShowNat(n);
      assert !IsSpace(d[0]) && !IsSpace(d[|d| - 1]);
      StripUnpadded(d);
      assert SplitSign(d) == (false, d);
    }
  }

  /** Distinct integers print differently. */
  lemma ShowIntInjective()
    ensures forall m, n :: ShowInt(m) == ShowInt(n) ==> m == n
  {
    forall m, n | ShowInt(m) == ShowInt(n) ensures m == n {
      ParseShowInt(m);
      ParseShowInt(n);
    }
  }

  /** Whatever int() accepts, float() accepts with the same value. */
  lemma ParseIntIsFloat(s: string)
    requires ParseInt(s).Some?
    ensures ParseFloat(s) == Some(ParseInt(s).value as real)
  {
    var (negative, body) := SplitSign(Strip(s));
    assert forall i :: 0 <= i < |body| ==> body[i] != '.';
  }

  /** int() accepts only digits, signs and whitespace, so "1.6" or "1,6" is refused. */
  lemma ParseIntCharset(s: string)
    requires ParseInt(s).Some?
    ensures forall c :: c in s ==> IsDigit(c) || IsSpace(c) || c == '+' || c == '-'
  {
    forall c | c in s ensures IsDigit(c) || IsSpace(c) || c == '+' || c == '-' {
      var i :| 0 <= i < |s| && s[i] == c;
      if !IsSpace(c) {
        var j := StripKeeps(s, i);
        SignedDigitsAt(Strip(s), j);
      }
    }
  }

  /** Every character of a sign followed by digits is a digit or a sign. */
  lemma SignedDigitsAt(t: string, j: nat)
    requires j < |t| && AllDigits(SplitSign(t).1)
    ensures IsDigit(t[j]) || t[j] == '+' || t[j] == '-'
  {
    if !(t[0] == '-' || t[0] == '+') {
      assert SplitSign(t).1[j] == t[j];
    } else if j > 0 {
      assert SplitSign(t).1[j - 1] == t[j];
    }
  }

  /** Text holding a character that is no digit, whitespace or sign is no int(). */
  lemma ForeignCharNoInt(s: string, j: nat)
    requires j < |s| && !IsDigit(s[j]) && !IsSpace(s[j]) && s[j] != '+' && s[j] != '-'
    ensures ParseInt(s) == None
  {
    if ParseInt(s).Some? {
      ParseIntCharset(s);
    }
  }

  /** str.split(sep) for a one-character separator: always at least one part, no part holds the separator. */
  function SplitOn(s: string, sep: char): (parts: seq<string>)
    ensures |parts| >= 1
    ensures forall i :: 0 <= i < |parts| ==> sep !in parts[i]
    decreases |s|
  {
    if sep in s then
      var i := IndexOf(s, sep);
      [s[..i]] + SplitOn(s[i + 1..], sep)
    else
      [s]
  }

  /** sep.join(parts). */
  function Join(parts: seq<string>, sep: char): string
    decreases |parts|
  {
    if parts == [] then []
    else if |parts| == 1 then parts[0]
    else parts[0] + [sep] + Join(parts[1..], sep)
  }

  /** Joining the parts of a split gives back the text. */
  lemma {:induction false} JoinSplit(s: string, sep: char)
    ensures Join(SplitOn(s, sep), sep) == s
    decreases |s|
  {
    if sep in s {
      var i := IndexOf(s, sep);
      JoinSplit(s[i + 1..], sep);
      var rest := SplitOn(s[i + 1..], sep);
      SplitOnSep(s, sep);
      JoinCons(s[..i], rest, sep);
      assert s == s[..i] + [sep] + s[i + 1..];
    }
  }

  lemma SplitOnSep(s: string, sep: char)
    requires sep in s
    ensures SplitOn(s, sep) == [s[..IndexOf(s, sep)]] + SplitOn(s[IndexOf(s, sep) + 1..], sep)
  {
  }

  lemma JoinCons(first: string, rest: seq<string>, sep: char)
    requires |rest| >= 1
    ensures Join([first] + rest, sep) == first + [sep] + Join(rest, sep)
  {
    assert ([first] + rest)[1..] == rest;
  }

  /** Splitting a text made of two pieces around a separator splits each piece. */
  lemma {:induction false} SplitConcat(a: string, b: string, sep: char)
    ensures SplitOn(a + [sep] + b, sep) == SplitOn(a, sep) + SplitOn(b, sep)
    decreases |a|, 1
  {
    if sep in a {
      SplitConcatInner(a, b, sep);
    } else {
      SplitFirstPiece(a, b, sep);
    }
  }

  lemma {:induction false} SplitConcatInner(a: string, b: string, sep: char)
    requires sep in a
    ensures SplitOn(a + [sep] + b, sep) == SplitOn(a, sep) + SplitOn(b, sep)
    decreases |a|, 0
  {
    var i := IndexOf(a, sep);
    var head, rest := a[..i], a[i + 1..];
    SplitConcatStep(a, b, sep, i);
    SplitConcat(rest, b, sep);
    SplitAt(a, sep, i);
    ConsAppend(head, SplitOn(rest, sep), SplitOn(b, sep));
  }

  lemma ConsAppend<T>(h: T, x: seq<T>, y: seq<T>)
    ensures [h] + (x + y) == [h] + x + y
  {
  }

  lemma SplitFirstPiece(a: string, b: string, sep: char)
    requires sep !in a
    ensures SplitOn(a + [sep] + b, sep) == SplitOn(a, sep) + SplitOn(b, sep)
  {
    var s := a + [sep] + b;
    assert s[..|a|] == a;
    assert s[|a| + 1..] == b;
    SplitAt(s, sep, |a|);
  }

  lemma SplitConcatStep(a: string, b: string, sep: char, i: nat)
    requires i < |a| && a[i] == sep && sep !in a[..i]
    ensures SplitOn(a + [sep] + b, sep) == [a[..i]] + SplitOn(a[i + 1..] + [sep] + b, sep)
  {
    var s := a + [sep] + b;
    assert s[..i] == a[..i];
    assert s[i + 1..] == a[i + 1..] + [sep] + b;
    SplitAt(s, sep, i);
  }

  /** The first separator cuts off the first part. */
  lemma SplitAt(s: string, sep: char, i: nat)
    requires i < |s| && s[i] == sep && sep !in s[..i]
    ensures SplitOn(s, sep) == [s[..i]] + SplitOn(s[i + 1..], sep)
  {
    IndexOfFirst(s, sep, i);
  }

  lemma IndexOfFirst(s: string, c: char, i: nat)
    requires i < |s| && s[i] == c && c !in s[..i]
    ensures IndexOf(s, c) == i
  {
    var j := IndexOf(s, c);
    forall k | 0 <= k < i ensures s[k] != c {
      assert s[..i][k] == s[k];
    }
    forall k | 0 <= k < j ensures s[k] != c {
      assert s[..j][k] == s[k];
    }
  }

  /** Splitting a join of separator-free parts gives back the parts. */
  lemma {:induction false} SplitJoin(parts: seq<string>, sep: char)
    requires |parts| >= 1
    requires forall i :: 0 <= i < |parts| ==> sep !in parts[i]
    ensures SplitOn(Join(parts, sep), sep) == parts
    decreases |parts|
  {
    if |parts| == 1 {
      assert sep !in parts[0];
    } else {
      var first, rest := parts[0], parts[1..];
      assert sep !in first;
      SplitJoin(rest, sep);
      SplitConcat(first, Join(rest, sep), sep);
      ConsRest(parts);
    }
  }

  lemma ConsRest<T>(s: seq<T>)
    requires |s| >= 1
    ensures [s[0]] + s[1..] == s
  {
  }
}
