/**
 * The parts of Python's `str` type that the benchmark runner relies on:
 * whitespace stripping, ASCII lower-casing, splitting on one separator or on
 * whitespace, substring search, character-set stripping and the code-point
 * ordering that `sorted` uses. Characters are Unicode scalar values; the
 * whitespace and case rules are restricted to ASCII.
 */
module Text {
  import opened Wrappers

  // ---------------------------------------------------------------------
  // Character classes

  /** `str.isspace()` on the ASCII whitespace characters. */
  predicate IsSpace(c: char) {
    c == ' ' || c == '\t' || c == '\n' || c == '\r' || c as int == 11 || c as int == 12
  }

  predicate IsDigit(c: char) {
    '0' <= c <= '9'
  }

  function LowerChar(c: char): char {
    if 'A' <= c <= 'Z' then (c as int + 32) as char else c
  }

  // ---------------------------------------------------------------------
  // Stripping

  /** `str.lstrip()`: drops leading whitespace, and only that. */
  function LStrip(s: string): (r: string)
    ensures |r| <= |s| && r == s[|s| - |r|..]
    ensures r == [] || !IsSpace(r[0])
    ensures forall i :: 0 <= i < |s| - |r| ==> IsSpace(s[i])
  {
    if s != [] && IsSpace(s[0]) then
      var r := LStrip(s[1..]);
      LStripStep(s, r);
      r
    else
      s
  }

  /** A suffix of `s[1..]` preceded by whitespace only is a suffix of `s` preceded by whitespace only. */
  lemma LStripStep(s: string, r: string)
    requires s != [] && IsSpace(s[0])
    requires |r| <= |s| - 1 && r == s[1..][|s| - 1 - |r|..]
    requires forall i :: 0 <= i < |s| - 1 - |r| ==> IsSpace(s[1..][i])
    ensures r == s[|s| - |r|..]
    ensures forall i :: 0 <= i < |s| - |r| ==> IsSpace(s[i])
  {
    assert s[1..][|s| - 1 - |r|..] == s[|s| - |r|..];
    forall i | 0 < i < |s| - |r|
      ensures IsSpace(s[i])
    {
      assert s[i] == s[1..][i - 1];
    }
  }

  /** Python truthiness of an `Optional[str]`: present and not empty. */
  predicate Present(s: Option<string>) {
    s.Some? && s.value != ""
  }

  /** `[l.strip() for l in lines]`: each line stripped, in order. */
  function StripAll(lines: seq<string>): (stripped: seq<string>)
    ensures |stripped| == |lines|
    ensures forall i :: 0 <= i < |lines| ==> stripped[i] == Strip(lines[i])
  {
    seq(|lines|, i requires 0 <= i < |lines| => Strip(lines[i]))
  }

  /** `str.rstrip()`: drops trailing whitespace, and only that. */
  function RStrip(s: string): (r: string)
    ensures |r| <= |s| && r == s[..|r|]
    ensures r == [] || !IsSpace(r[|r| - 1])
    ensures forall i :: |r| <= i < |s| ==> IsSpace(s[i])
  {
    if s != [] && IsSpace(s[|s| - 1]) then RStrip(s[..|s| - 1]) else s
  }

  /** `str.strip()`: the longest infix with no whitespace at either end. */
  function Strip(s: string): (r: string)
    ensures |r| <= |s|
    ensures r == [] || (!IsSpace(r[0]) && !IsSpace(r[|r| - 1]))
    ensures r == [] <==> forall i :: 0 <= i < |s| ==> IsSpace(s[i])
  {
    var l := LStrip(s);
    var r := RStrip(l);
    StripInfix(s, l, r);
    r
  }

  /** `s.strip()` is the infix of `s` after its leading whitespace, with only whitespace around it. */
  lemma StripInfixOf(s: string)
    ensures var i := |s| - |LStrip(s)|; InfixAt(s, i, Strip(s)) && StrippedAt(s, i, |Strip(s)|)
  {
    var l := LStrip(s);
    StripInfix(s, l, RStrip(l));
  }

  /** `RStrip(LStrip(s))` sits in `s` after the leading whitespace, with only whitespace around it. */
  lemma StripInfix(s: string, l: string, r: string)
    requires |l| <= |s| && l == s[|s| - |l|..] && forall j :: 0 <= j < |s| - |l| ==> IsSpace(s[j])
    requires l == [] || !IsSpace(l[0])
    requires |r| <= |l| && r == l[..|r|] && forall j :: |r| <= j < |l| ==> IsSpace(l[j])
    requires r == [] || !IsSpace(r[|r| - 1])
    ensures r == [] || (!IsSpace(r[0]) && !IsSpace(r[|r| - 1]))
    ensures r == [] <==> forall j :: 0 <= j < |s| ==> IsSpace(s[j])
    ensures var i := |s| - |l|; InfixAt(s, i, r) && StrippedAt(s, i, |r|)
  {
    var i := |s| - |l|;
    forall k | 0 <= k < |r|
      ensures r[k] == s[i + k]
    {
      assert r[k] == l[k];
    }
    forall j | i + |r| <= j < |s|
      ensures IsSpace(s[j])
    {
      assert s[j] == l[j - i];
    }
    if r != [] {
      assert r[0] == l[0];
      assert !IsSpace(s[i]);
    }
  }

  /** `r` occurs in `s` at index `i`. */
  predicate InfixAt(s: string, i: nat, r: string) {
    i + |r| <= |s| && forall k :: 0 <= k < |r| ==> r[k] == s[i + k]
  }

  /** Everything of `s` outside `s[i..i + n]` is whitespace. */
  predicate StrippedAt(s: string, i: nat, n: nat)
    requires i + n <= |s|
  {
    (forall j :: 0 <= j < i ==> IsSpace(s[j])) && (forall j :: i + n <= j < |s| ==> IsSpace(s[j]))
  }

  /** `str.rstrip(chars)`: drops the longest suffix made of characters of `cs`. */
  function RStripChars(s: string, cs: set<char>): (r: string)
    ensures |r| <= |s| && r == s[..|r|]
    ensures r == [] || r[|r| - 1] !in cs
    ensures forall i :: |r| <= i < |s| ==> s[i] in cs
  {
    if s != [] && s[|s| - 1] in cs then RStripChars(s[..|s| - 1], cs) else s
  }

  /** `str.lower()` on ASCII letters. */
  function Lower(s: string): (r: string)
    ensures |r| == |s|
    ensures forall i :: 0 <= i < |s| ==> r[i] == LowerChar(s[i])
  {
    seq(|s|, i requires 0 <= i < |s| => LowerChar(s[i]))
  }

  // ---------------------------------------------------------------------
  // Searching

  predicate StartsWith(s: string, prefix: string) {
    |prefix| <= |s| && s[..|prefix|] == prefix
  }

  /** `sub in s`: some suffix of `s` starts with `sub`. */
  predicate Contains(s: string, sub: string)
    decreases |s|
  {
    StartsWith(s, sub) || (s != [] && Contains(s[1..], sub))
  }

  /** `str.find(sub)`: the leftmost index where `sub` occurs, or -1. */
  function Find(s: string, sub: string): (k: int)
    ensures -1 <= k && (k >= 0 ==> k <= |s| - |sub|)
    ensures k >= 0 ==> StartsWith(s[k..], sub)
    ensures forall j :: 0 <= j < |s| && (k < 0 || j < k) ==> !StartsWith(s[j..], sub)
    ensures k < 0 ==> !StartsWith(s[|s|..], sub)
    decreases |s|
  {
    if StartsWith(s, sub) then 0
    else if s == [] then -1
    else
      var k := Find(s[1..], sub);
      assert forall j :: 1 <= j < |s| ==> s[j..] == s[1..][j - 1..];
      if k < 0 then -1 else k + 1
  }

  /** `str.replace(sub, "", 1)`: removes the leftmost occurrence of `sub`, if any. */
  function RemoveFirst(s: string, sub: string): (r: string)
    ensures Find(s, sub) < 0 ==> r == s
    ensures Find(s, sub) >= 0 ==>
              |r| + |sub| == |s| && r[..Find(s, sub)] + sub + r[Find(s, sub)..] == s
  {
    var k := Find(s, sub);
    if k < 0 then s
    else
      var r := s[..k] + s[k + |sub|..];
      CutOut(s, sub, k, r);
      r
  }

  /** Cutting `sub` out at `k` and putting it back gives `s` again. */
  lemma CutOut(s: string, sub: string, k: nat, r: string)
    requires k + |sub| <= |s| && StartsWith(s[k..], sub) && r == s[..k] + s[k + |sub|..]
    ensures |r| + |sub| == |s| && r[..k] + sub + r[k..] == s
  {
    assert r[..k] == s[..k];
    assert r[k..] == s[k + |sub|..];
    assert sub == s[k..k + |sub|] by {
      assert s[k..][..|sub|] == s[k..k + |sub|];
    }
    assert s == s[..k] + s[k..k + |sub|] + s[k + |sub|..];
  }

  /** The index of the first `c` in `s`. */
  function IndexOf(s: string, c: char): (k: nat)
    requires c in s
    ensures k < |s| && s[k] == c && c !in s[..k]
  {
    if s[0] == c then 0 else IndexOf(s[1..], c) + 1
  }

  // ---------------------------------------------------------------------
  // Splitting

  /** The inverse of `Split`: `sep.join(parts)`. */
  function Join(parts: seq<string>, sep: char): string {
    if |parts| <= 1 then (if parts == [] then "" else parts[0])
    else parts[0] + [sep] + Join(parts[1..], sep)
  }

  /** `str.split(sep)` for a one-character separator. */
  function Split(s: string, sep: char): (parts: seq<string>)
    ensures |parts| >= 1
    ensures forall i :: 0 <= i < |parts| ==> sep !in parts[i]
    ensures Join(parts, sep) == s
    decreases |s|
  {
    if sep !in s then [s]
    else
      var k := IndexOf(s, sep);
      var rest := Split(s[k + 1..], sep);
      assert s == s[..k] + [sep] + s[k + 1..];
      [s[..k]] + rest
  }

  /** The last field of `str.split(sep)`, that is `s.split(sep)[-1]`. */
  function LastField(s: string, sep: char): string {
    var parts := Split(s, sep);
    parts[|parts| - 1]
  }

  /** The first field of `str.split(sep)`, that is `s.split(sep)[0]`. */
  function FirstField(s: string, sep: char): string {
    Split(s, sep)[0]
  }

  /** The number of leading non-whitespace characters. */
  function WordLength(s: string): (k: nat)
    ensures k <= |s|
    ensures forall i :: 0 <= i < k ==> !IsSpace(s[i])
    ensures k < |s| ==> IsSpace(s[k])
  {
    if s == [] || IsSpace(s[0]) then 0 else WordLength(s[1..]) + 1
  }

  /**
   * `str.split()` with no argument: the maximal runs of non-whitespace, in
   * order. They are the non-empty fields of `split(" ")` once every
   * whitespace character is a space.
   */
  function Words(s: string): (ws: seq<string>)
    ensures AllWords(ws)
    ensures ws == NonEmptyParts(Split(Blanked(s), ' '))
    decreases |s|
  {
    var t := LStrip(s);
    var fields := NonEmptyParts(Split(Blanked(t), ' '));
    LeadingSpacesDropped(s);
    if t == [] then
      assert Split(Blanked(t), ' ') == [[]];
      assert fields == [];
      []
    else
      var k := WordLength(t);
      var rest := Words(t[k..]);
      WordThenRest(t, k);
      BlankedWord(t, k);
      AllWordsCons(t[..k], rest);
      var ws := [t[..k]] + rest;
      assert ws == fields;
      ws
  }

  predicate NoSpace(w: string) {
    forall i :: 0 <= i < |w| ==> !IsSpace(w[i])
  }

  /** Every element is a non-empty run of non-whitespace. */
  predicate AllWords(ws: seq<string>) {
    forall i :: 0 <= i < |ws| ==> ws[i] != [] && NoSpace(ws[i])
  }

  lemma AllWordsCons(w: string, ws: seq<string>)
    requires w != [] && NoSpace(w) && AllWords(ws)
    ensures AllWords([w] + ws)
  {
    assert forall i :: 1 <= i < |ws| + 1 ==> ([w] + ws)[i] == ws[i - 1];
  }

  /** Every whitespace character of `s` replaced by a space. */
  function Blanked(s: string): (t: string)
    ensures |t| == |s|
    ensures forall i :: 0 <= i < |s| ==> t[i] == (if IsSpace(s[i]) then ' ' else s[i])
  {
    seq(|s|, i requires 0 <= i < |s| => if IsSpace(s[i]) then ' ' else s[i])
  }

  /** `[p for p in parts if p]`. */
  function NonEmptyParts(parts: seq<string>): seq<string> {
    if parts == [] then []
    else (if parts[0] == [] then [] else [parts[0]]) + NonEmptyParts(parts[1..])
  }

  /** A leading separator splits off an empty field. */
  lemma SplitLeadingSeparator(u: string, sep: char)
    ensures Split([sep] + u, sep) == [""] + Split(u, sep)
  {
    var s := [sep] + u;
    assert IndexOf(s, sep) == 0;
    assert s[1..] == u;
  }

  /** A field without the separator, then the separator, splits off that field. */
  lemma SplitFirstField(w: string, u: string, sep: char)
    requires sep !in w
    ensures Split(w + [sep] + u, sep) == [w] + Split(u, sep)
  {
    var s := w + [sep] + u;
    IndexOfAfter(s, w, sep);
    assert s[..|w|] == w && s[|w| + 1..] == u;
  }

  lemma {:induction false} IndexOfAfter(s: string, w: string, c: char)
    requires |w| < |s| && s[..|w|] == w && c !in w && s[|w|] == c
    ensures c in s && IndexOf(s, c) == |w|
  {
    assert s[|w|] in s;
    if w != [] {
      assert s[0] == w[0];
      assert s[1..][..|w| - 1] == w[1..];
      IndexOfAfter(s[1..], w[1..], c);
    }
  }

  /** Dropping leading whitespace does not change the fields. */
  lemma {:induction false} LeadingSpacesDropped(s: string)
    ensures NonEmptyParts(Split(Blanked(s), ' ')) == NonEmptyParts(Split(Blanked(LStrip(s)), ' '))
    decreases |s|
  {
    if s != [] && IsSpace(s[0]) {
      BlankedSuffix(s, 1);
      var u := Blanked(s[1..]);
      assert Blanked(s) == [' '] + u;
      SplitLeadingSeparator(u, ' ');
      var parts := Split([' '] + u, ' ');
      assert parts[0] == [] && parts[1..] == Split(u, ' ');
      assert NonEmptyParts(parts) == NonEmptyParts(Split(u, ' '));
      LeadingSpacesDropped(s[1..]);
    }
  }

  lemma BlankedSuffix(s: string, n: nat)
    requires n <= |s|
    ensures Blanked(s)[n..] == Blanked(s[n..])
  {
    var a, b := Blanked(s)[n..], Blanked(s[n..]);
    assert |a| == |b|;
    forall i | 0 <= i < |a| ensures a[i] == b[i] {
      assert a[i] == Blanked(s)[n + i];
    }
  }

  /** A leading word of `t` is the first field, and the fields after it are those of the rest. */
  lemma WordThenRest(t: string, k: nat)
    requires t != [] && !IsSpace(t[0]) && k == WordLength(t)
    ensures [t[..k]] + NonEmptyParts(Split(Blanked(t[k..]), ' ')) == NonEmptyParts(Split(Blanked(t), ' '))
  {
    var b := Blanked(t);
    var w := t[..k];
    BlankedWord(t, k);
    BlankedSuffix(t, k);
    if k == |t| {
      assert b == w;
      assert Split(w, ' ') == [w];
      assert NonEmptyParts([w]) == [w];
      assert Blanked(t[k..]) == [];
      assert NonEmptyParts(Split([], ' ')) == [];
    } else {
      var u := Blanked(t[k + 1..]);
      BlankedAtSeparator(t, k);
      FieldThenRest(w, u);
    }
  }

  /** Blanking keeps a whitespace character at `k` as the one space between its two sides. */
  lemma BlankedAtSeparator(t: string, k: nat)
    requires k < |t| && IsSpace(t[k])
    ensures Blanked(t) == Blanked(t)[..k] + [' '] + Blanked(t[k + 1..])
    ensures Blanked(t[k..]) == [' '] + Blanked(t[k + 1..])
  {
    var b, u := Blanked(t), Blanked(t[k + 1..]);
    var whole := b[..k] + [' '] + u;
    assert |whole| == |b|;
    forall i | 0 <= i < |b|
      ensures b[i] == whole[i]
    {
      if i > k {
        assert t[k + 1..][i - k - 1] == t[i];
      }
    }
    var v := Blanked(t[k..]);
    assert |v| == |[' '] + u|;
    forall i | 0 <= i < |v|
      ensures v[i] == ([' '] + u)[i]
    {
      assert t[k..][i] == t[k + i];
      if i > 0 {
        assert t[k + 1..][i - 1] == t[k + i];
      }
    }
  }

  /** The leading word of `t` is left as it is by blanking and holds no space. */
  lemma BlankedWord(t: string, k: nat)
    requires k == WordLength(t)
    ensures Blanked(t)[..k] == t[..k] && ' ' !in t[..k] && NoSpace(t[..k])
  {
    var w := t[..k];
    forall i | 0 <= i < k ensures Blanked(t)[..k][i] == w[i] && w[i] != ' ' && !IsSpace(w[i]) {
      assert !IsSpace(t[i]);
    }
  }

  /** The non-empty fields of "<w> <u>" are `w` and then those of `u`. */
  lemma FieldThenRest(w: string, u: string)
    requires w != [] && ' ' !in w
    ensures NonEmptyParts(Split(w + [' '] + u, ' ')) == [w] + NonEmptyParts(Split([' '] + u, ' '))
  {
    SplitFirstField(w, u, ' ');
    SplitLeadingSeparator(u, ' ');
    var parts := Split(w + [' '] + u, ' ');
    assert parts[0] == w && parts[1..] == Split(u, ' ');
    var parts' := Split([' '] + u, ' ');
    assert parts'[0] == [] && parts'[1..] == Split(u, ' ');
    assert NonEmptyParts(parts) == [w] + NonEmptyParts(Split(u, ' '));
    assert NonEmptyParts(parts') == NonEmptyParts(Split(u, ' '));
  }

  // ---------------------------------------------------------------------
  // Character replacement

  /** `str.replace(a, b)` for one-character `a` and `b`. */
  function ReplaceChar(s: string, a: char, b: char): (r: string)
    ensures |r| == |s|
    ensures forall i :: 0 <= i < |s| ==> r[i] == (if s[i] == a then b else s[i])
  {
    seq(|s|, i requires 0 <= i < |s| => if s[i] == a then b else s[i])
  }

  // ---------------------------------------------------------------------
  // Numbers written in decimal

  function DigitValue(c: char): nat
    requires IsDigit(c)
  {
    c as int - '0' as int
  }

  predicate AllDigits(s: string) {
    forall i :: 0 <= i < |s| ==> IsDigit(s[i])
  }

  /** The natural number that the decimal digits `ds` denote. */
  function DigitsValue(ds: string): nat
    requires AllDigits(ds)
  {
    if ds == [] then 0 else DigitsValue(ds[..|ds| - 1]) * 10 + DigitValue(ds[|ds| - 1])
  }

  function Pow10(n: nat): (p: nat)
    ensures p >= 1
  {
    if n == 0 then 1 else 10 * Pow10(n - 1)
  }

  /** The two decimal digits of `n`, zero-padded, as `strftime("%d")` prints them. */
  function TwoDigits(n: nat): (s: string)
    requires n < 100
    ensures |s| == 2 && AllDigits(s) && DigitsValue(s) == n
  {
    var s := [('0' as int + n / 10) as char, ('0' as int + n % 10) as char];
    assert s[..1] == [s[0]] && s[..1][..0] == [];
    assert DigitsValue(s[..1]) == n / 10;
    s
  }

  function CountChar(s: string, c: char): nat {
    if s == [] then 0 else CountChar(s[1..], c) + (if s[0] == c then 1 else 0)
  }

  predicate HasDigit(s: string) {
    exists i :: 0 <= i < |s| && IsDigit(s[i])
  }

  predicate DigitsAndDots(s: string) {
    forall i :: 0 <= i < |s| ==> IsDigit(s[i]) || s[i] == '.'
  }

  lemma {:induction false} CountCharZero(s: string, c: char)
    ensures CountChar(s, c) == 0 <==> c !in s
  {
    if s != [] {
      CountCharZero(s[1..], c);
      assert s == [s[0]] + s[1..];
    }
  }

  lemma {:induction false} CountCharSplit(s: string, k: nat, c: char)
    requires k <= |s|
    ensures CountChar(s, c) == CountChar(s[..k], c) + CountChar(s[k..], c)
  {
    if k > 0 {
      CountCharSplit(s[1..], k - 1, c);
      assert s[1..][..k - 1] == s[..k][1..];
      assert s[1..][k - 1..] == s[k..];
    }
  }

  /** A digit of `s` lies on one side or the other of the character at `k`, which is not a digit. */
  lemma HasDigitAround(s: string, k: nat)
    requires k < |s| && !IsDigit(s[k])
    ensures HasDigit(s) <==> HasDigit(s[..k]) || HasDigit(s[k + 1..])
  {
    var whole, frac := s[..k], s[k + 1..];
    assert forall i :: 0 <= i < |whole| ==> s[i] == whole[i];
    assert forall i :: 0 <= i < |frac| ==> s[k + 1 + i] == frac[i];
    if HasDigit(s) {
      var i :| 0 <= i < |s| && IsDigit(s[i]);
      if i > k { assert IsDigit(frac[i - k - 1]); }
    }
  }

  /** The digits before the dot of a `[\d.]+` capture (all of it when there is no dot). */
  function WholeDigits(s: string): (whole: string)
    requires DigitsAndDots(s)
    ensures AllDigits(whole)
    ensures '.' !in s ==> whole == s
    ensures '.' in s ==> whole == s[..IndexOf(s, '.')]
  {
    if '.' !in s then s else s[..IndexOf(s, '.')]
  }

  /** The digits after the one dot of a `[\d.]+` capture (none when there is no dot). */
  function FracDigits(s: string): (frac: string)
    requires DigitsAndDots(s) && CountChar(s, '.') <= 1
    ensures AllDigits(frac)
    ensures '.' !in s ==> frac == []
    ensures '.' in s ==> frac == s[IndexOf(s, '.') + 1..]
  {
    if '.' !in s then []
    else
      var k := IndexOf(s, '.');
      DotSplit(s, k);
      s[k + 1..]
  }

  /** How the dots of `s` fall on either side of its first dot. */
  lemma DotSplit(s: string, k: nat)
    requires '.' in s && k == IndexOf(s, '.')
    ensures CountChar(s, '.') == 1 + CountChar(s[k + 1..], '.')
    ensures CountChar(s, '.') <= 1 <==> '.' !in s[k + 1..]
  {
    var whole, frac := s[..k], s[k + 1..];
    CountCharZero(whole, '.');
    CountCharSplit(s, k, '.');
    assert s[k..] == [s[k]] + frac;
    assert CountChar(s[k..], '.') == 1 + CountChar(frac, '.');
    CountCharZero(frac, '.');
  }

  /**
   * `float(text)` where `text` is a capture of the regular-expression class
   * `[\d.]+`: a number exists exactly when the text has a digit and at most
   * one dot ("12", "1.5", ".5" and "5." parse; "." and "1.2.3" do not). The
   * number is the whole digits plus the fraction digits over their power of ten.
   */
  function ParseDecimal(s: string): (r: Option<real>)
    requires DigitsAndDots(s)
    ensures r.Some? <==> HasDigit(s) && CountChar(s, '.') <= 1
    ensures r.Some? ==> r.value >= 0.0
    ensures r.Some? ==>
              r.value == DigitsValue(WholeDigits(s)) as real
                         + DigitsValue(FracDigits(s)) as real / Pow10(|FracDigits(s)|) as real
  {
    if '.' !in s then
      CountCharZero(s, '.');
      if s == [] then None
      else
        assert WholeDigits(s) == s && FracDigits(s) == [];
        assert DigitsValue([]) as real / Pow10(0) as real == 0.0;
        Some(DigitsValue(s) as real)
    else
      var k := IndexOf(s, '.');
      var whole, frac := s[..k], s[k + 1..];
      DotParses(s, k);
      if '.' in frac || (whole == [] && frac == []) then None
      else
        var f := DigitsValue(frac) as real / Pow10(|frac|) as real;
        assert f >= 0.0;
        Some(DigitsValue(whole) as real + f)
  }

  /** With its first dot at `k`, `s` is a number exactly when no dot follows and a digit is left. */
  lemma DotParses(s: string, k: nat)
    requires DigitsAndDots(s) && '.' in s && k == IndexOf(s, '.')
    ensures HasDigit(s) && CountChar(s, '.') <= 1 <==> '.' !in s[k + 1..] && (s[..k] != [] || s[k + 1..] != [])
    ensures CountChar(s, '.') <= 1 ==> WholeDigits(s) == s[..k] && FracDigits(s) == s[k + 1..]
  {
    var whole, frac := s[..k], s[k + 1..];
    DotSplit(s, k);
    HasDigitAround(s, k);
    if '.' !in frac && (whole != [] || frac != []) {
      assert HasDigit(whole) || HasDigit(frac) by {
        if whole != [] { assert IsDigit(s[0]); } else { assert IsDigit(s[k + 1]); }
      }
    }
  }

  /** A plain run of digits converts to the whole number it denotes. */
  lemma ParseDecimalDigits(s: string)
    requires s != [] && AllDigits(s)
    ensures ParseDecimal(s) == Some(DigitsValue(s) as real)
  {
    assert forall i :: 0 <= i < |s| ==> s[i] != '.';
  }

  /** The text after an optional leading sign. */
  function Unsigned(t: string): (digits: string)
    ensures digits == t || (t != [] && (t[0] == '+' || t[0] == '-') && digits == t[1..])
  {
    if t != [] && (t[0] == '+' || t[0] == '-') then t[1..] else t
  }

  /** An optional sign followed by at least one ASCII digit. */
  predicate IntLiteral(t: string) {
    Unsigned(t) != [] && AllDigits(Unsigned(t))
  }

  /**
   * `int(text)`: optional surrounding whitespace, an optional sign, then at
   * least one ASCII digit; anything else raises `ValueError` (None here).
   */
  function ParseInt(s: string): (n: Option<int>)
    ensures n.Some? <==> IntLiteral(Strip(s))
    ensures n.Some? ==>
              n.value == (if Strip(s)[0] == '-' then -1 else 1) * DigitsValue(Unsigned(Strip(s)))
  {
    var t := Strip(s);
    if t == [] then None
    else if t[0] == '+' || t[0] == '-' then
      if |t| > 1 && AllDigits(t[1..]) then
        Some(if t[0] == '-' then -(DigitsValue(t[1..]) as int) else DigitsValue(t[1..]))
      else None
    else if AllDigits(t) then Some(DigitsValue(t))
    else None
  }

  /** A plain run of digits parses to the number it denotes. */
  lemma ParseIntDigits(s: string)
    requires AllDigits(s) && s != []
    ensures ParseInt(s) == Some(DigitsValue(s))
  {
    assert !IsSpace(s[0]) && !IsSpace(s[|s| - 1]);
    assert LStrip(s) == s;
    assert RStrip(s) == s;
  }

  // ---------------------------------------------------------------------
  // Ordering

  /** Python's `<` on strings: lexicographic by code point, a proper prefix first. */
  predicate LexLess(a: string, b: string)
    decreases |a|
  {
    if a == [] then b != []
    else if b == [] then false
    else if a[0] != b[0] then a[0] < b[0]
    else LexLess(a[1..], b[1..])
  }

  lemma {:induction false} LexLessIrreflexive(a: string)
    ensures !LexLess(a, a)
  {
    if a != [] { LexLessIrreflexive(a[1..]); }
  }

  lemma {:induction false} LexLessTotal(a: string, b: string)
    requires a != b
    ensures LexLess(a, b) || LexLess(b, a)
  {
    if a != [] && b != [] && a[0] == b[0] {
      assert a == [a[0]] + a[1..] && b == [b[0]] + b[1..];
      LexLessTotal(a[1..], b[1..]);
    }
  }

  lemma {:induction false} LexLessTransitive(a: string, b: string, c: string)
    requires LexLess(a, b) && LexLess(b, c)
    ensures LexLess(a, c)
  {
    if a != [] && b != [] && c != [] && a[0] == b[0] && b[0] == c[0] {
      LexLessTransitive(a[1..], b[1..], c[1..]);
    }
  }

  /** Every finite non-empty set of strings has a least element. */
  lemma {:induction false} LeastExists(s: set<string>)
    requires s != {}
    ensures exists m :: m in s && forall y :: y in s ==> !LexLess(y, m)
    decreases |s|
  {
    var x :| x in s;
    if s == {x} {
      LexLessIrreflexive(x);
    } else {
      var rest := s - {x};
      LeastExists(rest);
      var m :| m in rest && forall y :: y in rest ==> !LexLess(y, m);
      if LexLess(x, m) {
        forall y | y in s ensures !LexLess(y, x) {
          if y == x { LexLessIrreflexive(x); }
          else if LexLess(y, x) { LexLessTransitive(y, x, m); }
        }
      } else {
        assert forall y :: y in s ==> !LexLess(y, m);
      }
    }
  }
}
