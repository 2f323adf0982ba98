/**
 * The fixed regular expressions with which the meters read power figures out
 * of tool output. Every one has the shape
 *
 *     <caption>\s+([\d.]+)\s*<unit>     or     <caption>\s+([\d.]+)\s+<unit>
 *
 * with a literal caption and unit. Because whitespace, the class `[\d.]` and the
 * first character of every unit are pairwise disjoint, a match at a given
 * position is unique: each run is the longest one and no backtracking can
 * change the captured group. So `re.search` is modelled as: the leftmost
 * position at which that unique match exists, and its group.
 */
module Patterns {
  import opened Wrappers
  import opened Text

  /** A pattern: its caption, its unit, how many spaces the unit needs before it, and `re.IGNORECASE`. */
  datatype Pattern = Pattern(caption: string, unit: string, minUnitGap: nat, ignoreCase: bool)

  predicate CharMatches(c: char, p: char, ignoreCase: bool) {
    c == p || (ignoreCase && LowerChar(c) == LowerChar(p))
  }

  /** The literal `lit` occurs in `text` at index `i`. */
  predicate LiteralAt(text: string, i: nat, lit: string, ignoreCase: bool)
    requires i <= |text|
    ensures LiteralAt(text, i, lit, ignoreCase) ==> i + |lit| <= |text|
    decreases |lit|
  {
    lit == [] || (i < |text| && CharMatches(text[i], lit[0], ignoreCase) && LiteralAt(text, i + 1, lit[1..], ignoreCase))
  }

  predicate IsNumberChar(c: char) {
    IsDigit(c) || c == '.'
  }

  /** The length of the run of whitespace that starts at `i`. */
  function SpaceRun(text: string, i: nat): (n: nat)
    requires i <= |text|
    ensures i + n <= |text|
    ensures i + n < |text| ==> !IsSpace(text[i + n])
    decreases |text| - i
  {
    if i < |text| && IsSpace(text[i]) then SpaceRun(text, i + 1) + 1 else 0
  }

  /** The length of the run of `[\d.]` characters that starts at `i`. */
  function NumberRun(text: string, i: nat): (n: nat)
    requires i <= |text|
    ensures i + n <= |text|
    ensures i + n < |text| ==> !IsNumberChar(text[i + n])
    decreases |text| - i
  {
    if i < |text| && IsNumberChar(text[i]) then NumberRun(text, i + 1) + 1 else 0
  }

  /** Every character of the run is in `[\d.]`. */
  lemma {:induction false} NumberRunChars(text: string, i: nat)
    requires i <= |text|
    ensures forall k :: i <= k < i + NumberRun(text, i) ==> IsNumberChar(text[k])
    decreases |text| - i
  {
    if i < |text| && IsNumberChar(text[i]) {
      NumberRunChars(text, i + 1);
    }
  }

  /** The group captured by a match of `p` that starts exactly at index `i`, if there is one. */
  function MatchAt(text: string, i: nat, p: Pattern): (group: Option<string>)
    requires i <= |text|
    ensures group.Some? ==> group.value != [] && DigitsAndDots(group.value)
  {
    if !LiteralAt(text, i, p.caption, p.ignoreCase) then None
    else
      var numberStart := i + |p.caption| + SpaceRun(text, i + |p.caption|);
      var numberEnd := numberStart + NumberRun(text, numberStart);
      var unitStart := numberEnd + SpaceRun(text, numberEnd);
      if SpaceRun(text, i + |p.caption|) >= 1 && numberEnd > numberStart
         && unitStart - numberEnd >= p.minUnitGap
         && LiteralAt(text, unitStart, p.unit, p.ignoreCase)
      then
        var group := text[numberStart..numberEnd];
        NumberRunChars(text, numberStart);
        assert forall k :: 0 <= k < |group| ==> group[k] == text[numberStart + k];
        Some(group)
      else None
  }

  /** `re.search` started at index `i`: the position of the leftmost match at or after `i`. */
  function SearchFrom(text: string, p: Pattern, i: nat): (at: Option<nat>)
    requires i <= |text|
    ensures at.Some? ==> i <= at.value <= |text| && MatchAt(text, at.value, p).Some?
    ensures at.Some? ==> forall j :: i <= j < at.value ==> MatchAt(text, j, p).None?
    ensures at.None? ==> forall j :: i <= j <= |text| ==> MatchAt(text, j, p).None?
    decreases |text| - i
  {
    if MatchAt(text, i, p).Some? then Some(i)
    else if i == |text| then None
    else SearchFrom(text, p, i + 1)
  }

  /** `re.search(p, text)`, reduced to the captured group. */
  function Search(text: string, p: Pattern): (group: Option<string>)
    ensures group.Some? ==> group.value != [] && DigitsAndDots(group.value)
  {
    match SearchFrom(text, p, 0)
    case None => None
    case Some(k) => MatchAt(text, k, p)
  }

  /** `float(re.search(p, text).group(1))`, None when there is no match or `float` raises. */
  function Yield(text: string, p: Pattern): (r: Option<real>)
    ensures r.Some? <==>
              Search(text, p).Some? && HasDigit(Search(text, p).value) && CountChar(Search(text, p).value, '.') <= 1
    ensures r.Some? ==> r.value >= 0.0 && r == ParseDecimal(Search(text, p).value)
  {
    match Search(text, p)
    case None => None
    case Some(group) => ParseDecimal(group)
  }

  /**
   * The first pattern, in order, that both matches and captures a number:
   * the loop `for pattern in patterns: ... try: return float(...) except: continue`.
   */
  function FirstYield(text: string, patterns: seq<Pattern>): (r: Option<real>)
    ensures r.Some? ==> r.value >= 0.0
  {
    if patterns == [] then None
    else
      var first := Yield(text, patterns[0]);
      if first.Some? then first else FirstYield(text, patterns[1..])
  }

  /**
   * What `FirstYield` finds: a number comes from some pattern all of whose
   * predecessors yield nothing, and there is none exactly when no pattern
   * yields one.
   */
  lemma {:induction false} FirstYieldSpec(text: string, patterns: seq<Pattern>)
    ensures FirstYield(text, patterns).Some? ==>
              exists k :: 0 <= k < |patterns| && Yield(text, patterns[k]) == FirstYield(text, patterns)
                          && forall j :: 0 <= j < k ==> Yield(text, patterns[j]).None?
    ensures FirstYield(text, patterns).None? <==> forall k :: 0 <= k < |patterns| ==> Yield(text, patterns[k]).None?
  {
    if patterns != [] && Yield(text, patterns[0]).None? {
      FirstYieldSpec(text, patterns[1..]);
      assert forall k :: 1 <= k < |patterns| ==> patterns[k] == patterns[1..][k - 1];
      if FirstYield(text, patterns).Some? {
        var k :| 0 <= k < |patterns[1..]| && Yield(text, patterns[1..][k]) == FirstYield(text, patterns)
                 && forall j :: 0 <= j < k ==> Yield(text, patterns[1..][j]).None?;
        assert Yield(text, patterns[k + 1]) == FirstYield(text, patterns);
      }
    }
  }

  /** One step of the loop in `FirstYield`: the head pattern decides if it yields, the rest otherwise. */
  lemma FirstYieldStep(text: string, patterns: seq<Pattern>)
    requires patterns != []
    ensures FirstYield(text, patterns) ==
            (if Yield(text, patterns[0]).Some? then Yield(text, patterns[0]) else FirstYield(text, patterns[1..]))
  {
  }

  /** A text shorter than a pattern's caption has no match of it. */
  lemma ShortTextNoMatch(text: string, p: Pattern)
    requires |text| < |p.caption|
    ensures Search(text, p).None? && Yield(text, p).None?
  {
    assert forall j :: 0 <= j <= |text| ==> MatchAt(text, j, p).None?;
  }

  /** A literal that occurs at `i` has each of its suffixes occurring further on. */
  lemma {:induction false} LiteralAtSuffix(text: string, i: nat, lit: string, k: nat, ignoreCase: bool)
    requires i <= |text| && k <= |lit|
    requires LiteralAt(text, i, lit, ignoreCase)
    ensures i + k <= |text| && LiteralAt(text, i + k, lit[k..], ignoreCase)
    decreases k
  {
    if k > 0 {
      LiteralAtSuffix(text, i + 1, lit[1..], k - 1, ignoreCase);
      assert lit[1..][k - 1..] == lit[k..];
    }
  }

  /**
   * When one pattern's caption ends with another's and the rest of the two
   * patterns agree, wherever the longer caption matches the shorter one
   * matches too, further on, with the same group.
   */
  lemma CaptionSuffixMatch(text: string, i: nat, p: Pattern, q: Pattern)
    requires i <= |text|
    requires |q.caption| <= |p.caption| && p.caption[|p.caption| - |q.caption|..] == q.caption
    requires p.unit == q.unit && p.minUnitGap == q.minUnitGap && p.ignoreCase == q.ignoreCase
    requires MatchAt(text, i, p).Some?
    ensures i + |p.caption| - |q.caption| <= |text|
    ensures MatchAt(text, i + |p.caption| - |q.caption|, q) == MatchAt(text, i, p)
  {
    LiteralAtSuffix(text, i, p.caption, |p.caption| - |q.caption|, p.ignoreCase);
  }

  /** Consequently `re.search` with the shorter caption succeeds whenever it succeeds with the longer one. */
  lemma CaptionSuffixSearch(text: string, p: Pattern, q: Pattern)
    requires |q.caption| <= |p.caption| && p.caption[|p.caption| - |q.caption|..] == q.caption
    requires p.unit == q.unit && p.minUnitGap == q.minUnitGap && p.ignoreCase == q.ignoreCase
    requires Search(text, p).Some?
    ensures Search(text, q).Some?
  {
    var k := SearchFrom(text, p, 0).value;
    CaptionSuffixMatch(text, k, p, q);
  }

  /** A literal written into the text at `i` is found there. */
  lemma {:induction false} LiteralAtWritten(text: string, i: nat, lit: string, ignoreCase: bool)
    requires i + |lit| <= |text| && text[i..i + |lit|] == lit
    ensures LiteralAt(text, i, lit, ignoreCase)
    decreases |lit|
  {
    if lit != [] {
      assert text[i] == lit[0];
      assert text[i + 1..i + 1 + |lit[1..]|] == lit[1..];
      LiteralAtWritten(text, i + 1, lit[1..], ignoreCase);
    }
  }

  /** A single whitespace character followed by something else is a run of length one. */
  lemma SpaceRunOne(text: string, i: nat)
    requires i + 1 < |text| && IsSpace(text[i]) && !IsSpace(text[i + 1])
    ensures SpaceRun(text, i) == 1
  {
    assert SpaceRun(text, i + 1) == 0;
  }

  /** A number written into the text at `i`, and followed by a character outside `[\d.]`, is exactly the run there. */
  lemma {:induction false} NumberRunWritten(text: string, i: nat, number: string)
    requires i + |number| < |text| && text[i..i + |number|] == number
    requires DigitsAndDots(number) && !IsNumberChar(text[i + |number|])
    ensures NumberRun(text, i) == |number|
    decreases |number|
  {
    if number != [] {
      assert text[i] == number[0];
      assert text[i + 1..i + 1 + |number[1..]|] == number[1..];
      NumberRunWritten(text, i + 1, number[1..]);
    }
  }

  /** A match assembled from its parts: the caption, a gap, the number, a gap and the unit. */
  lemma MatchAtParts(text: string, i: nat, p: Pattern, numberStart: nat, numberEnd: nat, unitStart: nat)
    requires i + |p.caption| < numberStart <= numberEnd <= unitStart <= |text|
    requires LiteralAt(text, i, p.caption, p.ignoreCase)
    requires SpaceRun(text, i + |p.caption|) == numberStart - i - |p.caption|
    requires NumberRun(text, numberStart) == numberEnd - numberStart > 0
    requires SpaceRun(text, numberEnd) == unitStart - numberEnd >= p.minUnitGap
    requires LiteralAt(text, unitStart, p.unit, p.ignoreCase)
    ensures MatchAt(text, i, p) == Some(text[numberStart..numberEnd])
  {
  }

  /** Where the pieces of a line printed as caption, one space, the number, one space and the unit sit. */
  lemma FormattedLayout(text: string, p: Pattern, number: string)
    requires text == p.caption + " " + number + " " + p.unit
    requires number != [] && p.unit != []
    ensures |text| == |p.caption| + |number| + 2 + |p.unit|
    ensures text[..|p.caption|] == p.caption
    ensures text[|p.caption|] == ' ' && text[|p.caption| + 1] == number[0]
    ensures text[|p.caption| + 1..|p.caption| + 1 + |number|] == number
    ensures text[|p.caption| + 1 + |number|] == ' ' && text[|p.caption| + 2 + |number|] == p.unit[0]
    ensures text[|p.caption| + 2 + |number|..] == p.unit
  {
  }

  /** The caption and the gap after it, in a line laid out as above. */
  lemma FormattedCaption(text: string, p: Pattern, number: string)
    requires number != [] && DigitsAndDots(number)
    requires p.unit != [] && !IsSpace(p.unit[0])
    requires |text| == |p.caption| + |number| + 2 + |p.unit|
    requires text[..|p.caption|] == p.caption
    requires text[|p.caption|] == ' ' && text[|p.caption| + 1] == number[0]
    requires text[|p.caption| + 1..|p.caption| + 1 + |number|] == number
    requires text[|p.caption| + 1 + |number|] == ' ' && text[|p.caption| + 2 + |number|] == p.unit[0]
    requires text[|p.caption| + 2 + |number|..] == p.unit
    ensures LiteralAt(text, 0, p.caption, p.ignoreCase)
    ensures SpaceRun(text, |p.caption|) == 1
  {
    LiteralAtWritten(text, 0, p.caption, p.ignoreCase);
    SpaceRunOne(text, |p.caption|);
  }

  /** The number and the gap after it, in a line laid out as above. */
  lemma FormattedNumber(text: string, p: Pattern, number: string)
    requires number != [] && DigitsAndDots(number)
    requires p.unit != [] && !IsSpace(p.unit[0])
    requires |text| == |p.caption| + |number| + 2 + |p.unit|
    requires text[..|p.caption|] == p.caption
    requires text[|p.caption|] == ' ' && text[|p.caption| + 1] == number[0]
    requires text[|p.caption| + 1..|p.caption| + 1 + |number|] == number
    requires text[|p.caption| + 1 + |number|] == ' ' && text[|p.caption| + 2 + |number|] == p.unit[0]
    requires text[|p.caption| + 2 + |number|..] == p.unit
    ensures NumberRun(text, |p.caption| + 1) == |number|
    ensures SpaceRun(text, |p.caption| + 1 + |number|) == 1
  {
    NumberRunWritten(text, |p.caption| + 1, number);
    SpaceRunOne(text, |p.caption| + 1 + |number|);
  }

  /** A literal that ends the text, such as the unit of a line laid out as above, is found where it starts. */
  lemma FormattedUnit(text: string, u: nat, unit: string, ignoreCase: bool)
    requires u + |unit| == |text| && text[u..] == unit
    ensures LiteralAt(text, u, unit, ignoreCase)
  {
    assert text[u..u + |unit|] == unit;
    LiteralAtWritten(text, u, unit, ignoreCase);
  }

  /**
   * A line printed the way the tool prints it, caption, one space, the
   * number, one space and the unit, matches at its start and captures
   * exactly the number.
   */
  lemma FormattedMatch(p: Pattern, number: string)
    requires number != [] && DigitsAndDots(number)
    requires p.unit != [] && !IsSpace(p.unit[0]) && p.minUnitGap <= 1
    ensures MatchAt(p.caption + " " + number + " " + p.unit, 0, p) == Some(number)
  {
    var text := p.caption + " " + number + " " + p.unit;
    var c, n := |p.caption|, |number|;
    FormattedLayout(text, p, number);
    FormattedCaption(text, p, number);
    FormattedNumber(text, p, number);
    FormattedUnit(text, c + 2 + n, p.unit, p.ignoreCase);
    MatchAtParts(text, 0, p, c + 1, c + 1 + n, c + 2 + n);
  }

  /** The round trip of a formatted line: `re.search` finds it and `float` reads back the number written. */
  lemma FormattedYield(p: Pattern, number: string)
    requires number != [] && DigitsAndDots(number)
    requires p.unit != [] && !IsSpace(p.unit[0]) && p.minUnitGap <= 1
    ensures Yield(p.caption + " " + number + " " + p.unit, p) == ParseDecimal(number)
  {
    FormattedMatch(p, number);
  }
}
