/**
  The latency parse of the health check: the leftmost match of
  `Average\s*=\s*(\d+)ms` under `re.IGNORECASE`, written out as a scanner.
  `IsMatch` says declaratively where the pattern can match; `ScanAt` is the
  greedy matcher at one position and `FindMatch` the left-to-right search of
  `re.search`.
 */
module AverageLatency {
  import opened Optional
  import opened Ascii
  import opened Decimal

  /** The pattern's two literals in lower case; IGNORECASE compares lower-cased text with them. */
  const AverageLiteral := "average"
  const UnitLiteral := "ms"

  /** The text at k spells `lit` in any letter case. */
  predicate FoldsAt(s: string, k: nat, lit: string) {
    k + |lit| <= |s| && forall j :: 0 <= j < |lit| ==> Lower(s[k + j]) == lit[j]
  }

  predicate SpacesIn(s: string, lo: nat, hi: nat) {
    lo <= hi <= |s| && forall j :: lo <= j < hi ==> IsSpace(s[j])
  }

  predicate DigitsIn(s: string, lo: nat, hi: nat) {
    lo <= hi <= |s| && forall j :: lo <= j < hi ==> IsDigit(s[j])
  }

  /**
    One way the pattern can match: `Average` at `start`, the first `\s*` on
    [start+7, equals), `=` at `equals`, the second `\s*` on
    [equals+1, digitsStart), group 1 on [digitsStart, digitsEnd) and `ms` at
    digitsEnd.
   */
  datatype Match = Match(start: nat, equals: nat, digitsStart: nat, digitsEnd: nat)

  predicate IsMatch(s: string, m: Match)
    ensures IsMatch(s, m) ==>
      m.start + |AverageLiteral| <= m.equals < m.digitsStart < m.digitsEnd && m.digitsEnd + |UnitLiteral| <= |s|
  {
    FoldsAt(s, m.start, AverageLiteral)
    && SpacesIn(s, m.start + |AverageLiteral|, m.equals)
    && m.equals < |s| && s[m.equals] == '='
    && SpacesIn(s, m.equals + 1, m.digitsStart)
    && DigitsIn(s, m.digitsStart, m.digitsEnd) && m.digitsStart < m.digitsEnd
    && FoldsAt(s, m.digitsEnd, UnitLiteral)
  }

  /** The text of group 1, `match.group(1)`. */
  function Group(s: string, m: Match): (g: string)
    requires IsMatch(s, m)
    ensures IsDigitString(g) && 1 <= |g|
  {
    s[m.digitsStart..m.digitsEnd]
  }

  /** End of the longest run of characters satisfying p that starts at k: a greedy `*`. */
  function SpanEnd(s: string, k: nat, p: char -> bool): (e: nat)
    requires k <= |s|
    decreases |s| - k
    ensures k <= e <= |s|
    ensures forall j :: k <= j < e ==> p(s[j])
    ensures e == |s| || !p(s[e])
  {
    if k == |s| || !p(s[k]) then k else SpanEnd(s, k + 1, p)
  }

  /** A run that stops at a character outside the class is the greedy one. */
  lemma SpanEndIsMaximal(s: string, k: nat, e: nat, p: char -> bool)
    requires k <= e <= |s|
    requires forall j :: k <= j < e ==> p(s[j])
    requires e == |s| || !p(s[e])
    ensures SpanEnd(s, k, p) == e
  {
  }

  /**
    The pattern can split the text in only one way at a given start, the
    greedy one: neither `\s*` may stop before `=` or the digits (the next
    character is then a space, not `=` or a digit), and `\d+` must take the
    whole digit run, since `m` is not a digit.
   */
  lemma MatchIsGreedy(s: string, m: Match)
    requires IsMatch(s, m)
    ensures m.equals == SpanEnd(s, m.start + |AverageLiteral|, IsSpace)
    ensures m.digitsStart == SpanEnd(s, m.equals + 1, IsSpace)
    ensures m.digitsEnd == SpanEnd(s, m.digitsStart, IsDigit)
    ensures m.digitsEnd < |s| && !IsDigit(s[m.digitsEnd])
  {
    SpanEndIsMaximal(s, m.start + |AverageLiteral|, m.equals, IsSpace);
    assert m.digitsStart < |s| && IsDigit(s[m.digitsStart]);
    SpanEndIsMaximal(s, m.equals + 1, m.digitsStart, IsSpace);
    assert Lower(s[m.digitsEnd + 0]) == UnitLiteral[0] == 'm';
    SpanEndIsMaximal(s, m.digitsStart, m.digitsEnd, IsDigit);
  }

  /** Every match starting at i is the greedy split from i. */
  lemma MatchesAtAreGreedy(s: string, i: nat)
    ensures forall m: Match :: m.start == i && IsMatch(s, m) ==>
      m.equals == SpanEnd(s, i + |AverageLiteral|, IsSpace)
      && m.digitsStart == SpanEnd(s, m.equals + 1, IsSpace)
      && m.digitsEnd == SpanEnd(s, m.digitsStart, IsDigit)
  {
    forall m: Match | m.start == i && IsMatch(s, m)
      ensures m.equals == SpanEnd(s, i + |AverageLiteral|, IsSpace)
      ensures m.digitsStart == SpanEnd(s, m.equals + 1, IsSpace)
      ensures m.digitsEnd == SpanEnd(s, m.digitsStart, IsDigit)
    {
      MatchIsGreedy(s, m);
    }
  }

  /** The matcher at one position: the greedy split if it is a match, None otherwise. */
  function ScanAt(s: string, i: nat): (r: Option<Match>)
    requires i <= |s|
    ensures r.Some? ==> r.value.start == i && IsMatch(s, r.value)
    ensures forall m: Match :: m.start == i && IsMatch(s, m) ==> r == Some(m)
  {
    MatchesAtAreGreedy(s, i);
    if !FoldsAt(s, i, AverageLiteral) then None
    else
      var eq := SpanEnd(s, i + |AverageLiteral|, IsSpace);
      if eq == |s| || s[eq] != '=' then None
      else
        var lo := SpanEnd(s, eq + 1, IsSpace);
        var hi := SpanEnd(s, lo, IsDigit);
        if hi == lo || !FoldsAt(s, hi, UnitLiteral) then None
        else Some(Match(i, eq, lo, hi))
  }

  /**
    `re.search` from position `from`: tries every start from left to right and
    returns the first match.
   */
  function FindMatch(s: string, from: nat): (r: Option<Match>)
    requires from <= |s|
    decreases |s| - from
    ensures r.Some? ==> from <= r.value.start && IsMatch(s, r.value)
    ensures forall m: Match :: from <= m.start && IsMatch(s, m) ==> r.Some? && r.value.start <= m.start
  {
    match ScanAt(s, from)
    case Some(m) => Some(m)
    case None => if from == |s| then None else FindMatch(s, from + 1)
  }

  /** The match `re.search(r'Average\s*=\s*(\d+)ms', s, re.IGNORECASE | re.DOTALL)` finds. */
  function Search(s: string): (r: Option<Match>)
    ensures r.Some? ==> IsMatch(s, r.value)
    ensures r.None? <==> forall m: Match :: !IsMatch(s, m)
  {
    FindMatch(s, 0)
  }

  /** m is the leftmost match of the pattern in s. */
  ghost predicate IsLeftmostMatch(s: string, m: Match) {
    IsMatch(s, m) && forall m' :: IsMatch(s, m') ==> m.start <= m'.start
  }

  /** The search returns exactly the leftmost match, and None exactly when there is no match. */
  lemma SearchIsLeftmost(s: string)
    ensures forall m :: Search(s) == Some(m) <==> IsLeftmostMatch(s, m)
    ensures Search(s).None? <==> forall m :: !IsMatch(s, m)
  {
    forall m ensures Search(s) == Some(m) <==> IsLeftmostMatch(s, m) {
      if IsLeftmostMatch(s, m) {
        var r := Search(s).value;
        assert ScanAt(s, r.start) == Some(r);
        assert ScanAt(s, r.start) == Some(m);
      }
    }
  }

  /** The digits of group 1 of the leftmost match, or None when the search fails. */
  function AverageDigits(s: string): (r: Option<string>)
    ensures r.Some? ==> IsDigitString(r.value) && 1 <= |r.value|
  {
    match Search(s)
    case None => None
    case Some(m) => Some(Group(s, m))
  }

  /** Two texts in which the pattern matches at the same places are searched alike. */
  lemma SameMatchesSameSearch(s: string, t: string)
    requires forall m: Match :: IsMatch(s, m) <==> IsMatch(t, m)
    ensures Search(s) == Search(t)
  {
    SearchIsLeftmost(s);
    SearchIsLeftmost(t);
    if Search(s).Some? {
      assert IsLeftmostMatch(t, Search(s).value);
    }
  }

  /** Lower-casing the text keeps every match and adds none. */
  lemma LowerKeepsMatches(s: string)
    ensures forall m: Match :: IsMatch(s, m) <==> IsMatch(LowerString(s), m)
  {
    var t := LowerString(s);
    forall c: char {
      LowerKeepsClasses(c);
    }
    forall m: Match ensures IsMatch(s, m) <==> IsMatch(t, m) {
      if m.equals < |s| {
        assert t[m.equals] == '=' <==> s[m.equals] == '=';
      }
    }
  }

  /** Lower-casing leaves a digit run as it is. */
  lemma LowerKeepsDigits(s: string, lo: nat, hi: nat)
    requires DigitsIn(s, lo, hi)
    ensures LowerString(s)[lo..hi] == s[lo..hi]
  {
    var t := LowerString(s);
    forall j | lo <= j < hi ensures t[j] == s[j] {
      assert IsDigit(s[j]);
    }
  }

  /**
    IGNORECASE: lower-casing the output changes neither where the leftmost
    match is nor the digits it captures.
   */
  lemma SearchIgnoresCase(s: string)
    ensures Search(LowerString(s)) == Search(s)
    ensures AverageDigits(LowerString(s)) == AverageDigits(s)
  {
    var t := LowerString(s);
    LowerKeepsMatches(s);
    SameMatchesSameSearch(s, t);
    if Search(s).Some? {
      var m := Search(s).value;
      LowerKeepsDigits(s, m.digitsStart, m.digitsEnd);
    }
  }

  /**
    No match can start where `Average`, `=` and a whole digit run are present
    but the run is not followed directly by `ms`: in particular, `\d+` cannot
    give back digits, and a space before `ms` is not allowed.
   */
  lemma NoMatchWithoutUnitAfterDigits(s: string, i: nat, eq: nat, lo: nat, hi: nat)
    requires FoldsAt(s, i, AverageLiteral) && SpacesIn(s, i + |AverageLiteral|, eq)
    requires eq < |s| && s[eq] == '=' && SpacesIn(s, eq + 1, lo)
    requires DigitsIn(s, lo, hi) && lo < hi && (hi == |s| || !IsDigit(s[hi]))
    requires !FoldsAt(s, hi, UnitLiteral)
    ensures forall m: Match :: m.start == i ==> !IsMatch(s, m)
  {
    forall m: Match | m.start == i && IsMatch(s, m) ensures false {
      MatchIsGreedy(s, m);
      SpanEndIsMaximal(s, i + |AverageLiteral|, eq, IsSpace);
      SpanEndIsMaximal(s, eq + 1, lo, IsSpace);
      SpanEndIsMaximal(s, lo, hi, IsDigit);
    }
  }

  /** A piece of the output that spells `lit` in any case makes the output spell it there. */
  lemma FoldsAtPiece(s: string, k: nat, w: string, lit: string)
    requires k + |w| <= |s| && s[k..k + |w|] == w
    requires |w| == |lit| && FoldsAt(w, 0, lit)
    ensures FoldsAt(s, k, lit)
  {
  }

  /** A piece of the output made of spaces (of digits) is a run of spaces (of digits) there. */
  lemma ClassesOfPiece(s: string, k: nat, w: string)
    requires k + |w| <= |s| && s[k..k + |w|] == w
    ensures SpacesIn(w, 0, |w|) ==> SpacesIn(s, k, k + |w|)
    ensures IsDigitString(w) ==> DigitsIn(s, k, k + |w|)
  {
  }

  /**
    When the output starts with a text p that never spells `average`,
    followed by a word that does, no `average` can begin inside p: the word
    has no proper prefix that is also a suffix of `average`.
   */
  lemma NoAverageBefore(s: string, p: string, word: string)
    requires forall j :: 0 <= j && j + |AverageLiteral| <= |p| ==> !FoldsAt(p, j, AverageLiteral)
    requires |p| + |word| <= |s| && s[..|p|] == p && s[|p|..|p| + |word|] == word
    requires |word| == |AverageLiteral| && FoldsAt(word, 0, AverageLiteral)
    ensures forall a :: 0 <= a < |p| ==> !FoldsAt(s, a, AverageLiteral)
  {
    var k := |p|;
    forall a | 0 <= a < k ensures !FoldsAt(s, a, AverageLiteral) {
      if a + 7 <= k {
        assert !FoldsAt(p, a, AverageLiteral);
        var j :| 0 <= j < 7 && Lower(p[a + j]) != AverageLiteral[j];
        assert s[a + j] == p[a + j];
      } else {
        // `average` spelled from a would overlap the word: compare at the first clash
        var d := k - a;
        var j := if d == 4 then 5 else d;
        var u := j - d;
        assert s[a + j] == word[u];
        assert Lower(word[0 + u]) == AverageLiteral[u];
        assert Lower(s[a + j]) != AverageLiteral[j];
      }
    }
  }

  /**
    An output whose first `Average` (in any case) opens a well-formed token
    `Average <spaces> = <spaces> <digits> ms` yields exactly those digits,
    whatever follows the token.
   */
  lemma FirstTokenIsParsed(p: string, word: string, ws1: string, ws2: string, ds: string, unit: string, q: string)
    requires forall j :: 0 <= j && j + |AverageLiteral| <= |p| ==> !FoldsAt(p, j, AverageLiteral)
    requires |word| == |AverageLiteral| && FoldsAt(word, 0, AverageLiteral)
    requires SpacesIn(ws1, 0, |ws1|) && SpacesIn(ws2, 0, |ws2|)
    requires IsDigitString(ds) && 1 <= |ds|
    requires |unit| == |UnitLiteral| && FoldsAt(unit, 0, UnitLiteral)
    ensures AverageDigits(p + word + ws1 + "=" + ws2 + ds + unit + q) == Some(ds)
  {
    var s := p + word + ws1 + "=" + ws2 + ds + unit + q;
    var k := |p|;
    var eq := k + 7 + |ws1|;
    var lo := eq + 1 + |ws2|;
    var hi := lo + |ds|;
    assert s[..k] == p;
    assert s[k..k + 7] == word;
    assert s[k + 7..eq] == ws1;
    assert s[eq] == '=';
    assert s[eq + 1..lo] == ws2;
    assert s[lo..hi] == ds;
    assert s[hi..hi + 2] == unit;
    FoldsAtPiece(s, k, word, AverageLiteral);
    FoldsAtPiece(s, hi, unit, UnitLiteral);
    ClassesOfPiece(s, k + 7, ws1);
    ClassesOfPiece(s, eq + 1, ws2);
    ClassesOfPiece(s, lo, ds);
    var m := Match(k, eq, lo, hi);
    assert IsMatch(s, m);
    NoAverageBefore(s, p, word);
    SearchIsLeftmost(s);
    assert IsLeftmostMatch(s, m);
  }
}
