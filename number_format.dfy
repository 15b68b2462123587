/**
 * The thousands separators of `formatNumber` in salaryBreakDown.js:
 * `value.toFixed(2).replace(/\B(?=(\d{3})+(?!\d))/g, ",")`.
 *
 * `GroupThousands` models the regular-expression replacement as the
 * JavaScript engine performs it: every position of the string, from the
 * first to just past the last character, is matched against the original
 * text, and a comma is inserted at each position that matches. Its meaning on
 * the text `toFixed(2)` produces is given by an independent definition,
 * `DigitGroups`, and the two are proved to agree.
 */
module NumberFormat {
  import opened Strings

  predicate IsDigit(c: char) { '0' <= c <= '9' }

  /** The regular-expression word characters `\w`. */
  predicate IsWordChar(c: char) { IsDigit(c) || 'a' <= c <= 'z' || 'A' <= c <= 'Z' || c == '_' }

  predicate AllDigits(s: string) { forall k :: 0 <= k < |s| ==> IsDigit(s[k]) }

  /** The length of the longest run of digits that starts at position `i`. */
  function DigitRun(s: string, i: nat): (n: nat)
    requires i <= |s|
    ensures i + n <= |s|
    decreases |s| - i
  {
    if i < |s| && IsDigit(s[i]) then 1 + DigitRun(s, i + 1) else 0
  }

  /** `DigitRun` is the whole run: digits up to it, and no digit right after it. */
  lemma {:induction false} DigitRunMaximal(s: string, i: nat)
    requires i <= |s|
    ensures forall k :: i <= k < i + DigitRun(s, i) ==> IsDigit(s[k])
    ensures i + DigitRun(s, i) < |s| ==> !IsDigit(s[i + DigitRun(s, i)])
    decreases |s| - i
  {
    if i < |s| && IsDigit(s[i]) {
      DigitRunMaximal(s, i + 1);
    }
  }

  /** `\B` at position `i`: both neighbours are word characters or neither is (outside the string is not). */
  predicate NotBoundary(s: string, i: nat)
    requires i <= |s|
  {
    (i > 0 && IsWordChar(s[i - 1])) == (i < |s| && IsWordChar(s[i]))
  }

  /** `(?=(\d{3})+(?!\d))` at position `i`: the digits ahead number a positive multiple of three. */
  predicate ThreesAhead(s: string, i: nat)
    requires i <= |s|
  {
    var n := DigitRun(s, i);
    n > 0 && n % 3 == 0
  }

  predicate CommaAt(s: string, i: nat)
    requires i <= |s|
  {
    NotBoundary(s, i) && ThreesAhead(s, i)
  }

  /** The match flags of the regular expression at every position of `s`, all taken on the original text. */
  function Marks(s: string): (m: seq<bool>)
    ensures |m| == |s| + 1
    ensures forall k :: 0 <= k <= |s| ==> m[k] == CommaAt(s, k)
  {
    seq(|s| + 1, k requires 0 <= k <= |s| => CommaAt(s, k))
  }

  /** The replacement applied to the positions from `i` on: a comma before every flagged position. */
  function InsertCommas(s: string, marks: seq<bool>, i: nat): string
    requires |marks| == |s| + 1 && i <= |s|
    decreases |s| - i
  {
    (if marks[i] then "," else "") + (if i == |s| then "" else [s[i]] + InsertCommas(s, marks, i + 1))
  }

  /** `s.replace(/\B(?=(\d{3})+(?!\d))/g, ",")`. */
  function GroupThousands(s: string): string
  {
    InsertCommas(s, Marks(s), 0)
  }

  /** `formatNumber`; `toFixed` stands for `Number.prototype.toFixed(2)`. */
  function FormatNumber(value: real, toFixed: real -> string): string
  {
    GroupThousands(toFixed(value))
  }

  /**
   * The text `toFixed(2)` gives for a number of magnitude below 10^21: an
   * optional minus, the integer digits, a point and two decimals.
   */
  datatype Fixed = Fixed(negative: bool, intDigits: string, fracDigits: string) {
    predicate Valid()
    {
      |intDigits| >= 1 && AllDigits(intDigits) && |fracDigits| == 2 && AllDigits(fracDigits)
    }

    function Sign(): string
    {
      if negative then "-" else ""
    }

    function Text(): string
    {
      Sign() + intDigits + "." + fracDigits
    }
  }

  /** The size of the leading group of `n` digits: whatever is left over by threes, one to three digits. */
  function LeadLength(n: nat): (r: nat)
    requires n >= 1
    ensures 1 <= r <= 3 && r <= n
    ensures (n - r) % 3 == 0
  {
    (n - 1) % 3 + 1
  }

  /** `t` cut into consecutive three-character pieces. */
  function Triples(t: string): (g: seq<string>)
    requires |t| % 3 == 0
    ensures |g| == |t| / 3
    decreases |t|
  {
    if |t| == 0 then [] else [t[..3]] + Triples(t[3..])
  }

  /** The pieces of `Triples` have three characters each and spell `t`. */
  lemma {:induction false} TriplesSpell(t: string)
    requires |t| % 3 == 0
    ensures forall k :: 0 <= k < |Triples(t)| ==> |Triples(t)[k]| == 3
    ensures Concat(Triples(t)) == t
    decreases |t|
  {
    if |t| > 0 {
      var rest := Triples(t[3..]);
      TriplesSpell(t[3..]);
      assert Triples(t)[1..] == rest;
      assert t == t[..3] + t[3..];
    }
  }

  /**
   * The groups a thousands separator divides `digits` into, most significant
   * first: a leading group of one to three digits and then groups of exactly
   * three, which together spell `digits`.
   */
  function DigitGroups(digits: string): (g: seq<string>)
    requires |digits| >= 1
    ensures |g| >= 1 && 1 <= |g[0]| <= 3
    ensures forall k :: 1 <= k < |g| ==> |g[k]| == 3
    ensures Concat(g) == digits
  {
    var r := LeadLength(|digits|);
    TriplesSpell(digits[r..]);
    var g := [digits[..r]] + Triples(digits[r..]);
    assert g[1..] == Triples(digits[r..]);
    assert digits == digits[..r] + digits[r..];
    g
  }

  /**
   * `formatNumber` on a value whose `toFixed(2)` text is `d`: the text with
   * its integer digits grouped, from which deleting the commas gives `d` back.
   */
  lemma {:induction false} FormatNumberFixed(value: real, toFixed: real -> string, d: Fixed)
    requires d.Valid() && toFixed(value) == d.Text()
    ensures FormatNumber(value, toFixed)
            == d.Sign() + Join(DigitGroups(d.intDigits), ",") + "." + d.fracDigits
    ensures Strip(FormatNumber(value, toFixed), ',') == d.Text()
  {
    var s := d.Text();
    var grouped := GroupThousands(s);
    assert FormatNumber(value, toFixed) == grouped;
    assert grouped == d.Sign() + Join(DigitGroups(d.intDigits), ",") + "." + d.fracDigits by {
      GroupThousandsFixed(d);
    }
    assert ',' !in s by {
      DigitsHaveNoComma(d.intDigits);
      DigitsHaveNoComma(d.fracDigits);
    }
    assert Strip(grouped, ',') == s by {
      StripGroupThousands(s);
    }
  }

  lemma DigitsHaveNoComma(s: string)
    requires AllDigits(s)
    ensures ',' !in s
  {
    forall k | 0 <= k < |s|
      ensures s[k] != ','
    {
      assert IsDigit(s[k]);
    }
  }

  /** Deleting the inserted commas gives back any comma-free input. */
  lemma StripGroupThousands(s: string)
    requires ',' !in s
    ensures Strip(GroupThousands(s), ',') == s
  {
    StripInsertCommas(s, Marks(s), 0);
  }

  lemma {:induction false} StripInsertCommas(s: string, marks: seq<bool>, i: nat)
    requires ',' !in s
    requires |marks| == |s| + 1 && i <= |s|
    ensures Strip(InsertCommas(s, marks, i), ',') == s[i..]
    decreases |s| - i
  {
    var c: string := if marks[i] then "," else "";
    if i == |s| {
      assert InsertCommas(s, marks, i) == c;
    } else {
      var x, rest := s[i], InsertCommas(s, marks, i + 1);
      assert InsertCommas(s, marks, i) == c + ([x] + rest);
      assert x != ',' by {
        assert x in s;
      }
      StripStep(c, x, rest);
      StripInsertCommas(s, marks, i + 1);
      assert s[i..] == [x] + s[i + 1..];
    }
  }

  /** Deleting commas from an optional comma, a non-comma and the rest. */
  lemma StripStep(c: string, x: char, rest: string)
    requires c == "" || c == ","
    requires x != ','
    ensures Strip(c + ([x] + rest), ',') == [x] + Strip(rest, ',')
  {
    StripAppend(c, [x] + rest, ',');
    StripAppend([x], rest, ',');
  }

  /**
   * The shape of a fixed-point text: `o` (0 or 1) characters of sign, `n`
   * integer digits, the point and two decimals.
   */
  ghost predicate Layout(s: string, o: nat, n: nat)
  {
    o <= 1 && n >= 1 && |s| == o + n + 3 &&
    (o == 1 ==> s[0] == '-') &&
    (forall i :: o <= i < o + n ==> IsDigit(s[i])) &&
    s[o + n] == '.' && IsDigit(s[o + n + 1]) && IsDigit(s[o + n + 2])
  }

  lemma TextLayout(d: Fixed)
    requires d.Valid()
    ensures var s, o, n := d.Text(), |d.Sign()|, |d.intDigits|;
      Layout(s, o, n) && s[..o] == d.Sign() && s[o..o + n] == d.intDigits
      && s[o + n..] == "." + d.fracDigits
  {
  }

  /** Inside the integer digits, the digit run reaches exactly to the point. */
  lemma {:induction false} RunToPoint(s: string, o: nat, n: nat, i: nat)
    requires Layout(s, o, n)
    requires o <= i <= o + n
    ensures DigitRun(s, i) == o + n - i
    decreases o + n - i
  {
    if i < o + n {
      RunToPoint(s, o, n, i + 1);
    }
  }

  /** The replacement inserts a comma exactly before those integer digits, other than the first, that have a multiple of three digits from them to the point. */
  lemma {:induction false} CommaPositions(s: string, o: nat, n: nat, i: nat)
    requires Layout(s, o, n)
    requires i <= |s|
    ensures CommaAt(s, i) <==> o < i < o + n && (o + n - i) % 3 == 0
  {
    if i < o {
      assert DigitRun(s, i) == 0;
    } else if i == o {
      assert !NotBoundary(s, i);
    } else if i < o + n {
      RunToPoint(s, o, n, i);
      assert NotBoundary(s, i);
    } else if i == o + n {
      RunToPoint(s, o, n, i);
    } else {
      assert DigitRun(s, i) <= 2;
    }
  }

  /** The flags of a fixed-point text with `o` sign characters and `n` integer digits. */
  ghost predicate GroupMarks(marks: seq<bool>, o: nat, n: nat)
  {
    |marks| == o + n + 4 &&
    forall k :: 0 <= k < |marks| ==> (marks[k] <==> o < k < o + n && (o + n - k) % 3 == 0)
  }

  lemma {:induction false} FixedMarks(s: string, o: nat, n: nat)
    requires Layout(s, o, n)
    ensures GroupMarks(Marks(s), o, n)
  {
    forall k | 0 <= k <= |s|
      ensures CommaAt(s, k) <==> o < k < o + n && (o + n - k) % 3 == 0
    {
      CommaPositions(s, o, n, k);
    }
  }

  /** No flag is set in the leading group. */
  lemma {:induction false} LeadMarks(m: seq<bool>, o: nat, n: nat)
    requires GroupMarks(m, o, n) && n >= 1
    ensures forall k :: o <= k < o + LeadLength(n) ==> !m[k]
  {
    var r := LeadLength(n);
    forall k | o < k < o + r
      ensures !m[k]
    {
      assert n - (k - o) == (n - r) + (r - (k - o)) && 1 <= r - (k - o) <= 2;
      assert (o + n - k) % 3 != 0;
    }
  }

  /** No flag is set from the point on. */
  lemma {:induction false} TailMarks(m: seq<bool>, o: nat, n: nat)
    requires GroupMarks(m, o, n)
    ensures forall k :: o + n <= k < |m| ==> !m[k]
  {
  }

  /** At a group boundary after the leading group, the flag is set, and not at the next two positions. */
  lemma {:induction false} BoundaryMarks(m: seq<bool>, o: nat, n: nat, j: nat)
    requires GroupMarks(m, o, n)
    requires 1 <= j && j + 3 <= n
    requires (n - j) % 3 == 0
    ensures m[o + j] && !m[o + j + 1] && !m[o + j + 2]
  {
    assert (n - (j + 1)) % 3 == 2 && (n - (j + 2)) % 3 == 1;
  }

  /** From the point on, nothing is inserted. */
  lemma {:induction false} NoCommasAfterPoint(s: string, m: seq<bool>, i: nat)
    requires |m| == |s| + 1 && i <= |s|
    requires forall k :: i <= k < |m| ==> !m[k]
    ensures InsertCommas(s, m, i) == s[i..]
    decreases |s| - i
  {
    if i < |s| {
      NoCommasAfterPoint(s, m, i + 1);
      assert s[i..] == [s[i]] + s[i + 1..];
    }
  }

  /** Where no flag is set, the characters are copied as they are. */
  lemma {:induction false} LeadGroupPlain(s: string, m: seq<bool>, i: nat, e: nat)
    requires |m| == |s| + 1 && i <= e < |s|
    requires forall k :: i <= k < e ==> !m[k]
    ensures InsertCommas(s, m, i) == s[i..e] + InsertCommas(s, m, e)
    decreases e - i
  {
    if i < e {
      LeadGroupPlain(s, m, i + 1, e);
      assert s[i..e] == [s[i]] + s[i + 1..e];
    }
  }

  /** At a set flag followed by two unset ones: a comma, then three characters. */
  lemma {:induction false} GroupOfThree(s: string, m: seq<bool>, i: nat)
    requires |m| == |s| + 1 && i + 3 <= |s|
    requires m[i] && !m[i + 1] && !m[i + 2]
    ensures InsertCommas(s, m, i) == "," + s[i..i + 3] + InsertCommas(s, m, i + 3)
  {
    var rest := InsertCommas(s, m, i + 3);
    assert InsertCommas(s, m, i + 2) == [s[i + 2]] + rest;
    assert InsertCommas(s, m, i + 1) == [s[i + 1]] + ([s[i + 2]] + rest);
    assert InsertCommas(s, m, i) == "," + ([s[i]] + ([s[i + 1]] + ([s[i + 2]] + rest)));
    assert s[i..i + 3] == [s[i]] + [s[i + 1]] + [s[i + 2]];
  }

  /** Joining triples with leading commas, one triple at a time. */
  lemma PrefixedTriples(t: string)
    requires |t| >= 3 && |t| % 3 == 0
    ensures Prefixed(Triples(t), ",") == "," + t[..3] + Prefixed(Triples(t[3..]), ",")
  {
  }

  /** From the end of the leading group on, a comma precedes every three digits. */
  lemma {:induction false} LaterGroupsCommaLed(s: string, m: seq<bool>, o: nat, n: nat, j: nat)
    requires |s| == o + n + 3 && GroupMarks(m, o, n) && n >= 1
    requires LeadLength(n) <= j <= n
    requires (n - j) % 3 == 0
    ensures InsertCommas(s, m, o + j) == Prefixed(Triples(s[o + j..o + n]), ",") + s[o + n..]
    decreases n - j
  {
    if j == n {
      TailMarks(m, o, n);
      NoCommasAfterPoint(s, m, o + n);
      assert s[o + j..o + n] == [];
    } else {
      var i := o + j;
      var t := s[i..o + n];
      BoundaryMarks(m, o, n, j);
      GroupOfThree(s, m, i);
      LaterGroupsCommaLed(s, m, o, n, j + 3);
      PrefixedTriples(t);
      assert t[..3] == s[i..i + 3] && t[3..] == s[i + 3..o + n];
    }
  }

  /** The whole integer part: the leading group as it is, then the comma-led triples. */
  lemma {:induction false} IntegerPart(s: string, m: seq<bool>, o: nat, n: nat)
    requires |s| == o + n + 3 && GroupMarks(m, o, n) && n >= 1
    ensures var r := LeadLength(n);
      InsertCommas(s, m, o) == s[o..o + r] + Prefixed(Triples(s[o + r..o + n]), ",") + s[o + n..]
  {
    var r := LeadLength(n);
    var lead, later := s[o..o + r], InsertCommas(s, m, o + r);
    var commaLed, tail := Prefixed(Triples(s[o + r..o + n]), ","), s[o + n..];
    assert InsertCommas(s, m, o) == lead + later by {
      LeadMarks(m, o, n);
      LeadGroupPlain(s, m, o, o + r);
    }
    assert later == commaLed + tail by {
      LaterGroupsCommaLed(s, m, o, n, r);
    }
    assert lead + (commaLed + tail) == lead + commaLed + tail;
  }

  /** The sign is copied without a comma after it. */
  lemma {:induction false} SignPart(s: string, m: seq<bool>, o: nat)
    requires |m| == |s| + 1 && o <= 1 && o < |s|
    requires o == 1 ==> !m[0]
    ensures InsertCommas(s, m, 0) == s[..o] + InsertCommas(s, m, o)
  {
    if o == 1 {
      assert s[..1] == [s[0]];
    }
  }

  /** The groups joined by commas, written out as the leading group and the comma-led triples. */
  lemma JoinDigitGroups(digits: string)
    requires |digits| >= 1
    ensures var r := LeadLength(|digits|);
      Join(DigitGroups(digits), ",") == digits[..r] + Prefixed(Triples(digits[r..]), ",")
  {
  }

  /** The integer digits of a fixed-point text, written as their groups joined by commas. */
  lemma {:induction false} IntegerGroups(s: string, m: seq<bool>, o: nat, n: nat, digits: string, tail: string)
    requires |s| == o + n + 3 && GroupMarks(m, o, n) && n >= 1
    requires s[o..o + n] == digits && s[o + n..] == tail
    ensures InsertCommas(s, m, o) == Join(DigitGroups(digits), ",") + tail
  {
    var r := LeadLength(n);
    var commaLed := Prefixed(Triples(s[o + r..o + n]), ",");
    assert InsertCommas(s, m, o) == s[o..o + r] + commaLed + tail by {
      IntegerPart(s, m, o, n);
    }
    assert Join(DigitGroups(digits), ",") == s[o..o + r] + commaLed by {
      JoinDigitGroupsAt(s, o, n);
    }
  }

  /** `JoinDigitGroups` for the digits at positions `o` to `o + n` of `s`. */
  lemma {:induction false} JoinDigitGroupsAt(s: string, o: nat, n: nat)
    requires n >= 1 && o + n <= |s|
    ensures var r := LeadLength(n);
      Join(DigitGroups(s[o..o + n]), ",") == s[o..o + r] + Prefixed(Triples(s[o + r..o + n]), ",")
  {
    var digits, r := s[o..o + n], LeadLength(n);
    assert digits[..r] == s[o..o + r] && digits[r..] == s[o + r..o + n];
    JoinDigitGroups(digits);
  }

  /** A text with a sign, `n` digits and a tail, when its flags are those of a fixed-point text. */
  lemma {:induction false} InsertCommasFixed(s: string, m: seq<bool>, o: nat, n: nat, sign: string, digits: string, tail: string)
    requires |s| == o + n + 3 && GroupMarks(m, o, n) && o <= 1 && n >= 1
    requires s[..o] == sign && s[o..o + n] == digits && s[o + n..] == tail
    ensures InsertCommas(s, m, 0) == sign + Join(DigitGroups(digits), ",") + tail
  {
    var joined := Join(DigitGroups(digits), ",");
    var inner := InsertCommas(s, m, o);
    assert inner == joined + tail by {
      IntegerGroups(s, m, o, n, digits, tail);
    }
    assert InsertCommas(s, m, 0) == sign + inner by {
      assert o == 1 ==> !m[0];
      SignPart(s, m, o);
    }
    assert sign + (joined + tail) == sign + joined + tail;
  }

  /** The flags of the text `toFixed(2)` produces. */
  lemma {:induction false} FixedTextMarks(d: Fixed)
    requires d.Valid()
    ensures var s, o, n := d.Text(), |d.Sign()|, |d.intDigits|;
      |s| == o + n + 3 && GroupMarks(Marks(s), o, n) && s[..o] == d.Sign()
      && s[o..o + n] == d.intDigits && s[o + n..] == "." + d.fracDigits
  {
    TextLayout(d);
    FixedMarks(d.Text(), |d.Sign()|, |d.intDigits|);
  }

  /**
   * On the text `toFixed(2)` produces, the replacement keeps the sign and the
   * decimals and writes the integer digits as their groups joined by commas.
   */
  lemma {:induction false} GroupThousandsFixed(d: Fixed)
    requires d.Valid()
    ensures GroupThousands(d.Text())
            == d.Sign() + Join(DigitGroups(d.intDigits), ",") + "." + d.fracDigits
  {
    var s, tail := d.Text(), "." + d.fracDigits;
    var joined := Join(DigitGroups(d.intDigits), ",");
    assert InsertCommas(s, Marks(s), 0) == d.Sign() + joined + tail by {
      FixedTextMarks(d);
      InsertCommasFixed(s, Marks(s), |d.Sign()|, |d.intDigits|, d.Sign(), d.intDigits, tail);
    }
    assert d.Sign() + joined + tail == d.Sign() + joined + "." + d.fracDigits;
  }

  /**
   * What the replacement does to a fixed-point text: the comma-separated
   * pieces of the integer part are its digit groups (the first of one to
   * three digits, every later one of exactly three), and a comma occurs
   * only inside the integer part, never first and never right after the
   * minus.
   */
  lemma {:induction false} GroupedLayout(d: Fixed)
    requires d.Valid()
    ensures var o, g := |d.Sign()|, Join(DigitGroups(d.intDigits), ",");
      var r := GroupThousands(d.Text());
      |r| == o + |g| + 3 &&
      r[..o] == d.Sign() &&
      r[o..o + |g|] == g &&
      Split(g, ',') == DigitGroups(d.intDigits) &&
      r[o + |g|..] == "." + d.fracDigits &&
      (forall p :: 0 <= p < |r| && r[p] == ',' ==> o < p < o + |g|)
  {
    var groups := DigitGroups(d.intDigits);
    var o := |d.Sign()|;
    var g := Join(groups, ",");
    GroupThousandsFixed(d);
    var r := GroupThousands(d.Text());
    var tail := "." + d.fracDigits;
    assert r == d.Sign() + g + tail;
    forall k | 0 <= k < |groups|
      ensures ',' !in groups[k]
    {
      GroupsAreDigits(groups, k);
    }
    SplitJoin(groups, ',');
    GroupsAreDigits(groups, 0);
    assert g[0] == groups[0][0];
    forall p | 0 <= p < |r|
      ensures r[p] == ',' ==> o < p < o + |g|
    {
      if p < o {
        assert r[p] == '-';
      } else if p == o {
        assert r[p] == g[0];
        assert IsDigit(groups[0][0]);
      } else if p >= o + |g| {
        assert r[p] == tail[p - o - |g|];
        assert p - o - |g| == 0 || IsDigit(d.fracDigits[p - o - |g| - 1]);
      }
    }
  }

  /** The groups of an all-digit text are all digits. */
  lemma {:induction false} GroupsAreDigits(groups: seq<string>, k: nat)
    requires AllDigits(Concat(groups))
    requires k < |groups|
    ensures AllDigits(groups[k]) && ',' !in groups[k]
  {
    var c := Concat(groups);
    assert c == groups[0] + Concat(groups[1..]);
    if k == 0 {
      assert forall q :: 0 <= q < |groups[0]| ==> groups[0][q] == c[q];
    } else {
      assert forall q :: 0 <= q < |Concat(groups[1..])| ==> Concat(groups[1..])[q] == c[|groups[0]| + q];
      GroupsAreDigits(groups[1..], k - 1);
    }
    assert forall q :: 0 <= q < |groups[k]| ==> groups[k][q] != ',';
  }

  /** The groups of 2307: a leading "2", then "307". */
  lemma {:induction false} WeeklyGroups()
    ensures Join(DigitGroups("2307"), ",") == "2,307"
  {
    assert "2307"[..1] == "2" && "2307"[1..] == "307";
    assert "307"[..3] == "307" && "307"[3..] == "";
    assert Triples("307") == ["307"];
    assert DigitGroups("2307") == ["2", "307"];
  }

  /** `formatNumber(2307.69)` is "2,307.69" (weekly take-home pay of 120000 over 52 weeks). */
  lemma {:induction false} WeeklyExample(s: string)
    requires s == "2307.69"
    ensures GroupThousands(s) == "2,307" + ".69"
  {
    var d := Fixed(false, "2307", "69");
    assert d.Valid() && d.Text() == s;
    GroupThousandsFixed(d);
    WeeklyGroups();
  }

  /** The groups of 123456: two groups of three. */
  lemma {:induction false} SixDigitGroups()
    ensures Join(DigitGroups("123456"), ",") == "123,456"
  {
    assert "123456"[..3] == "123" && "123456"[3..] == "456";
    assert "456"[..3] == "456" && "456"[3..] == "";
    assert Triples("456") == ["456"];
    assert DigitGroups("123456") == ["123", "456"];
  }

  /**
   * A negative amount whose digit count is a multiple of three: the position
   * between the minus and the first digit is a word boundary, so no comma
   * goes there.
   */
  lemma {:induction false} NegativeExample(s: string)
    requires s == "-123456.00"
    ensures GroupThousands(s) == "-" + "123,456" + ".00"
  {
    var d := Fixed(true, "123456", "00");
    assert d.Valid() && d.Text() == s;
    GroupThousandsFixed(d);
    SixDigitGroups();
  }
}
