/**
 * String helpers with JavaScript's meaning: `Array.prototype.join`, and the
 * splitting and comma deletion that are used to state what a joined or
 * comma-grouped string contains.
 */
module Strings {

  /** `parts.join(sep)`: the parts in order with `sep` between neighbours; `[]` joins to "". */
  function Join(parts: seq<string>, sep: string): string
  {
    if |parts| == 0 then "" else parts[0] + Prefixed(parts[1..], sep)
  }

  /** Every part preceded by `sep`: the tail of a join. */
  function Prefixed(parts: seq<string>, sep: string): string
  {
    if |parts| == 0 then "" else sep + parts[0] + Prefixed(parts[1..], sep)
  }

  /** The parts concatenated with nothing between them. */
  function Concat(parts: seq<string>): string
  {
    if |parts| == 0 then "" else parts[0] + Concat(parts[1..])
  }

  /** `s.split(c)`: the maximal pieces of `s` between occurrences of `c`. */
  function Split(s: string, c: char): (r: seq<string>)
    ensures |r| >= 1
    ensures forall k :: 0 <= k < |r| ==> c !in r[k]
  {
    if |s| == 0 then [""]
    else
      var rest := Split(s[1..], c);
      if s[0] == c then [""] + rest else [[s[0]] + rest[0]] + rest[1..]
  }

  /** `s` with every occurrence of `c` deleted. */
  function Strip(s: string, c: char): (r: string)
    ensures c !in r
    ensures |r| <= |s|
  {
    if |s| == 0 then ""
    else if s[0] == c then Strip(s[1..], c)
    else [s[0]] + Strip(s[1..], c)
  }

  /** Pieces free of `c`, joined with `c`, split back into the same pieces. */
  lemma {:induction false} SplitJoin(parts: seq<string>, c: char)
    requires |parts| >= 1
    requires forall k :: 0 <= k < |parts| ==> c !in parts[k]
    ensures Split(Join(parts, [c]), c) == parts
  {
    var tail := Prefixed(parts[1..], [c]);
    SplitPrefixed(parts[1..], c);
    SplitAppend(parts[0], tail, c);
    assert Split(tail, c)[0] == "" && Split(tail, c)[1..] == parts[1..];
    assert parts[0] + "" == parts[0];
    assert [parts[0]] + parts[1..] == parts;
  }

  lemma {:induction false} SplitPrefixed(parts: seq<string>, c: char)
    requires forall k :: 0 <= k < |parts| ==> c !in parts[k]
    ensures Split(Prefixed(parts, [c]), c) == [""] + parts
  {
    if |parts| == 0 {
      assert [""] + parts == [""];
    } else {
      var tail := Prefixed(parts[1..], [c]);
      SplitPrefixed(parts[1..], c);
      SplitAppend(parts[0], tail, c);
      assert Split(tail, c)[0] == "" && Split(tail, c)[1..] == parts[1..];
      assert parts[0] + "" == parts[0];
      var s := [c] + parts[0] + tail;
      assert s == Prefixed(parts, [c]);
      assert s[0] == c && s[1..] == parts[0] + tail;
      assert Split(s[1..], c) == [parts[0]] + parts[1..] == parts;
      assert Split(s, c) == [""] + Split(s[1..], c);
    }
  }

  /** A `c`-free prefix extends the first piece of the split. */
  lemma {:induction false} SplitAppend(a: string, t: string, c: char)
    requires c !in a
    ensures Split(a + t, c) == [a + Split(t, c)[0]] + Split(t, c)[1..]
  {
    var st := Split(t, c);
    if |a| > 0 {
      SplitAppend(a[1..], t, c);
      var rest := Split(a[1..] + t, c);
      assert rest == [a[1..] + st[0]] + st[1..];
      assert (a + t)[1..] == a[1..] + t;
      assert (a + t)[0] == a[0] && a[0] != c;
      assert Split(a + t, c) == [[a[0]] + rest[0]] + rest[1..];
      assert rest[0] == a[1..] + st[0] && rest[1..] == st[1..];
      assert [a[0]] + (a[1..] + st[0]) == a + st[0];
    } else {
      assert a + t == t;
      assert a + st[0] == st[0];
      assert st == [st[0]] + st[1..];
    }
  }

  /** Deleting `c` distributes over concatenation. */
  lemma {:induction false} StripAppend(a: string, b: string, c: char)
    ensures Strip(a + b, c) == Strip(a, c) + Strip(b, c)
  {
    if |a| > 0 {
      StripAppend(a[1..], b, c);
      assert (a + b)[1..] == a[1..] + b;
      assert (a + b)[0] == a[0];
    } else {
      assert a + b == b;
    }
  }

  /** The length of a join: the parts' lengths plus one separator between each two neighbours. */
  lemma {:induction false} JoinLength(parts: seq<string>, sep: string)
    requires |parts| >= 1
    ensures |Join(parts, sep)| == |Concat(parts)| + (|parts| - 1) * |sep|
  {
    PrefixedLength(parts[1..], sep);
  }

  lemma {:induction false} PrefixedLength(parts: seq<string>, sep: string)
    ensures |Prefixed(parts, sep)| == |Concat(parts)| + |parts| * |sep|
  {
    if |parts| > 0 {
      PrefixedLength(parts[1..], sep);
    }
  }
}
