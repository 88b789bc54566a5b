/** The pieces of Python string machinery the report relies on:
    `str(n)` of a non-negative integer, and `sep.join(parts)` for a
    one-character separator. Each comes with its inverse, so the rendered
    text is shown to keep the information put into it. */
module Text {

  predicate IsDigit(c: char) {
    '0' <= c <= '9'
  }

  predicate AllDigits(s: string) {
    forall i :: 0 <= i < |s| ==> IsDigit(s[i])
  }

  function DigitChar(d: nat): (c: char)
    requires d < 10
    ensures IsDigit(c) && c as int - '0' as int == d
  {
    ('0' as int + d) as char
  }

  /** Decimal rendering of a count, as `str(n)` / an f-string gives it:
      only digits, and no leading zero unless the count is zero. */
  function NatToString(n: nat): (s: string)
    ensures |s| >= 1 && AllDigits(s)
    ensures s[0] == '0' ==> n == 0
    decreases n
  {
    if n < 10 then [DigitChar(n)] else NatToString(n / 10) + [DigitChar(n % 10)]
  }

  /** The number a string of decimal digits denotes (its reader). */
  function DigitsValue(s: string): nat
    requires AllDigits(s)
    decreases |s|
  {
    if s == [] then 0
    else DigitsValue(s[..|s| - 1]) * 10 + (s[|s| - 1] as int - '0' as int)
  }

  /** Reading back a rendered count gives the count. */
  lemma {:induction false} DigitsValueOfNatToString(n: nat)
    ensures DigitsValue(NatToString(n)) == n
    decreases n
  {
    if n >= 10 {
      var s := NatToString(n);
      assert s[..|s| - 1] == NatToString(n / 10);
      DigitsValueOfNatToString(n / 10);
    }
  }

  /** Two different counts never render to the same text. */
  lemma NatToStringInjective(a: nat, b: nat)
    requires NatToString(a) == NatToString(b)
    ensures a == b
  {
    DigitsValueOfNatToString(a);
    DigitsValueOfNatToString(b);
  }

  /** A rendered count followed by text that starts with a non-digit can be
      read back unambiguously: both the count and the rest are determined. */
  lemma NatToStringPrefixUnique(a: nat, b: nat, u: string, v: string)
    requires |u| > 0 && |v| > 0 && !IsDigit(u[0]) && !IsDigit(v[0])
    requires NatToString(a) + u == NatToString(b) + v
    ensures a == b && u == v
  {
    var x, y := NatToString(a), NatToString(b);
    var s := x + u;
    assert (forall i :: 0 <= i < |x| ==> IsDigit(s[i])) && !IsDigit(s[|x|]);
    assert (forall i :: 0 <= i < |y| ==> IsDigit(s[i])) && !IsDigit(s[|y|]) by {
      assert s == y + v;
    }
    assert x == s[..|x|] == y;
    NatToStringInjective(a, b);
    assert u == s[|x|..] == v;
  }

  /** The part of `s` that is not the character `sep`. */
  predicate NoSep(s: string, sep: char) {
    forall i :: 0 <= i < |s| ==> s[i] != sep
  }

  predicate NoNewline(s: string) {
    NoSep(s, '\n')
  }

  /** How often `c` occurs in `s`. */
  function CountChar(s: string, c: char): nat
    decreases |s|
  {
    if s == [] then 0 else (if s[0] == c then 1 else 0) + CountChar(s[1..], c)
  }

  lemma {:induction false} CountCharAppend(a: string, b: string, c: char)
    ensures CountChar(a + b, c) == CountChar(a, c) + CountChar(b, c)
    decreases |a|
  {
    if a == [] {
      assert a + b == b;
    } else {
      assert (a + b)[1..] == a[1..] + b;
      CountCharAppend(a[1..], b, c);
    }
  }

  lemma {:induction false} CountCharNoSep(s: string, c: char)
    ensures NoSep(s, c) ==> CountChar(s, c) == 0
    decreases |s|
  {
    if s != [] && NoSep(s, c) {
      CountCharNoSep(s[1..], c);
    }
  }

  /** `sep.join(parts)`: the parts with one separator between neighbours.
      When no part holds the separator, the result holds exactly one
      separator fewer than there are parts. */
  function Join(parts: seq<string>, sep: char): (r: string)
    ensures |parts| >= 1 && (forall i :: 0 <= i < |parts| ==> NoSep(parts[i], sep)) ==>
      CountChar(r, sep) == |parts| - 1
    decreases |parts|
  {
    if |parts| == 0 then ""
    else if |parts| == 1 then
      CountCharNoSep(parts[0], sep);
      parts[0]
    else
      var rest := Join(parts[1..], sep);
      assert parts[0] + [sep] + rest == parts[0] + ([sep] + rest);
      assert [sep][1..] == [];
      CountCharAppend(parts[0], [sep] + rest, sep);
      CountCharAppend([sep], rest, sep);
      CountCharNoSep(parts[0], sep);
      parts[0] + [sep] + rest
  }

  /** Index of the first `sep` in `s`, or `|s|` when there is none. */
  function SepIndex(s: string, sep: char): (k: nat)
    ensures k <= |s| && NoSep(s[..k], sep)
    ensures k < |s| ==> s[k] == sep
    decreases |s|
  {
    if s == [] || s[0] == sep then 0
    else
      var k := SepIndex(s[1..], sep);
      assert s[..1 + k] == [s[0]] + s[1..][..k];
      1 + k
  }

  /** `s.split(sep)`: the pieces between separators (always at least one). */
  function Split(s: string, sep: char): (parts: seq<string>)
    ensures |parts| >= 1
    decreases |s|
  {
    var k := SepIndex(s, sep);
    if k == |s| then [s] else [s[..k]] + Split(s[k + 1..], sep)
  }

  /** Splitting a piece without separator, a separator and a tail gives the
      piece followed by the pieces of the tail. */
  lemma SepIndexAfter(r: string, t: string, sep: char)
    requires NoSep(r, sep)
    ensures SepIndex(r + [sep] + t, sep) == |r|
  {
    var s := r + [sep] + t;
    assert s[|r|] == sep;
  }

  lemma SplitCons(r: string, t: string, sep: char)
    requires NoSep(r, sep)
    ensures Split(r + [sep] + t, sep) == [r] + Split(t, sep)
  {
    var s := r + [sep] + t;
    SepIndexAfter(r, t, sep);
    assert s[..|r|] == r;
    assert s[|r| + 1..] == t;
  }

  /** SplitCons with the pieces of the tail already known. */
  lemma SplitConsThen(r: string, t: string, sep: char, rest: seq<string>)
    requires NoSep(r, sep) && Split(t, sep) == rest
    ensures Split(r + [sep] + t, sep) == [r] + rest
  {
    SplitCons(r, t, sep);
  }

  /** Joining parts that hold no separator and splitting the result gives
      the same parts back. */
  lemma {:induction false} SplitJoin(parts: seq<string>, sep: char)
    requires |parts| >= 1
    requires forall i :: 0 <= i < |parts| ==> NoSep(parts[i], sep)
    ensures Split(Join(parts, sep), sep) == parts
    decreases |parts|
  {
    if |parts| > 1 {
      SplitCons(parts[0], Join(parts[1..], sep), sep);
      SplitJoin(parts[1..], sep);
    }
  }

  /** A joined block followed by a separator and more text splits into the
      block's parts and then the pieces of the text. */
  lemma JoinUnfoldThen(parts: seq<string>, t: string, sep: char)
    requires |parts| >= 2
    ensures Join(parts, sep) + [sep] + t == parts[0] + [sep] + (Join(parts[1..], sep) + [sep] + t)
  {
  }

  lemma {:induction false} SplitJoinThen(parts: seq<string>, t: string, sep: char)
    requires |parts| >= 1
    requires forall i :: 0 <= i < |parts| ==> NoSep(parts[i], sep)
    ensures Split(Join(parts, sep) + [sep] + t, sep) == parts + Split(t, sep)
    decreases |parts|
  {
    if |parts| == 1 {
      assert parts == [parts[0]];
      SplitCons(parts[0], t, sep);
    } else {
      SplitJoinThen(parts[1..], t, sep);
      SplitJoinThenStep(parts, t, sep);
    }
  }

  lemma SplitJoinThenStep(parts: seq<string>, t: string, sep: char)
    requires |parts| >= 2 && NoSep(parts[0], sep)
    requires Split(Join(parts[1..], sep) + [sep] + t, sep) == parts[1..] + Split(t, sep)
    ensures Split(Join(parts, sep) + [sep] + t, sep) == parts + Split(t, sep)
  {
    var after := Join(parts[1..], sep) + [sep] + t;
    JoinUnfoldThen(parts, t, sep);
    SplitCons(parts[0], after, sep);
    assert parts == [parts[0]] + parts[1..];
  }

  /** A piece without separator splits to itself. */
  lemma SplitNoSep(s: string, sep: char)
    requires NoSep(s, sep)
    ensures Split(s, sep) == [s]
  {
  }

  lemma JoinCons(c: seq<string>, sep: char)
    requires |c| >= 2
    ensures Join(c, sep) == c[0] + [sep] + Join(c[1..], sep)
  {
  }

  /** One step of unfolding a join from the back: a suffix of the parts
      joins to its first part, the separator and the join of the rest. */
  lemma JoinSuffixStep(c: seq<string>, i: nat, sep: char, rest: string)
    requires i + 1 < |c| && Join(c[i + 1..], sep) == rest
    ensures Join(c[i..], sep) == c[i] + ([sep] + rest)
  {
    JoinCons(c[i..], sep);
    assert c[i..][1..] == c[i + 1..];
  }

  /** A seven-part join written out. */
  lemma JoinSeven(c: seq<string>, sep: char)
    requires |c| == 7
    ensures Join(c, sep)
      == c[0] + ([sep] + (c[1] + ([sep] + (c[2] + ([sep] + (c[3] + ([sep] + (c[4] + ([sep] + (c[5] + ([sep] + c[6])))))))))))
  {
    var s := [sep];
    var j5 := c[5] + (s + c[6]);
    var j4 := c[4] + (s + j5);
    var j3 := c[3] + (s + j4);
    var j2 := c[2] + (s + j3);
    var j1 := c[1] + (s + j2);
    assert Join(c[6..], sep) == c[6];
    JoinSuffixStep(c, 5, sep, c[6]);
    JoinSuffixStep(c, 4, sep, j5);
    JoinSuffixStep(c, 3, sep, j4);
    JoinSuffixStep(c, 2, sep, j3);
    JoinSuffixStep(c, 1, sep, j2);
    JoinSuffixStep(c, 0, sep, j1);
    assert c[0..] == c;
  }

  lemma NoSepAppend(a: string, b: string, sep: char)
    requires NoSep(a, sep) && NoSep(b, sep)
    ensures NoSep(a + b, sep)
  {
    assert forall i :: 0 <= i < |a + b| ==> (a + b)[i] == if i < |a| then a[i] else b[i - |a|];
  }

  lemma DigitsHaveNoNewline(s: string)
    requires AllDigits(s)
    ensures NoNewline(s)
  {
    assert forall i :: 0 <= i < |s| ==> IsDigit(s[i]) && s[i] != '\n';
  }
}
