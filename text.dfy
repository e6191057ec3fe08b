/** String helpers the SQL renderers and the host parser are stated with: prefix, suffix and
    infix tests, Python's `sep.join(...)` and `str.split(c)`, and Python's `str()` on integers. */
module Text {

  predicate StartsWith(s: string, p: string) {
    |p| <= |s| && s[..|p|] == p
  }

  predicate EndsWith(s: string, p: string) {
    |p| <= |s| && s[|s| - |p|..] == p
  }

  /** w occurs in s at offset i. */
  predicate OccursAt(s: string, w: string, i: int) {
    0 <= i && i + |w| <= |s| && s[i..i + |w|] == w
  }

  /** Python's `w in s` for strings. */
  predicate Contains(s: string, w: string) {
    exists i :: 0 <= i <= |s| - |w| && OccursAt(s, w, i)
  }

  lemma PrefixOfConcat(a: string, b: string)
    ensures StartsWith(a + b, a)
  {
    assert (a + b)[..|a|] == a;
  }

  lemma SuffixOfConcat(a: string, b: string)
    ensures EndsWith(a + b, b)
  {
    assert (a + b)[|a + b| - |b|..] == b;
  }

  lemma ContainsInfix(a: string, w: string, b: string)
    ensures Contains(a + w + b, w)
  {
    var s := a + w + b;
    assert s[|a|..|a| + |w|] == w;
    assert OccursAt(s, w, |a|);
  }

  /** A prefix stays a prefix when the text grows at its end. */
  lemma PrefixExtend(s: string, p: string, t: string)
    requires StartsWith(s, p)
    ensures StartsWith(s + t, p)
  {
    assert (s + t)[..|p|] == s[..|p|];
  }

  /** An occurrence stays an occurrence when the text grows at its end. */
  lemma ContainsAppend(s: string, w: string, u: string)
    requires Contains(s, w)
    ensures Contains(s + u, w)
  {
    var i :| 0 <= i <= |s| - |w| && OccursAt(s, w, i);
    assert (s + u)[i..i + |w|] == s[i..i + |w|];
    assert OccursAt(s + u, w, i);
  }

  /** An occurrence stays an occurrence when the text grows at its start. */
  lemma ContainsPrepend(t: string, s: string, w: string)
    requires Contains(s, w)
    ensures Contains(t + s, w)
  {
    var i :| 0 <= i <= |s| - |w| && OccursAt(s, w, i);
    assert (t + s)[|t| + i..|t| + i + |w|] == s[i..i + |w|];
    assert OccursAt(t + s, w, |t| + i);
  }

  lemma ContainsSuffix(a: string, w: string)
    ensures Contains(a + w, w)
  {
    assert (a + w)[|a|..|a| + |w|] == w;
    assert OccursAt(a + w, w, |a|);
  }

  /** A word without the separator character cannot straddle a seam next to which the separator
      stands: it occurs in the joined text only if it occurs in one of the two sides. */
  lemma ConcatAtSep(a: string, b: string, sep: char, w: string)
    requires |w| > 0 && sep !in w
    requires (|a| > 0 && a[|a| - 1] == sep) || (|b| > 0 && b[0] == sep)
    requires !Contains(a, w) && !Contains(b, w)
    ensures !Contains(a + b, w)
  {
    var s := a + b;
    forall i | 0 <= i <= |s| - |w|
      ensures !OccursAt(s, w, i)
    {
      if i + |w| <= |a| {
        assert s[i..i + |w|] == a[i..i + |w|];
        assert !OccursAt(a, w, i);
      } else if i >= |a| {
        var j := i - |a|;
        assert s[i..i + |w|] == b[j..j + |w|];
        assert !OccursAt(b, w, j);
      } else if |a| > 0 && a[|a| - 1] == sep {
        assert s[i..i + |w|][|a| - 1 - i] == sep;
      } else {
        assert s[i..i + |w|][|a| - i] == sep;
      }
    }
  }

  /** Python's `sep.join(parts)`. */
  function JoinWith(parts: seq<string>, sep: string): string {
    if |parts| == 0 then ""
    else if |parts| == 1 then parts[0]
    else parts[0] + sep + JoinWith(parts[1..], sep)
  }

  /** Every part occurs in the joined text. */
  lemma {:induction false} JoinHasPart(ws: seq<string>, k: nat, sep: string)
    requires k < |ws|
    ensures Contains(JoinWith(ws, sep), ws[k])
  {
    if |ws| == 1 {
      ContainsSuffix("", ws[0]);
      assert "" + ws[0] == ws[0];
    } else if k == 0 {
      ContainsSuffix("", ws[0]);
      assert "" + ws[0] == ws[0];
      ContainsAppend(ws[0], ws[0], sep + JoinWith(ws[1..], sep));
      assert ws[0] + (sep + JoinWith(ws[1..], sep)) == JoinWith(ws, sep);
    } else {
      JoinHasPart(ws[1..], k - 1, sep);
      ContainsPrepend(ws[0] + sep, JoinWith(ws[1..], sep), ws[k]);
    }
  }

  /** Python's `s.split(sep)` for a one-character separator. */
  function Split(s: string, sep: char): (parts: seq<string>)
    ensures |parts| > 0
    decreases |s|
  {
    if |s| == 0 then [""]
    else
      var rest := Split(s[1..], sep);
      if s[0] == sep then [""] + rest else [[s[0]] + rest[0]] + rest[1..]
  }

  /** Joining the parts again gives back the split text. */
  lemma {:induction false} SplitJoin(s: string, sep: char)
    ensures JoinWith(Split(s, sep), [sep]) == s
  {
    if |s| > 0 {
      var rest := Split(s[1..], sep);
      SplitJoin(s[1..], sep);
      assert s == [s[0]] + s[1..];
      if s[0] == sep {
        var parts := [""] + rest;
        assert parts[0] == "" && parts[1..] == rest;
      } else {
        var parts := [[s[0]] + rest[0]] + rest[1..];
        assert parts[0] == [s[0]] + rest[0] && parts[1..] == rest[1..];
        if |rest| > 1 {
          assert JoinWith(rest, [sep]) == rest[0] + [sep] + JoinWith(rest[1..], [sep]);
        }
      }
    }
  }

  /** No part holds the separator. */
  lemma {:induction false} SplitPartsFree(s: string, sep: char)
    ensures forall k :: 0 <= k < |Split(s, sep)| ==> sep !in Split(s, sep)[k]
  {
    if |s| > 0 {
      SplitPartsFree(s[1..], sep);
    }
  }

  /** There is one part more than there are separators. */
  lemma {:induction false} SplitCount(s: string, sep: char)
    ensures |Split(s, sep)| == multiset(s)[sep] + 1
  {
    if |s| > 0 {
      SplitCount(s[1..], sep);
      assert s == [s[0]] + s[1..];
      assert multiset(s) == multiset([s[0]]) + multiset(s[1..]);
    }
  }

  /** Splitting at a first separator: the text before it is the first part. */
  lemma {:induction false} SplitAt(a: string, sep: char, b: string)
    requires sep !in a
    ensures Split(a + [sep] + b, sep) == [a] + Split(b, sep)
    decreases |a|
  {
    var s := a + [sep] + b;
    if |a| == 0 {
      assert s == [sep] + b && s[1..] == b;
    } else {
      assert s[0] == a[0] && s[1..] == a[1..] + [sep] + b;
      SplitAt(a[1..], sep, b);
      assert [a[0]] + a[1..] == a;
    }
  }

  /** A text without the separator is one part. */
  lemma SplitNoSep(s: string, sep: char)
    requires sep !in s
    ensures Split(s, sep) == [s]
  {
    SplitCount(s, sep);
    SplitJoin(s, sep);
  }

  /** Python's `str()` of a non-negative integer: decimal digits, no leading zero. */
  function NatToDecimal(n: nat): (s: string)
    ensures |s| > 0
    ensures forall k :: 0 <= k < |s| ==> '0' <= s[k] <= '9'
  {
    if n < 10 then [Digit(n)] else NatToDecimal(n / 10) + [Digit(n % 10)]
  }

  function Digit(d: int): (c: char)
    requires 0 <= d < 10
    ensures '0' <= c <= '9' && c as int - '0' as int == d
  {
    ('0' as int + d) as char
  }

  /** Python's `str()` of an integer. */
  function IntToDecimal(n: int): string {
    if n < 0 then "-" + NatToDecimal(-n) else NatToDecimal(n)
  }

  /** A rendered integer holds only digits and the minus sign. */
  lemma DecimalChars(n: int, c: char)
    requires !('0' <= c <= '9') && c != '-'
    ensures c !in IntToDecimal(n)
  {
    if n < 0 {
      assert IntToDecimal(n) == "-" + NatToDecimal(-n);
    }
  }
}
