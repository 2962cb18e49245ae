/** Python's `str` operations that the agent handlers and the tool layer rely on:
    substring test (`in`), first-occurrence search (`split(sep, 1)`), `strip()`,
    ASCII `lower()` and the `<=` ordering of strings. */
module Text {

  datatype Option<T> = None | Some(value: T)

  /** `p` occurs in `s` starting at position `i`. */
  predicate OccursAt(s: string, p: string, i: int)
  {
    0 <= i && i + |p| <= |s| && s[i..i + |p|] == p
  }

  /** Python's `p in s`. */
  predicate Contains(s: string, p: string)
  {
    exists i | 0 <= i <= |s| - |p| :: OccursAt(s, p, i)
  }

  lemma OccursShift(s: string, p: string, j: int)
    requires |s| > 0 && j >= 0
    ensures OccursAt(s[1..], p, j) <==> OccursAt(s, p, j + 1)
  {
    if 0 <= j && j + |p| <= |s| - 1 {
      assert s[1..][j..j + |p|] == s[j + 1..j + 1 + |p|];
    }
  }

  /** The index of the leftmost occurrence of `p` in `s`, which is where
      `s.split(p, 1)` cuts. */
  function FindFirst(s: string, p: string): (r: Option<nat>)
    ensures r.Some? ==> OccursAt(s, p, r.value)
    ensures r.Some? ==> forall j :: 0 <= j < r.value ==> !OccursAt(s, p, j)
    ensures r.None? <==> !Contains(s, p)
    decreases |s|
  {
    if p <= s then
      assert s[0..|p|] == p && OccursAt(s, p, 0);
      Some(0)
    else if s == [] then
      None
    else
      var tail := FindFirst(s[1..], p);
      assert !OccursAt(s, p, 0);
      assert forall j | j >= 0 :: OccursAt(s[1..], p, j) <==> OccursAt(s, p, j + 1) by {
        forall j | j >= 0 ensures OccursAt(s[1..], p, j) <==> OccursAt(s, p, j + 1) {
          OccursShift(s, p, j);
        }
      }
      match tail
      case Some(i) =>
        assert forall j :: 0 <= j < i + 1 ==> !OccursAt(s, p, j) by {
          forall j | 0 <= j < i + 1 ensures !OccursAt(s, p, j) {
            if j > 0 { OccursShift(s, p, j - 1); }
          }
        }
        Some(i + 1)
      case None =>
        assert !Contains(s, p) by {
          forall i | 0 <= i <= |s| - |p| ensures !OccursAt(s, p, i) {
            if i > 0 {
              OccursShift(s, p, i - 1);
              assert !OccursAt(s[1..], p, i - 1);
            }
          }
        }
        None
  }

  /** Python's `s.split(p, 1)`: `[s]` when `p` does not occur, otherwise the
      text before and the text after the leftmost occurrence of `p`. */
  function SplitOnce(s: string, p: string): (r: seq<string>)
    requires p != []
    ensures |r| == 1 || |r| == 2
    ensures |r| == 1 ==> r[0] == s
  {
    match FindFirst(s, p)
    case None => [s]
    case Some(i) => [s[..i], s[i + |p|..]]
  }

  /** A string splits into a single part exactly when the separator does
      not occur in it. */
  lemma SplitOnceCount(s: string, p: string)
    requires p != []
    ensures |SplitOnce(s, p)| == 2 <==> Contains(s, p)
  {
  }

  /** The two parts of a split, joined by the separator, give back the string,
      and the separator starts nowhere inside the first part: the cut is at
      the leftmost occurrence. */
  lemma SplitOnceParts(s: string, p: string)
    requires p != [] && Contains(s, p)
    ensures var r := SplitOnce(s, p);
      && |r| == 2
      && s == r[0] + p + r[1]
      && forall j :: 0 <= j < |r[0]| ==> !OccursAt(s, p, j)
  {
    var i := FindFirst(s, p).value;
    assert s[i..i + |p|] == p;
    assert s == s[..i] + p + s[i + |p|..];
  }

  /** A pattern whose first character never appears in `s` does not occur in it. */
  lemma AbsentFirstChar(s: string, p: string)
    requires p != [] && forall k :: 0 <= k < |s| ==> s[k] != p[0]
    ensures !Contains(s, p)
  {
    forall i | 0 <= i <= |s| - |p| ensures !OccursAt(s, p, i) {
      assert s[i..i + |p|][0] == s[i];
    }
  }

  /** A string that contains `a + b` also contains `b`: the first occurrence of
      `b` lies at most `|a|` places after the first occurrence of `a + b`. */
  lemma {:induction false} ContainsSuffixOfPattern(s: string, a: string, b: string)
    requires Contains(s, a + b)
    ensures Contains(s, b)
    ensures FindFirst(s, b).Some? && FindFirst(s, b).value <= FindFirst(s, a + b).value + |a|
  {
    var i := FindFirst(s, a + b).value;
    assert s[i + |a|..i + |a| + |b|] == s[i..i + |a + b|][|a|..];
    assert (a + b)[|a|..] == b;
    assert OccursAt(s, b, i + |a|);
  }

  /** The characters for which Python's `str.isspace()` holds (the set `strip()`
      removes), by code point. */
  predicate IsSpace(c: char)
  {
    var n := c as int;
    (0x09 <= n <= 0x0D) || (0x1C <= n <= 0x20) || n == 0x85 || n == 0xA0 ||
    n == 0x1680 || (0x2000 <= n <= 0x200A) || n == 0x2028 || n == 0x2029 ||
    n == 0x202F || n == 0x205F || n == 0x3000
  }

  predicate AllSpace(s: string)
  {
    forall k :: 0 <= k < |s| ==> IsSpace(s[k])
  }

  /** Number of whitespace characters at the start of `s`. */
  function Leading(s: string): (n: nat)
    ensures n <= |s| && AllSpace(s[..n])
    ensures n < |s| ==> !IsSpace(s[n])
    decreases |s|
  {
    if |s| == 0 || !IsSpace(s[0]) then 0
    else
      var m := Leading(s[1..]);
      assert s[..1 + m] == [s[0]] + s[1..][..m];
      1 + m
  }

  /** Number of whitespace characters at the end of `s`. */
  function Trailing(s: string): (n: nat)
    ensures n <= |s| && AllSpace(s[|s| - n..])
    ensures n < |s| ==> !IsSpace(s[|s| - 1 - n])
    decreases |s|
  {
    if |s| == 0 || !IsSpace(s[|s| - 1]) then 0
    else
      var init := s[..|s| - 1];
      var m := Trailing(init);
      assert s[|s| - (1 + m)..] == init[|init| - m..] + [s[|s| - 1]];
      1 + m
  }

  /** The slice `s[lo..hi]` that Python's `s.strip()` keeps: everything cut off
      is whitespace, and the kept part neither starts nor ends with whitespace. */
  function StripBounds(s: string): (b: (nat, nat))
    ensures b.0 <= b.1 <= |s|
    ensures AllSpace(s[..b.0]) && AllSpace(s[b.1..])
    ensures b.0 < b.1 ==> !IsSpace(s[b.0]) && !IsSpace(s[b.1 - 1])
  {
    var i := Leading(s);
    var t := s[i..];
    var n := Trailing(t);
    assert s[|s| - n..] == t[|t| - n..];
    assert n < |t| ==> s[i] == t[0] && s[|s| - n - 1] == t[|t| - 1 - n];
    (i, |s| - n)
  }

  /** Python's `s.strip()`. */
  function Strip(s: string): string
  {
    var b := StripBounds(s);
    s[b.0..b.1]
  }

  lemma {:induction false} LeadingOfPadded(pre: string, x: string)
    requires AllSpace(pre) && x != [] && !IsSpace(x[0])
    ensures Leading(pre + x) == |pre|
    decreases |pre|
  {
    if pre != [] {
      assert (pre + x)[1..] == pre[1..] + x;
      LeadingOfPadded(pre[1..], x);
    } else {
      assert pre + x == x;
    }
  }

  lemma {:induction false} TrailingOfPadded(x: string, post: string)
    requires AllSpace(post) && x != [] && !IsSpace(x[|x| - 1])
    ensures Trailing(x + post) == |post|
    decreases |post|
  {
    if post != [] {
      var init := post[..|post| - 1];
      assert (x + post)[..|x + post| - 1] == x + init;
      TrailingOfPadded(x, init);
    } else {
      assert x + post == x;
    }
  }

  /** `strip()` removes exactly the whitespace padding around a word that
      neither starts nor ends with whitespace. */
  lemma StripPadded(pre: string, x: string, post: string)
    requires AllSpace(pre) && AllSpace(post)
    requires x != [] && !IsSpace(x[0]) && !IsSpace(x[|x| - 1])
    ensures Strip(pre + x + post) == x
  {
    var s := pre + x + post;
    assert s == pre + (x + post);
    LeadingOfPadded(pre, x + post);
    assert s[|pre|..] == x + post;
    TrailingOfPadded(x, post);
    assert s[|pre|..|s| - |post|] == x;
  }

  /** Python's `c.lower()` on the ASCII letters; every other character is kept. */
  function LowerChar(c: char): char
  {
    if 'A' <= c <= 'Z' then (c as int + 32) as char else c
  }

  /** Python's `s.lower()`, restricted to ASCII case mapping. */
  function Lower(s: string): (r: string)
  {
    seq(|s|, i requires 0 <= i < |s| => LowerChar(s[i]))
  }

  /** Python's `a <= b` on `str`: lexicographic by code point, a proper prefix
      sorting first. */
  predicate LexLe(a: string, b: string)
    decreases |a|
  {
    a == [] || (b != [] && (a[0] < b[0] || (a[0] == b[0] && LexLe(a[1..], b[1..]))))
  }

  lemma {:induction false} LexLeReflexive(a: string)
    ensures LexLe(a, a)
    decreases |a|
  {
    if a != [] { LexLeReflexive(a[1..]); }
  }

  lemma {:induction false} LexLeTransitive(a: string, b: string, c: string)
    requires LexLe(a, b) && LexLe(b, c)
    ensures LexLe(a, c)
    decreases |a|
  {
    if a != [] && a[0] == b[0] && b[0] == c[0] {
      LexLeTransitive(a[1..], b[1..], c[1..]);
    }
  }

  lemma {:induction false} LexLeTotal(a: string, b: string)
    ensures LexLe(a, b) || LexLe(b, a)
    decreases |a|
  {
    if a != [] && b != [] && a[0] == b[0] {
      LexLeTotal(a[1..], b[1..]);
    }
  }

  lemma {:induction false} LexLeAntisymmetric(a: string, b: string)
    requires LexLe(a, b) && LexLe(b, a)
    ensures a == b
    decreases |a|
  {
    if a != [] {
      LexLeAntisymmetric(a[1..], b[1..]);
      assert a == [a[0]] + a[1..] && b == [b[0]] + b[1..];
    }
  }
}
