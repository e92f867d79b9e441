/**
 * The Python `str` operations the two pipeline drivers rely on, written out
 * with Python's semantics: `split` with a one-character separator, `join`,
 * `find`, slicing `s[:k]` (negative `k` counts from the end), `strip(c)`
 * and `startswith`.
 */
module PyStr {

  /** Number of occurrences of `c` in `s`. */
  function Count(s: string, c: char): (n: nat)
    ensures n == 0 <==> c !in s
    ensures n <= |s|
  {
    if s == [] then 0
    else
      assert s == [s[0]] + s[1..];
      (if s[0] == c then 1 else 0) + Count(s[1..], c)
  }

  /** Python's `c.join(parts)`. */
  function Join(parts: seq<string>, c: char): string
  {
    if |parts| == 0 then ""
    else if |parts| == 1 then parts[0]
    else parts[0] + [c] + Join(parts[1..], c)
  }

  /**
   * Python's `s.split(c)`: the pieces of `s` between occurrences of `c`.
   * There is always one more piece than there are separators, and no piece
   * holds the separator.
   */
  function Split(s: string, c: char): (parts: seq<string>)
    ensures |parts| == Count(s, c) + 1
    ensures forall i :: 0 <= i < |parts| ==> c !in parts[i]
  {
    if s == [] then [""]
    else
      var rest := Split(s[1..], c);
      if s[0] == c then [""] + rest
      else
        assert c !in [s[0]] + rest[0];
        [[s[0]] + rest[0]] + rest[1..]
  }

  /** Joining the pieces of `s.split(c)` with `c` gives back `s`. */
  lemma {:induction false} JoinSplit(s: string, c: char)
    ensures Join(Split(s, c), c) == s
  {
    if s != [] {
      var rest := Split(s[1..], c);
      JoinSplit(s[1..], c);
      assert s == [s[0]] + s[1..];
      if s[0] == c {
        JoinCons("", rest, c);
      } else {
        JoinHead([s[0]], rest, c);
      }
    }
  }

  /** Joining one more piece in front adds it and a separator. */
  lemma JoinCons(a: string, xs: seq<string>, c: char)
    requires |xs| > 0
    ensures Join([a] + xs, c) == a + [c] + Join(xs, c)
  {
    assert ([a] + xs)[1..] == xs;
  }

  /** Extending the first piece extends the joined text at its front. */
  lemma JoinHead(h: string, xs: seq<string>, c: char)
    requires |xs| > 0
    ensures Join([h + xs[0]] + xs[1..], c) == h + Join(xs, c)
  {
    if |xs| > 1 {
      JoinCons(h + xs[0], xs[1..], c);
      JoinCons(xs[0], xs[1..], c);
      assert xs == [xs[0]] + xs[1..];
    } else {
      assert [h + xs[0]] + xs[1..] == [h + xs[0]];
    }
  }

  function Last<T>(xs: seq<T>): T
    requires |xs| > 0
  {
    xs[|xs| - 1]
  }

  /** The first piece of `s.split(c)` is the prefix of `s` before the first `c`. */
  lemma {:induction false} SplitFirst(s: string, c: char)
    ensures var p := Split(s, c)[0];
      && |p| <= |s| && p == s[..|p|]
      && (|p| == |s| || s[|p|] == c)
  {
    if s != [] && s[0] != c {
      SplitFirst(s[1..], c);
    }
  }

  /** The last piece of `s.split(c)` is the suffix of `s` after the last `c`. */
  lemma {:induction false} SplitLast(s: string, c: char)
    ensures var q := Last(Split(s, c));
      && |q| <= |s| && q == s[|s| - |q|..]
      && (|q| == |s| || s[|s| - |q| - 1] == c)
  {
    if c !in s {
      SplitNone(s, c);
      assert s[|s| - |s|..] == s;
    } else {
      var t := s[1..];
      var q := Last(Split(t, c));
      LastSplitTail(s, c);
      SplitLast(t, c);
      assert s[|s| - |q|..] == t[|t| - |q|..];
      assert |q| < |t| ==> s[|s| - |q| - 1] == t[|t| - |q| - 1];
    }
  }

  /** With a separator in `s`, its last piece is that of `s` without its first character. */
  lemma LastSplitTail(s: string, c: char)
    requires c in s
    ensures Last(Split(s, c)) == Last(Split(s[1..], c))
  {
    var t := s[1..];
    var rest := Split(t, c);
    assert s == [s[0]] + t;
    SplitCons(s[0], t, c);
    if s[0] == c {
      LastAfter([""], rest);
    } else {
      assert Count(s, c) == Count(t, c);
      LastAfter([[s[0]] + rest[0]], rest[1..]);
      LastAfter([rest[0]], rest[1..]);
      assert [rest[0]] + rest[1..] == rest;
    }
  }

  lemma LastAfter<T>(a: seq<T>, b: seq<T>)
    requires |b| > 0
    ensures Last(a + b) == Last(b)
  {
  }

  /** Splitting undoes joining, when no part holds the separator. */
  lemma {:induction false} SplitJoin(parts: seq<string>, c: char)
    requires |parts| > 0
    requires forall i :: 0 <= i < |parts| ==> c !in parts[i]
    ensures Split(Join(parts, c), c) == parts
  {
    if |parts| > 1 {
      SplitJoin(parts[1..], c);
      SplitPrefix(parts[0], Join(parts[1..], c), c);
      assert parts == [parts[0]] + parts[1..];
    } else {
      SplitNone(parts[0], c);
    }
  }

  /** A string without the separator splits into itself alone. */
  lemma {:induction false} SplitNone(s: string, c: char)
    requires c !in s
    ensures Split(s, c) == [s]
  {
    if s != [] {
      SplitNone(s[1..], c);
      assert s[0] != c;
      assert Split(s, c) == [[s[0]] + s[1..]];
      assert s == [s[0]] + s[1..];
    }
  }

  /** One unfolding of `Split` on a string given as head and tail. */
  lemma SplitCons(h: char, t: string, c: char)
    ensures Split([h] + t, c) ==
      if h == c then [""] + Split(t, c)
      else [[h] + Split(t, c)[0]] + Split(t, c)[1..]
  {
    assert ([h] + t)[0] == h && ([h] + t)[1..] == t;
  }

  /** Splitting `a + c + b` yields the pieces of `a` followed by those of `b`. */
  lemma {:induction false} SplitAppend(a: string, b: string, c: char)
    ensures Split(a + [c] + b, c) == Split(a, c) + Split(b, c)
  {
    if a == [] {
      assert a + [c] + b == [c] + b;
      SplitCons(c, b, c);
    } else {
      var t := a[1..];
      assert a == [a[0]] + t;
      assert a + [c] + b == [a[0]] + (t + [c] + b);
      SplitAppend(t, b, c);
      SplitAppendStep(a[0], t, b, c);
    }
  }

  /** The inductive step of `SplitAppend`: putting one character in front. */
  lemma SplitAppendStep(h: char, t: string, b: string, c: char)
    requires Split(t + [c] + b, c) == Split(t, c) + Split(b, c)
    ensures Split([h] + (t + [c] + b), c) == Split([h] + t, c) + Split(b, c)
  {
    var ra, rb := Split(t, c), Split(b, c);
    SplitCons(h, t + [c] + b, c);
    SplitCons(h, t, c);
    if h == c {
      ConsAssoc([""], ra, rb);
    } else {
      HeadFirst([h], ra, rb);
    }
  }

  lemma ConsAssoc(x: seq<string>, ra: seq<string>, rb: seq<string>)
    ensures x + (ra + rb) == (x + ra) + rb
  {
  }

  /** Extending the first piece of `ra + rb` by `h` only changes the `ra` part. */
  lemma HeadFirst(h: string, ra: seq<string>, rb: seq<string>)
    requires |ra| > 0
    ensures [h + (ra + rb)[0]] + (ra + rb)[1..] == ([h + ra[0]] + ra[1..]) + rb
  {
    assert (ra + rb)[0] == ra[0];
    assert (ra + rb)[1..] == ra[1..] + rb;
  }

  /** Splitting `a + c + b`, where `a` has no `c`, yields `a` then the pieces of `b`. */
  lemma SplitPrefix(a: string, b: string, c: char)
    requires c !in a
    ensures Split(a + [c] + b, c) == [a] + Split(b, c)
  {
    SplitAppend(a, b, c);
    SplitNone(a, c);
  }

  /**
   * `a + c + x == b + c + y` with no `c` in `x` or `y` forces `a == b` and
   * `x == y`: both sides are cut at their last `c`.
   */
  lemma CancelAtLast(a: string, x: string, b: string, y: string, c: char)
    requires c !in x && c !in y
    requires a + [c] + x == b + [c] + y
    ensures a == b && x == y
  {
    SplitAppend(a, x, c);
    SplitAppend(b, y, c);
    SplitNone(x, c);
    SplitNone(y, c);
    var pa, pb := Split(a, c), Split(b, c);
    assert pa + [x] == pb + [y];
    assert |pa| == |pb|;
    assert x == (pa + [x])[|pa|] == y;
    assert pa == (pa + [x])[..|pa|] == pb;
    JoinSplit(a, c);
    JoinSplit(b, c);
  }

  /** Python's `s.find(c)`: the index of the first `c`, or -1 when there is none. */
  function Find(s: string, c: char): (k: int)
    ensures k == -1 <==> c !in s
    ensures k != -1 ==> 0 <= k < |s| && s[k] == c && c !in s[..k]
  {
    if s == [] then -1
    else if s[0] == c then 0
    else
      var k := Find(s[1..], c);
      assert s == [s[0]] + s[1..];
      if k == -1 then -1
      else
        assert s[..k + 1] == [s[0]] + s[1..][..k];
        k + 1
  }

  /** Python's slice `s[:k]`; a negative `k` counts from the end of `s`. */
  function SliceTo(s: string, k: int): string
  {
    if k >= 0 then (if k <= |s| then s[..k] else s)
    else if |s| + k >= 0 then s[..|s| + k]
    else ""
  }

  /** Python's `s.startswith(p)`. */
  predicate StartsWith(s: string, p: string)
  {
    |p| <= |s| && s[..|p|] == p
  }

  /** Python's `s.lstrip(c)`: drops the leading run of `c`. */
  function StripLeft(s: string, c: char): (r: string)
    ensures |r| <= |s| && r == s[|s| - |r|..]
    ensures forall i :: 0 <= i < |s| - |r| ==> s[i] == c
    ensures r == [] || r[0] != c
  {
    if s != [] && s[0] == c then StripLeft(s[1..], c) else s
  }

  /** Python's `s.rstrip(c)`: drops the trailing run of `c`. */
  function StripRight(s: string, c: char): (r: string)
    ensures |r| <= |s| && r == s[..|r|]
    ensures forall i :: |r| <= i < |s| ==> s[i] == c
    ensures r == [] || r[|r| - 1] != c
  {
    if s != [] && s[|s| - 1] == c then StripRight(s[..|s| - 1], c) else s
  }

  /** `r` is the slice of `s` starting at `i`, and only `c` lies outside it. */
  predicate CoreAt(s: string, c: char, i: int, r: string)
  {
    && 0 <= i <= |s| - |r| && r == s[i..i + |r|]
    && (forall k :: 0 <= k < i ==> s[k] == c)
    && (forall k :: i + |r| <= k < |s| ==> s[k] == c)
  }

  /**
   * Python's `s.strip(c)`: what is left of `s` once its leading and trailing
   * runs of `c` are dropped; it neither starts nor ends with `c`.
   */
  function Strip(s: string, c: char): (r: string)
    ensures |r| <= |s|
    ensures exists i :: CoreAt(s, c, i, r)
    ensures r == [] || (r[0] != c && r[|r| - 1] != c)
    ensures c !in s ==> r == s
  {
    var left := StripLeft(s, c);
    var r := StripRight(left, c);
    var i := |s| - |left|;
    assert r == s[i..i + |r|];
    assert forall k :: i + |r| <= k < |s| ==> s[k] == left[k - i];
    assert CoreAt(s, c, i, r);
    r
  }
}
