/** The few functions of Go's `strings` package that the configuration code
    relies on, each specialised to a one-character separator or cut set:
    `strings.Index`, `strings.Trim` and `strings.SplitN`. Strings are
    sequences of characters; the separators involved ('@', '.', '/') are
    ASCII, so splitting at a character and splitting at its UTF-8 byte give
    the same pieces. */
module GoStrings {

  /** `strings.Index(s, string(c))`: the position of the first `c` in `s`,
      or -1 when there is none. */
  function IndexOf(s: string, c: char): (i: int)
    ensures -1 <= i < |s|
    ensures i == -1 <==> c !in s
    ensures 0 <= i ==> s[i] == c && c !in s[..i]
  {
    if |s| == 0 then -1
    else if s[0] == c then 0
    else
      var j := IndexOf(s[1..], c);
      if j == -1 then -1 else j + 1
  }

  /** The first occurrence is unique: any position holding `c` with no `c`
      before it is the one `IndexOf` finds. */
  lemma IndexOfIsFirst(s: string, c: char, k: int)
    requires 0 <= k < |s| && s[k] == c && c !in s[..k]
    ensures IndexOf(s, c) == k
  {
  }

  /** Number of occurrences of `c` in `s`. */
  function Occurrences(s: string, c: char): nat
  {
    if |s| == 0 then 0 else (if s[0] == c then 1 else 0) + Occurrences(s[1..], c)
  }

  lemma {:induction false} OccurrencesAppend(a: string, b: string, c: char)
    ensures Occurrences(a + b, c) == Occurrences(a, c) + Occurrences(b, c)
  {
    if |a| == 0 {
      assert a + b == b;
    } else {
      assert (a + b)[1..] == a[1..] + b;
      OccurrencesAppend(a[1..], b, c);
    }
  }

  lemma {:induction false} OccurrencesAbsent(s: string, c: char)
    requires c !in s
    ensures Occurrences(s, c) == 0
  {
    if |s| > 0 {
      assert s[0] in s;
      OccurrencesAbsent(s[1..], c);
    }
  }

  /** A run of `c` characters. */
  ghost predicate AllOf(s: string, c: char)
  {
    forall k | 0 <= k < |s| :: s[k] == c
  }

  /** `strings.TrimLeft(s, string(c))`. */
  function TrimLeft(s: string, c: char): (r: string)
    ensures |r| <= |s| && r == s[|s| - |r|..]
    ensures r == [] || r[0] != c
  {
    if |s| > 0 && s[0] == c then TrimLeft(s[1..], c) else s
  }

  /** What `TrimLeft` drops is a run of `c`. */
  lemma {:induction false} TrimLeftDropsOnly(s: string, c: char)
    ensures AllOf(s[..|s| - |TrimLeft(s, c)|], c)
  {
    if |s| > 0 && s[0] == c {
      TrimLeftDropsOnly(s[1..], c);
      assert s[..|s| - |TrimLeft(s, c)|] == [c] + s[1..][..|s| - 1 - |TrimLeft(s[1..], c)|];
    }
  }

  /** `strings.TrimRight(s, string(c))`. */
  function TrimRight(s: string, c: char): (r: string)
    ensures |r| <= |s| && r == s[..|r|]
    ensures r == [] || r[|r| - 1] != c
  {
    if |s| > 0 && s[|s| - 1] == c then TrimRight(s[..|s| - 1], c) else s
  }

  /** What `TrimRight` drops is a run of `c`. */
  lemma {:induction false} TrimRightDropsOnly(s: string, c: char)
    ensures AllOf(s[|TrimRight(s, c)|..], c)
  {
    if |s| > 0 && s[|s| - 1] == c {
      var t := s[..|s| - 1];
      TrimRightDropsOnly(t, c);
      assert s[|TrimRight(s, c)|..] == t[|TrimRight(t, c)|..] + [c];
    }
  }

  /** `strings.Trim(s, string(c))`: every leading and trailing `c` removed. */
  function Trim(s: string, c: char): (r: string)
    ensures |r| <= |s|
    ensures r == [] || (r[0] != c && r[|r| - 1] != c)
  {
    TrimRight(TrimLeft(s, c), c)
  }

  lemma {:induction false} TrimLeftPadded(pre: string, mid: string, c: char)
    requires AllOf(pre, c)
    requires mid == [] || mid[0] != c
    ensures TrimLeft(pre + mid, c) == mid
  {
    if |pre| == 0 {
      assert pre + mid == mid;
    } else {
      assert (pre + mid)[1..] == pre[1..] + mid;
      TrimLeftPadded(pre[1..], mid, c);
    }
  }

  lemma {:induction false} TrimRightPadded(mid: string, post: string, c: char)
    requires AllOf(post, c)
    requires mid == [] || mid[|mid| - 1] != c
    ensures TrimRight(mid + post, c) == mid
  {
    if |post| == 0 {
      assert mid + post == mid;
    } else {
      var s := mid + post;
      assert s[..|s| - 1] == mid + post[..|post| - 1];
      TrimRightPadded(mid, post[..|post| - 1], c);
    }
  }

  /** `Trim` removes exactly the padding: a text that neither starts nor ends
      with `c`, surrounded by runs of `c`, trims back to itself. */
  lemma TrimPadded(pre: string, mid: string, post: string, c: char)
    requires AllOf(pre, c) && AllOf(post, c)
    requires mid == [] || (mid[0] != c && mid[|mid| - 1] != c)
    ensures Trim(pre + mid + post, c) == mid
  {
    if mid == [] {
      assert pre + mid + post == pre + post;
      assert AllOf(pre + post, c);
      TrimLeftPadded(pre + post, [], c);
      assert pre + post + [] == pre + post;
    } else {
      assert pre + mid + post == pre + (mid + post);
      assert (mid + post)[0] == mid[0];
      TrimLeftPadded(pre, mid + post, c);
      TrimRightPadded(mid, post, c);
    }
  }

  /** `Trim` is idempotent. */
  lemma TrimIdempotent(s: string, c: char)
    ensures Trim(Trim(s, c), c) == Trim(s, c)
  {
    var t := Trim(s, c);
    assert t == [] + t + [];
    TrimPadded([], t, [], c);
  }

  function Min(a: int, b: int): int { if a <= b then a else b }

  /** `strings.SplitN(s, string(c), n)`: at most `n` pieces, the last one
      holding the unsplit remainder; no pieces at all when `n` is 0. */
  function SplitN(s: string, c: char, n: nat): (parts: seq<string>)
    ensures n == 0 <==> parts == []
    ensures n > 0 ==> |parts| == Min(Occurrences(s, c) + 1, n)
    ensures n > 0 ==> Join(parts, c) == s
    ensures forall k | 0 <= k < |parts| - 1 :: c !in parts[k]
  {
    if n == 0 then []
    else if n == 1 then [s]
    else
      var i := IndexOf(s, c);
      if i == -1 then OccurrencesAbsent(s, c); [s]
      else
        OccurrencesAtFirst(s, c, i);
        var rest := SplitN(s[i + 1..], c, n - 1);
        var parts := [s[..i]] + rest;
        assert parts[1..] == rest;
        assert s == s[..i] + [c] + s[i + 1..];
        parts
  }

  /** Inverse of `SplitN`: the pieces glued back with `c` between them. */
  function Join(parts: seq<string>, c: char): string
  {
    if |parts| == 0 then ""
    else if |parts| == 1 then parts[0]
    else parts[0] + [c] + Join(parts[1..], c)
  }

  /** Splitting a text whose first separator ends the piece `a`. */
  lemma SplitNAfterFirst(a: string, b: string, c: char, n: nat)
    requires c !in a && n >= 2
    ensures SplitN(a + [c] + b, c, n) == [a] + SplitN(b, c, n - 1)
  {
    var s := a + [c] + b;
    assert s[..|a|] == a;
    IndexOfIsFirst(s, c, |a|);
    assert s[|a| + 1..] == b;
  }

  lemma OccurrencesAtFirst(s: string, c: char, i: int)
    requires 0 <= i < |s| && s[i] == c && c !in s[..i]
    ensures Occurrences(s, c) == 1 + Occurrences(s[i + 1..], c)
  {
    var tail := [c] + s[i + 1..];
    assert s == s[..i] + tail;
    OccurrencesAppend(s[..i], tail, c);
    OccurrencesAbsent(s[..i], c);
    assert tail[1..] == s[i + 1..];
  }

  /** `SplitN` undoes `Join`: pieces free of the separator (the last one
      too, unless it is the `n`-th) come back unchanged. */
  lemma {:induction false} SplitNJoin(parts: seq<string>, c: char, n: nat)
    requires 0 < |parts| <= n
    requires forall k | 0 <= k < |parts| - 1 :: c !in parts[k]
    requires |parts| < n ==> c !in parts[|parts| - 1]
    ensures SplitN(Join(parts, c), c, n) == parts
  {
    if |parts| == 1 {
      SplitNSingle(parts[0], c, n);
    } else {
      var rest := parts[1..];
      forall k | 0 <= k < |rest| - 1
        ensures c !in rest[k]
      {
        assert rest[k] == parts[k + 1];
      }
      assert rest[|rest| - 1] == parts[|parts| - 1];
      SplitNJoin(rest, c, n - 1);
      JoinCons(parts, c);
      SplitNAfterFirst(parts[0], Join(rest, c), c, n);
      assert [parts[0]] + rest == parts;
    }
  }

  lemma SplitNSingle(s: string, c: char, n: nat)
    requires 0 < n && (n > 1 ==> c !in s)
    ensures SplitN(Join([s], c), c, n) == [s]
  {
  }

  lemma JoinCons(parts: seq<string>, c: char)
    requires |parts| > 1
    ensures Join(parts, c) == parts[0] + [c] + Join(parts[1..], c)
  {
  }
}
