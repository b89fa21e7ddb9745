/**
 * String helpers that the Rust code gets from `str` and `Vec<String>`:
 * `starts_with`, `find`, `join`, the lexicographic order of `String`
 * and `slice::sort`.
 */
module Text {
  import opened Wrappers

  /** `s.starts_with(prefix)`. */
  predicate StartsWith(s: string, prefix: string) {
    |prefix| <= |s| && s[..|prefix|] == prefix
  }

  predicate EndsWith(s: string, suffix: string) {
    |suffix| <= |s| && s[|s| - |suffix|..] == suffix
  }

  lemma StartsWithAppend(a: string, b: string)
    ensures StartsWith(a + b, a)
  {
    assert (a + b)[..|a|] == a;
  }

  lemma EndsWithAppend(a: string, b: string)
    ensures EndsWith(a + b, b)
  {
    assert (a + b)[|a + b| - |b|..] == b;
  }

  lemma StartsWithTransitive(s: string, t: string, u: string)
    requires StartsWith(s, t) && StartsWith(t, u)
    ensures StartsWith(s, u)
  {
    assert s[..|u|] == s[..|t|][..|u|];
  }

  /** Concatenation regroups freely; the solver finds this slowly on its own. */
  lemma ConcatAssoc<T>(a: seq<T>, b: seq<T>, c: seq<T>)
    ensures a + (b + c) == (a + b) + c
  {
  }

  /** `s` back to front. */
  function Reverse<T>(s: seq<T>): (r: seq<T>)
    ensures |r| == |s|
    ensures forall k :: 0 <= k < |s| ==> r[k] == s[|s| - 1 - k]
    decreases |s|
  {
    if |s| == 0 then []
    else
      var rest := Reverse(s[1..]);
      assert forall k :: 0 <= k < |rest| ==> rest[k] == s[|s| - 1 - k];
      rest + [s[0]]
  }

  /** A sequence that holds `s`'s elements back to front is its reverse. */
  lemma ReverseUnique<T>(r: seq<T>, s: seq<T>)
    requires |r| == |s| && forall k :: 0 <= k < |s| ==> r[k] == s[|s| - 1 - k]
    ensures r == Reverse(s)
  {
  }

  /** `parts.join(sep)`. */
  function Join(parts: seq<string>, sep: string): string {
    if |parts| == 0 then ""
    else if |parts| == 1 then parts[0]
    else parts[0] + sep + Join(parts[1..], sep)
  }

  /** `pat` occurs in `s` starting at index `i`. */
  predicate OccursAt(s: string, pat: string, i: nat) {
    i + |pat| <= |s| && s[i..i + |pat|] == pat
  }

  predicate Contains(s: string, pat: string) {
    exists i: nat | i <= |s| :: OccursAt(s, pat, i)
  }

  /** `pat` occurs in `s` after any prefix is put before `s`. */
  lemma OccursAfterPrefix(pre: string, s: string, pat: string, i: nat)
    requires OccursAt(s, pat, i)
    ensures OccursAt(pre + s, pat, |pre| + i)
  {
    assert (pre + s)[|pre| + i..|pre| + i + |pat|] == s[i..i + |pat|];
  }

  /** `pat` still occurs in `s` after any suffix is put after `s`. */
  lemma OccursBeforeSuffix(s: string, post: string, pat: string, i: nat)
    requires OccursAt(s, pat, i)
    ensures OccursAt(s + post, pat, i)
  {
    assert (s + post)[i..i + |pat|] == s[i..i + |pat|];
  }

  /** Every part occurs in the joined string. */
  lemma {:induction false} JoinContainsParts(parts: seq<string>, sep: string, k: nat)
    requires k < |parts|
    ensures Contains(Join(parts, sep), parts[k])
    decreases |parts|
  {
    var joined := Join(parts, sep);
    if k == 0 {
      assert joined[..|parts[0]|] == parts[0];
      assert OccursAt(joined, parts[0], 0);
    } else {
      JoinContainsParts(parts[1..], sep, k - 1);
      var tail := Join(parts[1..], sep);
      var i: nat :| i <= |tail| && OccursAt(tail, parts[k], i);
      OccursAfterPrefix(parts[0] + sep, tail, parts[k], i);
    }
  }

  /** The first occurrence of `pat` in `s` at or after index `from`. */
  function FindFrom(s: string, pat: string, from: nat): (r: Option<nat>)
    decreases |s| - from
    ensures r.Some? ==> from <= r.value && OccursAt(s, pat, r.value)
    ensures r.Some? ==> forall j: nat :: from <= j < r.value ==> !OccursAt(s, pat, j)
    ensures r.None? ==> forall j: nat :: from <= j ==> !OccursAt(s, pat, j)
  {
    if from + |pat| > |s| then None
    else if OccursAt(s, pat, from) then Some(from)
    else FindFrom(s, pat, from + 1)
  }

  /** `s.find(pat)`: the index of the first occurrence, `None` iff there is none. */
  function Find(s: string, pat: string): (r: Option<nat>)
    ensures r.Some? ==> OccursAt(s, pat, r.value)
    ensures r.Some? ==> forall j: nat :: j < r.value ==> !OccursAt(s, pat, j)
    ensures r.None? <==> !Contains(s, pat)
  {
    FindFrom(s, pat, 0)
  }

  /** `a <= b` for Rust strings: lexicographic on characters (code points). */
  predicate StrLe(a: string, b: string)
    decreases |a|
  {
    if |a| == 0 then true
    else if |b| == 0 then false
    else if a[0] != b[0] then a[0] < b[0]
    else StrLe(a[1..], b[1..])
  }

  lemma {:induction false} StrLeTotal(a: string, b: string)
    ensures StrLe(a, b) || StrLe(b, a)
    decreases |a|
  {
    if |a| > 0 && |b| > 0 && a[0] == b[0] {
      StrLeTotal(a[1..], b[1..]);
    }
  }

  lemma {:induction false} StrLeTransitive(a: string, b: string, c: string)
    requires StrLe(a, b) && StrLe(b, c)
    ensures StrLe(a, c)
    decreases |a|
  {
    if |a| > 0 && |b| > 0 && |c| > 0 && a[0] == b[0] && b[0] == c[0] {
      StrLeTransitive(a[1..], b[1..], c[1..]);
    }
  }

  lemma {:induction false} StrLeAntisymmetric(a: string, b: string)
    requires StrLe(a, b) && StrLe(b, a)
    ensures a == b
    decreases |a|
  {
    if |a| > 0 && |b| > 0 {
      StrLeAntisymmetric(a[1..], b[1..]);
      assert a == [a[0]] + a[1..];
      assert b == [b[0]] + b[1..];
    }
  }

  predicate SortedStrings(s: seq<string>) {
    forall i, j :: 0 <= i < j < |s| ==> StrLe(s[i], s[j])
  }

  /** `x` is at most every element of the sorted `s` when it is at most its head. */
  lemma BelowHead(x: string, s: seq<string>)
    requires SortedStrings(s) && |s| > 0 && StrLe(x, s[0])
    ensures forall j :: 0 <= j < |s| ==> StrLe(x, s[j])
  {
    forall j | 0 <= j < |s| ensures StrLe(x, s[j]) {
      if j > 0 { StrLeTransitive(x, s[0], s[j]); }
    }
  }

  /** The head of a sorted `s` is at most every element of any permutation of its tail plus `x`. */
  lemma HeadBelowRest(x: string, s: seq<string>, rest: seq<string>)
    requires SortedStrings(s) && |s| > 0 && StrLe(s[0], x)
    requires multiset(rest) == multiset(s[1..]) + multiset{x}
    ensures forall j :: 0 <= j < |rest| ==> StrLe(s[0], rest[j])
  {
    forall j | 0 <= j < |rest| ensures StrLe(s[0], rest[j]) {
      assert rest[j] in multiset(rest);
      if rest[j] != x {
        assert rest[j] in multiset(s[1..]);
        var k :| 0 <= k < |s[1..]| && s[1..][k] == rest[j];
        assert s[k + 1] == rest[j];
      }
    }
  }

  /** Inserts `x` before the first element it does not exceed. */
  function InsertSorted(x: string, s: seq<string>): (r: seq<string>)
    requires SortedStrings(s)
    ensures SortedStrings(r)
    ensures multiset(r) == multiset(s) + multiset{x}
  {
    if |s| == 0 then [x]
    else if StrLe(x, s[0]) then
      BelowHead(x, s);
      [x] + s
    else
      var rest := InsertSorted(x, s[1..]);
      StrLeTotal(x, s[0]);
      assert s == [s[0]] + s[1..];
      HeadBelowRest(x, s, rest);
      [s[0]] + rest
  }

  /** The head of a sorted sequence is at most each of its elements. */
  lemma HeadIsLeast(a: seq<string>, x: string)
    requires SortedStrings(a) && x in multiset(a)
    ensures StrLe(a[0], x)
  {
    var i :| 0 <= i < |a| && a[i] == x;
    if i == 0 { StrLeTotal(x, x); }
  }

  /** Removing equal heads from equal multisets leaves equal multisets. */
  lemma TailMultisets(a: seq<string>, b: seq<string>)
    requires |a| > 0 && |b| > 0 && a[0] == b[0] && multiset(a) == multiset(b)
    ensures multiset(a[1..]) == multiset(b[1..])
  {
    assert a == [a[0]] + a[1..] && b == [b[0]] + b[1..];
    assert multiset(a) == multiset{a[0]} + multiset(a[1..]);
    assert multiset(b) == multiset{b[0]} + multiset(b[1..]);
    assert multiset(a[1..]) == multiset(a) - multiset{a[0]};
    assert multiset(b[1..]) == multiset(b) - multiset{b[0]};
  }

  /**
   * There is only one ascending arrangement of a multiset of strings, so
   * every sorting algorithm, stable or not, gives the same result.
   */
  lemma {:induction false} SortedUnique(a: seq<string>, b: seq<string>)
    requires SortedStrings(a) && SortedStrings(b) && multiset(a) == multiset(b)
    ensures a == b
    decreases |a|
  {
    if |a| > 0 {
      assert |b| == |multiset(b)| == |a|;
      assert a[0] in multiset(b) && b[0] in multiset(a) by {
        assert a[0] in a && b[0] in b;
      }
      HeadIsLeast(b, a[0]);
      HeadIsLeast(a, b[0]);
      StrLeAntisymmetric(a[0], b[0]);
      TailMultisets(a, b);
      SortedUnique(a[1..], b[1..]);
      assert a == [a[0]] + a[1..] && b == [b[0]] + b[1..];
    }
  }

  /** `v.sort()` on a `Vec<String>`: an ascending permutation of `s`. */
  function SortStrings(s: seq<string>): (r: seq<string>)
    ensures SortedStrings(r)
    ensures multiset(r) == multiset(s)
  {
    if |s| == 0 then []
    else
      assert s == [s[0]] + s[1..];
      InsertSorted(s[0], SortStrings(s[1..]))
  }
}
