/** Sequence idioms of the source: `list(dict.fromkeys(xs))`, `xs[:n]` and SQL `LIMIT n`. */
module Seqs {

  predicate NoDups<T(==)>(s: seq<T>) {
    forall i, j :: 0 <= i < j < |s| ==> s[i] != s[j]
  }

  /** `list(dict.fromkeys(s))`: each element at its first occurrence, later repeats dropped. */
  function Dedupe<T(==, !new)>(s: seq<T>): (r: seq<T>)
    ensures NoDups(r)
    ensures forall x :: x in r <==> x in s
    ensures |r| <= |s|
  {
    if s == [] then []
    else
      var init := s[..|s| - 1];
      var last := s[|s| - 1];
      var r := Dedupe(init);
      assert forall x :: x in s <==> x in init || x == last by {
        assert s == init + [last];
      }
      if last in init then r else r + [last]
  }

  /** Removing repeats from a sequence that has none changes nothing. */
  lemma {:induction false} DedupeOfNoDups<T(!new)>(s: seq<T>)
    requires NoDups(s)
    ensures Dedupe(s) == s
  {
    if s != [] {
      var init := s[..|s| - 1];
      assert NoDups(init);
      DedupeOfNoDups(init);
      assert s[|s| - 1] !in init;
      assert init + [s[|s| - 1]] == s;
    }
  }

  lemma DedupeIdempotent<T(!new)>(s: seq<T>)
    ensures Dedupe(Dedupe(s)) == Dedupe(s)
  {
    DedupeOfNoDups(Dedupe(s));
  }

  /** First-occurrence order: de-duplicating a prefix gives a prefix of the result, so an
      element never moves ahead of one that occurred before it. */
  lemma {:induction false} DedupePrefix<T(!new)>(s: seq<T>, k: nat)
    requires k <= |s|
    ensures |Dedupe(s[..k])| <= |Dedupe(s)| && Dedupe(s[..k]) == Dedupe(s)[..|Dedupe(s[..k])|]
    decreases |s|
  {
    if k < |s| {
      var init := s[..|s| - 1];
      assert init[..k] == s[..k];
      DedupePrefix(init, k);
    } else {
      assert s[..k] == s;
    }
  }

  /** The position of the first occurrence of `x` in `s`. */
  function FirstIndex<T(==)>(s: seq<T>, x: T): (i: nat)
    requires x in s
    ensures i < |s| && s[i] == x && x !in s[..i]
  {
    if s[0] == x then 0
    else
      assert s == [s[0]] + s[1..];
      var j := FirstIndex(s[1..], x);
      assert s[..j + 1] == [s[0]] + s[1..][..j];
      1 + j
  }

  /** Past a different head, the first occurrence is one further on in the tail. */
  lemma FirstIndexCons<T>(h: T, s: seq<T>, x: T)
    requires x in [h] + s && x != h
    ensures x in s && FirstIndex([h] + s, x) == 1 + FirstIndex(s, x)
  {
    assert ([h] + s)[1..] == s;
  }

  /** An occurrence with no earlier one is the first occurrence. */
  lemma FirstIndexUnique<T>(s: seq<T>, x: T, k: nat)
    requires k < |s| && s[k] == x && x !in s[..k]
    ensures FirstIndex(s, x) == k
  {
    var f := FirstIndex(s, x);
    assert forall j :: 0 <= j < k ==> s[..k][j] == s[j];
    assert forall j :: 0 <= j < f ==> s[..f][j] == s[j];
  }

  /** `list(dict.fromkeys(s))` lists the elements in the order of their first occurrence. */
  lemma {:induction false} DedupeFirstOccurrence<T(!new)>(s: seq<T>)
    ensures forall i, j :: 0 <= i < j < |Dedupe(s)| ==> FirstIndex(s, Dedupe(s)[i]) < FirstIndex(s, Dedupe(s)[j])
  {
    if s != [] {
      var init := s[..|s| - 1];
      var last := s[|s| - 1];
      var r := Dedupe(init);
      var d := Dedupe(s);
      DedupeFirstOccurrence(init);
      assert s == init + [last];
      forall x | x in init ensures FirstIndex(s, x) == FirstIndex(init, x) {
        var f := FirstIndex(init, x);
        assert s[..f] == init[..f];
        FirstIndexUnique(s, x, f);
      }
      forall i, j | 0 <= i < j < |d| ensures FirstIndex(s, d[i]) < FirstIndex(s, d[j]) {
        assert d[i] == r[i] && r[i] in init;
        if j < |r| {
          assert d[j] == r[j] && r[j] in init;
        } else {
          assert d[j] == last && last !in init;
          FirstIndexUnique(s, last, |s| - 1);
        }
      }
    }
  }

  /** Extending a slice by one element. */
  lemma AppendSliceSnoc<T>(a: seq<T>, b: seq<T>, j: nat)
    requires 0 < j <= |b|
    ensures a + b[..j] == (a + b[..j - 1]) + [b[j - 1]]
  {
    assert b[..j] == b[..j - 1] + [b[j - 1]];
  }

  /** Python's `s[:n]`, where a negative `n` counts from the end. */
  function PyPrefix<T>(s: seq<T>, n: int): (r: seq<T>)
    ensures |r| <= |s| && r == s[..|r|]
    ensures n >= 0 ==> |r| == if n < |s| then n else |s|
  {
    if n >= 0 then (if n < |s| then s[..n] else s)
    else if |s| + n > 0 then s[..|s| + n] else []
  }

  /** SQL `LIMIT n`: the first `n` rows; a negative limit means no limit in SQLite. */
  function SqlLimit<T>(s: seq<T>, n: int): (r: seq<T>)
    ensures |r| <= |s| && r == s[..|r|]
    ensures n >= 0 ==> |r| == if n < |s| then n else |s|
    ensures n < 0 ==> r == s
  {
    if n >= 0 && n < |s| then s[..n] else s
  }

  function Max(a: int, b: int): int { if a >= b then a else b }

  function Min(a: int, b: int): int { if a <= b then a else b }
}
