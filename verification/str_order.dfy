/** Rust's `Ord` for `String`: lexicographic by character (byte-wise on
    UTF-8, which orders exactly as code points do), a shorter prefix first,
    and `slice::sort` on a vector of strings. */
module StrOrder {

  /** `a <= b` in Rust's string order. */
  predicate LessEq(a: string, b: string) {
    if a == [] then true
    else if b == [] then false
    else if a[0] != b[0] then a[0] < b[0]
    else LessEq(a[1..], b[1..])
  }

  lemma {:induction false} LessEqReflexive(a: string)
    ensures LessEq(a, a)
  {
    if a != [] {
      LessEqReflexive(a[1..]);
    }
  }

  lemma {:induction false} LessEqAntisymmetric(a: string, b: string)
    requires LessEq(a, b) && LessEq(b, a)
    ensures a == b
  {
    if a != [] && b != [] {
      LessEqAntisymmetric(a[1..], b[1..]);
      assert a == [a[0]] + a[1..];
      assert b == [b[0]] + b[1..];
    }
  }

  lemma {:induction false} LessEqTransitive(a: string, b: string, c: string)
    requires LessEq(a, b) && LessEq(b, c)
    ensures LessEq(a, c)
  {
    if a != [] && b != [] && c != [] && a[0] == b[0] && b[0] == c[0] {
      LessEqTransitive(a[1..], b[1..], c[1..]);
    }
  }

  lemma {:induction false} LessEqTotal(a: string, b: string)
    ensures LessEq(a, b) || LessEq(b, a)
  {
    if a != [] && b != [] && a[0] == b[0] {
      LessEqTotal(a[1..], b[1..]);
    }
  }

  /** A prefix orders first. */
  lemma {:induction false} PrefixLessEq(a: string, b: string)
    requires a <= b
    ensures LessEq(a, b)
  {
    if a != [] {
      PrefixLessEq(a[1..], b[1..]);
    }
  }

  /** Non-decreasing in string order. */
  predicate Sorted(s: seq<string>) {
    forall i, j :: 0 <= i < j < |s| ==> LessEq(s[i], s[j])
  }

  /** Every element of `s` is at most `b`. */
  predicate UpperBound(s: seq<string>, b: string) {
    forall k :: 0 <= k < |s| ==> LessEq(s[k], b)
  }

  /** Sorted, given the last element bounds the others. */
  lemma SortedSnoc(s: seq<string>, x: string)
    requires Sorted(s) && UpperBound(s, x)
    ensures Sorted(s + [x])
  {
  }

  /** Insert `x` after the last element not greater than it, scanning from
      the back as an insertion sort does. */
  function Insert(x: string, s: seq<string>): seq<string> {
    if s == [] || LessEq(s[|s| - 1], x) then s + [x]
    else Insert(x, s[..|s| - 1]) + [s[|s| - 1]]
  }

  /** Inserting adds `x` and keeps everything else. */
  lemma {:induction false} InsertMultiset(x: string, s: seq<string>)
    ensures multiset(Insert(x, s)) == multiset(s) + multiset{x}
  {
    if s != [] && !LessEq(s[|s| - 1], x) {
      InsertMultiset(x, s[..|s| - 1]);
      assert s == s[..|s| - 1] + [s[|s| - 1]];
    }
  }

  /** A bound on `x` and on `s` bounds the insertion. */
  lemma {:induction false} InsertUpperBound(x: string, s: seq<string>, b: string)
    requires UpperBound(s, b) && LessEq(x, b)
    ensures UpperBound(Insert(x, s), b)
  {
    if s != [] && !LessEq(s[|s| - 1], x) {
      InsertUpperBound(x, s[..|s| - 1], b);
    }
  }

  /** Inserting into a sorted sequence keeps it sorted. */
  lemma {:induction false} InsertSorted(x: string, s: seq<string>)
    requires Sorted(s)
    ensures Sorted(Insert(x, s))
  {
    if s == [] {
    } else {
      var last := s[|s| - 1];
      if LessEq(last, x) {
        forall k | 0 <= k < |s| ensures LessEq(s[k], x) {
          if k < |s| - 1 { LessEqTransitive(s[k], last, x); }
        }
        SortedSnoc(s, x);
      } else {
        var init := s[..|s| - 1];
        InsertSorted(x, init);
        LessEqTotal(x, last);
        assert UpperBound(init, last);
        InsertUpperBound(x, init, last);
        SortedSnoc(Insert(x, init), last);
      }
    }
  }

  /** `titles.sort()`: the strings inserted one by one, front to back, into
      a sorted prefix. */
  function Sort(s: seq<string>): seq<string> {
    if s == [] then [] else Insert(s[|s| - 1], Sort(s[..|s| - 1]))
  }

  /** The sort yields the strings in non-decreasing order, as a permutation. */
  lemma {:induction false} SortSpec(s: seq<string>)
    ensures Sorted(Sort(s))
    ensures multiset(Sort(s)) == multiset(s)
  {
    if s != [] {
      var init := s[..|s| - 1];
      SortSpec(init);
      InsertSorted(s[|s| - 1], Sort(init));
      InsertMultiset(s[|s| - 1], Sort(init));
      assert s == init + [s[|s| - 1]];
    }
  }

  /** Two sorted arrangements of the same strings are the same sequence, so
      the sorted order does not depend on the order the strings came in. */
  lemma {:induction false} SortedUnique(a: seq<string>, b: seq<string>)
    requires Sorted(a) && Sorted(b) && multiset(a) == multiset(b)
    ensures a == b
  {
    if a != [] {
      assert b != [] && a[0] == b[0] by {
        assert a[0] in multiset(a);
        SortedHeadBelow(b, a[0]);
        assert b[0] in multiset(b);
        SortedHeadBelow(a, b[0]);
        LessEqAntisymmetric(a[0], b[0]);
      }
      assert multiset(a[1..]) == multiset(b[1..]) by {
        TailMultiset(a);
        TailMultiset(b);
      }
      SortedUnique(a[1..], b[1..]);
      assert a == [a[0]] + a[1..] && b == [b[0]] + b[1..];
    }
  }

  /** The head of a sorted sequence is at most any of its elements. */
  lemma SortedHeadBelow(s: seq<string>, x: string)
    requires Sorted(s) && x in multiset(s)
    ensures s != [] && LessEq(s[0], x)
  {
    var i :| 0 <= i < |s| && s[i] == x;
    if i == 0 {
      LessEqReflexive(x);
    }
  }

  lemma TailMultiset(s: seq<string>)
    requires s != []
    ensures multiset(s[1..]) == multiset(s) - multiset{s[0]}
  {
    assert s == [s[0]] + s[1..];
  }

  /** `titles.sort()` on the vector itself: an insertion sort that shifts
      greater elements one place right and drops each element into the gap,
      leaving the array as `Sort` of its old contents. */
  method SortInPlace(a: array<string>)
    modifies a
    ensures a[..] == Sort(old(a[..]))
  {
    ghost var a0 := a[..];
    var i := 0;
    while i < a.Length
      invariant 0 <= i <= a.Length
      invariant a[..i] == Sort(a0[..i])
      invariant a[i..] == a0[i..]
    {
      InsertLast(a, i);
      assert a0[..i + 1] == a0[..i] + [a0[i]];
      assert a[i + 1..] == a0[i + 1..];
      i := i + 1;
    }
    assert a[..] == a[..i];
    assert a0 == a0[..i];
  }

  /** One pass of the insertion sort: `a[i]` moves left past every greater
      element of `a[..i]`, which shift one place right. */
  method InsertLast(a: array<string>, i: nat)
    requires i < a.Length
    modifies a
    ensures a[..i + 1] == Insert(old(a[i]), old(a[..i]))
    ensures a[i + 1..] == old(a[i + 1..])
  {
    ghost var p := a[..i];
    ghost var rest := a[i + 1..];
    var x := a[i];
    var j := i;
    while j > 0 && !LessEq(a[j - 1], x)
      invariant 0 <= j <= i
      invariant a[..j] == p[..j]
      invariant a[j + 1..i + 1] == p[j..]
      invariant a[i + 1..] == rest
      invariant Insert(x, p) == Insert(x, p[..j]) + p[j..]
    {
      ShiftStep(p, x, j);
      a[j] := a[j - 1];
      j := j - 1;
    }
    assert Insert(x, p[..j]) == p[..j] + [x];
    a[j] := x;
    assert a[..i + 1] == a[..j] + [x] + a[j + 1..i + 1];
  }

  /** Moving the insertion point one place left past a greater element. */
  lemma ShiftStep(p: seq<string>, x: string, j: nat)
    requires 0 < j <= |p| && !LessEq(p[j - 1], x)
    ensures Insert(x, p[..j]) + p[j..] == Insert(x, p[..j - 1]) + p[j - 1..]
  {
    assert p[..j][..j - 1] == p[..j - 1];
    assert p[j - 1..] == [p[j - 1]] + p[j..];
  }

  /** Sorting any permutation gives the same result. */
  lemma SortPermutationInvariant(a: seq<string>, b: seq<string>)
    requires multiset(a) == multiset(b)
    ensures Sort(a) == Sort(b)
  {
    SortSpec(a);
    SortSpec(b);
    SortedUnique(Sort(a), Sort(b));
  }
}
