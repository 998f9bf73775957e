/**
 * The rule-based advisors build their tip lists by testing a fixed sequence of
 * rules and appending the tip of every rule that fires. Their result is the
 * catalogue of tips filtered by "this rule fires", which this module defines
 * once, together with what such a filter guarantees.
 */
module TipLists {

  /** The elements of `s` for which `fires` holds, in the order of `s`. */
  function Filter<T(==,!new)>(s: seq<T>, fires: T -> bool): (r: seq<T>)
    ensures |r| <= |s|
    ensures forall x :: x in r <==> x in s && fires(x)
  {
    if s == [] then [] else (if fires(s[0]) then [s[0]] else []) + Filter(s[1..], fires)
  }

  /** A filter that every element passes keeps the whole sequence. */
  lemma {:induction false} FilterKeepsAll<T(!new)>(s: seq<T>, fires: T -> bool)
    requires forall x :: x in s ==> fires(x)
    ensures Filter(s, fires) == s
  {
    if s != [] {
      FilterKeepsAll(s[1..], fires);
    }
  }

  /** `r` is obtained from `s` by deleting elements, keeping the order of the rest. */
  predicate IsSubsequence<T(==)>(r: seq<T>, s: seq<T>)
  {
    if r == [] then true
    else if s == [] then false
    else if r[0] == s[0] then IsSubsequence(r[1..], s[1..])
    else IsSubsequence(r, s[1..])
  }

  predicate NoDuplicates<T(==)>(s: seq<T>)
  {
    forall i, j :: 0 <= i < j < |s| ==> s[i] != s[j]
  }

  lemma {:induction false} SubsequenceOfTail<T>(r: seq<T>, s: seq<T>)
    requires s != [] && IsSubsequence(r, s[1..])
    ensures IsSubsequence(r, s)
  {
    if r != [] && r[0] == s[0] {
      // keep the first element of s in the match instead of skipping it
      assert IsSubsequence(r, s[1..]);
      SubsequenceDropFirst(r, s[1..]);
    }
  }

  lemma {:induction false} SubsequenceDropFirst<T>(r: seq<T>, s: seq<T>)
    requires r != [] && IsSubsequence(r, s)
    ensures IsSubsequence(r[1..], s)
  {
    assert s != [];
    if r[0] == s[0] {
      assert IsSubsequence(r[1..], s[1..]);
      SubsequenceOfTail(r[1..], s);
    } else {
      SubsequenceDropFirst(r, s[1..]);
      SubsequenceOfTail(r[1..], s);
    }
  }

  /** The filter keeps the catalogue order: its result is a subsequence. */
  lemma {:induction false} FilterIsSubsequence<T(!new)>(s: seq<T>, fires: T -> bool)
    ensures IsSubsequence(Filter(s, fires), s)
  {
    if s != [] {
      FilterIsSubsequence(s[1..], fires);
      var rest := Filter(s[1..], fires);
      if fires(s[0]) {
        assert Filter(s, fires) == [s[0]] + rest;
        assert ([s[0]] + rest)[1..] == rest;
      } else {
        assert Filter(s, fires) == rest;
        SubsequenceOfTail(rest, s);
      }
    }
  }

  /** A catalogue without repeated tips gives a tip list without repeated tips. */
  lemma {:induction false} FilterNoDuplicates<T(!new)>(s: seq<T>, fires: T -> bool)
    requires NoDuplicates(s)
    ensures NoDuplicates(Filter(s, fires))
  {
    if s != [] {
      assert NoDuplicates(s[1..]);
      FilterNoDuplicates(s[1..], fires);
      var rest := Filter(s[1..], fires);
      assert s[0] !in s[1..];
      assert s[0] !in rest;
      if fires(s[0]) {
        var r := [s[0]] + rest;
        forall i, j | 0 <= i < j < |r| ensures r[i] != r[j] {
          if i > 0 {
            assert r[i] == rest[i - 1] && r[j] == rest[j - 1];
          } else {
            assert r[j] in rest;
          }
        }
      }
    }
  }

  /** A list without repetitions drawn from `S` is no longer than `S` is large. */
  lemma {:induction false} DistinctLengthBound<T>(r: seq<T>, S: set<T>)
    requires NoDuplicates(r)
    requires forall x :: x in r ==> x in S
    ensures |r| <= |S|
  {
    if r != [] {
      var rest := r[1..];
      assert NoDuplicates(rest);
      forall x | x in rest ensures x in S - {r[0]} {
        var j :| 0 <= j < |rest| && rest[j] == x;
        assert r[j + 1] == x;
      }
      DistinctLengthBound(rest, S - {r[0]});
    }
  }

  /** Testing one more element appends it exactly when it is kept. */
  lemma {:induction false} FilterSnoc<T(!new)>(s: seq<T>, x: T, fires: T -> bool)
    ensures Filter(s + [x], fires) == Filter(s, fires) + (if fires(x) then [x] else [])
  {
    if s == [] {
      assert [] + [x] == [x];
      assert [x][1..] == [];
    } else {
      assert (s + [x])[0] == s[0];
      assert (s + [x])[1..] == s[1..] + [x];
      FilterSnoc(s[1..], x, fires);
    }
  }

  /** The elements among the first `k` of `s` for which `fires` holds, tested one by one. */
  function FilterUpTo<T>(s: seq<T>, fires: T -> bool, k: nat): seq<T>
    requires k <= |s|
  {
    if k == 0 then [] else FilterUpTo(s, fires, k - 1) + (if fires(s[k - 1]) then [s[k - 1]] else [])
  }

  /** Testing the `k`-th element when it is kept appends it ... */
  lemma Kept<T>(s: seq<T>, fires: T -> bool, k: nat, before: seq<T>)
    requires k < |s| && before == FilterUpTo(s, fires, k) && fires(s[k])
    ensures before + [s[k]] == FilterUpTo(s, fires, k + 1)
  {
  }

  /** ... and when it is not, leaves the list as it is. */
  lemma Dropped<T>(s: seq<T>, fires: T -> bool, k: nat, before: seq<T>)
    requires k < |s| && before == FilterUpTo(s, fires, k) && !fires(s[k])
    ensures before == FilterUpTo(s, fires, k + 1)
  {
  }

  /** Testing the elements one by one is filtering. */
  lemma {:induction false} FilterUpToIsFilter<T(!new)>(s: seq<T>, fires: T -> bool, k: nat)
    requires k <= |s|
    ensures FilterUpTo(s, fires, k) == Filter(s[..k], fires)
  {
    if k == 0 {
      assert s[..0] == [];
    } else {
      FilterUpToIsFilter(s, fires, k - 1);
      assert s[..k] == s[..k - 1] + [s[k - 1]];
      FilterSnoc(s[..k - 1], s[k - 1], fires);
    }
  }
}
