/** Sequence-as-table helpers for the store: filtering, counting, first
    match, and the id and uniqueness properties a table keeps. */
module Tables {
  import opened Wrappers

  /** The elements of `s` satisfying `p`, in order. */
  function Filter<T(!new)>(s: seq<T>, p: T -> bool): (r: seq<T>)
    ensures |r| <= |s|
    ensures forall x :: x in r <==> x in s && p(x)
  {
    if s == [] then []
    else
      var n := |s| - 1;
      assert s == s[..n] + [s[n]];
      Filter(s[..n], p) + (if p(s[n]) then [s[n]] else [])
  }

  /** A filter every element passes keeps the whole table. */
  lemma {:induction false} FilterAll<T(!new)>(s: seq<T>, p: T -> bool)
    requires forall x :: x in s ==> p(x)
    ensures Filter(s, p) == s
  {
    if s != [] {
      var n := |s| - 1;
      assert s[n] in s;
      assert forall x :: x in s[..n] ==> x in s;
      FilterAll(s[..n], p);
      assert s[..n] + [s[n]] == s;
    }
  }

  /** How many elements of `s` satisfy `p`. */
  function Count<T(!new)>(s: seq<T>, p: T -> bool): (r: nat)
    ensures r <= |s|
  {
    if s == [] then 0
    else
      var n := |s| - 1;
      Count(s[..n], p) + (if p(s[n]) then 1 else 0)
  }

  /** Counting is the length of the filtered table. */
  lemma {:induction false} CountFilter<T(!new)>(s: seq<T>, p: T -> bool)
    ensures Count(s, p) == |Filter(s, p)|
  {
    if s != [] {
      CountFilter(s[..|s| - 1], p);
    }
  }

  /** A predicate and its complement on `s` count every element once. */
  lemma {:induction false} CountComplement<T(!new)>(s: seq<T>, p: T -> bool, q: T -> bool)
    requires forall x :: x in s ==> (q(x) <==> !p(x))
    ensures Count(s, p) + Count(s, q) == |s|
  {
    if s != [] {
      var n := |s| - 1;
      assert s[n] in s;
      assert forall x :: x in s[..n] ==> x in s;
      CountComplement(s[..n], p, q);
    }
  }

  /** Three predicates that never hold together count each element at most once. */
  lemma {:induction false} CountDisjoint<T(!new)>(s: seq<T>, p: T -> bool, q: T -> bool, u: T -> bool)
    requires forall x :: x in s ==> !(p(x) && q(x)) && !(p(x) && u(x)) && !(q(x) && u(x))
    ensures Count(s, p) + Count(s, q) + Count(s, u) <= |s|
  {
    if s != [] {
      var n := |s| - 1;
      assert s[n] in s;
      assert forall x :: x in s[..n] ==> x in s;
      CountDisjoint(s[..n], p, q, u);
    }
  }

  /** The first index whose element satisfies `p`, as `.first()` finds it. */
  function FindFirst<T(!new)>(s: seq<T>, p: T -> bool): (r: Option<nat>)
    ensures r.Some? ==> r.value < |s| && p(s[r.value]) && forall k :: 0 <= k < r.value ==> !p(s[k])
    ensures r.None? <==> forall k :: 0 <= k < |s| ==> !p(s[k])
  {
    if s == [] then None
    else if p(s[0]) then Some(0)
    else match FindFirst(s[1..], p)
      case None => None
      case Some(i) => Some(i + 1)
  }

  /** An element appended after none that matched is the first match. */
  lemma {:induction false} FindFirstAppend<T(!new)>(s: seq<T>, x: T, p: T -> bool)
    requires FindFirst(s, p).None? && p(x)
    ensures FindFirst(s + [x], p) == Some(|s|)
  {
    if s != [] {
      assert (s + [x])[1..] == s[1..] + [x];
      FindFirstAppend(s[1..], x, p);
    }
  }

  /** Ids strictly increase along the table: they are distinct, and the
      table's order is the order of its ids. */
  predicate Increasing<T(!new)>(s: seq<T>, id: T -> nat) {
    forall i, j :: 0 <= i < j < |s| ==> id(s[i]) < id(s[j])
  }

  /** The id SQLite gives the next row: one more than the largest id, 1 for
      an empty table. */
  function NextId<T(!new)>(s: seq<T>, id: T -> nat): nat {
    if s == [] then 1 else id(s[|s| - 1]) + 1
  }

  /** Appending a row whose id is larger than every id keeps the table
      increasing. */
  lemma AppendLarger<T(!new)>(s: seq<T>, x: T, id: T -> nat)
    requires Increasing(s, id)
    requires forall y :: y in s ==> id(y) < id(x)
    ensures Increasing(s + [x], id)
  {
    forall i, j | 0 <= i < j < |s + [x]|
      ensures id((s + [x])[i]) < id((s + [x])[j])
    {
      if j == |s| {
        assert (s + [x])[i] == s[i] && s[i] in s;
      } else {
        assert (s + [x])[i] == s[i] && (s + [x])[j] == s[j];
      }
    }
  }

  /** A row with the next id is larger than every id in the table, and the
      table stays increasing when it is appended. */
  lemma AppendFresh<T(!new)>(s: seq<T>, x: T, id: T -> nat)
    requires Increasing(s, id)
    requires id(x) == NextId(s, id)
    ensures forall y :: y in s ==> id(y) < id(x)
    ensures Increasing(s + [x], id)
  {
    forall y | y in s
      ensures id(y) < id(x)
    {
      var k :| 0 <= k < |s| && s[k] == y;
      assert k == |s| - 1 || id(s[k]) < id(s[|s| - 1]);
    }
    AppendLarger(s, x, id);
  }

  /** Removing rows keeps the ids increasing. */
  lemma {:induction false} FilterIncreasing<T(!new)>(s: seq<T>, p: T -> bool, id: T -> nat)
    requires Increasing(s, id)
    ensures Increasing(Filter(s, p), id)
  {
    if s != [] {
      var n := |s| - 1;
      FilterIncreasing(s[..n], p, id);
      if p(s[n]) {
        forall y | y in Filter(s[..n], p)
          ensures id(y) < id(s[n])
        {
          var k :| 0 <= k < n && s[..n][k] == y;
          assert s[k] == y;
        }
        AppendLarger(Filter(s[..n], p), s[n], id);
      }
    }
  }

  /** No two rows share a key. */
  predicate UniqueBy<T(!new), K(==)>(s: seq<T>, key: T -> K) {
    forall i, j :: 0 <= i < j < |s| ==> key(s[i]) != key(s[j])
  }

  /** Appending a row whose key is new keeps the keys unique. */
  lemma AppendUnique<T(!new), K>(s: seq<T>, x: T, key: T -> K)
    requires UniqueBy(s, key)
    requires forall y :: y in s ==> key(y) != key(x)
    ensures UniqueBy(s + [x], key)
  {
    forall i, j | 0 <= i < j < |s + [x]|
      ensures key((s + [x])[i]) != key((s + [x])[j])
    {
      if j == |s| {
        assert (s + [x])[i] == s[i] && s[i] in s;
      } else {
        assert (s + [x])[i] == s[i] && (s + [x])[j] == s[j];
      }
    }
  }

  /** Removing rows keeps the keys unique. */
  lemma {:induction false} FilterUnique<T(!new), K>(s: seq<T>, p: T -> bool, key: T -> K)
    requires UniqueBy(s, key)
    ensures UniqueBy(Filter(s, p), key)
  {
    if s != [] {
      var n := |s| - 1;
      assert UniqueBy(s[..n], key);
      FilterUnique(s[..n], p, key);
      if p(s[n]) {
        forall y | y in Filter(s[..n], p)
          ensures key(y) != key(s[n])
        {
          var k :| 0 <= k < n && s[..n][k] == y;
          assert s[k] == y;
        }
        AppendUnique(Filter(s[..n], p), s[n], key);
      }
    }
  }
}
