/** The two Python list operations the application relies on: duplicate-free
    lists and `list.remove`. */
module Lists {

  /** No element occurs twice. */
  predicate Distinct<T(==)>(s: seq<T>)
  {
    forall i, j :: 0 <= i < j < |s| ==> s[i] != s[j]
  }

  /** Python's `list.remove(x)`: drops the first occurrence of `x` and keeps
      the order of the other elements. Python raises `ValueError` when `x`
      is absent; `toggle_part` only calls it after checking `x in s`. */
  function RemoveFirst<T(==)>(s: seq<T>, x: T): (r: seq<T>)
    requires x in s
    ensures |r| == |s| - 1
  {
    if s[0] == x then s[1..] else [s[0]] + RemoveFirst(s[1..], x)
  }

  /** Removing `x` keeps every other element and adds nothing; on a
      duplicate-free list `x` itself is gone afterwards. */
  lemma {:induction false} RemoveFirstMembers<T>(s: seq<T>, x: T, y: T)
    requires x in s
    ensures y in RemoveFirst(s, x) ==> y in s
    ensures y in s && y != x ==> y in RemoveFirst(s, x)
    ensures Distinct(s) ==> x !in RemoveFirst(s, x)
  {
    if s[0] != x {
      assert Distinct(s) ==> Distinct(s[1..]);
      RemoveFirstMembers(s[1..], x, y);
    }
  }

  /** Removing an element from a duplicate-free list leaves it duplicate-free. */
  lemma {:induction false} RemoveFirstDistinct<T>(s: seq<T>, x: T)
    requires x in s && Distinct(s)
    ensures Distinct(RemoveFirst(s, x))
  {
    if s[0] != x {
      var rest := s[1..];
      assert Distinct(rest);
      RemoveFirstDistinct(rest, x);
      RemoveFirstMembers(rest, x, s[0]);
      assert s[0] !in rest;
      var r := RemoveFirst(s, x);
      assert r == [s[0]] + RemoveFirst(rest, x);
      forall i, j | 0 <= i < j < |r| ensures r[i] != r[j] {
        if i == 0 {
          assert r[j] in RemoveFirst(rest, x);
        }
      }
    }
  }

  /** Removing an element that was just appended to a list without it gives
      back the list. */
  lemma {:induction false} RemoveFirstAppended<T>(s: seq<T>, x: T)
    requires x !in s
    ensures RemoveFirst(s + [x], x) == s
  {
    if s != [] {
      assert (s + [x])[0] == s[0];
      assert (s + [x])[1..] == s[1..] + [x];
      RemoveFirstAppended(s[1..], x);
    }
  }
}
