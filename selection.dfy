/** The prefab selection list and the toggle a prefab button performs on it. */
module Selection {

  /** No element occurs twice. */
  predicate Distinct<T(==)>(s: seq<T>) {
    forall i, j :: 0 <= i < j < |s| ==> s[i] != s[j]
  }

  /** List<T>.Remove: drops the first occurrence of x, if there is one. */
  function Remove<T(==)>(s: seq<T>, x: T): (r: seq<T>)
    ensures x !in s ==> r == s
    ensures x in s ==> |r| == |s| - 1
    ensures forall y :: y in r ==> y in s
  {
    if s == [] then []
    else if s[0] == x then s[1..]
    else [s[0]] + Remove(s[1..], x)
  }

  /** Every element other than x, in order. */
  function Without<T(==)>(s: seq<T>, x: T): (r: seq<T>)
    ensures x !in r
  {
    if s == [] then []
    else if s[0] == x then Without(s[1..], x)
    else [s[0]] + Without(s[1..], x)
  }

  /** The selection after its button is pressed: added when absent, removed otherwise. */
  function Toggled<T(==)>(s: seq<T>, x: T): (r: seq<T>)
    ensures x !in s ==> r == s + [x]
    ensures x in s ==> |r| == |s| - 1
  {
    if x !in s then s + [x] else Remove(s, x)
  }

  lemma {:induction false} WithoutAppend<T>(a: seq<T>, b: seq<T>, x: T)
    ensures Without(a + b, x) == Without(a, x) + Without(b, x)
  {
    if a != [] {
      assert (a + b)[1..] == a[1..] + b;
      WithoutAppend(a[1..], b, x);
    } else {
      assert a + b == b;
    }
  }

  /** Removing an element from a list without duplicates removes its only occurrence. */
  lemma {:induction false} RemoveDistinct<T>(s: seq<T>, x: T)
    requires Distinct(s)
    ensures x !in Remove(s, x)
    ensures Distinct(Remove(s, x))
    ensures forall y :: y != x ==> (y in Remove(s, x) <==> y in s)
  {
    if s != [] {
      assert Distinct(s[1..]) by {
        forall i, j | 0 <= i < j < |s[1..]| ensures s[1..][i] != s[1..][j] {
          assert s[1..][i] == s[i + 1] && s[1..][j] == s[j + 1];
        }
      }
      if s[0] == x {
        assert x !in s[1..] by {
          forall i | 0 <= i < |s[1..]| ensures s[1..][i] != x {
            assert s[1..][i] == s[i + 1];
          }
        }
        forall y | y != x ensures y in s[1..] <==> y in s {
          assert s == [s[0]] + s[1..];
        }
      } else {
        RemoveDistinct(s[1..], x);
        var r := Remove(s, x);
        assert r == [s[0]] + Remove(s[1..], x);
        assert s[0] !in Remove(s[1..], x) by {
          forall i | 0 <= i < |s[1..]| ensures s[1..][i] != s[0] {
            assert s[1..][i] == s[i + 1];
          }
        }
        forall i, j | 0 <= i < j < |r| ensures r[i] != r[j] {
          if i == 0 {
            assert r[j] == Remove(s[1..], x)[j - 1];
          } else {
            assert r[i] == Remove(s[1..], x)[i - 1] && r[j] == Remove(s[1..], x)[j - 1];
          }
        }
        forall y | y != x ensures y in r <==> y in s {
          assert s == [s[0]] + s[1..];
        }
      }
    }
  }

  /** Toggling flips the prefab's membership and keeps the list free of duplicates. */
  lemma ToggledFlips<T>(s: seq<T>, x: T)
    requires Distinct(s)
    ensures x in Toggled(s, x) <==> x !in s
    ensures Distinct(Toggled(s, x))
  {
    if x in s {
      RemoveDistinct(s, x);
    } else {
      var r := s + [x];
      forall i, j | 0 <= i < j < |r| ensures r[i] != r[j] {
        if j == |s| {
          assert r[i] == s[i];
        }
      }
    }
  }

  /** Toggling one prefab leaves every other prefab's membership as it was. */
  lemma ToggledKeepsOthers<T>(s: seq<T>, x: T, y: T)
    requires Distinct(s) && y != x
    ensures y in Toggled(s, x) <==> y in s
  {
    if x in s {
      RemoveDistinct(s, x);
    }
  }

  /** Toggling one prefab leaves the relative order of all others as it was. */
  lemma {:induction false} ToggledKeepsOrder<T>(s: seq<T>, x: T)
    ensures Without(Toggled(s, x), x) == Without(s, x)
  {
    if x !in s {
      WithoutAppend(s, [x], x);
      assert Without([x], x) == [];
    } else {
      WithoutRemove(s, x);
    }
  }

  lemma {:induction false} WithoutRemove<T>(s: seq<T>, x: T)
    ensures Without(Remove(s, x), x) == Without(s, x)
  {
    if s != [] && s[0] != x {
      WithoutRemove(s[1..], x);
      var r := [s[0]] + Remove(s[1..], x);
      assert r[0] == s[0] && r[1..] == Remove(s[1..], x);
    }
  }

  /** An element absent from a list is not filtered out of anything. */
  lemma {:induction false} WithoutAbsent<T>(s: seq<T>, x: T)
    requires x !in s
    ensures Without(s, x) == s
  {
    if s != [] {
      assert x !in s[1..];
      WithoutAbsent(s[1..], x);
      assert s == [s[0]] + s[1..];
    }
  }

  /** On a list without duplicates, List.Remove drops exactly the element
      removed and keeps every other element in its order. */
  lemma RemoveIsWithout<T>(s: seq<T>, x: T)
    requires Distinct(s)
    ensures Remove(s, x) == Without(s, x)
  {
    RemoveDistinct(s, x);
    WithoutRemove(s, x);
    WithoutAbsent(Remove(s, x), x);
  }
}
