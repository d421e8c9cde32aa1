/**
 * `Object.keys(secrets).sort()`: the default order of `Array.prototype.sort` on strings,
 * written here as lexicographic order by character, and the sorted list of a key set.
 */
module Sorting {

  /** `a` sorts strictly before `b`: the first differing character is smaller, or `a` is a proper prefix of `b`. */
  predicate Below(a: string, b: string)
    decreases |a|
  {
    if a == [] then b != []
    else b != [] && (a[0] < b[0] || (a[0] == b[0] && Below(a[1..], b[1..])))
  }

  lemma {:induction false} BelowIrreflexive(a: string)
    ensures !Below(a, a)
    decreases |a|
  {
    if a != [] {
      BelowIrreflexive(a[1..]);
    }
  }

  lemma {:induction false} BelowAsymmetric(a: string, b: string)
    requires Below(a, b)
    ensures !Below(b, a)
    decreases |a|
  {
    if a != [] && a[0] == b[0] {
      BelowAsymmetric(a[1..], b[1..]);
    }
  }

  lemma {:induction false} BelowTransitive(a: string, b: string, c: string)
    requires Below(a, b) && Below(b, c)
    ensures Below(a, c)
    decreases |a|
  {
    if a != [] && a[0] == b[0] && b[0] == c[0] {
      BelowTransitive(a[1..], b[1..], c[1..]);
    }
  }

  lemma {:induction false} BelowTotal(a: string, b: string)
    requires a != b
    ensures Below(a, b) || Below(b, a)
    decreases |a|
  {
    if a != [] && b != [] && a[0] == b[0] {
      assert a == [a[0]] + a[1..] && b == [b[0]] + b[1..];
      BelowTotal(a[1..], b[1..]);
    }
  }

  /** Every two positions of `s` are in strictly increasing order (so `s` has no duplicates). */
  predicate StrictlySorted(s: seq<string>) {
    forall i, j :: 0 <= i < j < |s| ==> Below(s[i], s[j])
  }

  /** `m` is the first of `keys` in sort order. */
  predicate IsLeast(m: string, keys: set<string>) {
    m in keys && forall k :: k in keys && k != m ==> Below(m, k)
  }

  lemma {:induction false} LeastExists(keys: set<string>)
    requires keys != {}
    ensures exists m :: IsLeast(m, keys)
    decreases keys
  {
    var x :| x in keys;
    if keys == {x} {
      assert IsLeast(x, keys);
    } else {
      LeastExists(keys - {x});
      var m :| IsLeast(m, keys - {x});
      BelowTotal(x, m);
      if Below(x, m) {
        forall k | k in keys && k != x
          ensures Below(x, k)
        {
          if k != m {
            BelowTransitive(x, m, k);
          }
        }
        assert IsLeast(x, keys);
      } else {
        assert IsLeast(m, keys);
      }
    }
  }

  lemma LeastUnique(keys: set<string>)
    ensures forall a, b :: IsLeast(a, keys) && IsLeast(b, keys) ==> a == b
  {
    forall a, b | IsLeast(a, keys) && IsLeast(b, keys)
      ensures a == b
    {
      if a != b {
        BelowAsymmetric(a, b);
      }
    }
  }

  /** The keys of a set in ascending sort order, each exactly once. */
  function SortedKeys(keys: set<string>): (r: seq<string>)
    ensures StrictlySorted(r)
    ensures forall k :: k in r <==> k in keys
    ensures |r| == |keys|
    decreases keys
  {
    if keys == {} then []
    else
      LeastExists(keys);
      LeastUnique(keys);
      var m :| IsLeast(m, keys);
      [m] + SortedKeys(keys - {m})
  }

  lemma SameElementsEmpty(a: seq<string>, b: seq<string>)
    requires forall k :: k in a <==> k in b
    ensures a == [] <==> b == []
  {
    if a != [] {
      assert a[0] in b;
    }
    if b != [] {
      assert b[0] in a;
    }
  }

  /** A strictly sorted sequence is fixed by its elements. */
  lemma {:induction false} SortedUnique(a: seq<string>, b: seq<string>)
    requires StrictlySorted(a) && StrictlySorted(b)
    requires forall k :: k in a <==> k in b
    ensures a == b
    decreases |a|
  {
    if a != [] && b != [] {
      assert a == [a[0]] + a[1..] && b == [b[0]] + b[1..];
      assert a[0] == b[0] by {
        if a[0] != b[0] {
          assert a[0] in b && b[0] in a;
          var i :| 0 <= i < |b| && b[i] == a[0];
          var j :| 0 <= j < |a| && a[j] == b[0];
          BelowAsymmetric(a[0], a[j]);
        }
      }
      forall k
        ensures k in a[1..] <==> k in b[1..]
      {
        if k in a[1..] {
          var j :| 0 <= j < |a[1..]| && a[1..][j] == k;
          assert Below(a[0], a[j + 1]);
          BelowIrreflexive(a[0]);
          assert k in a && k != b[0];
          assert k in b;
        }
        if k in b[1..] {
          var j :| 0 <= j < |b[1..]| && b[1..][j] == k;
          assert Below(b[0], b[j + 1]);
          BelowIrreflexive(b[0]);
          assert k in b && k != a[0];
          assert k in a;
        }
      }
      SortedUnique(a[1..], b[1..]);
    } else {
      SameElementsEmpty(a, b);
    }
  }
}
