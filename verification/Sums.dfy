/** Sums over sets of names, independent of the order in which a loop happens to visit them. */
module Sums {
  ghost function SumSet(s: set<string>, f: string -> real): real {
    if s == {} then 0.0
    else
      var x :| x in s;
      f(x) + SumSet(s - {x}, f)
  }

  /** Any member may be taken out first. */
  lemma {:induction false} Remove(s: set<string>, f: string -> real, x: string)
    requires x in s
    ensures SumSet(s, f) == f(x) + SumSet(s - {x}, f)
  {
    var y :| y in s && SumSet(s, f) == f(y) + SumSet(s - {y}, f);
    if y != x {
      Remove(s - {y}, f, x);
      Remove(s - {x}, f, y);
      assert s - {y} - {x} == s - {x} - {y};
    }
  }

  lemma Add(s: set<string>, f: string -> real, x: string)
    requires x !in s
    ensures SumSet(s + {x}, f) == SumSet(s, f) + f(x)
  {
    Remove(s + {x}, f, x);
    assert s + {x} - {x} == s;
  }

  lemma {:induction false} UpperBound(s: set<string>, f: string -> real, bound: real)
    requires forall x | x in s :: f(x) <= bound
    ensures SumSet(s, f) <= |s| as real * bound
  {
    if s != {} {
      var x :| x in s;
      Remove(s, f, x);
      UpperBound(s - {x}, f, bound);
    }
  }

  // ---- Enumerations of a set without repetition ----

  ghost predicate Distinct(keys: seq<string>) {
    forall i, j | 0 <= i < j < |keys| :: keys[i] != keys[j]
  }

  ghost function Elements(keys: seq<string>): set<string> {
    set k | k in keys
  }

  lemma ElementsSnoc(keys: seq<string>, k: string)
    ensures Elements(keys + [k]) == Elements(keys) + {k}
  {
  }

  lemma {:induction false} DistinctCount(keys: seq<string>)
    requires Distinct(keys)
    ensures |Elements(keys)| == |keys|
  {
    if keys != [] {
      var init, last := keys[..|keys| - 1], keys[|keys| - 1];
      DistinctCount(init);
      ElementsSnoc(init, last);
      assert keys == init + [last] && last !in init;
    }
  }

  lemma {:induction false} SameSize(small: set<string>, big: set<string>)
    requires small <= big && |small| == |big|
    ensures small == big
  {
    if small != big {
      var x :| x in big && x !in small;
      SmallerSize(small, big - {x});
    }
  }

  lemma {:induction false} SmallerSize(small: set<string>, big: set<string>)
    requires small <= big
    ensures |small| <= |big|
  {
    if small != {} {
      var x :| x in small;
      SmallerSize(small - {x}, big - {x});
    }
  }

  /** If as many distinct names as the set holds are all in it, they are the set. */
  lemma Pigeonhole(keys: seq<string>, s: set<string>)
    requires Distinct(keys) && |keys| == |s|
    requires forall k | k in keys :: k in s
    ensures Elements(keys) == s
  {
    DistinctCount(keys);
    SameSize(Elements(keys), s);
  }

  /** The keys of a map, in whatever order the map yields them. */
  method KeysOf<V>(m: map<string, V>) returns (keys: seq<string>)
    ensures Distinct(keys) && |keys| == |m|
    ensures forall k :: k in keys <==> k in m
  {
    keys := [];
    var rest := m.Keys;
    while rest != {}
      invariant rest <= m.Keys
      invariant Distinct(keys) && |keys| + |rest| == |m.Keys|
      invariant forall k :: k in keys <==> k in m.Keys - rest
    {
      var k :| k in rest;
      assert k !in keys;
      keys, rest := keys + [k], rest - {k};
    }
  }
}
