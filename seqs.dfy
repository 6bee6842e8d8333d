/**
 * List comprehensions as the pipeline writes them: `[x for x in s if p(x)]`,
 * `for x in s: out.extend(f(x))` and `len([x for x in s if p(x)])`.
 */
module Seqs {

  /** `s[:n]` on a list. */
  function FirstN<T>(s: seq<T>, n: nat): (r: seq<T>)
    ensures |r| == if |s| <= n then |s| else n
    ensures r == s[..|r|]
  {
    if |s| <= n then s else s[..n]
  }

  /** `[x for x in s if p(x)]`. */
  function Filter<T>(s: seq<T>, p: T -> bool): (r: seq<T>)
    ensures |r| <= |s|
  {
    if s == [] then [] else Filter(s[..|s| - 1], p) + (if p(s[|s| - 1]) then [s[|s| - 1]] else [])
  }

  /** The filter keeps exactly the elements that satisfy the condition. */
  lemma {:induction false} FilterMembers<T>(s: seq<T>, p: T -> bool)
    ensures forall x :: x in Filter(s, p) <==> x in s && p(x)
  {
    if s != [] {
      FilterMembers(s[..|s| - 1], p);
      assert s == s[..|s| - 1] + [s[|s| - 1]];
    }
  }

  /** Nothing is kept exactly when no element satisfies the condition. */
  lemma FilterEmptyIff<T>(s: seq<T>, p: T -> bool)
    ensures Filter(s, p) == [] <==> forall i :: 0 <= i < |s| ==> !p(s[i])
  {
    FilterMembers(s, p);
    if Filter(s, p) != [] {
      assert Filter(s, p)[0] in Filter(s, p);
    }
  }

  /** A filter and its complement split the list: their lengths add up to the whole. */
  lemma {:induction false} FilterSplit<T>(s: seq<T>, p: T -> bool, q: T -> bool)
    requires forall x :: q(x) <==> !p(x)
    ensures |Filter(s, p)| + |Filter(s, q)| == |s|
  {
    if s != [] {
      FilterSplit(s[..|s| - 1], p, q);
    }
  }

  /** A filter that every element passes keeps the list as it is. */
  lemma {:induction false} FilterKeepsAll<T>(s: seq<T>, p: T -> bool)
    requires forall i :: 0 <= i < |s| ==> p(s[i])
    ensures Filter(s, p) == s
  {
    if s != [] {
      FilterKeepsAll(s[..|s| - 1], p);
      assert s == s[..|s| - 1] + [s[|s| - 1]];
    }
  }

  /** The filter drops something exactly when some element fails the condition. */
  lemma FilterShorterIff<T>(s: seq<T>, p: T -> bool)
    ensures |Filter(s, p)| < |s| <==> exists i :: 0 <= i < |s| && !p(s[i])
  {
    if i :| 0 <= i < |s| && !p(s[i]) {
      var q := x => !p(x);
      FilterSplit(s, p, q);
      FilterEmptyIff(s, q);
    } else {
      FilterKeepsAll(s, p);
    }
  }

  /** Filters by conditions that agree on every element keep the same elements. */
  lemma {:induction false} FilterCongruent<T>(s: seq<T>, p: T -> bool, q: T -> bool)
    requires forall i :: 0 <= i < |s| ==> p(s[i]) == q(s[i])
    ensures Filter(s, p) == Filter(s, q)
  {
    if s != [] {
      FilterCongruent(s[..|s| - 1], p, q);
    }
  }

  /** What a filter, then a map, then a filter produces comes from an input that passed the first filter. */
  lemma FilterMapFilterFrom<T, U>(s: seq<T>, p: T -> bool, f: T -> U, q: U -> bool, y: U)
    requires y in Filter(Map(Filter(s, p), f), q)
    ensures q(y) && exists x :: x in s && p(x) && y == f(x)
  {
    FilterMembers(Map(Filter(s, p), f), q);
    MapMembers(Filter(s, p), f);
    FilterMembers(s, p);
  }

  /** An input that passes the first filter and whose image passes the second contributes its image. */
  lemma FilterMapFilterHas<T, U>(s: seq<T>, p: T -> bool, f: T -> U, q: U -> bool, x: T)
    requires x in s && p(x) && q(f(x))
    ensures f(x) in Filter(Map(Filter(s, p), f), q)
  {
    var kept := Filter(s, p);
    FilterMembers(s, p);
    var i :| 0 <= i < |kept| && kept[i] == x;
    MapAt(kept, f, i);
    var y := f(x);
    assert Map(kept, f)[i] == y;
    assert y in Map(kept, f);
    FilterMembers(Map(kept, f), q);
    assert y in Filter(Map(kept, f), q);
  }

  /** Filtering a concatenation filters each part. */
  lemma {:induction false} FilterAppend<T>(s: seq<T>, t: seq<T>, p: T -> bool)
    ensures Filter(s + t, p) == Filter(s, p) + Filter(t, p)
  {
    if t != [] {
      var n := |t| - 1;
      FilterAppend(s, t[..n], p);
      assert (s + t)[..|s + t| - 1] == s + t[..n];
      assert (s + t)[|s + t| - 1] == t[n];
    } else {
      assert s + t == s;
    }
  }

  /** `[f(x) for x in s]`. */
  function Map<T, U>(s: seq<T>, f: T -> U): (r: seq<U>)
    ensures |r| == |s|
  {
    if s == [] then [] else Map(s[..|s| - 1], f) + [f(s[|s| - 1])]
  }

  /** Each output is the image of the input at the same position. */
  lemma {:induction false} MapAt<T, U>(s: seq<T>, f: T -> U, i: nat)
    requires i < |s|
    ensures Map(s, f)[i] == f(s[i])
  {
    if i < |s| - 1 {
      MapAt(s[..|s| - 1], f, i);
    }
  }

  /** The outputs are exactly the images of the inputs. */
  lemma MapMembers<T, U>(s: seq<T>, f: T -> U)
    ensures forall y :: y in Map(s, f) <==> exists x :: x in s && y == f(x)
  {
    forall y | y in Map(s, f)
      ensures exists x :: x in s && y == f(x)
    {
      var i :| 0 <= i < |Map(s, f)| && Map(s, f)[i] == y;
      MapAt(s, f, i);
    }
    forall x | x in s
      ensures f(x) in Map(s, f)
    {
      var i :| 0 <= i < |s| && s[i] == x;
      MapAt(s, f, i);
    }
  }

  /** The loop that builds a mapped list one element at a time. */
  lemma MapSnoc<T, U>(s: seq<T>, f: T -> U, x: T)
    ensures Map(s + [x], f) == Map(s, f) + [f(x)]
  {
    assert (s + [x])[..|s|] == s;
  }

  lemma AppendAssoc<T>(a: seq<T>, b: seq<T>, c: seq<T>)
    ensures (a + b) + c == a + (b + c)
  {
  }

  /** The loop that maps a list one element at a time, over a growing prefix. */
  lemma MapPrefixSnoc<T, U>(s: seq<T>, f: T -> U, i: nat)
    requires i < |s|
    ensures Map(s[..i + 1], f) == Map(s[..i], f) + [f(s[i])]
  {
    assert s[..i + 1] == s[..i] + [s[i]];
    MapSnoc(s[..i], f, s[i]);
  }

  /** Mapping a concatenation maps each part. */
  lemma {:induction false} MapAppend<T, U>(s: seq<T>, t: seq<T>, f: T -> U)
    ensures Map(s + t, f) == Map(s, f) + Map(t, f)
  {
    if t != [] {
      var n := |t| - 1;
      MapAppend(s, t[..n], f);
      assert (s + t)[..|s + t| - 1] == s + t[..n];
      assert (s + t)[|s + t| - 1] == t[n];
    } else {
      assert s + t == s;
    }
  }

  /** The loop that filters a list one element at a time. */
  lemma FilterSnoc<T>(s: seq<T>, p: T -> bool, i: nat)
    requires i < |s|
    ensures Filter(s[..i + 1], p) == Filter(s[..i], p) + (if p(s[i]) then [s[i]] else [])
  {
    assert s[..i + 1][..i] == s[..i];
  }

  /** `out = []; for x in s: out.extend(f(x))`. */
  function Flatten<T, U>(s: seq<T>, f: T -> seq<U>): seq<U>
  {
    if s == [] then [] else Flatten(s[..|s| - 1], f) + f(s[|s| - 1])
  }

  /** Nothing is produced exactly when every element produces nothing. */
  lemma {:induction false} FlattenEmptyIff<T, U>(s: seq<T>, f: T -> seq<U>)
    ensures Flatten(s, f) == [] <==> forall i :: 0 <= i < |s| ==> f(s[i]) == []
  {
    if s != [] {
      var init := s[..|s| - 1];
      FlattenEmptyIff(init, f);
      if Flatten(s, f) == [] {
        forall i | 0 <= i < |s|
          ensures f(s[i]) == []
        {
          if i < |init| {
            assert s[i] == init[i];
          }
        }
      } else if f(s[|s| - 1]) == [] {
        var i :| 0 <= i < |init| && f(init[i]) != [];
        assert s[i] == init[i];
      }
    }
  }

  /** Everything produced comes from some element. */
  lemma {:induction false} FlattenMembers<T, U>(s: seq<T>, f: T -> seq<U>, y: U)
    requires y in Flatten(s, f)
    ensures exists i :: 0 <= i < |s| && y in f(s[i])
  {
    var init := s[..|s| - 1];
    if y in Flatten(init, f) {
      FlattenMembers(init, f, y);
      var i :| 0 <= i < |init| && y in f(init[i]);
      assert s[i] == init[i];
    } else {
      assert y in f(s[|s| - 1]);
    }
  }

  /** Everything an element produces is in the flattened list. */
  lemma {:induction false} FlattenContains<T, U>(s: seq<T>, f: T -> seq<U>, i: nat, y: U)
    requires i < |s| && y in f(s[i])
    ensures y in Flatten(s, f)
  {
    var init := s[..|s| - 1];
    if i < |init| {
      assert s[i] == init[i];
      FlattenContains(init, f, i, y);
    }
  }

  /** The loop that builds a flattened list one element at a time. */
  lemma FlattenSnoc<T, U>(s: seq<T>, f: T -> seq<U>, i: nat)
    requires i < |s|
    ensures Flatten(s[..i + 1], f) == Flatten(s[..i], f) + f(s[i])
  {
    assert s[..i + 1][..i] == s[..i];
  }

  /**
   * The distinct elements in order of first appearance: the key order of a
   * Python dict filled by one pass over `s`.
   */
  function FirstAppearances<T(==)>(s: seq<T>): seq<T>
  {
    if s == [] then []
    else
      var init := FirstAppearances(s[..|s| - 1]);
      if s[|s| - 1] in s[..|s| - 1] then init else init + [s[|s| - 1]]
  }

  /** No element repeats. */
  predicate NoDuplicates<T(==)>(s: seq<T>)
  {
    forall i, j :: 0 <= i < j < |s| ==> s[i] != s[j]
  }

  /** Each element of `s` appears exactly once in its first-appearance order. */
  lemma {:induction false} FirstAppearancesShape<T>(s: seq<T>)
    ensures NoDuplicates(FirstAppearances(s))
    ensures forall x :: x in FirstAppearances(s) <==> x in s
  {
    if s != [] {
      var init := s[..|s| - 1];
      FirstAppearancesShape(init);
      assert s == init + [s[|s| - 1]];
    }
  }

  /** `out = []; for x in s: if p(x): out.append(f(x))`. */
  method MapFilterLoop<T, U>(s: seq<T>, p: T -> bool, f: T -> U) returns (r: seq<U>)
    ensures r == Map(Filter(s, p), f)
  {
    r := [];
    for i := 0 to |s|
      invariant r == Map(Filter(s[..i], p), f)
    {
      FilterSnoc(s, p, i);
      if p(s[i]) {
        MapSnoc(Filter(s[..i], p), f, s[i]);
        r := r + [f(s[i])];
      } else {
        assert Filter(s[..i + 1], p) == Filter(s[..i], p);
      }
    }
    assert s[..|s|] == s;
  }

  /** `for x in s: out.append(f(x))`, extending an existing list. */
  method AppendMapLoop<T, U>(prefix: seq<U>, s: seq<T>, f: T -> U) returns (r: seq<U>)
    ensures r == prefix + Map(s, f)
  {
    r := prefix;
    for k := 0 to |s|
      invariant r == prefix + Map(s[..k], f)
    {
      assert s[..k + 1] == s[..k] + [s[k]];
      MapSnoc(s[..k], f, s[k]);
      r := r + [f(s[k])];
    }
    assert s[..|s|] == s;
  }
}
