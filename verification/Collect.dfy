/** A map that a loop fills from a list of named values. */
module Collect {
  function Fold<N, M>(names: seq<N>, values: seq<M>, before: map<N, M>): map<N, M>
    requires |names| == |values|
  {
    if names == [] then before
    else
      var n := |names| - 1;
      Fold(names[..n], values[..n], before)[names[n] := values[n]]
  }

  /** No name is taken, and no two are alike. */
  ghost predicate AreNew<N(!new)>(names: seq<N>, taken: set<N>)
  {
    (forall i | 0 <= i < |names| :: names[i] !in taken) && forall i, j | 0 <= i < j < |names| :: names[i] != names[j]
  }

  lemma {:induction false} FoldHas<N(!new), M>(names: seq<N>, values: seq<M>, before: map<N, M>, n: N)
    requires |names| == |values|
    ensures n in Fold(names, values, before) <==> n in before || n in names
  {
    if names != [] {
      var last := |names| - 1;
      FoldHas(names[..last], values[..last], before, n);
      assert names == names[..last] + [names[last]];
    }
  }

  lemma FreshInFold<N(!new), M>(names: seq<N>, values: seq<M>, before: map<N, M>, n: N)
    requires |names| == |values|
    ensures n !in Fold(names, values, before) <==> n !in before && n !in names
  {
    FoldHas(names, values, before, n);
  }

  /** New names are added one for one, and nothing else changes. */
  lemma FoldAdds<N(!new), M>(names: seq<N>, values: seq<M>, before: map<N, M>)
    requires |names| == |values| && AreNew(names, before.Keys)
    ensures forall n :: n in Fold(names, values, before) <==> n in before || n in names
    ensures forall i | 0 <= i < |names| :: Fold(names, values, before)[names[i]] == values[i]
    ensures forall n | n in before :: Fold(names, values, before)[n] == before[n]
    ensures |Fold(names, values, before)| == |before| + |names|
  {
    forall n ensures n in Fold(names, values, before) <==> n in before || n in names {
      FoldHas(names, values, before, n);
    }
    forall i | 0 <= i < |names| ensures Fold(names, values, before)[names[i]] == values[i] {
      FoldHolds(names, values, before, i);
    }
    forall n | n in before ensures Fold(names, values, before)[n] == before[n] {
      FoldKeeps(names, values, before, n);
    }
    FoldSize(names, values, before);
  }

  lemma {:induction false} FoldHolds<N(!new), M>(names: seq<N>, values: seq<M>, before: map<N, M>, i: nat)
    requires |names| == |values| && AreNew(names, before.Keys) && i < |names|
    ensures names[i] in Fold(names, values, before) && Fold(names, values, before)[names[i]] == values[i]
  {
    var last := |names| - 1;
    if i < last {
      NewPrefix(names, last, before.Keys);
      FoldHolds(names[..last], values[..last], before, i);
      assert names[i] != names[last];
    }
  }

  lemma {:induction false} FoldKeeps<N(!new), M>(names: seq<N>, values: seq<M>, before: map<N, M>, n: N)
    requires |names| == |values| && AreNew(names, before.Keys) && n in before
    ensures n in Fold(names, values, before) && Fold(names, values, before)[n] == before[n]
  {
    if names != [] {
      var last := |names| - 1;
      NewPrefix(names, last, before.Keys);
      FoldKeeps(names[..last], values[..last], before, n);
    }
  }

  lemma {:induction false} FoldSize<N(!new), M>(names: seq<N>, values: seq<M>, before: map<N, M>)
    requires |names| == |values| && AreNew(names, before.Keys)
    ensures |Fold(names, values, before)| == |before| + |names|
  {
    if names != [] {
      var last := |names| - 1;
      NewPrefix(names, last, before.Keys);
      LastIsNew(names, before.Keys);
      FoldSize(names[..last], values[..last], before);
      FreshInFold(names[..last], values[..last], before, names[last]);
    }
  }

  lemma LastIsNew<N(!new)>(names: seq<N>, taken: set<N>)
    requires names != [] && AreNew(names, taken)
    ensures var n := |names| - 1; names[n] !in taken && names[n] !in names[..n]
  {
  }

  /** One turn of a loop that collects named values and refuses taken names. */
  lemma FoldTurn<N(!new), M>(names: seq<N>, values: seq<M>, i: nat, taken: set<N>)
    requires i < |names| == |values| && AreNew(names[..i], taken)
    ensures Fold(names[..i + 1], values[..i + 1], map[]) == Fold(names[..i], values[..i], map[])[names[i] := values[i]]
    ensures AreNew(names[..i + 1], taken)
       <==> names[i] !in taken && names[i] !in Fold(names[..i], values[..i], map[])
    ensures !AreNew(names[..i + 1], taken) ==> !AreNew(names, taken)
  {
    assert names[..i + 1][..i] == names[..i] && values[..i + 1][..i] == values[..i];
    assert names[..i + 1] == names[..i] + [names[i]];
    FreshInFold(names[..i], values[..i], map[], names[i]);
    NewGrows(names[..i], names[i], taken);
    if AreNew(names, taken) {
      NewPrefix(names, i + 1, taken);
    }
  }

  lemma NewPrefix<N(!new)>(names: seq<N>, k: nat, taken: set<N>)
    requires k <= |names| && AreNew(names, taken)
    ensures AreNew(names[..k], taken)
  {
  }

  lemma NewGrows<N(!new)>(names: seq<N>, n: N, taken: set<N>)
    requires AreNew(names, taken)
    ensures AreNew(names + [n], taken) <==> n !in taken && n !in names
  {
    var names' := names + [n];
    assert names'[|names|] == n;
    if i :| 0 <= i < |names| && names[i] == n {
      assert names'[i] == n;
    }
  }

  /** Folding in the entries of a map, each once, is adding the map. */
  lemma FoldIsUnion<N(!new), M>(names: seq<N>, values: seq<M>, before: map<N, M>, m: map<N, M>)
    requires |names| == |values| && AreNew(names, before.Keys)
    requires forall n :: n in names <==> n in m
    requires forall i | 0 <= i < |names| :: names[i] in m && m[names[i]] == values[i]
    ensures Fold(names, values, before) == before + m
    ensures |names| == |m|
  {
    FoldAdds(names, values, before);
    var out := Fold(names, values, before);
    forall n | n in m ensures n in out && out[n] == m[n] {
      var i :| 0 <= i < |names| && names[i] == n;
    }
    DistinctSize(names);
    assert (set n | n in names) == m.Keys;
  }

  /** A list without repetitions holds as many values as it has positions. */
  lemma {:induction false} DistinctSize<S(!new)>(xs: seq<S>)
    requires forall i, j | 0 <= i < j < |xs| :: xs[i] != xs[j]
    ensures |set x | x in xs| == |xs|
  {
    if xs != [] {
      var n := |xs| - 1;
      DistinctSize(xs[..n]);
      assert xs == xs[..n] + [xs[n]];
      assert (set x | x in xs) == (set x | x in xs[..n]) + {xs[n]};
    }
  }

  /** Some list of the elements of a set. */
  lemma SomeOrder<S(!new)>(all: set<S>) returns (xs: seq<S>)
    ensures forall x :: x in xs <==> x in all
    ensures forall i, j | 0 <= i < j < |xs| :: xs[i] != xs[j]
  {
    if all == {} {
      xs := [];
    } else {
      var x :| x in all;
      var rest := SomeOrder(all - {x});
      xs := rest + [x];
    }
  }

  /** The union of the maps, later ones first. */
  function Merge<N, M>(ms: seq<map<N, M>>): map<N, M>
  {
    if ms == [] then map[] else Merge(ms[..|ms| - 1]) + ms[|ms| - 1]
  }

  ghost predicate ArePairwiseDisjoint<N(!new), M>(ms: seq<map<N, M>>)
  {
    forall i, j, n | 0 <= i < j < |ms| && n in ms[i] :: n !in ms[j]
  }

  function Sum(sizes: seq<nat>): nat
  {
    if sizes == [] then 0 else Sum(sizes[..|sizes| - 1]) + sizes[|sizes| - 1]
  }

  function Sizes<N, M>(ms: seq<map<N, M>>): (sizes: seq<nat>)
    ensures |sizes| == |ms|
  {
    seq(|ms|, i requires 0 <= i < |ms| => |ms[i]|)
  }

  lemma {:induction false} MergeHas<N(!new), M>(ms: seq<map<N, M>>, n: N)
    ensures n in Merge(ms) <==> exists i | 0 <= i < |ms| :: n in ms[i]
  {
    if ms != [] {
      var last := |ms| - 1;
      MergeHas(ms[..last], n);
      assert forall i | 0 <= i < last :: ms[i] == ms[..last][i];
    }
  }

  /** A list that names every element of a set is at least as long as the set is large. */
  lemma {:induction false} CoverIsLarge<N(!new)>(names: seq<N>, all: set<N>)
    requires forall n | n in all :: n in names
    ensures |all| <= |names|
  {
    if names != [] {
      var last := |names| - 1;
      assert names == names[..last] + [names[last]];
      CoverIsLarge(names[..last], all - {names[last]});
    } else {
      assert all == {};
    }
  }

  /** A list that names each element of a set and is only as long as the set is large repeats none. */
  lemma NoRepeats<N(!new)>(names: seq<N>, all: set<N>)
    requires forall n :: n in names <==> n in all
    requires |names| == |all|
    ensures forall i, j | 0 <= i < j < |names| :: names[i] != names[j]
  {
    forall i, j | 0 <= i < j < |names| ensures names[i] != names[j] {
      if names[i] == names[j] {
        var rest := names[..j] + names[j + 1..];
        forall n | n in all ensures n in rest {
          var k :| 0 <= k < |names| && names[k] == n;
          var k' := if k == j then i else k;
          assert rest[if k' < j then k' else k' - 1] == n;
        }
        CoverIsLarge(rest, all);
      }
    }
  }

  lemma EmptyUnion<N(!new), M>(m: map<N, M>)
    ensures map[] + m == m
  {
  }

  lemma UnionSize<N(!new), M>(a: map<N, M>, b: map<N, M>)
    requires forall n | n in a :: n !in b
    ensures |a + b| == |a| + |b|
  {
    assert (a + b).Keys == a.Keys + b.Keys;
    assert a.Keys * b.Keys == {};
  }

  /** Disjoint maps keep all their entries in the union. */
  lemma {:induction false} MergeKeeps<N(!new), M>(ms: seq<map<N, M>>, i: nat, n: N)
    requires ArePairwiseDisjoint(ms) && i < |ms| && n in ms[i]
    ensures n in Merge(ms) && Merge(ms)[n] == ms[i][n]
  {
    var last := |ms| - 1;
    if i < last {
      DisjointPrefix(ms, last);
      MergeKeeps(ms[..last], i, n);
      assert n !in ms[last];
    }
  }

  lemma {:induction false} MergeSize<N(!new), M>(ms: seq<map<N, M>>)
    requires ArePairwiseDisjoint(ms)
    ensures |Merge(ms)| == Sum(Sizes(ms))
  {
    if ms != [] {
      var last := |ms| - 1;
      DisjointPrefix(ms, last);
      MergeSize(ms[..last]);
      forall n | n in Merge(ms[..last]) ensures n !in ms[last] {
        MergeHas(ms[..last], n);
      }
      UnionSize(Merge(ms[..last]), ms[last]);
      assert Sizes(ms)[..last] == Sizes(ms[..last]);
    }
  }

  /** One more map stays disjoint exactly when it avoids the union so far. */
  lemma DisjointGrows<N(!new), M>(ms: seq<map<N, M>>, m: map<N, M>)
    requires ArePairwiseDisjoint(ms)
    ensures ArePairwiseDisjoint(ms + [m]) <==> forall n | n in m :: n !in Merge(ms)
  {
    var ms' := ms + [m];
    if n :| n in m && n in Merge(ms) {
      MergeHas(ms, n);
      var i :| 0 <= i < |ms| && n in ms[i];
      assert n in ms'[i] && n in ms'[|ms|];
    } else {
      forall i, j, n | 0 <= i < j < |ms'| && n in ms'[i] ensures n !in ms'[j] {
        if j == |ms| {
          MergeHas(ms, n);
        }
      }
    }
  }

  lemma MergeGrows<N(!new), M>(ms: seq<map<N, M>>, m: map<N, M>)
    ensures Merge(ms + [m]) == Merge(ms) + m
    ensures Sizes(ms + [m]) == Sizes(ms) + [|m|]
  {
    assert (ms + [m])[..|ms|] == ms;
  }

  /** A conflict among the first maps is a conflict among all. */
  lemma DisjointPrefix<N(!new), M>(ms: seq<map<N, M>>, k: nat)
    requires k <= |ms| && ArePairwiseDisjoint(ms)
    ensures ArePairwiseDisjoint(ms[..k])
  {
  }

  lemma FoldGrows<N, M>(names: seq<N>, values: seq<M>, before: map<N, M>, n: N, v: M)
    requires |names| == |values|
    ensures Fold(names + [n], values + [v], before) == Fold(names, values, before)[n := v]
  {
    assert (names + [n])[..|names|] == names && (values + [v])[..|values|] == values;
  }

  /** Disjoint maps put together in one store, and the size of each under its name in another. */
  ghost predicate IsStored<N(!new), M>(names: seq<N>, ms: seq<map<N, M>>, out: map<N, M>, counts: map<N, nat>)
    requires |names| == |ms|
  {
    && ArePairwiseDisjoint(ms)
    && out == Merge(ms)
    && counts == Fold(names, Sizes(ms), map[])
  }

  lemma StoreOne<N(!new), M>(names: seq<N>, ms: seq<map<N, M>>, out: map<N, M>, counts: map<N, nat>, name: N, m: map<N, M>)
    requires |names| == |ms| && IsStored(names, ms, out, counts)
    requires forall n | n in m :: n !in out
    ensures IsStored(names + [name], ms + [m], out + m, counts[name := |m|])
  {
    DisjointGrows(ms, m);
    MergeGrows(ms, m);
    FoldGrows(names, Sizes(ms), map[], name, |m|);
  }

  /** A map that meets the union of the ones before it is in conflict with one of them. */
  lemma StoreConflict<N(!new), M>(ms: seq<map<N, M>>, k: nat, n: N)
    requires k < |ms| && n in ms[k] && n in Merge(ms[..k])
    ensures !ArePairwiseDisjoint(ms)
  {
    MergeHas(ms[..k], n);
    var i :| 0 <= i < k && n in ms[..k][i];
    assert n in ms[i] && n in ms[k];
  }

  lemma SameEntries<N(!new), M>(a: map<N, M>, b: map<N, M>)
    requires forall n | n in a :: n in b && a[n] == b[n]
    requires forall n | n in b :: n in a
    ensures a == b
  {
    assert a.Keys == b.Keys;
  }

  lemma TakeOneMore<S>(xs: seq<S>, k: nat)
    requires k < |xs|
    ensures xs[..k + 1] == xs[..k] + [xs[k]]
  {
  }

  /** Some order of the keys of a map. */
  ghost predicate IsOrder<N(!new), M>(names: seq<N>, m: map<N, M>)
  {
    (forall n :: n in names <==> n in m) && |names| == |m|
  }

  /** The values of these keys, one for one. */
  ghost predicate AreValues<N, M>(names: seq<N>, m: map<N, M>, values: seq<M>)
  {
    |values| == |names| && forall i | 0 <= i < |names| :: names[i] in m && values[i] == m[names[i]]
  }

  /** A name of one of disjoint maps that is dropped there is in none of the maps any more. */
  lemma DroppedName<N(!new), M>(ms: seq<map<N, M>>, ms': seq<map<N, M>>, k: nat, n: N)
    requires ArePairwiseDisjoint(ms) && |ms'| == |ms| && k < |ms|
    requires forall i | 0 <= i < |ms| && i != k :: ms'[i] == ms[i]
    requires n in ms[k] && n !in ms'[k]
    ensures forall i | 0 <= i < |ms'| :: n !in ms'[i]
  {
  }
}
