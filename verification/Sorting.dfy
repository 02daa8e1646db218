/** sort.Slice by name, as the listings of the server use it. */
module Sorting {

  /** The order of Go strings. */
  predicate Before(a: string, b: string)
  {
    if b == "" then false
    else if a == "" then true
    else a[0] < b[0] || (a[0] == b[0] && Before(a[1..], b[1..]))
  }

  lemma {:induction false} BeforeIsIrreflexive(a: string)
    ensures !Before(a, a)
  {
    if a != "" {
      BeforeIsIrreflexive(a[1..]);
    }
  }

  lemma {:induction false} BeforeIsTransitive(a: string, b: string, c: string)
    requires Before(a, b) && Before(b, c)
    ensures Before(a, c)
  {
    if a != "" && a[0] == b[0] && b[0] == c[0] {
      BeforeIsTransitive(a[1..], b[1..], c[1..]);
    }
  }

  lemma {:induction false} BeforeIsTotal(a: string, b: string)
    ensures Before(a, b) || Before(b, a) || a == b
  {
    if a != "" && b != "" && a[0] == b[0] {
      BeforeIsTotal(a[1..], b[1..]);
      assert a == [a[0]] + a[1..] && b == [b[0]] + b[1..];
    }
  }

  ghost predicate IsSorted(names: seq<string>)
  {
    forall i, j | 0 <= i < j < |names| :: Before(names[i], names[j])
  }

  function Insert(sorted: seq<string>, name: string): (out: seq<string>)
    ensures |out| == |sorted| + 1
  {
    if sorted == [] || Before(name, sorted[0]) then [name] + sorted else [sorted[0]] + Insert(sorted[1..], name)
  }

  function Sort(names: seq<string>): (out: seq<string>)
    ensures |out| == |names|
  {
    if names == [] then [] else Insert(Sort(names[..|names| - 1]), names[|names| - 1])
  }

  lemma {:induction false} InsertHas(sorted: seq<string>, name: string, x: string)
    ensures x in Insert(sorted, name) <==> x in sorted || x == name
  {
    if sorted != [] && !Before(name, sorted[0]) {
      InsertHas(sorted[1..], name, x);
      assert sorted == [sorted[0]] + sorted[1..];
    }
  }

  lemma {:induction false} InsertSorts(sorted: seq<string>, name: string)
    requires IsSorted(sorted) && name !in sorted
    ensures IsSorted(Insert(sorted, name))
  {
    var out := Insert(sorted, name);
    if sorted == [] {
    } else if Before(name, sorted[0]) {
      forall j | 0 < j < |out| ensures Before(out[0], out[j]) {
        if j > 1 {
          BeforeIsTransitive(name, sorted[0], sorted[j - 1]);
        }
      }
    } else {
      InsertSorts(sorted[1..], name);
      BeforeIsTotal(name, sorted[0]);
      forall j | 0 < j < |out| ensures Before(out[0], out[j]) {
        var rest := Insert(sorted[1..], name);
        assert out[j] == rest[j - 1] && rest[j - 1] in rest;
        InsertHas(sorted[1..], name, out[j]);
      }
    }
  }

  /** Sorting distinct names keeps them and puts them in order. */
  lemma {:induction false} SortSorts(names: seq<string>)
    requires forall i, j | 0 <= i < j < |names| :: names[i] != names[j]
    ensures IsSorted(Sort(names))
    ensures forall x :: x in Sort(names) <==> x in names
  {
    if names != [] {
      var n := |names| - 1;
      SortSorts(names[..n]);
      InsertSorts(Sort(names[..n]), names[n]);
      forall x ensures x in Sort(names) <==> x in names {
        InsertHas(Sort(names[..n]), names[n], x);
        assert names == names[..n] + [names[n]];
      }
    }
  }

  /** There is only one sorted list of given names: the order they came in does not matter. */
  lemma {:induction false} SortedIsUnique(a: seq<string>, b: seq<string>)
    requires IsSorted(a) && IsSorted(b)
    requires forall x :: x in a <==> x in b
    ensures a == b
  {
    assert b != [] ==> b[0] in b;
    if a != [] {
      assert a[0] in a;
      FirstIsLeast(a, b[0]);
      FirstIsLeast(b, a[0]);
      if a[0] != b[0] {
        BeforeIsTransitive(a[0], b[0], a[0]);
        BeforeIsIrreflexive(a[0]);
      }
      forall x ensures x in a[1..] <==> x in b[1..] {
        RestOfSorted(a, x);
        RestOfSorted(b, x);
      }
      SortedIsUnique(a[1..], b[1..]);
      assert a == [a[0]] + a[1..] && b == [b[0]] + b[1..];
    }
  }

  lemma FirstIsLeast(a: seq<string>, x: string)
    requires IsSorted(a) && x in a
    ensures x == a[0] || Before(a[0], x)
  {
  }

  lemma RestOfSorted(a: seq<string>, x: string)
    requires a != [] && IsSorted(a)
    ensures x in a[1..] <==> x in a && x != a[0]
  {
    BeforeIsIrreflexive(a[0]);
    assert a == [a[0]] + a[1..];
  }

  /** The order of strings: a proper prefix comes first, otherwise the first difference decides. */
  lemma {:induction false} BeforeMeans(a: string, b: string)
    ensures Before(a, b) <==>
              || (|a| < |b| && b[..|a|] == a)
              || exists i :: 0 <= i < |a| && i < |b| && a[..i] == b[..i] && a[i] < b[i]
  {
    if a != "" && b != "" {
      BeforeMeans(a[1..], b[1..]);
      if a[0] == b[0] {
        assert forall i | 0 <= i < |a| && i < |b| :: i > 0 ==> a[..i] == [a[0]] + a[1..][..i - 1] && b[..i] == [b[0]] + b[1..][..i - 1];
        if |a| < |b| && b[1..][..|a| - 1] == a[1..] {
          assert b[..|a|] == [b[0]] + b[1..][..|a| - 1] == a;
        }
        if |a| < |b| && b[..|a|] == a {
          assert b[1..][..|a| - 1] == b[..|a|][1..] == a[1..];
        }
        if i :| 0 <= i < |a[1..]| && i < |b[1..]| && a[1..][..i] == b[1..][..i] && a[1..][i] < b[1..][i] {
          assert a[..i + 1] == b[..i + 1] && a[i + 1] < b[i + 1];
        }
        if i :| 0 <= i < |a| && i < |b| && a[..i] == b[..i] && a[i] < b[i] {
          assert i > 0 && a[1..][..i - 1] == a[..i][1..] == b[..i][1..] == b[1..][..i - 1];
          assert a[1..][i - 1] < b[1..][i - 1];
        }
      } else {
        assert a[..0] == b[..0];
        forall i | 0 < i < |a| && i < |b| ensures a[..i] != b[..i] {
          assert a[..i][0] == a[0] && b[..i][0] == b[0];
        }
      }
    }
  }
}
