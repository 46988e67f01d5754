/** Market ids as the duplicate-free sorted arrays the monitor keeps, and why comparing them compares sets. */
module MarketLists {

  /** The default order of string arrays: by code units, a proper prefix first. */
  predicate Below(a: string, b: string)
    decreases |a|
  {
    if b == "" then false
    else if a == "" then true
    else if a[0] != b[0] then a[0] < b[0]
    else Below(a[1..], b[1..])
  }

  /** Strictly increasing, hence without duplicates. */
  ghost predicate Sorted(xs: seq<string>) {
    forall i, j | 0 <= i < j < |xs| :: Below(xs[i], xs[j])
  }

  function Elems(xs: seq<string>): set<string> {
    set x | x in xs
  }

  function Insert(x: string, xs: seq<string>): seq<string> {
    if xs == [] then [x]
    else if x == xs[0] then xs
    else if Below(x, xs[0]) then [x] + xs
    else [xs[0]] + Insert(x, xs[1..])
  }

  /** Drop duplicates and sort. */
  function Normalized(xs: seq<string>): seq<string> {
    if xs == [] then [] else Insert(xs[0], Normalized(xs[1..]))
  }

  // ----- The order -----

  lemma {:induction false} Irreflexive(a: string)
    ensures !Below(a, a)
    decreases |a|
  {
    if a != "" { Irreflexive(a[1..]); }
  }

  lemma {:induction false} Transitive(a: string, b: string, c: string)
    requires Below(a, b) && Below(b, c)
    ensures Below(a, c)
    decreases |a|
  {
    if a != "" && a[0] == b[0] && b[0] == c[0] { Transitive(a[1..], b[1..], c[1..]); }
  }

  lemma {:induction false} Total(a: string, b: string)
    requires !Below(a, b) && !Below(b, a)
    ensures a == b
    decreases |a|
  {
    if a != "" && b != "" {
      Total(a[1..], b[1..]);
      assert a == [a[0]] + a[1..] && b == [b[0]] + b[1..];
    }
  }

  // ----- Sorting -----

  ghost predicate BelowAll(x: string, xs: set<string>) {
    forall y | y in xs :: Below(x, y)
  }

  lemma ConsSorted(x: string, xs: seq<string>)
    requires Sorted(xs) && BelowAll(x, Elems(xs))
    ensures Sorted([x] + xs)
  {
    hide Below;
    assert forall i | 0 <= i < |xs| :: xs[i] in Elems(xs);
  }

  lemma TailSorted(xs: seq<string>)
    requires Sorted(xs) && xs != []
    ensures Sorted(xs[1..]) && BelowAll(xs[0], Elems(xs[1..]))
  {
    hide Below;
  }

  lemma BelowFirst(x: string, xs: seq<string>)
    requires Sorted(xs) && xs != [] && Below(x, xs[0])
    ensures BelowAll(x, Elems(xs))
  {
    hide Below;
    forall y | y in Elems(xs)
      ensures Below(x, y)
    {
      var i :| 0 <= i < |xs| && xs[i] == y;
      if i > 0 { Transitive(x, xs[0], xs[i]); }
    }
  }

  lemma {:induction false} InsertSorts(x: string, xs: seq<string>)
    requires Sorted(xs)
    ensures Sorted(Insert(x, xs)) && Elems(Insert(x, xs)) == {x} + Elems(xs)
  {
    hide Below, Sorted, Elems;
    if xs == [] {
      assert Sorted([x]) by { SingleSorted(x); }
      ElemsCons(x, []);
      assert [x] + [] == [x];
    } else {
      assert xs == [xs[0]] + xs[1..];
      TailSorted(xs);
      ElemsCons(xs[0], xs[1..]);
      if x == xs[0] {
      } else if Below(x, xs[0]) {
        BelowFirst(x, xs);
        ConsSorted(x, xs);
        ElemsCons(x, xs);
      } else {
        if !Below(xs[0], x) { Total(xs[0], x); }
        InsertSorts(x, xs[1..]);
        ConsSorted(xs[0], Insert(x, xs[1..]));
        ElemsCons(xs[0], Insert(x, xs[1..]));
      }
    }
  }

  lemma SingleSorted(x: string)
    ensures Sorted([x])
  {
  }

  lemma ElemsCons(x: string, xs: seq<string>)
    ensures Elems([x] + xs) == {x} + Elems(xs)
    ensures Elems(xs) == {} <==> xs == []
  {
    if xs != [] { assert xs[0] in Elems(xs); }
  }

  lemma {:induction false} NormalizedSorts(xs: seq<string>)
    ensures Sorted(Normalized(xs)) && Elems(Normalized(xs)) == Elems(xs)
  {
    hide Below, Insert;
    if xs != [] {
      NormalizedSorts(xs[1..]);
      InsertSorts(xs[0], Normalized(xs[1..]));
      ElemsCons(xs[0], xs[1..]);
      assert xs == [xs[0]] + xs[1..];
    }
  }

  /** Two sorted arrays are equal exactly when they hold the same ids. */
  lemma {:induction false} SortedUnique(a: seq<string>, b: seq<string>)
    requires Sorted(a) && Sorted(b)
    ensures a == b <==> Elems(a) == Elems(b)
    decreases |a|
  {
    hide Below;
    ElemsCons("", a);
    ElemsCons("", b);
    if Elems(a) == Elems(b) && a != [] {
      SameFirst(a, b);
      TailElems(a);
      TailElems(b);
      SortedUnique(a[1..], b[1..]);
      assert a == [a[0]] + a[1..] && b == [b[0]] + b[1..];
    }
  }

  lemma SameFirst(a: seq<string>, b: seq<string>)
    requires Sorted(a) && Sorted(b) && Elems(a) == Elems(b) && a != [] && b != []
    ensures a[0] == b[0]
  {
    hide Below;
    if a[0] != b[0] {
      assert a[0] in Elems(b) && b[0] in Elems(a);
      var i :| 0 <= i < |b| && b[i] == a[0];
      var j :| 0 <= j < |a| && a[j] == b[0];
      Transitive(a[0], b[0], a[0]);
      Irreflexive(a[0]);
    }
  }

  lemma TailElems(a: seq<string>)
    requires Sorted(a) && a != []
    ensures Elems(a[1..]) == Elems(a) - {a[0]}
  {
    hide Below;
    assert a == [a[0]] + a[1..];
    if a[0] in a[1..] {
      var i :| 0 <= i < |a[1..]| && a[1..][i] == a[0];
      assert Below(a[0], a[i + 1]);
      Irreflexive(a[0]);
    }
  }

  /** Element-by-element comparison. */
  method ArraysEqual(left: seq<string>, right: seq<string>) returns (same: bool)
    ensures same <==> left == right
    ensures Sorted(left) && Sorted(right) ==> (same <==> Elems(left) == Elems(right))
  {
    ghost var sorted := Sorted(left) && Sorted(right);
    if sorted { SortedUnique(left, right); }
    hide Sorted, Elems;
    if |left| != |right| {
      return false;
    }
    for i := 0 to |left|
      invariant left[..i] == right[..i]
    {
      if left[i] != right[i] {
        return false;
      }
    }
    assert left[..|left|] == left && right[..|right|] == right;
    return true;
  }
}
