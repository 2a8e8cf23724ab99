/** Ascending order of a finite set of integer keys.

    Both `mungeData` sorts (expiration timestamps, and strike prices within one
    expiration) order distinct numeric keys ascending. `Ascending` is the
    specification of that order and `SortAscending` computes it. */
module OrderedKeys {

  /** Every element is smaller than every element after it. */
  predicate StrictlyIncreasing(s: seq<int>) {
    forall i, j :: 0 <= i < j < |s| ==> s[i] < s[j]
  }

  /** A set that is not empty has an element. */
  lemma NonEmptyHasElement(s: set<int>)
    requires s != {}
    ensures exists x :: x in s
  {
    assert (forall y :: y !in s) ==> s == {};
  }

  /** Every non-empty finite set of integers has a least element. */
  lemma {:induction false} MinExists(s: set<int>)
    requires s != {}
    ensures exists m :: m in s && forall y :: y in s ==> m <= y
    decreases |s|
  {
    NonEmptyHasElement(s);
    var x :| x in s;
    if s != {x} {
      MinExists(s - {x});
      var m :| m in s - {x} && forall y :: y in s - {x} ==> m <= y;
      var least := if x < m then x else m;
      forall y | y in s ensures least <= y {
        if y != x { assert y in s - {x}; }
      }
      assert least in s;
    } else {
      assert forall y :: y in s ==> x <= y;
    }
  }

  /** The least element of a non-empty set. */
  ghost function Least(s: set<int>): (m: int)
    requires s != {}
    ensures m in s
    ensures forall y :: y in s ==> m <= y
  {
    MinExists(s);
    var m :| m in s && forall y :: y in s ==> m <= y;
    m
  }

  /** The elements of `s`, smallest first. */
  ghost function Ascending(s: set<int>): seq<int>
    decreases |s|
  {
    if s == {} then []
    else
      var m := Least(s);
      [m] + Ascending(s - {m})
  }

  /** `Ascending(s)` lists every element of `s` exactly once, smallest
      first. */
  lemma {:induction false} AscendingSpec(s: set<int>)
    ensures |Ascending(s)| == |s|
    ensures forall x :: x in Ascending(s) <==> x in s
    ensures StrictlyIncreasing(Ascending(s))
    decreases |s|
  {
    if s != {} {
      var m := Least(s);
      var rest := Ascending(s - {m});
      AscendingSpec(s - {m});
      assert Ascending(s) == [m] + rest;
      ConsIncreasing(m, rest);
    }
  }

  /** Putting an element below all others in front of a strictly increasing
      sequence keeps it strictly increasing. */
  lemma ConsIncreasing(m: int, rest: seq<int>)
    requires StrictlyIncreasing(rest)
    requires forall x :: x in rest ==> m < x
    ensures StrictlyIncreasing([m] + rest)
  {
    forall i, j | 0 <= i < j < |[m] + rest| ensures ([m] + rest)[i] < ([m] + rest)[j] {
      assert rest[j - 1] in rest;
    }
  }

  /** The first element of a strictly increasing sequence is its least. */
  lemma HeadIsLeast(r: seq<int>)
    requires StrictlyIncreasing(r) && r != []
    ensures forall y :: y in r ==> r[0] <= y
  {
  }

  /** Dropping the head of a strictly increasing sequence keeps it strictly
      increasing and removes exactly that element from its element set. */
  lemma TailElements(r: seq<int>, s: set<int>)
    requires StrictlyIncreasing(r) && r != []
    requires forall x :: x in r <==> x in s
    ensures StrictlyIncreasing(r[1..])
    ensures forall x :: x in r[1..] <==> x in s - {r[0]}
  {
  }

  /** Ascending order starts with the least element, followed by the rest
      in ascending order. */
  lemma AscendingStep(s: set<int>)
    requires s != {}
    ensures Ascending(s) == [Least(s)] + Ascending(s - {Least(s)})
  {
  }

  /** The least element of a set is the head of any strictly increasing
      sequence of its elements. */
  lemma LeastIsHead(r: seq<int>, s: set<int>)
    requires StrictlyIncreasing(r) && r != []
    requires forall x :: x in r <==> x in s
    ensures s != {} && Least(s) == r[0]
  {
    assert r[0] in r;
    var m := Least(s);
    HeadIsLeast(r);
    assert m in r;
  }

  /** A strictly increasing sequence is determined by its elements. */
  lemma {:induction false} AscendingUnique(r: seq<int>, s: set<int>)
    requires StrictlyIncreasing(r)
    requires forall x :: x in r <==> x in s
    ensures r == Ascending(s)
    decreases |r|
  {
    if r == [] {
      assert forall x :: x !in s;
      assert s == {};
    } else {
      LeastIsHead(r, s);
      TailElements(r, s);
      AscendingUnique(r[1..], s - {r[0]});
      AscendingStep(s);
      assert r == [r[0]] + r[1..];
    }
  }

  /** The keys of a map in ascending order, as `Object.keys(...).sort(...)`
      with a numeric comparator yields them. */
  method SortAscending(keys: set<int>) returns (r: seq<int>)
    ensures r == Ascending(keys)
  {
    r := [];
    var rest := keys;
    while rest != {}
      invariant rest <= keys
      invariant StrictlyIncreasing(r)
      invariant forall x :: x in r <==> x in keys && x !in rest
      invariant forall i, y :: 0 <= i < |r| && y in rest ==> r[i] < y
      decreases |rest|
    {
      MinExists(rest);
      var m :| m in rest && forall y :: y in rest ==> m <= y;
      r := r + [m];
      rest := rest - {m};
    }
    AscendingUnique(r, keys);
  }
}
