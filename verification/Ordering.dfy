/** Small facts about options, finite sets of identifiers and sequences that the
    models share. */
module Ordering {

  /** A nullable column. */
  datatype Option<+T> = None | Some(value: T)

  /** Strictly increasing, hence without repeats. */
  ghost predicate Increasing(s: seq<nat>) {
    forall i, j :: 0 <= i < j < |s| ==> s[i] < s[j]
  }

  ghost predicate IsLeast(m: nat, s: set<nat>) {
    m in s && forall x :: x in s ==> m <= x
  }

  lemma {:induction false} LeastExists(s: set<nat>)
    requires s != {}
    ensures exists m :: IsLeast(m, s)
  {
    var y :| y in s;
    var rest := s - {y};
    assert s == rest + {y};
    if rest == {} {
      assert IsLeast(y, s);
    } else {
      LeastExists(rest);
      var m :| IsLeast(m, rest);
      assert IsLeast(if m <= y then m else y, s);
    }
  }

  ghost function Least(s: set<nat>): (m: nat)
    requires s != {}
    ensures IsLeast(m, s)
  {
    LeastExists(s);
    var m :| IsLeast(m, s);
    m
  }

  /** `ORDER BY id`: the elements of a set in increasing order. */
  ghost function Ascending(s: set<nat>): seq<nat>
    decreases |s|
  {
    if s == {} then [] else var m := Least(s); [m] + Ascending(s - {m})
  }

  lemma {:induction false} AscendingSorts(s: set<nat>)
    ensures Increasing(Ascending(s)) && |Ascending(s)| == |s|
    ensures forall x :: x in Ascending(s) <==> x in s
    decreases |s|
  {
    if s != {} {
      var m := Least(s);
      AscendingSorts(s - {m});
      var tail := Ascending(s - {m});
      assert s == (s - {m}) + {m};
      IncreasingConcat([m], tail);
    }
  }

  /** An increasing sequence is determined by its elements. */
  lemma {:induction false} IncreasingUnique(a: seq<nat>, b: seq<nat>)
    requires Increasing(a) && Increasing(b)
    requires forall x :: x in a <==> x in b
    ensures a == b
    decreases |a|
  {
    assert a == [] || a[0] in a;
    assert b == [] || b[0] in b;
    if a != [] {
      assert a[0] in b;
      assert b[0] in a;
      assert a[0] == b[0];
      forall x ensures x in a[1..] <==> x in b[1..] {
        assert a == [a[0]] + a[1..] && b == [b[0]] + b[1..];
        assert x in a <==> x == a[0] || x in a[1..];
        assert x in b <==> x == b[0] || x in b[1..];
        if x in a[1..] { assert x != a[0]; }
        if x in b[1..] { assert x != b[0]; }
      }
      IncreasingUnique(a[1..], b[1..]);
    }
  }

  lemma {:induction false} IncreasingConcat(a: seq<nat>, b: seq<nat>)
    requires Increasing(a) && Increasing(b)
    requires forall x, y :: x in a && y in b ==> x < y
    ensures Increasing(a + b)
  {
    forall i, j | 0 <= i < j < |a + b| ensures (a + b)[i] < (a + b)[j] {
      if i < |a| <= j {
        assert a[i] in a && b[j - |a|] in b;
      }
    }
  }

  /** `Ascending` is the only increasing listing of a set. */
  lemma {:induction false} AscendingUnique(a: seq<nat>, s: set<nat>)
    requires Increasing(a) && forall x :: x in a <==> x in s
    ensures a == Ascending(s) && |a| == |s|
  {
    AscendingSorts(s);
    IncreasingUnique(a, Ascending(s));
  }

  function Elements(s: seq<nat>): set<nat> {
    set x | x in s
  }

  // ----- taking identifiers in order -----

  method LeastOf(s: set<nat>) returns (v: nat)
    requires s != {}
    ensures IsLeast(v, s)
  {
    LeastExists(s);
    assert exists m :: m in s && IsLeast(m, s);
    v :| v in s && forall w :: w in s ==> v <= w;
  }

  /** The identifiers taken so far, in order, and those left. */
  ghost predicate Picked(picked: seq<nat>, rest: set<nat>, all: set<nat>) {
    && rest <= all && Increasing(picked)
    && (forall v :: v in picked <==> v in all && v !in rest)
    && (forall v, w :: v in picked && w in rest ==> v < w)
  }

  lemma {:induction false} PickNext(picked: seq<nat>, rest: set<nat>, all: set<nat>, v: nat)
    requires Picked(picked, rest, all) && IsLeast(v, rest)
    ensures Picked(picked + [v], rest - {v}, all)
  {
    IncreasingConcat(picked, [v]);
  }

  /** The sum of a quantity over a set of identifiers. */
  ghost function Total(quantity: map<nat, int>, s: set<nat>): int
    requires s <= quantity.Keys
    decreases |s|
  {
    if s == {} then 0 else var m := Least(s); quantity[m] + Total(quantity, s - {m})
  }

  /** The order of summation does not matter. */
  lemma {:induction false} TotalRemove(quantity: map<nat, int>, s: set<nat>, x: nat)
    requires s <= quantity.Keys && x in s
    ensures Total(quantity, s) == quantity[x] + Total(quantity, s - {x})
    decreases |s|
  {
    var m := Least(s);
    if x != m {
      TotalRemove(quantity, s - {m}, x);
      assert s - {m} - {x} == s - {x} - {m};
      LeastOfRest(s, x);
    }
  }

  lemma {:induction false} LeastOfRest(s: set<nat>, x: nat)
    requires x in s && x != Least(s)
    ensures s - {x} != {} && Least(s - {x}) == Least(s)
  {
    assert Least(s) in s - {x};
    assert IsLeast(Least(s), s) && IsLeast(Least(s - {x}), s - {x});
  }

  lemma {:induction false} TotalAdd(quantity: map<nat, int>, s: set<nat>, x: nat)
    requires s <= quantity.Keys && x in quantity && x !in s
    ensures Total(quantity, s + {x}) == Total(quantity, s) + quantity[x]
  {
    TotalRemove(quantity, s + {x}, x);
    assert s + {x} - {x} == s;
  }
}
