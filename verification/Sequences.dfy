/** Facts about slices and concatenations, each on its own. */
module Sequences {
  lemma Associate<T>(a: seq<T>, b: seq<T>, c: seq<T>)
    ensures a + b + c == a + (b + c)
  {
  }

  lemma DropDrop<T>(s: seq<T>, i: nat, j: nat)
    requires i + j <= |s|
    ensures s[i..][j..] == s[i + j..]
  {
  }

  lemma AppendDrop<T>(a: seq<T>, b: seq<T>, j: nat)
    requires j <= |b|
    ensures (a + b)[|a| + j..] == b[j..]
  {
  }

  lemma DropAppend<T>(a: seq<T>, b: seq<T>, i: nat)
    requires i <= |a|
    ensures (a + b)[i..] == a[i..] + b
  {
  }

  lemma SplitAt<T>(s: seq<T>, i: nat)
    requires i <= |s|
    ensures s == s[..i] + s[i..]
  {
  }

  lemma DropSnoc<T>(s: seq<T>, i: nat)
    requires i < |s|
    ensures s[i..] == s[..|s| - 1][i..] + [s[|s| - 1]]
  {
  }

  // ---------- Selecting positions ----------

  /** `t` consists of the elements of `s` at the `chosen` positions, in order. */
  ghost predicate Selects<T>(t: seq<T>, s: seq<T>, chosen: set<nat>) {
    exists ps: seq<nat> :: InOrder(ps, chosen) && Picks(t, s, ps)
  }

  /** The elements of `chosen`, each once, increasing. */
  predicate InOrder(ps: seq<nat>, chosen: set<nat>) {
    && (forall i, j | 0 <= i < j < |ps| :: ps[i] < ps[j])
    && (forall i | 0 <= i < |ps| :: ps[i] in chosen)
    && (forall p | p in chosen :: p in ps)
  }

  ghost predicate Picks<T>(t: seq<T>, s: seq<T>, ps: seq<nat>) {
    |t| == |ps| && forall i | 0 <= i < |t| :: ps[i] < |s| && t[i] == s[ps[i]]
  }

  function Shifted(ps: seq<nat>): (r: seq<nat>)
    ensures |r| == |ps| && forall i | 0 <= i < |r| :: r[i] == ps[i] + 1
  {
    seq(|ps|, i requires 0 <= i < |ps| => ps[i] + 1)
  }

  lemma ShiftedInOrder(ps: seq<nat>, rest: set<nat>, chosen: set<nat>)
    requires InOrder(ps, rest) && 0 !in chosen && forall p: nat :: p in rest <==> p + 1 in chosen
    ensures InOrder(Shifted(ps), chosen)
  {
    hide Shifted;
    var r := Shifted(ps);
    forall p | p in chosen ensures p in r {
      assert p - 1 in rest;
      var i :| 0 <= i < |ps| && ps[i] == p - 1;
      assert r[i] == p;
    }
  }

  lemma ZeroInFront(ps: seq<nat>, chosen: set<nat>)
    requires InOrder(ps, chosen) && 0 !in chosen
    ensures InOrder([0] + ps, chosen + {0})
  {
    var r := [0] + ps;
    assert r[0] == 0 && forall i | 0 < i < |r| :: r[i] == ps[i - 1];
    forall p | p in chosen + {0} ensures p in r {
      if p in chosen {
        var i :| 0 <= i < |ps| && ps[i] == p;
        assert r[i + 1] == p;
      }
    }
  }

  /** Selecting from the front: the first element, if chosen, and the selection of the rest. */
  lemma SelectsCons<T>(t: seq<T>, s: seq<T>, rest: set<nat>, chosen: set<nat>)
    requires s != [] && Selects(t, s[1..], rest) && forall p: nat :: p in rest <==> p + 1 in chosen
    ensures Selects((if 0 in chosen then [s[0]] else []) + t, s, chosen)
  {
    hide Selects;
    SelectsSkip(t, s, rest, chosen - {0});
    if 0 in chosen {
      SelectsFirst(t, s, chosen - {0});
      assert chosen - {0} + {0} == chosen;
    } else {
      assert chosen - {0} == chosen && [] + t == t;
    }
  }

  lemma SelectsSkip<T>(t: seq<T>, s: seq<T>, rest: set<nat>, chosen: set<nat>)
    requires s != [] && Selects(t, s[1..], rest) && 0 !in chosen && forall p: nat :: p in rest <==> p + 1 in chosen
    ensures Selects(t, s, chosen)
  {
    hide InOrder, Shifted;
    var ps :| InOrder(ps, rest) && Picks(t, s[1..], ps);
    ShiftedInOrder(ps, rest, chosen);
    assert Picks(t, s, Shifted(ps));
  }

  lemma SelectsFirst<T>(t: seq<T>, s: seq<T>, chosen: set<nat>)
    requires s != [] && Selects(t, s, chosen) && 0 !in chosen
    ensures Selects([s[0]] + t, s, chosen + {0})
  {
    hide InOrder;
    var ps :| InOrder(ps, chosen) && Picks(t, s, ps);
    ZeroInFront(ps, chosen);
    assert Picks([s[0]] + t, s, [0] + ps);
  }

  lemma SelectsNothing<T>(s: seq<T>)
    ensures Selects([], s, {})
  {
    assert InOrder([], {}) && Picks([], s, []);
  }
}
