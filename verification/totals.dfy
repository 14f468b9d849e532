/**
 * Per-person totals: the `Person -> amount` dictionaries (amounts in cents)
 * that every stage of the engine produces and consumes, their sum, and the
 * key-wise operations the engine performs on them.
 */
module Totals {
  import opened People

  /** Amount per person, in cents. */
  type Tally = map<Person, int>

  /** `d.get(p, 0)`: a missing key counts as zero. */
  function Get(m: Tally, p: Person): (v: int)
  {
    if p in m then m[p] else 0
  }

  /** `m` with an explicit 0 for every person of `ps` it lacks. */
  function Pad(m: Tally, ps: set<Person>): (r: Tally)
    ensures r.Keys == m.Keys + ps
  {
    map p | p in m.Keys + ps :: Get(m, p)
  }

  /** Padding with persons already present changes nothing. */
  lemma PadCovered(m: Tally, ps: set<Person>)
    requires ps <= m.Keys
    ensures Pad(m, ps) == m
  {
  }

  /** Key-wise sum over the union of keys, a missing key counting as 0. */
  function Merged(a: Tally, b: Tally): (r: Tally)
    ensures r.Keys == a.Keys + b.Keys
  {
    map p | p in a.Keys + b.Keys :: Get(a, p) + Get(b, p)
  }

  /** Key-wise difference over the keys of `a`. */
  function Diff(a: Tally, b: Tally): (r: Tally)
    requires a.Keys <= b.Keys
  {
    map p | p in a.Keys :: a[p] - b[p]
  }

  ghost function PickOf(ks: set<Person>): (k: Person)
    requires ks != {}
    ensures k in ks
  {
    var k :| k in ks; k
  }

  /** The sum of `Get(m, k)` over the persons `k` of `ks`. */
  ghost function SumOver(m: Tally, ks: set<Person>): (s: int)
    decreases ks
  {
    if ks == {} then 0
    else
      var k := PickOf(ks);
      Get(m, k) + SumOver(m, ks - {k})
  }

  /** `sum(m.values())`. */
  ghost function Sum(m: Tally): (s: int)
  {
    SumOver(m, m.Keys)
  }

  /** Python's builtin `sum(m.values())`, visiting the keys in arbitrary order. */
  method SumValues(m: Tally) returns (s: int)
    ensures s == Sum(m)
  {
    s := 0;
    var rest := m.Keys;
    while rest != {}
      invariant rest <= m.Keys
      invariant s + SumOver(m, rest) == Sum(m)
      decreases rest
    {
      var p :| p in rest;
      SumOverRemove(m, rest, p);
      s := s + m[p];
      rest := rest - {p};
    }
  }

  /** A sum over a set of keys does not depend on which key is taken out first. */
  lemma {:induction false} SumOverRemove(m: Tally, ks: set<Person>, k: Person)
    requires k in ks
    ensures SumOver(m, ks) == Get(m, k) + SumOver(m, ks - {k})
    decreases ks
  {
    var j := PickOf(ks);
    if j != k {
      SumOverRemove(m, ks - {j}, k);
      SumOverRemove(m, ks - {k}, j);
      assert (ks - {j}) - {k} == (ks - {k}) - {j};
    }
  }

  /** Tallies that agree on `ks` have the same sum over `ks`. */
  lemma {:induction false} SumOverAgree(f: Tally, g: Tally, ks: set<Person>)
    requires forall k :: k in ks ==> Get(f, k) == Get(g, k)
    ensures SumOver(f, ks) == SumOver(g, ks)
    decreases ks
  {
    if ks != {} {
      SumOverAgree(f, g, ks - {PickOf(ks)});
    }
  }

  /** A sum over `ks` is additive in the values. */
  lemma {:induction false} SumOverAdd(f: Tally, g: Tally, h: Tally, ks: set<Person>)
    requires forall k :: k in ks ==> Get(f, k) == Get(g, k) + Get(h, k)
    ensures SumOver(f, ks) == SumOver(g, ks) + SumOver(h, ks)
    decreases ks
  {
    if ks != {} {
      SumOverAdd(f, g, h, ks - {PickOf(ks)});
    }
  }

  /** Keys of `js` outside `ks` whose value is 0 add nothing. */
  lemma {:induction false} SumOverZeros(m: Tally, ks: set<Person>, js: set<Person>)
    requires ks <= js
    requires forall k :: k in js && k !in ks ==> Get(m, k) == 0
    ensures SumOver(m, js) == SumOver(m, ks)
    decreases js
  {
    if js != ks {
      var k :| k in js && k !in ks;
      SumOverRemove(m, js, k);
      SumOverZeros(m, ks, js - {k});
    }
  }

  /** Summing over any superset of the keys gives the sum. */
  lemma SumOverCovers(m: Tally, js: set<Person>)
    requires m.Keys <= js
    ensures SumOver(m, js) == Sum(m)
  {
    SumOverZeros(m, m.Keys, js);
  }

  lemma CardRemove(m: Tally, p: Person)
    requires p in m
    ensures (m - {p}).Keys == m.Keys - {p}
    ensures |m - {p}| == |m| - 1
  {
    assert (m - {p}).Keys == m.Keys - {p};
  }

  /** Taking one entry out of a tally takes its value out of the sum. */
  lemma SumRemove(m: Tally, p: Person)
    requires p in m
    ensures |m - {p}| == |m| - 1
    ensures Sum(m) == m[p] + Sum(m - {p})
  {
    CardRemove(m, p);
    SumOverRemove(m, m.Keys, p);
    SumOverAgree(m, m - {p}, m.Keys - {p});
  }

  /** A one-entry map sums to its value. */
  lemma SumSingle(p: Person, v: int)
    ensures Sum(map[p := v]) == v
  {
    SumRemove(map[p := v], p);
    assert map[p := v] - {p} == map[];
  }

  /** Setting one key changes the sum by the difference of the values. */
  lemma SumUpdate(m: Tally, p: Person, v: int)
    ensures Sum(m[p := v]) == Sum(m) - Get(m, p) + v
  {
    var m' := m[p := v];
    var ks := m'.Keys;
    SumOverRemove(m', ks, p);
    SumOverAgree(m', m, ks - {p});
    SumOverCovers(m, ks);
    SumOverRemove(m, ks, p);
  }

  /**
   * Dropping keys whose value is 0 (or adding them) leaves the sum unchanged:
   * `r` agrees with `m` on its keys and `m` is 0 everywhere else.
   */
  lemma SumDropZeros(m: Tally, r: Tally)
    requires r.Keys <= m.Keys
    requires forall p :: p in r ==> r[p] == m[p]
    requires forall p :: p in m && p !in r ==> m[p] == 0
    ensures Sum(r) == Sum(m)
  {
    SumOverAgree(m, r, m.Keys);
    SumOverCovers(r, m.Keys);
  }

  /** Zero defaults add nothing to a sum. */
  lemma SumPad(m: Tally, ps: set<Person>)
    ensures Sum(Pad(m, ps)) == Sum(m)
  {
    SumDropZeros(Pad(m, ps), m);
  }

  /** The key-wise sum of two tallies sums to the sum of their sums. */
  lemma SumMerged(a: Tally, b: Tally)
    ensures Sum(Merged(a, b)) == Sum(a) + Sum(b)
  {
    var u := a.Keys + b.Keys;
    assert Merged(a, b).Keys == u;
    SumOverAdd(Merged(a, b), a, b, u);
    SumOverCovers(a, u);
    SumOverCovers(b, u);
  }

  /** The key-wise difference of two tallies over the same keys sums to the difference of their sums. */
  lemma SumDiff(a: Tally, b: Tally)
    requires a.Keys == b.Keys
    ensures Sum(Diff(a, b)) == Sum(a) - Sum(b)
  {
    assert Diff(a, b).Keys == a.Keys;
    SumOverAdd(a, Diff(a, b), b, a.Keys);
  }

  /** A non-empty tally of positive values has a positive sum, and likewise for negative values. */
  lemma {:induction false} SumSign(m: Tally)
    requires m != map[]
    ensures (forall p :: p in m ==> m[p] > 0) ==> Sum(m) > 0
    ensures (forall p :: p in m ==> m[p] < 0) ==> Sum(m) < 0
    decreases |m|
  {
    var p := PickOf(m.Keys);
    SumRemove(m, p);
    if m - {p} != map[] {
      SumSign(m - {p});
    }
  }

  /** Some key holds the smallest value. */
  lemma {:induction false} MinKey(m: Tally) returns (k: Person)
    requires m != map[]
    ensures k in m && forall p :: p in m ==> m[k] <= m[p]
    decreases |m|
  {
    var p := PickOf(m.Keys);
    CardRemove(m, p);
    assert forall q :: q in m ==> q == p || q in m - {p};
    if m - {p} == map[] {
      k := p;
    } else {
      var j := MinKey(m - {p});
      k := if m[p] <= m[j] then p else j;
    }
  }

  /** Some key holds the largest value. */
  lemma {:induction false} MaxKey(m: Tally) returns (k: Person)
    requires m != map[]
    ensures k in m && forall p :: p in m ==> m[p] <= m[k]
    decreases |m|
  {
    var p := PickOf(m.Keys);
    CardRemove(m, p);
    assert forall q :: q in m ==> q == p || q in m - {p};
    if m - {p} == map[] {
      k := p;
    } else {
      var j := MaxKey(m - {p});
      k := if m[j] <= m[p] then p else j;
    }
  }
}
