/**
 * Money splits: an amount (in cents) attributed to a set of persons, either
 * as an Item (something consumed) or as a Payment (money paid), together
 * with the division of one split among its persons and the folding of many
 * splits into per-person totals.
 */
module Splits {
  import opened People
  import opened Results
  import opened Totals

  /** `title` is the source's `label` (a reserved word here). */
  datatype Split =
    | Item(persons: set<Person>, title: string, amount: int)
    | Payment(persons: set<Person>, amount: int)

  /**
   * `__eq__`: same kind, same amount, same person set and, for items, the
   * same label. This is exactly equality of the model's values.
   */
  function Equal(a: Split, b: Split): (r: bool)
    ensures r <==> a == b
  {
    match (a, b)
    case (Item(pa, la, xa), Item(pb, lb, xb)) => xa == xb && pa == pb && la == lb
    case (Payment(pa, xa), Payment(pb, xb)) => xa == xb && pa == pb
    case _ => false
  }

  /**
   * The checks and conversion of the split constructor: every element must be
   * a person (a bare string raises ValueError); the persons form a set.
   */
  method Participants(members: seq<Arg>) returns (r: Result<set<Person>>)
    ensures r.Err? <==> exists i :: 0 <= i < |members| && members[i].Text?
    ensures r.Err? ==> r.error == ValueError
    ensures r.Ok? ==> forall p :: p in r.value <==> Someone(p) in members
  {
    for i := 0 to |members|
      invariant forall j :: 0 <= j < i ==> members[j].Someone?
    {
      if members[i].Text? {
        return Err(ValueError);
      }
    }
    r := Ok(set a | a in members && a.Someone? :: a.p);
  }

  /** `Item(persons, label, amount)`. */
  method NewItem(members: seq<Arg>, title: string, amount: int) returns (r: Result<Split>)
    ensures r.Err? <==> exists i :: 0 <= i < |members| && members[i].Text?
    ensures r.Err? ==> r.error == ValueError
    ensures r.Ok? ==> r.value.Item? && r.value.title == title && r.value.amount == amount
    ensures r.Ok? ==> forall p :: p in r.value.persons <==> Someone(p) in members
  {
    var persons := Participants(members);
    if persons.Err? {
      return Err(persons.error);
    }
    r := Ok(Item(persons.value, title, amount));
  }

  /** `Payment(persons, amount)`. */
  method NewPayment(members: seq<Arg>, amount: int) returns (r: Result<Split>)
    ensures r.Err? <==> exists i :: 0 <= i < |members| && members[i].Text?
    ensures r.Err? ==> r.error == ValueError
    ensures r.Ok? ==> r.value.Payment? && r.value.amount == amount
    ensures r.Ok? ==> forall p :: p in r.value.persons <==> Someone(p) in members
  {
    var persons := Participants(members);
    if persons.Err? {
      return Err(persons.error);
    }
    r := Ok(Payment(persons.value, amount));
  }

  /** The persons of `share` that receive one unit on top of `base`. */
  ghost function Extras(share: Tally, base: int): (r: set<Person>)
  {
    set p | p in share && share[p] == base + 1
  }

  /**
   * `share` divides `amount` among `persons` by the floor-plus-remainder rule:
   * every person gets `amount // n` or one unit more, and exactly
   * `amount % n` persons get the extra unit (n = the number of persons).
   * Which persons get it is left open: the source picks them in set order.
   */
  ghost predicate IsFairShare(share: Tally, persons: set<Person>, amount: int)
  {
    && |persons| > 0
    && share.Keys == persons
    && (forall p :: p in share ==> share[p] == amount / |persons| || share[p] == amount / |persons| + 1)
    && |Extras(share, amount / |persons|)| == amount % |persons|
  }

  /**
   * When the persons divide the amount evenly the division is unique:
   * everyone gets exactly the quotient.
   */
  lemma FairShareEven(share: Tally, persons: set<Person>, amount: int)
    requires IsFairShare(share, persons, amount) && amount % |persons| == 0
    ensures share.Keys == persons
    ensures forall p :: p in share ==> share[p] == amount / |persons|
  {
    var base := amount / |persons|;
    assert |Extras(share, base)| == 0;
    forall p | p in share
      ensures share[p] == base
    {
      assert p !in Extras(share, base);
    }
  }

  /** Granting a person that had no extra unit a value moves it into the extras or not. */
  lemma ExtrasGrant(share: Tally, p: Person, base: int, v: int)
    requires p !in Extras(share, base)
    ensures Extras(share[p := v], base) == Extras(share, base) + (if v == base + 1 then {p} else {})
    ensures |Extras(share[p := v], base)| == |Extras(share, base)| + (if v == base + 1 then 1 else 0)
  {
    assert Extras(share[p := v], base) == Extras(share, base) + (if v == base + 1 then {p} else {});
  }

  /** What the source computes as `a - (a // n) * n` is the remainder `a % n`. */
  lemma DivMod(a: int, n: int)
    requires n > 0
    ensures a - (a / n) * n == a % n
  {
    assert a == (a / n) * n + a % n;
  }

  lemma MulStep(base: int, n: nat)
    ensures base * (n + 1) == base * n + base
  {
  }

  /** A tally whose values are `base` or `base + 1` sums to `base * n` plus the number of extras. */
  lemma {:induction false} SharesSum(share: Tally, base: int)
    requires forall p :: p in share ==> share[p] == base || share[p] == base + 1
    ensures Sum(share) == base * |share| + |Extras(share, base)|
    decreases |share|
  {
    if share == map[] {
      assert Extras(share, base) == {};
    } else {
      var p := PickOf(share.Keys);
      var rest := share - {p};
      SumRemove(share, p);
      SharesSum(rest, base);
      var extra := if share[p] == base + 1 then {p} else {};
      assert Extras(share, base) == Extras(rest, base) + extra;
      assert p !in Extras(rest, base);
      MulStep(base, |rest|);
    }
  }

  /** Split exactness: a fair share of `amount` sums to `amount`, no cent created or lost. */
  lemma FairShareSum(share: Tally, persons: set<Person>, amount: int)
    requires IsFairShare(share, persons, amount)
    ensures Sum(share) == amount
  {
    var n := |persons|;
    assert |share| == n by {
      assert share.Keys == persons;
    }
    SharesSum(share, amount / n);
  }

  /**
   * The loop state of `computeAmountPerPerson`: everybody handled so far has
   * the floor share or one unit more, and the extra units went to the
   * persons handled while `roundingError` was still positive (it starts at
   * `remainder` and goes down by one per person).
   */
  ghost predicate Distributing(results: Tally, base: int, remainder: int, roundingError: int)
  {
    && (forall q :: q in results ==> results[q] == base || results[q] == base + 1)
    && roundingError <= remainder
    && |Extras(results, base)| == if roundingError >= 0 then remainder - roundingError else remainder
  }

  /** One pass of the distribution loop keeps the count of extra units right. */
  lemma DistributeStep(results: Tally, p: Person, base: int, remainder: int, roundingError: int)
    requires p !in results && Distributing(results, base, remainder, roundingError)
    ensures Distributing(results[p := base + (if roundingError > 0 then 1 else 0)], base, remainder, roundingError - 1)
  {
    var amount := base + (if roundingError > 0 then 1 else 0);
    assert p !in Extras(results, base);
    ExtrasGrant(results, p, base, amount);
  }

  /** The state in which the distribution loop ends, every person handled, is a fair share. */
  lemma FairShareComplete(share: Tally, persons: set<Person>, amount: int)
    requires |persons| > 0 && share.Keys == persons
    requires Distributing(share, amount / |persons|, amount % |persons|, amount % |persons| - |persons|)
    ensures IsFairShare(share, persons, amount) && Sum(share) == amount
  {
    FairShareSum(share, persons, amount);
  }

  /**
   * The distribution loop of `computeAmountPerPerson`: each person gets
   * `base`, plus one unit while the rounding error is still positive.
   */
  method Distribute(persons: set<Person>, base: int, remainder: int) returns (results: Tally)
    requires remainder >= 0
    ensures results.Keys == persons
    ensures Distributing(results, base, remainder, remainder - |persons|)
  {
    var roundingError := remainder;
    results := map[];
    assert Extras(results, base) == {};
    var rest := persons;
    while rest != {}
      invariant rest <= persons
      invariant results.Keys == persons - rest
      invariant remainder - roundingError + |rest| == |persons|
      invariant Distributing(results, base, remainder, roundingError)
      decreases rest
    {
      var p :| p in rest;
      var amount := base + (if roundingError > 0 then 1 else 0);
      DistributeStep(results, p, base, remainder, roundingError);
      roundingError := roundingError - 1;
      results := results[p := amount];
      rest := rest - {p};
    }
  }

  /**
   * `computeAmountPerPerson`: the floor share for everybody, and one more
   * unit for the first `amount % n` persons in (arbitrary) set order. An empty
   * person set divides by zero, whatever the amount.
   */
  method AmountPerPerson(s: Split) returns (r: Result<Tally>)
    ensures r.Err? <==> s.persons == {}
    ensures r.Err? ==> r.error == ZeroDivision
    ensures r.Ok? ==> IsFairShare(r.value, s.persons, s.amount)
    ensures r.Ok? ==> Sum(r.value) == s.amount
  {
    var divisor := |s.persons|;
    if divisor == 0 {
      return Err(ZeroDivision);
    }
    var base := s.amount / divisor;
    var remainder := s.amount - base * divisor;
    DivMod(s.amount, divisor);
    var results := Distribute(s.persons, base, remainder);
    FairShareComplete(results, s.persons, s.amount);
    r := Ok(results);
  }

  /**
   * `mergeTotals`: adds `totalsB` into `totalsA` key by key, a key missing
   * from `totalsA` starting at the value from `totalsB`.
   */
  method MergeTotals(totalsA: Tally, totalsB: Tally) returns (merged: Tally)
    ensures merged == Merged(totalsA, totalsB)
    ensures merged.Keys == totalsA.Keys + totalsB.Keys
    ensures Sum(merged) == Sum(totalsA) + Sum(totalsB)
  {
    merged := totalsA;
    var rest := totalsB.Keys;
    while rest != {}
      invariant rest <= totalsB.Keys
      invariant merged.Keys == totalsA.Keys + (totalsB.Keys - rest)
      invariant forall p :: p in merged ==> merged[p] == Get(totalsA, p) + (if p in rest then 0 else Get(totalsB, p))
      decreases rest
    {
      var p :| p in rest;
      if p in merged {
        merged := merged[p := merged[p] + totalsB[p]];
      } else {
        merged := merged[p := totalsB[p]];
      }
      rest := rest - {p};
    }
    assert merged == Merged(totalsA, totalsB);
    SumMerged(totalsA, totalsB);
  }

  /** Every split of `splits` is divided into the corresponding tally of `shares`. */
  ghost predicate IsShareList(splits: seq<Split>, shares: seq<Tally>)
  {
    && |shares| == |splits|
    && forall i :: 0 <= i < |splits| ==> IsFairShare(shares[i], splits[i].persons, splits[i].amount)
  }

  lemma ShareListPrefix(splits: seq<Split>, shares: seq<Tally>, k: nat)
    requires IsShareList(splits, shares) && k <= |splits|
    ensures IsShareList(splits[..k], shares[..k])
  {
    assert forall i :: 0 <= i < k ==> splits[..k][i] == splits[i] && shares[..k][i] == shares[i];
  }

  lemma ShareListAppend(splits: seq<Split>, shares: seq<Tally>, i: nat, share: Tally)
    requires i < |splits| && IsShareList(splits[..i], shares)
    requires IsFairShare(share, splits[i].persons, splits[i].amount)
    ensures IsShareList(splits[..i + 1], shares + [share])
  {
    assert splits[..i + 1] == splits[..i] + [splits[i]];
  }

  /** A split that has a fair share has at least one person. */
  lemma ShareListNonEmpty(splits: seq<Split>, shares: seq<Tally>)
    requires IsShareList(splits, shares)
    ensures forall i :: 0 <= i < |splits| ==> splits[i].persons != {}
  {
    forall i | 0 <= i < |splits|
      ensures splits[i].persons != {}
    {
      assert IsFairShare(shares[i], splits[i].persons, splits[i].amount);
    }
  }

  /** The running totals after folding `shares` in order. */
  ghost function MergeAll(shares: seq<Tally>): (r: Tally)
  {
    if shares == [] then map[]
    else Merged(MergeAll(shares[..|shares| - 1]), shares[|shares| - 1])
  }

  /** Every person of some split. */
  ghost function PersonsIn(splits: seq<Split>): (r: set<Person>)
  {
    if splits == [] then {}
    else PersonsIn(splits[..|splits| - 1]) + splits[|splits| - 1].persons
  }

  /** The total amount of the splits. */
  ghost function AmountOf(splits: seq<Split>): (r: int)
  {
    if splits == [] then 0
    else AmountOf(splits[..|splits| - 1]) + splits[|splits| - 1].amount
  }

  /** Persons of every split lie in `ps`, so their union does. */
  lemma {:induction false} PersonsInBound(splits: seq<Split>, ps: set<Person>)
    requires forall s :: s in splits ==> s.persons <= ps
    ensures PersonsIn(splits) <= ps
    decreases |splits|
  {
    if splits != [] {
      var n := |splits|;
      assert forall s :: s in splits[..n - 1] ==> s in splits;
      PersonsInBound(splits[..n - 1], ps);
      assert splits[n - 1] in splits;
    }
  }

  /**
   * Folding fair shares: the keys are the union of the splits' persons and
   * the values sum to the total of the split amounts.
   */
  lemma {:induction false} MergeAllShares(splits: seq<Split>, shares: seq<Tally>)
    requires IsShareList(splits, shares)
    ensures MergeAll(shares).Keys == PersonsIn(splits)
    ensures Sum(MergeAll(shares)) == AmountOf(splits)
    decreases |splits|
  {
    if splits != [] {
      var n := |splits|;
      ShareListPrefix(splits, shares, n - 1);
      MergeAllShares(splits[..n - 1], shares[..n - 1]);
      assert IsFairShare(shares[n - 1], splits[n - 1].persons, splits[n - 1].amount);
      FairShareSum(shares[n - 1], splits[n - 1].persons, splits[n - 1].amount);
      SumMerged(MergeAll(shares[..n - 1]), shares[n - 1]);
    }
  }

  /**
   * The static `computeTotals`: each person's total is the sum of their
   * shares over all splits. A split with no persons divides by zero.
   */
  method ComputeTotals(splits: seq<Split>) returns (r: Result<Tally>, ghost shares: seq<Tally>)
    ensures r.Err? <==> exists i :: 0 <= i < |splits| && splits[i].persons == {}
    ensures r.Err? ==> r.error == ZeroDivision
    ensures r.Ok? ==> IsShareList(splits, shares) && r.value == MergeAll(shares)
    ensures r.Ok? ==> r.value.Keys == PersonsIn(splits) && Sum(r.value) == AmountOf(splits)
  {
    var results: Tally := map[];
    shares := [];
    for i := 0 to |splits|
      invariant IsShareList(splits[..i], shares)
      invariant results == MergeAll(shares)
    {
      var share := AmountPerPerson(splits[i]);
      if share.Err? {
        return Err(share.error), shares;
      }
      // the inner loop of the source is the key-wise merge of this share
      results := MergeTotals(results, share.value);
      ShareListAppend(splits, shares, i, share.value);
      assert (shares + [share.value])[..|shares|] == shares;
      shares := shares + [share.value];
    }
    assert splits[..|splits|] == splits;
    r := Ok(results);
    MergeAllShares(splits, shares);
    ShareListNonEmpty(splits, shares);
  }
}
