/**
 * Settlement: from per-person balances (consumed minus paid, in cents) to a
 * list of debts. Zero balances are dropped, then repeatedly the person with
 * the largest balance pays the person with the smallest one as much as
 * brings one of the two to zero.
 */
module Settlement {
  import opened People
  import opened Results
  import opened Totals

  /** The triple `(debtor, amount, creditor)`: `debtor` owes `creditor` `amount`. */
  datatype Debt = Debt(debtor: Person, amount: int, creditor: Person)

  /** Settling `d`: the debtor's balance goes down by the amount and the creditor's up. */
  function Pay(b: Tally, d: Debt): (r: Tally)
    ensures r.Keys == b.Keys + {d.debtor, d.creditor}
    ensures forall p :: Get(r, p) == Get(b, p) - (if p == d.debtor then d.amount else 0) + (if p == d.creditor then d.amount else 0)
  {
    var paid := b[d.debtor := Get(b, d.debtor) - d.amount];
    paid[d.creditor := Get(paid, d.creditor) + d.amount]
  }

  /** Settling a debt moves money and neither creates nor destroys any. */
  lemma PayConserves(b: Tally, d: Debt)
    ensures Sum(Pay(b, d)) == Sum(b)
  {
    var paid := b[d.debtor := Get(b, d.debtor) - d.amount];
    SumUpdate(b, d.debtor, Get(b, d.debtor) - d.amount);
    SumUpdate(paid, d.creditor, Get(paid, d.creditor) + d.amount);
  }

  /** The balances once every debt of `debts` is settled, in order. */
  function Apply(b: Tally, debts: seq<Debt>): (r: Tally)
  {
    if debts == [] then b
    else Pay(Apply(b, debts[..|debts| - 1]), debts[|debts| - 1])
  }

  /** Settling any list of debts conserves the total. */
  lemma {:induction false} ApplyConserves(b: Tally, debts: seq<Debt>)
    ensures Sum(Apply(b, debts)) == Sum(b)
    decreases |debts|
  {
    if debts != [] {
      ApplyConserves(b, debts[..|debts| - 1]);
      PayConserves(Apply(b, debts[..|debts| - 1]), debts[|debts| - 1]);
    }
  }

  /** The persons whose balance is not zero. */
  function NonZero(b: Tally): (r: set<Person>)
    ensures forall p :: p in r <==> p in b && b[p] != 0
  {
    set p | p in b && b[p] != 0
  }

  function Max0(n: int): (r: nat)
  {
    if n > 0 then n else 0
  }

  /**
   * `filterNull`: collects the names whose balance is zero, then deletes
   * them. The Python version deletes in place; here the filtered map is
   * returned.
   */
  method FilterNull(balances: Tally) returns (r: Tally)
    ensures r.Keys == NonZero(balances)
    ensures forall p :: p in r ==> r[p] == balances[p]
    ensures Sum(r) == Sum(balances)
  {
    var names: seq<Person> := [];
    var rest := balances.Keys;
    while rest != {}
      invariant rest <= balances.Keys
      invariant forall p :: p in names <==> p in balances && p !in rest && balances[p] == 0
      decreases rest
    {
      var name :| name in rest;
      if balances[name] == 0 {
        names := names + [name];
      }
      rest := rest - {name};
    }
    r := balances;
    for i := 0 to |names|
      invariant r.Keys == balances.Keys - set j | 0 <= j < i :: names[j]
      invariant forall p :: p in r ==> r[p] == balances[p]
    {
      r := r - {names[i]};
    }
    SumDropZeros(balances, r);
  }

  /** A subset of a finite set is no larger. */
  lemma {:induction false} SubsetCard(a: set<Person>, b: set<Person>)
    requires a <= b
    ensures |a| <= |b|
    decreases b
  {
    if a != {} {
      var x :| x in a;
      SubsetCard(a - {x}, b - {x});
    }
  }

  /**
   * Balances that are all non-zero and sum to zero, with at least two of
   * them, have a negative minimum and a positive maximum.
   */
  lemma SignsOfExtremes(cur: Tally, lo: Person, hi: Person)
    requires lo in cur && hi in cur && Sum(cur) == 0
    requires forall p :: p in cur ==> cur[p] != 0
    requires forall p :: p in cur ==> cur[lo] <= cur[p] <= cur[hi]
    ensures cur[lo] < 0 < cur[hi]
  {
    SumSign(cur);
  }

  /** With two or more persons, a person of largest balance other than `lo` exists. */
  lemma OtherMaximum(cur: Tally, lo: Person) returns (hi: Person)
    requires lo in cur && |cur| > 1
    requires forall p :: p in cur ==> cur[lo] <= cur[p]
    ensures hi in cur && hi != lo && forall p :: p in cur ==> cur[p] <= cur[hi]
  {
    hi := MaxKey(cur);
    if hi == lo {
      CardRemove(cur, lo);
      var other := PickOf((cur - {lo}).Keys);
      hi := other;
    }
  }

  /**
   * The state of the settlement loop: `cur` holds the non-zero balances
   * still open, which are exactly what settling `debts` leaves of
   * `balances`; every debt so far is sound, and each one closed at least
   * one balance.
   */
  ghost predicate Settling(balances: Tally, debts: seq<Debt>, cur: Tally)
  {
    && cur.Keys <= balances.Keys
    && (forall p :: p in cur ==> cur[p] != 0)
    && Sum(cur) == Sum(balances)
    && Tracks(balances, debts, cur)
    && |debts| + Max0(|cur| - 1) <= Max0(|NonZero(balances)| - 1)
    && AllSound(balances, debts)
  }

  /** Settling `debts` leaves of `balances` exactly the balances `cur` (a missing one being 0). */
  ghost predicate Tracks(balances: Tally, debts: seq<Debt>, cur: Tally)
  {
    forall p :: p in balances ==> Get(Apply(balances, debts), p) == Get(cur, p)
  }

  ghost predicate AllSound(balances: Tally, debts: seq<Debt>)
  {
    forall i :: 0 <= i < |debts| ==> Sound(balances, debts[i])
  }

  lemma AllSoundAppend(balances: Tally, debts: seq<Debt>, d: Debt)
    requires AllSound(balances, debts) && Sound(balances, d)
    ensures AllSound(balances, debts + [d])
  {
    assert forall i :: 0 <= i < |debts| ==> (debts + [d])[i] == debts[i];
  }

  /** A debt between two distinct persons of `balances`, with a positive amount when they sum to zero. */
  ghost predicate Sound(balances: Tally, d: Debt)
  {
    && d.debtor in balances && d.creditor in balances && d.debtor != d.creditor
    && (Sum(balances) == 0 ==> d.amount > 0)
  }

  /** When the creditor's debt covers the debtor's balance, the debtor's balance is closed. */
  lemma ClosesDebtor(cur: Tally, a: Person, b: Person, updated: Tally)
    requires a in cur && b in cur && a != b
    requires updated == cur[a := cur[a] + cur[b]][b := 0]
    ensures updated == Pay(cur, Debt(b, cur[b], a)) && updated[b] == 0
  {
  }

  /** Otherwise the creditor's balance is closed. */
  lemma ClosesCreditor(cur: Tally, a: Person, b: Person, updated: Tally)
    requires a in cur && b in cur && a != b
    requires updated == cur[a := 0][b := cur[b] + cur[a]]
    ensures updated == Pay(cur, Debt(b, -cur[a], a)) && updated[a] == 0
  {
  }

  /** Dropping the zero balances of `Pay(cur, d)`, one of which is a party of `d`, shrinks `cur`. */
  lemma SettleShrinks(cur: Tally, d: Debt, paid: Tally, next: Tally)
    requires d.debtor in cur && d.creditor in cur && paid == Pay(cur, d)
    requires next.Keys == NonZero(paid)
    requires paid[d.debtor] == 0 || paid[d.creditor] == 0
    ensures |next| < |cur|
  {
    var zero := if paid[d.debtor] == 0 then d.debtor else d.creditor;
    assert next.Keys <= cur.Keys - {zero};
    SubsetCard(next.Keys, cur.Keys - {zero});
    assert |next| == |next.Keys|;
  }

  /** What settling one more debt leaves agrees with the open balances after it. */
  lemma SettleTracks(balances: Tally, debts: seq<Debt>, cur: Tally, d: Debt, paid: Tally, next: Tally)
    requires Tracks(balances, debts, cur) && paid == Pay(cur, d)
    requires next.Keys == NonZero(paid) && forall p :: p in next ==> next[p] == paid[p]
    ensures Tracks(balances, debts + [d], next)
  {
    assert (debts + [d])[..|debts|] == debts;
    forall p | p in balances
      ensures Get(Apply(balances, debts + [d]), p) == Get(next, p)
    {
      assert Get(Apply(balances, debts + [d]), p) == Get(Pay(Apply(balances, debts), d), p);
    }
  }

  /** One more debt that closes a balance keeps within the bound on the number of debts. */
  lemma CountStep(settled: nat, open: nat, left: nat, bound: int)
    requires settled + Max0(open - 1) <= bound && left < open && open > 1
    ensures settled + 1 + Max0(left - 1) <= bound
  {
  }

  /** Settling one more debt between two open persons keeps the loop state. */
  lemma SettleStep(balances: Tally, debts: seq<Debt>, cur: Tally, d: Debt, paid: Tally, next: Tally)
    requires Settling(balances, debts, cur) && Sound(balances, d)
    requires d.debtor in cur && d.creditor in cur && |cur| > 1 && paid == Pay(cur, d)
    requires next.Keys == NonZero(paid) && forall p :: p in next ==> next[p] == paid[p]
    requires paid[d.debtor] == 0 || paid[d.creditor] == 0
    ensures Settling(balances, debts + [d], next)
    ensures |next| < |cur|
  {
    SettleBalances(balances, debts, cur, d, paid, next);
    SettleCount(balances, debts, cur, d, paid, next);
  }

  /** After one more debt the open balances still add up and track the debts. */
  lemma SettleBalances(balances: Tally, debts: seq<Debt>, cur: Tally, d: Debt, paid: Tally, next: Tally)
    requires Settling(balances, debts, cur)
    requires d.debtor in cur && d.creditor in cur && paid == Pay(cur, d)
    requires next.Keys == NonZero(paid) && forall p :: p in next ==> next[p] == paid[p]
    ensures next.Keys <= balances.Keys && (forall p :: p in next ==> next[p] != 0)
    ensures Sum(next) == Sum(balances) && Tracks(balances, debts + [d], next)
  {
    PayConserves(cur, d);
    SumDropZeros(paid, next);
    SettleTracks(balances, debts, cur, d, paid, next);
  }

  /** After one more debt, one balance fewer is open and the bound on the debts still holds. */
  lemma SettleCount(balances: Tally, debts: seq<Debt>, cur: Tally, d: Debt, paid: Tally, next: Tally)
    requires Settling(balances, debts, cur) && Sound(balances, d)
    requires d.debtor in cur && d.creditor in cur && |cur| > 1 && paid == Pay(cur, d)
    requires next.Keys == NonZero(paid) && forall p :: p in next ==> next[p] == paid[p]
    requires paid[d.debtor] == 0 || paid[d.creditor] == 0
    ensures |next| < |cur|
    ensures |debts + [d]| + Max0(|next| - 1) <= Max0(|NonZero(balances)| - 1)
    ensures AllSound(balances, debts + [d])
  {
    SettleShrinks(cur, d, paid, next);
    CountStep(|debts|, |cur|, |next|, Max0(|NonZero(balances)| - 1));
    AllSoundAppend(balances, debts, d);
  }

  /** A loop state with at most one open balance: none is left exactly when the total is zero. */
  lemma SettledIff(balances: Tally, debts: seq<Debt>, cur: Tally)
    requires Settling(balances, debts, cur) && |cur| <= 1
    ensures cur == map[] <==> Sum(balances) == 0
  {
    if cur != map[] {
      var k := PickOf(cur.Keys);
      SumRemove(cur, k);
      assert cur - {k} == map[];
    }
  }

  /**
   * The two ends of the names sorted by balance: `a` has the smallest
   * balance and `b`, another person, the largest. Among equal balances,
   * which person the sort puts first or last is left open.
   */
  method Extremes(cur: Tally) returns (a: Person, b: Person)
    requires |cur| > 1
    ensures a in cur && b in cur && a != b
    ensures forall p :: p in cur ==> cur[a] <= cur[p] <= cur[b]
  {
    ghost var lo := MinKey(cur);
    ghost var hi := OtherMaximum(cur, lo);
    a :| a in cur && forall p :: p in cur ==> cur[a] <= cur[p];
    b :| b in cur && b != a && forall p :: p in cur ==> cur[p] <= cur[b];
  }

  /**
   * One pass of the settlement loop: the person with the largest balance
   * (`b`) pays the one with the smallest (`a`) as much as closes one of
   * the two, and the zero balances are dropped.
   */
  method SettleOnce(ghost balances: Tally, ghost debts: seq<Debt>, cur: Tally) returns (d: Debt, next: Tally)
    requires Settling(balances, debts, cur) && |cur| > 1
    ensures d.debtor in cur && d.creditor in cur && d.debtor != d.creditor
    ensures forall p :: p in cur ==> cur[d.creditor] <= cur[p] <= cur[d.debtor]
    ensures d.amount == if -cur[d.creditor] >= cur[d.debtor] then cur[d.debtor] else -cur[d.creditor]
    ensures next.Keys == NonZero(Pay(cur, d)) && forall p :: p in next ==> next[p] == Pay(cur, d)[p]
    ensures Settling(balances, debts + [d], next)
    ensures |next| < |cur|
  {
    var a, b := Extremes(cur);
    var pa := cur[a];
    var pb := cur[b];
    if Sum(balances) == 0 {
      SignsOfExtremes(cur, a, b);
    }
    var updated: Tally;
    // pb owes pa
    if -pa >= pb {
      d := Debt(b, pb, a);
      updated := cur[a := pa + pb][b := 0];
      ClosesDebtor(cur, a, b, updated);
    } else {
      d := Debt(b, -pa, a);
      updated := cur[a := 0][b := pb + pa];
      ClosesCreditor(cur, a, b, updated);
    }
    next := FilterNull(updated);
    SettleStep(balances, debts, cur, d, updated, next);
  }

  /**
   * `computeDebts` once the balances are computed: the greedy loop, then
   * `RuntimeError("Wrong balances!")` when one balance is left over.
   */
  method Settle(balances: Tally) returns (r: Result<seq<Debt>>)
    ensures r.Err? <==> Sum(balances) != 0
    ensures r.Err? ==> r.error == WrongBalances
    ensures r.Ok? ==> forall p :: p in balances ==> Get(Apply(balances, r.value), p) == 0
    ensures r.Ok? ==> |r.value| <= Max0(|NonZero(balances)| - 1)
    ensures r.Ok? ==> forall i :: 0 <= i < |r.value| ==> Sound(balances, r.value[i])
  {
    var debts: seq<Debt> := [];
    var cur := FilterNull(balances);
    while |cur| > 1
      invariant Settling(balances, debts, cur)
      decreases |cur|
    {
      var d, next := SettleOnce(balances, debts, cur);
      debts := debts + [d];
      cur := next;
    }
    SettledIff(balances, debts, cur);
    if |cur| > 0 {
      return Err(WrongBalances);
    }
    r := Ok(debts);
  }
}
