/**
 * Worked examples: the test suite's expected values, derived from the
 * model's contracts. Every amount divides evenly among its persons, so the
 * fair shares, and with them every total, are unique.
 */
module Scenarios {
  import opened People
  import opened Results
  import opened Totals
  import opened Splits
  import opened Reconcile
  import opened Settlement
  import opened Transactions
  import opened Manager

  const A := Person("A")
  const B := Person("B")
  const C := Person("C")
  const Alice := Person("Alice")
  const Bob := Person("Bob")

  /** Payments `(A, B): 4`, `(A): 3` and `(B): 5` total `{A: 5, B: 7}`. */
  lemma TotalsExample(shares: seq<Tally>)
    requires IsShareList([Payment({A, B}, 4), Payment({A}, 3), Payment({B}, 5)], shares)
    ensures MergeAll(shares) == map[A := 5, B := 7]
  {
    ExampleShares(shares);
    MergeAllThree(shares);
    ExampleMergeThree();
  }

  /** `{A: 2, B: 2}`, `{A: 3}` and `{B: 5}` merged in order. */
  lemma ExampleMergeThree()
    ensures Merged(Merged(Merged(map[], map[A := 2, B := 2]), map[A := 3]), map[B := 5]) == map[A := 5, B := 7]
  {
    var first := Merged(map[], map[A := 2, B := 2]);
    PairMap(first, A, 2, B, 2);
    var second := Merged(first, map[A := 3]);
    PairMap(second, A, 5, B, 2);
    PairMap(Merged(second, map[B := 5]), A, 5, B, 7);
  }

  /** The only division of the three example payments. */
  lemma ExampleShares(shares: seq<Tally>)
    requires IsShareList([Payment({A, B}, 4), Payment({A}, 3), Payment({B}, 5)], shares)
    ensures shares == [map[A := 2, B := 2], map[A := 3], map[B := 5]]
  {
    assert |{A, B}| == 2 && |{A}| == 1 && |{B}| == 1;
    FairShareEven(shares[0], {A, B}, 4);
    FairShareEven(shares[1], {A}, 3);
    FairShareEven(shares[2], {B}, 5);
    PairMap(shares[0], A, 2, B, 2);
    SingleMap(shares[1], A, 3);
    SingleMap(shares[2], B, 5);
  }

  /** A tally of one person is determined by its value. */
  lemma SingleMap(m: Tally, p: Person, x: int)
    requires m.Keys == {p} && m[p] == x
    ensures m == map[p := x]
  {
  }

  /** `MergeAll` of three shares, unfolded. */
  lemma MergeAllThree(shares: seq<Tally>)
    requires |shares| == 3
    ensures MergeAll(shares) == Merged(Merged(Merged(map[], shares[0]), shares[1]), shares[2])
  {
    assert MergeAll(shares[..1]) == Merged(map[], shares[0]) by {
      assert shares[..1][..0] == [];
    }
    assert MergeAll(shares[..2]) == Merged(MergeAll(shares[..1]), shares[1]) by {
      assert shares[..2][..1] == shares[..1];
    }
  }

  /** A tally of two persons is determined by its two values. */
  lemma PairMap(m: Tally, p: Person, x: int, q: Person, y: int)
    requires m.Keys == {p, q} && m[p] == x && m[q] == y
    ensures m == map[p := x, q := y]
  {
  }

  /** Merging `{A: 5, B: 7}` with `{A: 5, C: 3}` gives `{A: 10, B: 7, C: 3}`. */
  lemma MergeExample()
    ensures Merged(map[A := 5, B := 7], map[A := 5, C := 3]) == map[A := 10, B := 7, C := 3]
  {
    var m := Merged(map[A := 5, B := 7], map[A := 5, C := 3]);
    assert m[A] == 10 && m[B] == 7 && m[C] == 3;
  }

  /**
   * Reconciling among A and B items `{A: 4, B: 3}` against payments
   * `{A: 11}` raises each item total by 2 and gives B a zero payment.
   */
  lemma AdjustItemsExample(share: Tally)
    requires DividesShortfall({A, B}, map[A := 4, B := 3], map[A := 11], share)
    ensures Adjusted({A, B}, map[A := 4, B := 3], map[A := 11], share) == (map[A := 6, B := 5], map[A := 11, B := 0])
  {
    SumPair(A, 4, B, 3);
    SumSingle(A, 11);
    assert Shortfall(map[A := 4, B := 3], map[A := 11]) == 4;
    FairShareEven(share, {A, B}, 4);
    PairMap(Pad(map[A := 4, B := 3], {A, B}), A, 4, B, 3);
    PairMap(Pad(map[A := 11], {A, B}), A, 11, B, 0);
    PairMap(Merged(map[A := 4, B := 3], share), A, 6, B, 5);
  }

  /**
   * Reconciling among A and B items `{A: 3}` against payments
   * `{A: 4, B: 3}` gives B a zero item and raises both item totals by 2.
   */
  lemma AdjustPaymentsExample(share: Tally)
    requires DividesShortfall({A, B}, map[A := 3], map[A := 4, B := 3], share)
    ensures Adjusted({A, B}, map[A := 3], map[A := 4, B := 3], share) == (map[A := 5, B := 2], map[A := 4, B := 3])
  {
    SumPair(A, 4, B, 3);
    SumSingle(A, 3);
    assert Shortfall(map[A := 3], map[A := 4, B := 3]) == 4;
    FairShareEven(share, {A, B}, 4);
    PairMap(Pad(map[A := 3], {A, B}), A, 3, B, 0);
    PairMap(Pad(map[A := 4, B := 3], {A, B}), A, 4, B, 3);
    PairMap(Merged(map[A := 3, B := 0], share), A, 5, B, 2);
  }

  /** The sum of a two-person tally. */
  lemma SumPair(p: Person, x: int, q: Person, y: int)
    requires p != q
    ensures Sum(map[p := x, q := y]) == x + y
  {
    SumSingle(p, x);
    SumUpdate(map[p := x], q, y);
  }

  /**
   * Two persons whose balances cancel: whatever the settlement does, as
   * long as its debts zero both balances, run between the two with a
   * positive amount and number at most one, the one with the positive
   * balance owes it to the other.
   */
  lemma {:induction false} PairSettled(a: Person, b: Person, x: int, balances: Tally, debts: seq<Debt>)
    requires a != b && x > 0 && balances == map[a := -x, b := x]
    requires forall p :: p in balances ==> Get(Apply(balances, debts), p) == 0
    requires |debts| <= Max0(|NonZero(balances)| - 1)
    requires forall i :: 0 <= i < |debts| ==> Sound(balances, debts[i])
    ensures debts == [Debt(b, x, a)]
  {
    assert NonZero(balances) == {a, b};
    SumPair(a, -x, b, x);
    assert Get(Apply(balances, []), a) == -x;
    assert |debts| == 1;
    var d := debts[0];
    assert debts[..0] == [];
    assert Apply(balances, debts) == Pay(balances, d);
    assert Sound(balances, d);
    assert Get(Pay(balances, d), a) == 0;
  }

  /** The restaurant of the Alice and Bob example: Alice pays for both meals. */
  const RestaurantItems := [Item({Alice}, "Starter", 500), Item({Alice}, "Course", 2000),
                            Item({Bob}, "Course", 2500), Item({Bob}, "Wine", 1000)]
  const RestaurantPayments := [Payment({Alice}, 6000)]

  /** The cinema of the Alice and Bob example: a shared ticket that Bob pays. */
  const CinemaItems := [Item({Alice, Bob}, "ticket", 2000)]
  const CinemaPayments := [Payment({Bob}, 2000)]

  /** The restaurant reconciles to items `{Alice: 2500, Bob: 3500}` against payments `{Alice: 6000, Bob: 0}`. */
  lemma RestaurantParts(w: Division, itemsPart: Tally, paymentsPart: Tally)
    requires Reconciles({Alice, Bob}, RestaurantItems, RestaurantPayments, w, itemsPart, paymentsPart)
    ensures itemsPart == map[Alice := 2500, Bob := 3500] && paymentsPart == map[Alice := 6000, Bob := 0]
  {
    RestaurantShares(w.itemShares);
    RestaurantItemShares(w.itemShares);
    SoleShare(Payment({Alice}, 6000), w.paymentShares, Alice);
    SumPair(Alice, 2500, Bob, 3500);
    SumSingle(Alice, 6000);
    BalancedOnlyPads({Alice, Bob}, map[Alice := 2500, Bob := 3500], map[Alice := 6000], w.share);
    PairMap(Pad(map[Alice := 2500, Bob := 3500], {Alice, Bob}), Alice, 2500, Bob, 3500);
    PairMap(Pad(map[Alice := 6000], {Alice, Bob}), Alice, 6000, Bob, 0);
  }

  /** The restaurant's items put 2500 on Alice and 3500 on Bob. */
  lemma RestaurantItemShares(shares: seq<Tally>)
    requires shares == [map[Alice := 500], map[Alice := 2000], map[Bob := 2500], map[Bob := 1000]]
    ensures MergeAll(shares) == map[Alice := 2500, Bob := 3500]
  {
    MergeAllFour(shares);
    var first := Merged(map[], map[Alice := 500]);
    SingleMap(first, Alice, 500);
    var second := Merged(first, map[Alice := 2000]);
    SingleMap(second, Alice, 2500);
    RestaurantBobItems();
  }

  /** Bob's two restaurant items merged onto Alice's 2500. */
  lemma RestaurantBobItems()
    ensures Merged(Merged(map[Alice := 2500], map[Bob := 2500]), map[Bob := 1000]) == map[Alice := 2500, Bob := 3500]
  {
    var third := Merged(map[Alice := 2500], map[Bob := 2500]);
    PairMap(third, Alice, 2500, Bob, 2500);
    PairMap(Merged(third, map[Bob := 1000]), Alice, 2500, Bob, 3500);
  }

  /** `MergeAll` of four shares, unfolded. */
  lemma MergeAllFour(shares: seq<Tally>)
    requires |shares| == 4
    ensures MergeAll(shares) == Merged(Merged(Merged(Merged(map[], shares[0]), shares[1]), shares[2]), shares[3])
  {
    MergeAllStep(shares, 0);
    assert shares[..0] == [];
    MergeAllStep(shares, 1);
    MergeAllStep(shares, 2);
    MergeAllStep(shares, 3);
    assert shares[..4] == shares;
  }

  /** The only division of the restaurant's items: each item to its one consumer. */
  lemma RestaurantShares(shares: seq<Tally>)
    requires IsShareList(RestaurantItems, shares)
    ensures shares == [map[Alice := 500], map[Alice := 2000], map[Bob := 2500], map[Bob := 1000]]
  {
    assert |{Alice}| == 1 && |{Bob}| == 1;
    FairShareEven(shares[0], {Alice}, 500);
    FairShareEven(shares[1], {Alice}, 2000);
    FairShareEven(shares[2], {Bob}, 2500);
    FairShareEven(shares[3], {Bob}, 1000);
    SingleMap(shares[0], Alice, 500);
    SingleMap(shares[1], Alice, 2000);
    SingleMap(shares[2], Bob, 2500);
    SingleMap(shares[3], Bob, 1000);
  }

  /** One more share merged into the running total. */
  lemma MergeAllStep(shares: seq<Tally>, k: nat)
    requires k < |shares|
    ensures MergeAll(shares[..k + 1]) == Merged(MergeAll(shares[..k]), shares[k])
  {
    assert shares[..k + 1][..k] == shares[..k];
  }

  /** The cinema reconciles to items `{Alice: 1000, Bob: 1000}` against payments `{Alice: 0, Bob: 2000}`. */
  lemma CinemaParts(w: Division, itemsPart: Tally, paymentsPart: Tally)
    requires Reconciles({Alice, Bob}, CinemaItems, CinemaPayments, w, itemsPart, paymentsPart)
    ensures itemsPart == map[Alice := 1000, Bob := 1000] && paymentsPart == map[Alice := 0, Bob := 2000]
  {
    CinemaItemShares(w.itemShares);
    SoleShare(Payment({Bob}, 2000), w.paymentShares, Bob);
    SumPair(Alice, 1000, Bob, 1000);
    SumSingle(Bob, 2000);
    BalancedOnlyPads({Alice, Bob}, map[Alice := 1000, Bob := 1000], map[Bob := 2000], w.share);
    PairMap(Pad(map[Alice := 1000, Bob := 1000], {Alice, Bob}), Alice, 1000, Bob, 1000);
    PairMap(Pad(map[Bob := 2000], {Alice, Bob}), Alice, 0, Bob, 2000);
  }

  /**
   * An outlay with Bob's payment of 2000 and no item: the missing items are
   * spread over its only participant, the payer, so it nets out to nothing.
   */
  lemma PaymentOnlyParts(w: Division, itemsPart: Tally, paymentsPart: Tally)
    requires Reconciles({Bob}, [], CinemaPayments, w, itemsPart, paymentsPart)
    ensures itemsPart == map[Bob := 2000] && paymentsPart == map[Bob := 2000]
  {
    assert w.itemShares == [];
    SoleShare(Payment({Bob}, 2000), w.paymentShares, Bob);
    SumSingle(Bob, 2000);
    assert |{Bob}| == 1;
    assert Shortfall(map[], map[Bob := 2000]) == 2000;
    FairShareEven(w.share, {Bob}, 2000);
    SingleMap(w.share, Bob, 2000);
    SingleMap(Pad(map[], {Bob}), Bob, 0);
    SingleMap(Pad(map[Bob := 2000], {Bob}), Bob, 2000);
    SingleMap(Merged(map[Bob := 0], map[Bob := 2000]), Bob, 2000);
  }

  /** The shared ticket puts 1000 on each of Alice and Bob. */
  lemma CinemaItemShares(shares: seq<Tally>)
    requires IsShareList(CinemaItems, shares)
    ensures MergeAll(shares) == map[Alice := 1000, Bob := 1000]
  {
    assert |{Alice, Bob}| == 2;
    FairShareEven(shares[0], {Alice, Bob}, 2000);
    PairMap(shares[0], Alice, 1000, Bob, 1000);
    MergeOne(shares);
  }

  /** A single share merged into nothing is that share. */
  lemma MergeOne(shares: seq<Tally>)
    requires |shares| == 1
    ensures MergeAll(shares) == shares[0]
  {
    assert shares[..|shares| - 1] == [];
    var m := Merged(map[], shares[0]);
    assert MergeAll(shares) == m;
    forall p | p in m
      ensures m[p] == shares[0][p]
    {
    }
  }

  /**
   * With both outlays reconciled, in either order, the grand totals are
   * items `{Alice: 3500, Bob: 4500}` and payments `{Alice: 6000, Bob: 2000}`,
   * so the balances are `{Alice: -2500, Bob: 2500}`.
   */
  lemma ExampleTotals(steps: seq<Step>, restaurant: Transaction, cinema: Transaction)
    requires IsTrace(steps) && Visited(steps) == {restaurant, cinema} && restaurant != cinema
    requires restaurant.persons == {Alice, Bob} && restaurant.items == RestaurantItems && restaurant.payments == RestaurantPayments
    requires cinema.persons == {Alice, Bob} && cinema.items == CinemaItems && cinema.payments == CinemaPayments
    ensures ItemsTotal(steps) == map[Alice := 3500, Bob := 4500]
    ensures PaymentsTotal(steps) == map[Alice := 6000, Bob := 2000]
    ensures Diff(ItemsTotal(steps), PaymentsTotal(steps)) == map[Alice := -2500, Bob := 2500]
  {
    TwoSteps(steps, restaurant, cinema);
    TwoStepsUnfold(steps);
    StepReconciles(steps, 0);
    StepReconciles(steps, 1);
    StepParts(steps[0], restaurant, cinema);
    StepParts(steps[1], restaurant, cinema);
    ExampleMerge(steps[0], steps[1], restaurant);
    ExampleBalances();
  }

  /** Items `{Alice: 3500, Bob: 4500}` less payments `{Alice: 6000, Bob: 2000}`. */
  lemma ExampleBalances()
    ensures Diff(map[Alice := 3500, Bob := 4500], map[Alice := 6000, Bob := 2000]) == map[Alice := -2500, Bob := 2500]
  {
    PairMap(Diff(map[Alice := 3500, Bob := 4500], map[Alice := 6000, Bob := 2000]), Alice, -2500, Bob, 2500);
  }

  /** A trace of two distinct transactions has one step for each. */
  lemma TwoSteps(steps: seq<Step>, r: Transaction, c: Transaction)
    requires IsTrace(steps) && Visited(steps) == {r, c} && r != c
    ensures |steps| == 2
  {
    VisitsOnce(steps);
    CardAdd({r}, c);
  }

  /** The visited transactions and the grand totals of a two-step trace, unfolded. */
  lemma TwoStepsUnfold(steps: seq<Step>)
    requires |steps| == 2
    ensures Visited(steps) == {steps[0].t, steps[1].t}
    ensures ItemsTotal(steps) == Merged(Merged(map[], steps[0].itemsPart), steps[1].itemsPart)
    ensures PaymentsTotal(steps) == Merged(Merged(map[], steps[0].paymentsPart), steps[1].paymentsPart)
  {
    var prefix := steps[..1];
    assert prefix[..0] == [] && prefix[0] == steps[0];
    assert steps[..|steps| - 1] == prefix;
    assert Visited(prefix) == {steps[0].t};
    assert ItemsTotal(prefix) == Merged(map[], steps[0].itemsPart);
    assert PaymentsTotal(prefix) == Merged(map[], steps[0].paymentsPart);
  }

  /** Each step of the example reconciles its outlay as computed above. */
  lemma StepParts(s: Step, restaurant: Transaction, cinema: Transaction)
    requires s.t == restaurant || s.t == cinema
    requires Reconciles(s.t.persons, s.t.items, s.t.payments, s.w, s.itemsPart, s.paymentsPart)
    requires restaurant.persons == {Alice, Bob} && restaurant.items == RestaurantItems && restaurant.payments == RestaurantPayments
    requires cinema.persons == {Alice, Bob} && cinema.items == CinemaItems && cinema.payments == CinemaPayments
    ensures s.t == restaurant ==> s.itemsPart == map[Alice := 2500, Bob := 3500] && s.paymentsPart == map[Alice := 6000, Bob := 0]
    ensures s.t == cinema ==> s.itemsPart == map[Alice := 1000, Bob := 1000] && s.paymentsPart == map[Alice := 0, Bob := 2000]
  {
    if s.t == restaurant {
      RestaurantParts(s.w, s.itemsPart, s.paymentsPart);
    } else {
      CinemaParts(s.w, s.itemsPart, s.paymentsPart);
    }
  }

  /** Merging the two outlays' parts gives the same grand totals in either order. */
  lemma ExampleMerge(s0: Step, s1: Step, restaurant: Transaction)
    requires (s0.t == restaurant) != (s1.t == restaurant)
    requires s0.t == restaurant ==> s0.itemsPart == map[Alice := 2500, Bob := 3500] && s0.paymentsPart == map[Alice := 6000, Bob := 0]
    requires s0.t != restaurant ==> s0.itemsPart == map[Alice := 1000, Bob := 1000] && s0.paymentsPart == map[Alice := 0, Bob := 2000]
    requires s1.t == restaurant ==> s1.itemsPart == map[Alice := 2500, Bob := 3500] && s1.paymentsPart == map[Alice := 6000, Bob := 0]
    requires s1.t != restaurant ==> s1.itemsPart == map[Alice := 1000, Bob := 1000] && s1.paymentsPart == map[Alice := 0, Bob := 2000]
    ensures Merged(Merged(map[], s0.itemsPart), s1.itemsPart) == map[Alice := 3500, Bob := 4500]
    ensures Merged(Merged(map[], s0.paymentsPart), s1.paymentsPart) == map[Alice := 6000, Bob := 2000]
  {
    PairMap(Merged(map[], s0.itemsPart), Alice, s0.itemsPart[Alice], Bob, s0.itemsPart[Bob]);
    PairMap(Merged(map[], s0.paymentsPart), Alice, s0.paymentsPart[Alice], Bob, s0.paymentsPart[Bob]);
    PairMap(Merged(s0.itemsPart, s1.itemsPart), Alice, 3500, Bob, 4500);
    PairMap(Merged(s0.paymentsPart, s1.paymentsPart), Alice, 6000, Bob, 2000);
  }

  /** The restaurant's items and Alice's payment, added to an empty outlay. */
  method FillRestaurant(t: Transaction)
    requires t.items == [] && t.payments == [] && t.persons == {} && t.Valid()
    modifies t
    ensures t.persons == {Alice, Bob} && t.items == RestaurantItems && t.payments == RestaurantPayments
    ensures t.Valid()
  {
    t.AddItem(Item({Alice}, "Starter", 500));
    t.AddItem(Item({Alice}, "Course", 2000));
    t.AddItem(Item({Bob}, "Course", 2500));
    t.AddItem(Item({Bob}, "Wine", 1000));
    t.AddPayment(Payment({Alice}, 6000));
  }

  /** The shared ticket and Bob's payment, added to an empty outlay. */
  method FillCinema(t: Transaction)
    requires t.items == [] && t.payments == [] && t.persons == {} && t.Valid()
    modifies t
    ensures t.persons == {Alice, Bob} && t.items == CinemaItems && t.payments == CinemaPayments
    ensures t.Valid()
  {
    t.AddItem(Item({Alice, Bob}, "ticket", 2000));
    t.AddPayment(Payment({Bob}, 2000));
  }

  /** Neither outlay of the example divides by zero. */
  lemma ExampleSucceeds(restaurant: Transaction, cinema: Transaction)
    requires restaurant.persons == {Alice, Bob} && restaurant.items == RestaurantItems && restaurant.payments == RestaurantPayments
    requires cinema.persons == {Alice, Bob} && cinema.items == CinemaItems && cinema.payments == CinemaPayments
    ensures !Fails(restaurant.persons, restaurant.items, restaurant.payments)
    ensures !Fails(cinema.persons, cinema.items, cinema.payments)
  {
  }

  /**
   * Alice and Bob go to a restaurant, which Alice pays, then to the cinema,
   * which Bob pays: Bob owes Alice 2500.
   */
  method SimpleExample() returns (r: Result<seq<Debt>>)
    ensures r == Ok([Debt(Bob, 2500, Alice)])
  {
    var mgr := new DebtManager("");
    var restaurant := new Transaction.Outlay(0, "Restaurant le Grizzli");
    var added := mgr.AddTransaction(restaurant);
    FillRestaurant(restaurant);
    var cinema := new Transaction.Outlay(1, "Cinema");
    added := mgr.AddTransaction(cinema);
    FillCinema(cinema);
    assert mgr.transactions == {restaurant, cinema} && mgr.Valid();
    ExampleSucceeds(restaurant, cinema);
    ghost var balances, steps;
    r, balances, steps := mgr.ComputeDebts();
    ExampleTotals(steps, restaurant, cinema);
    PairSettled(Alice, Bob, 2500, balances, r.value);
  }
}
