/**
 * The debt manager: the participants and the transactions of a journey,
 * and the three stages of the debt computation over all transactions —
 * per-person totals (each transaction reconciled on its own, then merged),
 * balances (items minus payments) and the settling debts.
 */
module Manager {
  import opened People
  import opened Results
  import opened Totals
  import opened Splits
  import opened Reconcile
  import opened Settlement
  import opened Transactions

  /**
   * Reconciling a transaction divides by zero: one of its splits has no
   * persons, or its item and payment amounts differ and it has no
   * participant to spread the shortfall over.
   */
  ghost predicate Fails(persons: set<Person>, items: seq<Split>, payments: seq<Split>)
  {
    || (exists i :: 0 <= i < |items| && items[i].persons == {})
    || (exists i :: 0 <= i < |payments| && payments[i].persons == {})
    || (AmountOf(items) != AmountOf(payments) && persons == {})
  }

  /**
   * How one reconciliation divided the money: the fair shares of the items
   * and of the payments, and the division of the shortfall. Which persons
   * get the remainder units depends on set order, so the division is a
   * witness rather than a function of the transaction.
   */
  datatype Division = Division(itemShares: seq<Tally>, paymentShares: seq<Tally>, share: Tally)

  /**
   * `(itemsPart, paymentsPart)` is what reconciling a transaction gives with
   * the division `w`: the fair shares of its items and of its payments
   * folded into per-person totals, then adjusted by the shortfall's division.
   */
  ghost predicate Reconciles(persons: set<Person>, items: seq<Split>, payments: seq<Split>, w: Division,
                             itemsPart: Tally, paymentsPart: Tally)
  {
    && IsShareList(items, w.itemShares)
    && IsShareList(payments, w.paymentShares)
    && DividesShortfall(persons, MergeAll(w.itemShares), MergeAll(w.paymentShares), w.share)
    && (itemsPart, paymentsPart) == Adjusted(persons, MergeAll(w.itemShares), MergeAll(w.paymentShares), w.share)
  }

  /**
   * A reconciled transaction whose splits only name participants is
   * balanced, and both of its totals are keyed by exactly the participants.
   */
  lemma ReconciliationFacts(persons: set<Person>, items: seq<Split>, payments: seq<Split>, w: Division,
                            itemsPart: Tally, paymentsPart: Tally)
    requires Reconciles(persons, items, payments, w, itemsPart, paymentsPart)
    requires forall s :: s in items ==> s.persons <= persons
    requires forall s :: s in payments ==> s.persons <= persons
    ensures Sum(itemsPart) == Sum(paymentsPart)
    ensures itemsPart.Keys == persons && paymentsPart.Keys == persons
  {
    MergeAllShares(items, w.itemShares);
    MergeAllShares(payments, w.paymentShares);
    PersonsInBound(items, persons);
    PersonsInBound(payments, persons);
    ReconciliationBalanced(persons, MergeAll(w.itemShares), MergeAll(w.paymentShares), w.share, itemsPart, paymentsPart);
  }

  /**
   * A refund from `debit` to `credit` of `amount` moves exactly that amount
   * between the two: reconciled, `credit` consumed `amount` more than it
   * paid and `debit` paid `amount` more than it consumed, whatever division
   * is used. A refund to oneself changes no balance.
   */
  lemma {:induction false} RefundShifts(debit: Person, amount: int, credit: Person, title: string,
                                        w: Division, itemsPart: Tally, paymentsPart: Tally)
    requires Reconciles({credit, debit}, [Item({credit}, title, amount)], [Payment({debit}, amount)], w, itemsPart, paymentsPart)
    ensures itemsPart.Keys == {credit, debit} && paymentsPart.Keys == {credit, debit}
    ensures Diff(itemsPart, paymentsPart) == if credit == debit then map[credit := 0] else map[credit := amount, debit := -amount]
  {
    var persons := {credit, debit};
    SoleShare(Item({credit}, title, amount), w.itemShares, credit);
    SoleShare(Payment({debit}, amount), w.paymentShares, debit);
    SumSingle(credit, amount);
    SumSingle(debit, amount);
    BalancedOnlyPads(persons, map[credit := amount], map[debit := amount], w.share);
    PadsShift(debit, amount, credit, itemsPart, paymentsPart);
  }

  /** A lone split for a single person puts its whole amount on that person. */
  lemma SoleShare(s: Split, shares: seq<Tally>, p: Person)
    requires s.persons == {p} && IsShareList([s], shares)
    ensures MergeAll(shares) == map[p := s.amount]
  {
    FairShareEven(shares[0], {p}, s.amount);
    assert shares[..0] == [];
  }

  /** The padded single-person totals of a refund, and their difference. */
  lemma PadsShift(debit: Person, amount: int, credit: Person, itemsPart: Tally, paymentsPart: Tally)
    requires itemsPart == Pad(map[credit := amount], {credit, debit})
    requires paymentsPart == Pad(map[debit := amount], {credit, debit})
    ensures itemsPart.Keys == {credit, debit} && paymentsPart.Keys == {credit, debit}
    ensures Diff(itemsPart, paymentsPart) == if credit == debit then map[credit := 0] else map[credit := amount, debit := -amount]
  {
    if credit == debit {
      assert Diff(itemsPart, paymentsPart) == map[credit := 0];
    } else {
      assert itemsPart[credit] == amount && itemsPart[debit] == 0;
      assert paymentsPart[credit] == 0 && paymentsPart[debit] == amount;
      assert Diff(itemsPart, paymentsPart) == map[credit := amount, debit := -amount];
    }
  }

  /**
   * The body of the `computeTotals` loop for one transaction: the static
   * `computeTotals` of its items and of its payments, then
   * `checkAndAdjustTotals` with its participants.
   */
  method ReconcileOne(t: Transaction) returns (r: Result<(Tally, Tally)>, ghost w: Division)
    ensures r.Err? <==> Fails(t.persons, t.items, t.payments)
    ensures r.Err? ==> r.error == ZeroDivision
    ensures r.Ok? ==> Reconciles(t.persons, t.items, t.payments, w, r.value.0, r.value.1)
  {
    var itemsTotals, itemShares := ComputeTotals(t.items);
    w := Division(itemShares, [], map[]);
    if itemsTotals.Err? {
      return Err(itemsTotals.error), w;
    }
    var paymentsTotals, paymentShares := ComputeTotals(t.payments);
    w := Division(itemShares, paymentShares, map[]);
    if paymentsTotals.Err? {
      return Err(paymentsTotals.error), w;
    }
    var adjusted, share := CheckAndAdjustTotals(t.persons, itemsTotals.value, paymentsTotals.value);
    w := Division(itemShares, paymentShares, share);
    if adjusted.Err? {
      return Err(adjusted.error), w;
    }
    r := adjusted;
  }

  /** One visit of the `computeTotals` loop: the transaction, how it was divided, and its two totals. */
  datatype Step = Step(t: Transaction, w: Division, itemsPart: Tally, paymentsPart: Tally)

  /** The transactions visited by `steps`. */
  ghost function Visited(steps: seq<Step>): (r: set<Transaction>)
  {
    if steps == [] then {} else Visited(steps[..|steps| - 1]) + {steps[|steps| - 1].t}
  }

  /**
   * `steps` visits each of its transactions once, and each step holds what
   * reconciling its transaction gave with its division.
   */
  ghost predicate IsTrace(steps: seq<Step>)
    reads Visited(steps)
  {
    steps == [] ||
    var n := |steps| - 1;
    && IsTrace(steps[..n])
    && steps[n].t !in Visited(steps[..n])
    && Reconciles(steps[n].t.persons, steps[n].t.items, steps[n].t.payments, steps[n].w,
                  steps[n].itemsPart, steps[n].paymentsPart)
  }

  lemma CardAdd(ts: set<Transaction>, t: Transaction)
    requires t !in ts
    ensures |ts + {t}| == |ts| + 1
  {
  }

  /** A trace visits each of its transactions once: there are as many steps as transactions. */
  lemma {:induction false} VisitsOnce(steps: seq<Step>)
    requires IsTrace(steps)
    ensures |Visited(steps)| == |steps|
  {
    if steps != [] {
      var n := |steps| - 1;
      var prefix := steps[..n];
      assert Visited(steps) == Visited(prefix) + {steps[n].t};
      VisitsOnce(prefix);
      CardAdd(Visited(prefix), steps[n].t);
    }
  }

  /** Every step of a trace holds a reconciliation of its transaction. */
  lemma {:induction false} StepReconciles(steps: seq<Step>, i: nat)
    requires IsTrace(steps) && i < |steps|
    ensures Reconciles(steps[i].t.persons, steps[i].t.items, steps[i].t.payments,
                       steps[i].w, steps[i].itemsPart, steps[i].paymentsPart)
    decreases |steps|
  {
    var n := |steps| - 1;
    if i < n {
      StepReconciles(steps[..n], i);
      assert steps[..n][i] == steps[i];
    }
  }

  /** The grand item totals: the item totals of every step, merged in order. */
  ghost function ItemsTotal(steps: seq<Step>): (r: Tally)
  {
    if steps == [] then map[] else Merged(ItemsTotal(steps[..|steps| - 1]), steps[|steps| - 1].itemsPart)
  }

  /** The grand payment totals: the payment totals of every step, merged in order. */
  ghost function PaymentsTotal(steps: seq<Step>): (r: Tally)
  {
    if steps == [] then map[] else Merged(PaymentsTotal(steps[..|steps| - 1]), steps[|steps| - 1].paymentsPart)
  }

  /** The union of the participants of `ts`. */
  ghost function PersonsOf(ts: set<Transaction>): (r: set<Person>)
    reads ts
  {
    set t, p | t in ts && p in t.persons :: p
  }

  /** Adding a transaction adds its participants. */
  lemma PersonsOfAdd(ts: set<Transaction>, t: Transaction)
    ensures PersonsOf(ts + {t}) == PersonsOf(ts) + t.persons
  {
  }

  /**
   * Grand totals of valid transactions: item and payment totals are keyed
   * by every participant of some transaction, and their sums agree.
   */
  lemma {:induction false} GrandTotalsBalanced(steps: seq<Step>)
    requires IsTrace(steps)
    requires forall t :: t in Visited(steps) ==> t.Valid()
    ensures ItemsTotal(steps).Keys == PersonsOf(Visited(steps))
    ensures PaymentsTotal(steps).Keys == PersonsOf(Visited(steps))
    ensures Sum(ItemsTotal(steps)) == Sum(PaymentsTotal(steps))
    decreases |steps|
  {
    if steps != [] {
      var n := |steps| - 1;
      var prefix, s := steps[..n], steps[n];
      assert Visited(steps) == Visited(prefix) + {s.t};
      GrandTotalsBalanced(prefix);
      ReconciliationFacts(s.t.persons, s.t.items, s.t.payments, s.w, s.itemsPart, s.paymentsPart);
      SumMerged(ItemsTotal(prefix), s.itemsPart);
      SumMerged(PaymentsTotal(prefix), s.paymentsPart);
      PersonsOfAdd(Visited(prefix), s.t);
    }
  }

  /**
   * The balances of valid transactions: one per participant, adding up to
   * zero, and no name of the item totals missing from the payment totals.
   */
  lemma GrandBalances(steps: seq<Step>)
    requires IsTrace(steps)
    requires forall t :: t in Visited(steps) ==> t.Valid()
    ensures ItemsTotal(steps).Keys == PaymentsTotal(steps).Keys
    ensures Diff(ItemsTotal(steps), PaymentsTotal(steps)).Keys == PersonsOf(Visited(steps))
    ensures Sum(Diff(ItemsTotal(steps), PaymentsTotal(steps))) == 0
  {
    GrandTotalsBalanced(steps);
    SumDiff(ItemsTotal(steps), PaymentsTotal(steps));
  }

  /**
   * The loop of `computeBalances`: for every name of the item totals, its
   * item total minus its payment total; a name missing from the payment
   * totals raises KeyError.
   */
  method BalancesOf(itemsTotals: Tally, paymentTotals: Tally) returns (r: Result<Tally>)
    ensures r.Err? <==> !(itemsTotals.Keys <= paymentTotals.Keys)
    ensures r.Err? ==> r.error == KeyError
    ensures r.Ok? ==> r.value == Diff(itemsTotals, paymentTotals)
  {
    var result: Tally := map[];
    var rest := itemsTotals.Keys;
    while rest != {}
      invariant rest <= itemsTotals.Keys
      invariant result.Keys == itemsTotals.Keys - rest
      invariant forall p :: p in result ==> p in paymentTotals && result[p] == itemsTotals[p] - paymentTotals[p]
      decreases rest
    {
      var name :| name in rest;
      if name !in paymentTotals {
        return Err(KeyError);
      }
      result := result[name := itemsTotals[name] - paymentTotals[name]];
      rest := rest - {name};
    }
    r := Ok(result);
  }

  /** `DebtManager(name)`: the participants and transactions of one journey. */
  class DebtManager {
    var name: string
    var persons: set<Person>
    var transactions: set<Transaction>

    constructor (name: string)
      ensures this.name == name && persons == {} && transactions == {}
    {
      this.name := name;
      persons := {};
      transactions := {};
    }

    /** Every transaction keeps its splits within its participants. */
    ghost predicate Valid()
      reads this, transactions
    {
      forall t :: t in transactions ==> t.Valid()
    }

    /** `addPersons`: a bare string raises ValueError; any other collection joins the persons. */
    method AddPersons(arg: PersonsArg) returns (r: Outcome)
      modifies this
      ensures arg.Bare? ==> r == Fail(ValueError) && persons == old(persons)
      ensures arg.Members? ==> r == Pass && persons == old(persons) + MembersOf(arg.ps)
      ensures name == old(name) && transactions == old(transactions)
    {
      if arg.Bare? {
        return Fail(ValueError);
      }
      persons := persons + MembersOf(arg.ps);
      r := Pass;
    }

    /** `getPerson`: the person of that name, if any (None when nobody has it). */
    method GetPerson(name: string) returns (r: Option<Person>)
      ensures r.Some? <==> Person(name) in persons
      ensures r.Some? ==> r.value == Person(name)
    {
      var rest := persons;
      while rest != {}
        invariant rest <= persons
        invariant Person(name) !in persons - rest
        decreases rest
      {
        var person :| person in rest;
        if name == person.name {
          return Some(person);
        }
        rest := rest - {person};
      }
      r := None;
    }

    /** `addTransaction`: records the transaction and its current participants, and returns it. */
    method AddTransaction(t: Transaction) returns (r: Transaction)
      modifies this
      ensures r == t && transactions == old(transactions) + {t}
      ensures persons == old(persons) + t.persons && name == old(name)
      ensures old(Valid()) && t.Valid() ==> Valid()
    {
      transactions := transactions + {t};
      persons := persons + t.persons;
      r := t;
    }

    /** `addRefund`: records the refund, without adding its persons to the manager's. */
    method AddRefund(t: Transaction) returns (r: Transaction)
      modifies this
      ensures r == t && transactions == old(transactions) + {t}
      ensures persons == old(persons) && name == old(name)
      ensures old(Valid()) && t.Valid() ==> Valid()
    {
      transactions := transactions + {t};
      r := t;
    }

    /**
     * `computeTotals`: every transaction reconciled on its own, then its
     * item and payment totals merged into the grand totals. The first
     * transaction (in set order) that divides by zero aborts the loop.
     */
    method ComputeTotals() returns (r: Result<(Tally, Tally)>, ghost steps: seq<Step>)
      ensures r.Err? <==> exists t :: t in transactions && Fails(t.persons, t.items, t.payments)
      ensures r.Err? ==> r.error == ZeroDivision
      ensures r.Ok? ==> Visited(steps) == transactions && IsTrace(steps)
      ensures r.Ok? ==> r.value == (ItemsTotal(steps), PaymentsTotal(steps))
    {
      var itemsTotals: Tally := map[];
      var paymentTotals: Tally := map[];
      steps := [];
      var rest := transactions;
      while rest != {}
        invariant Visited(steps) + rest == transactions && Visited(steps) !! rest
        invariant Totalling(steps, itemsTotals, paymentTotals)
        decreases rest
      {
        var t :| t in rest;
        var totals, step := Visit(steps, itemsTotals, paymentTotals, t);
        if totals.Err? {
          return Err(totals.error), steps;
        }
        itemsTotals, paymentTotals := totals.value.0, totals.value.1;
        steps := steps + [step];
        rest := rest - {t};
      }
      r := Ok((itemsTotals, paymentTotals));
    }

    /**
     * `computeBalances`: for every name of the grand item totals, what it
     * consumed minus what it paid. A transaction dividing by zero raises
     * ZeroDivision; a name with items but no payment entry raises KeyError,
     * which the transactions' validity rules out. Balances of valid
     * transactions cover every participant and add up to zero.
     */
    method ComputeBalances() returns (r: Result<Tally>, ghost steps: seq<Step>)
      ensures r.Err? ==> r.error == ZeroDivision || r.error == KeyError
      ensures (r.Err? && r.error == ZeroDivision) <==> exists t :: t in transactions && Fails(t.persons, t.items, t.payments)
      ensures r.Ok? ==> Visited(steps) == transactions && IsTrace(steps)
      ensures r.Ok? ==> ItemsTotal(steps).Keys <= PaymentsTotal(steps).Keys
      ensures r.Ok? ==> r.value == Diff(ItemsTotal(steps), PaymentsTotal(steps))
      ensures (r.Err? && r.error == KeyError) ==>
        Visited(steps) == transactions && IsTrace(steps) && !(ItemsTotal(steps).Keys <= PaymentsTotal(steps).Keys)
      ensures Valid() && r.Err? ==> r.error == ZeroDivision
      ensures Valid() && r.Ok? ==> r.value.Keys == PersonsOf(transactions) && Sum(r.value) == 0
    {
      var totals;
      totals, steps := ComputeTotals();
      if totals.Err? {
        return Err(totals.error), steps;
      }
      r := BalancesOf(totals.value.0, totals.value.1);
      if Valid() {
        GrandBalances(steps);
      }
    }

    /**
     * `computeDebts`: the balances settled by repeatedly paying the largest
     * creditor from the largest debtor. On valid transactions the only
     * error is ZeroDivision, exactly when some transaction divides by zero.
     * KeyError comes only from a name without payment totals, and
     * WrongBalances only from balances that do not sum to zero. Otherwise the
     * debts zero every balance, number at most one fewer than the non-zero
     * balances (none when all are zero), and each one runs between two
     * distinct persons of the balances for a positive amount.
     */
    method ComputeDebts() returns (r: Result<seq<Debt>>, ghost balances: Tally, ghost steps: seq<Step>)
      ensures (r.Err? && r.error == ZeroDivision) <==> exists t :: t in transactions && Fails(t.persons, t.items, t.payments)
      ensures Valid() && r.Err? ==> r.error == ZeroDivision
      ensures (r.Err? && r.error == KeyError) ==>
        Visited(steps) == transactions && IsTrace(steps) && !(ItemsTotal(steps).Keys <= PaymentsTotal(steps).Keys)
      ensures (r.Ok? || r.error == WrongBalances) ==> Visited(steps) == transactions && IsTrace(steps)
      ensures (r.Ok? || r.error == WrongBalances) ==> ItemsTotal(steps).Keys <= PaymentsTotal(steps).Keys
      ensures (r.Ok? || r.error == WrongBalances) ==> balances == Diff(ItemsTotal(steps), PaymentsTotal(steps))
      ensures (r.Err? && r.error == WrongBalances) ==> Sum(balances) != 0
      ensures r.Ok? ==> forall p :: p in balances ==> Get(Apply(balances, r.value), p) == 0
      ensures r.Ok? ==> |r.value| <= Max0(|NonZero(balances)| - 1)
      ensures r.Ok? ==> forall i :: 0 <= i < |r.value| ==> Sound(balances, r.value[i])
    {
      var computed;
      computed, steps := ComputeBalances();
      balances := map[];
      if computed.Err? {
        return Err(computed.error), balances, steps;
      }
      var owed := computed.value;
      balances := owed;
      r := Settle(owed);
    }
  }

  /** The transactions a trace visits already exist, so a call leaves them as they were. */
  lemma {:induction false} VisitedAllocated(steps: seq<Step>)
    ensures forall u :: u in Visited(steps) ==> allocated(u)
  {
    if steps != [] {
      VisitedAllocated(steps[..|steps| - 1]);
    }
  }

  /**
   * One pass of the `computeTotals` loop: reconcile `t`, then merge its
   * item and payment totals into the running ones.
   */
  method Visit(ghost steps: seq<Step>, itemsTotals: Tally, paymentTotals: Tally, t: Transaction)
    returns (r: Result<(Tally, Tally)>, ghost step: Step)
    requires Totalling(steps, itemsTotals, paymentTotals) && t !in Visited(steps)
    ensures r.Err? <==> Fails(t.persons, t.items, t.payments)
    ensures r.Err? ==> r.error == ZeroDivision
    ensures r.Ok? ==> step.t == t && Visited(steps + [step]) == Visited(steps) + {t}
    ensures r.Ok? ==> Totalling(steps + [step], r.value.0, r.value.1)
  {
    VisitedAllocated(steps);
    var part, w := ReconcileOne(t);
    step := Step(t, w, map[], map[]);
    if part.Err? {
      return Err(part.error), step;
    }
    step := Step(t, w, part.value.0, part.value.1);
    var newItems := MergeTotals(itemsTotals, part.value.0);
    var newPayments := MergeTotals(paymentTotals, part.value.1);
    TotallingStep(steps, step);
    r := Ok((newItems, newPayments));
  }

  /**
   * The state of the `computeTotals` loop: the visited transactions were
   * reconciled without dividing by zero, and the running totals fold what
   * reconciling each of them gave.
   */
  ghost predicate Totalling(steps: seq<Step>, itemsTotals: Tally, paymentTotals: Tally)
    reads Visited(steps)
  {
    && IsTrace(steps)
    && (forall t :: t in Visited(steps) ==> !Fails(t.persons, t.items, t.payments))
    && itemsTotals == ItemsTotal(steps) && paymentTotals == PaymentsTotal(steps)
  }

  /** Visiting one more transaction that reconciles keeps the loop state. */
  lemma TotallingStep(steps: seq<Step>, s: Step)
    requires Totalling(steps, ItemsTotal(steps), PaymentsTotal(steps)) && s.t !in Visited(steps)
    requires !Fails(s.t.persons, s.t.items, s.t.payments)
    requires Reconciles(s.t.persons, s.t.items, s.t.payments, s.w, s.itemsPart, s.paymentsPart)
    ensures Visited(steps + [s]) == Visited(steps) + {s.t}
    ensures Totalling(steps + [s], Merged(ItemsTotal(steps), s.itemsPart), Merged(PaymentsTotal(steps), s.paymentsPart))
  {
    assert (steps + [s])[..|steps|] == steps;
  }
}
