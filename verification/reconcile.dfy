/**
 * Reconciliation of one transaction: its item totals (what each person
 * consumed) and payment totals (what each person paid) get a zero for every
 * participant, and when the two sums differ the shortfall is spread over all
 * participants on the smaller side, by the same floor-plus-remainder rule
 * that divides a split.
 */
module Reconcile {
  import opened People
  import opened Results
  import opened Totals
  import opened Splits

  /** Which of the two dictionaries receives the shortfall (`elemToAdjust`). */
  datatype Side = ItemSide | PaymentSide

  /** `missingAmount`: how far the smaller of the two sums is below the larger. */
  ghost function Shortfall(items: Tally, payments: Tally): (r: int)
  {
    if Sum(items) > Sum(payments) then Sum(items) - Sum(payments) else Sum(payments) - Sum(items)
  }

  /** When the sums differ, `share` divides the shortfall among `persons`. */
  ghost predicate DividesShortfall(persons: set<Person>, items: Tally, payments: Tally, share: Tally)
  {
    Sum(items) != Sum(payments) ==> IsFairShare(share, persons, Shortfall(items, payments))
  }

  /**
   * The reconciled pair: both sides gain a zero for every participant they
   * lack, and when the sums differ the smaller side is raised by `share`,
   * the division of the shortfall.
   */
  ghost function Adjusted(persons: set<Person>, items: Tally, payments: Tally, share: Tally): (r: (Tally, Tally))
  {
    var itemsTotal := Sum(items);
    var paymentsTotal := Sum(payments);
    if itemsTotal > paymentsTotal then (Pad(items, persons), Merged(Pad(payments, persons), share))
    else if itemsTotal < paymentsTotal then (Merged(Pad(items, persons), share), Pad(payments, persons))
    else (Pad(items, persons), Pad(payments, persons))
  }

  /** `m` is `m0` with a zero for each person of `done` it lacked. */
  ghost predicate PaddedWith(m: Tally, m0: Tally, done: set<Person>)
  {
    && m.Keys == m0.Keys + done
    && forall p :: p in m ==> m[p] == Get(m0, p)
  }

  /**
   * `raised` is `elem` raised by `base` for each person of `based` and by one
   * unit for each person of `bonus`.
   */
  ghost predicate RaisedBy(raised: Tally, elem: Tally, based: set<Person>, base: int, bonus: set<Person>)
  {
    && raised.Keys == elem.Keys
    && forall p :: p in raised ==> raised[p] == elem[p] + (if p in based then base else 0) + (if p in bonus then 1 else 0)
  }

  /** Raising one more person by the floor share. */
  lemma RaiseBase(raised: Tally, elem: Tally, based: set<Person>, base: int, p: Person)
    requires p in elem && p !in based && RaisedBy(raised, elem, based, base, {})
    ensures RaisedBy(raised[p := raised[p] + base], elem, based + {p}, base, {})
  {
  }

  /** Handing one person the unit `bit` of the rounding pass. */
  lemma RaiseBonus(raised: Tally, elem: Tally, based: set<Person>, base: int, bonus: set<Person>,
                   p: Person, bit: int)
    requires p in elem && p !in bonus && RaisedBy(raised, elem, based, base, bonus)
    requires bit == 0 || bit == 1
    ensures RaisedBy(raised[p := raised[p] + bit], elem, based, base, if bit == 1 then bonus + {p} else bonus)
  {
  }

  /**
   * The rounding pass has handed one unit to each person of `bonus`, all of
   * them visited (in `done`) while `roundingError`, counting down from
   * `remainder`, was still positive.
   */
  ghost predicate Rounding(bonus: set<Person>, done: set<Person>, remainder: int, roundingError: int)
  {
    && bonus <= done
    && roundingError <= remainder
    && |bonus| == if roundingError >= 0 then remainder - roundingError else remainder
  }

  /** One visit of the rounding pass. */
  lemma RoundingStep(bonus: set<Person>, done: set<Person>, p: Person, remainder: int, roundingError: int)
    requires p !in done && Rounding(bonus, done, remainder, roundingError)
    ensures Rounding(if roundingError > 0 then bonus + {p} else bonus, done + {p}, remainder, roundingError - 1)
  {
  }

  /**
   * Between passes: a pass that has not started left everything to hand
   * out, and a finished one (over more persons than the remainder) gave out
   * `remainder` units.
   */
  ghost predicate BetweenPasses(bonus: set<Person>, done: set<Person>, persons: set<Person>, remainder: int, roundingError: int)
  {
    && 0 <= remainder < |persons|
    && Rounding(bonus, done, remainder, roundingError)
    && ((done == {} && roundingError == remainder) || (done == persons && roundingError == remainder - |persons|))
  }

  /** A pass that has not finished has not started; one that is over gave out `remainder` units. */
  lemma RoundingState(bonus: set<Person>, done: set<Person>, persons: set<Person>, remainder: int, roundingError: int)
    requires BetweenPasses(bonus, done, persons, remainder, roundingError)
    ensures roundingError > 0 ==> done == {} && bonus == {}
    ensures roundingError <= 0 ==> |bonus| == remainder
  {
  }

  /** The floor share plus the rounding units is a fair share, and raising by it merges it in. */
  lemma SpreadComplete(raised: Tally, elem: Tally, persons: set<Person>, amount: int, base: int,
                       bonus: set<Person>, share: Tally)
    requires |persons| > 0 && persons <= elem.Keys && bonus <= persons
    requires base == amount / |persons| && |bonus| == amount % |persons|
    requires share.Keys == persons && forall p :: p in share ==> share[p] == base + (if p in bonus then 1 else 0)
    requires RaisedBy(raised, elem, persons, base, bonus)
    ensures IsFairShare(share, persons, amount) && raised == Merged(elem, share)
  {
    assert Extras(share, base) == bonus;
    assert raised.Keys == Merged(elem, share).Keys;
    forall p | p in raised
      ensures raised[p] == Merged(elem, share)[p]
    {
    }
  }

  /**
   * The first loop of `checkAndAdjustTotals`: every participant gets a zero
   * default in both dictionaries.
   */
  method PadParticipants(persons: set<Person>, items: Tally, payments: Tally)
    returns (newItems: Tally, newPayments: Tally)
    ensures newItems == Pad(items, persons) && newPayments == Pad(payments, persons)
  {
    newItems, newPayments := items, payments;
    var rest := persons;
    while rest != {}
      invariant rest <= persons
      invariant PaddedWith(newItems, items, persons - rest)
      invariant PaddedWith(newPayments, payments, persons - rest)
      decreases rest
    {
      var p :| p in rest;
      if p !in newItems {
        newItems := newItems[p := 0];
      }
      if p !in newPayments {
        newPayments := newPayments[p := 0];
      }
      rest := rest - {p};
    }
  }

  /** Raising in two steps raises by both. */
  lemma RaisedTwice(raised: Tally, floor: Tally, elem: Tally, persons: set<Person>, base: int, bonus: set<Person>)
    requires RaisedBy(floor, elem, persons, base, {}) && RaisedBy(raised, floor, {}, 0, bonus)
    ensures RaisedBy(raised, elem, persons, base, bonus)
  {
  }

  /** The second loop of `checkAndAdjustTotals`: every participant is raised by `base`. */
  method RaiseAll(persons: set<Person>, elem: Tally, base: int) returns (raised: Tally)
    requires persons <= elem.Keys
    ensures RaisedBy(raised, elem, persons, base, {})
  {
    raised := elem;
    var rest := persons;
    while rest != {}
      invariant rest <= persons
      invariant RaisedBy(raised, elem, persons - rest, base, {})
      decreases rest
    {
      var p :| p in rest;
      RaiseBase(raised, elem, persons - rest, base, p);
      raised := raised[p := raised[p] + base];
      rest := rest - {p};
    }
  }

  /**
   * The rounding loops of `checkAndAdjustTotals`: while the rounding error
   * is positive, a pass over the participants gives one unit to each and
   * counts the error down, so the first `roundingError` participants get
   * one unit (the order is that of the set).
   */
  method HandOutRemainder(persons: set<Person>, elem: Tally, roundingError: int)
    returns (raised: Tally, ghost bonus: set<Person>)
    requires persons <= elem.Keys && 0 <= roundingError < |persons|
    ensures bonus <= persons && |bonus| == roundingError
    ensures RaisedBy(raised, elem, {}, 0, bonus)
    ensures raised.Keys == elem.Keys
    ensures forall p :: p in raised ==> raised[p] == elem[p] || (p in persons && raised[p] == elem[p] + 1)
    ensures |set p | p in persons && raised[p] == elem[p] + 1| == roundingError
  {
    var error := roundingError;
    raised := elem;
    bonus := {};
    ghost var done: set<Person> := {};
    while error > 0
      invariant BetweenPasses(bonus, done, persons, roundingError, error)
      invariant RaisedBy(raised, elem, {}, 0, bonus)
      decreases error
    {
      RoundingState(bonus, done, persons, roundingError, error);
      var rest := persons;
      while rest != {}
        invariant rest <= persons && done == persons - rest
        invariant roundingError - error + |rest| == |persons|
        invariant Rounding(bonus, done, roundingError, error)
        invariant RaisedBy(raised, elem, {}, 0, bonus)
        decreases rest
      {
        var p :| p in rest;
        var bit := if error > 0 then 1 else 0;
        RoundingStep(bonus, done, p, roundingError, error);
        RaiseBonus(raised, elem, {}, 0, bonus, p, bit);
        raised := raised[p := raised[p] + bit];
        if error > 0 {
          bonus := bonus + {p};
        }
        error := error - 1;
        done := done + {p};
        rest := rest - {p};
      }
    }
    RoundingState(bonus, done, persons, roundingError, error);
    assert (set p | p in persons && raised[p] == elem[p] + 1) == bonus;
  }

  /**
   * The adjusting part of `checkAndAdjustTotals`: every participant's entry
   * of `elem` is raised by `missingAmount // n`, then the rounding error
   * `missingAmount - missingAmount // n * n` is handed out unit by unit.
   * `share` is what each participant received.
   */
  method SpreadShortfall(persons: set<Person>, elem: Tally, missingAmount: int)
    returns (raised: Tally, ghost share: Tally)
    requires persons != {} && persons <= elem.Keys
    ensures IsFairShare(share, persons, missingAmount)
    ensures raised == Merged(elem, share)
    ensures raised.Keys == elem.Keys
    ensures forall p :: p in persons ==>
      raised[p] == elem[p] + missingAmount / |persons| || raised[p] == elem[p] + missingAmount / |persons| + 1
    ensures forall p :: p in elem && p !in persons ==> raised[p] == elem[p]
    ensures Sum(raised) == Sum(elem) + missingAmount
  {
    var divisor := |persons|;
    var missingPerPerson := missingAmount / divisor;
    var roundingError := missingAmount - missingAmount / divisor * divisor;
    DivMod(missingAmount, divisor);
    var floor := RaiseAll(persons, elem, missingPerPerson);
    ghost var bonus;
    raised, bonus := HandOutRemainder(persons, floor, roundingError);
    RaisedTwice(raised, floor, elem, persons, missingPerPerson, bonus);
    share := map p | p in persons :: missingPerPerson + (if p in bonus then 1 else 0);
    SpreadComplete(raised, elem, persons, missingAmount, missingPerPerson, bonus, share);
    FairShareSum(share, persons, missingAmount);
    SumMerged(elem, share);
  }

  lemma ShortfallOnItems(persons: set<Person>, items: Tally, payments: Tally, missing: int, share: Tally,
                         padded: Tally, items': Tally, payments': Tally)
    requires Sum(items) < Sum(payments) && missing == Shortfall(items, payments)
    requires IsFairShare(share, persons, missing)
    requires padded == Pad(items, persons) && items' == Merged(padded, share)
    requires payments' == Pad(payments, persons)
    ensures DividesShortfall(persons, items, payments, share)
    ensures (items', payments') == Adjusted(persons, items, payments, share)
  {
  }

  lemma ShortfallOnPayments(persons: set<Person>, items: Tally, payments: Tally, missing: int, share: Tally,
                            padded: Tally, items': Tally, payments': Tally)
    requires Sum(items) > Sum(payments) && missing == Shortfall(items, payments)
    requires IsFairShare(share, persons, missing)
    requires padded == Pad(payments, persons) && payments' == Merged(padded, share)
    requires items' == Pad(items, persons)
    ensures DividesShortfall(persons, items, payments, share)
    ensures (items', payments') == Adjusted(persons, items, payments, share)
  {
  }

  /**
   * `checkAndAdjustTotals(persons, items, payments)`. The Python version
   * updates the two dictionaries in place and returns them; here the new
   * dictionaries are returned. `share` is the division of the shortfall
   * that the rounding pass happened to produce (which participants get the
   * extra units depends on set order).
   */
  method CheckAndAdjustTotals(persons: set<Person>, items: Tally, payments: Tally)
    returns (r: Result<(Tally, Tally)>, ghost share: Tally)
    ensures r.Err? <==> Sum(items) != Sum(payments) && persons == {}
    ensures r.Err? ==> r.error == ZeroDivision
    ensures r.Ok? ==> DividesShortfall(persons, items, payments, share)
    ensures r.Ok? ==> r.value == Adjusted(persons, items, payments, share)
  {
    var itemsTotal := SumValues(items);
    var paymentsTotal := SumValues(payments);
    var missingAmount := 0;
    var toAdjust: Option<Side> := None;
    share := map[];

    if itemsTotal > paymentsTotal {
      missingAmount := itemsTotal - paymentsTotal;
      toAdjust := Some(PaymentSide);
    } else if itemsTotal < paymentsTotal {
      missingAmount := paymentsTotal - itemsTotal;
      toAdjust := Some(ItemSide);
    }
    assert toAdjust.Some? <==> itemsTotal != paymentsTotal;
    if toAdjust.Some? && persons == {} {
      return Err(ZeroDivision), share;
    }

    var newItems, newPayments := PadParticipants(persons, items, payments);
    if toAdjust.None? {
      return Ok((newItems, newPayments)), share;
    }
    assert missingAmount == Shortfall(items, payments);
    if toAdjust.value == ItemSide {
      var padded := newItems;
      newItems, share := SpreadShortfall(persons, padded, missingAmount);
      ShortfallOnItems(persons, items, payments, missingAmount, share, padded, newItems, newPayments);
    } else {
      var padded := newPayments;
      newPayments, share := SpreadShortfall(persons, padded, missingAmount);
      ShortfallOnPayments(persons, items, payments, missingAmount, share, padded, newItems, newPayments);
    }
    r := Ok((newItems, newPayments));
  }

  /**
   * A reconciled transaction is balanced: the item and payment sums agree,
   * and both sides hold every participant.
   */
  lemma ReconciliationBalanced(persons: set<Person>, items: Tally, payments: Tally, share: Tally,
                               items': Tally, payments': Tally)
    requires DividesShortfall(persons, items, payments, share)
    requires (items', payments') == Adjusted(persons, items, payments, share)
    ensures Sum(items') == Sum(payments')
    ensures items'.Keys == items.Keys + persons && payments'.Keys == payments.Keys + persons
  {
    SumPad(items, persons);
    SumPad(payments, persons);
    if Sum(items) > Sum(payments) {
      FairShareSum(share, persons, Shortfall(items, payments));
      SumMerged(Pad(payments, persons), share);
    } else if Sum(items) < Sum(payments) {
      FairShareSum(share, persons, Shortfall(items, payments));
      SumMerged(Pad(items, persons), share);
    }
  }

  /**
   * `smaller'` is `smaller` with every participant raised by `shortfall // n`
   * or one unit more (a missing participant counting as 0) and nobody else
   * changed.
   */
  ghost predicate RaisedFairly(smaller': Tally, smaller: Tally, persons: set<Person>, shortfall: int)
    requires persons != {}
  {
    && smaller'.Keys == smaller.Keys + persons
    && (forall p :: p in persons ==>
          smaller'[p] - Get(smaller, p) == shortfall / |persons| || smaller'[p] - Get(smaller, p) == shortfall / |persons| + 1)
    && (forall p :: p in smaller && p !in persons ==> smaller'[p] == smaller[p])
  }

  /** Merging a fair share into a padded tally raises it fairly. */
  lemma RaisedByShare(smaller: Tally, persons: set<Person>, share: Tally, shortfall: int)
    requires IsFairShare(share, persons, shortfall)
    ensures persons != {} && RaisedFairly(Merged(Pad(smaller, persons), share), smaller, persons, shortfall)
  {
  }

  /**
   * Only the side with the smaller sum is raised: the other side gains only
   * zero defaults, every participant on the smaller side is raised by
   * `shortfall // n` or one unit more, and nobody else changes.
   */
  lemma ReconciliationRaisesSmaller(persons: set<Person>, items: Tally, payments: Tally, share: Tally,
                                    items': Tally, payments': Tally)
    requires DividesShortfall(persons, items, payments, share)
    requires (items', payments') == Adjusted(persons, items, payments, share)
    ensures Sum(items) != Sum(payments) ==> persons != {}
    ensures Sum(items) > Sum(payments) ==>
      items' == Pad(items, persons) && RaisedFairly(payments', payments, persons, Shortfall(items, payments))
    ensures Sum(items) < Sum(payments) ==>
      payments' == Pad(payments, persons) && RaisedFairly(items', items, persons, Shortfall(items, payments))
  {
    if Sum(items) > Sum(payments) {
      RaisedByShare(payments, persons, share, Shortfall(items, payments));
    } else if Sum(items) < Sum(payments) {
      RaisedByShare(items, persons, share, Shortfall(items, payments));
    }
  }

  /** With equal sums, reconciling only pads, whatever division is offered. */
  lemma BalancedOnlyPads(persons: set<Person>, items: Tally, payments: Tally, share: Tally)
    requires Sum(items) == Sum(payments)
    ensures DividesShortfall(persons, items, payments, share)
    ensures Adjusted(persons, items, payments, share) == (Pad(items, persons), Pad(payments, persons))
  {
  }

  /**
   * Reconciling a reconciled pair again changes nothing: the sums already
   * agree and every participant is present, whatever division is offered.
   */
  lemma ReconciliationIdempotent(persons: set<Person>, items: Tally, payments: Tally, share: Tally,
                                 items': Tally, payments': Tally, share2: Tally)
    requires DividesShortfall(persons, items, payments, share)
    requires (items', payments') == Adjusted(persons, items, payments, share)
    ensures DividesShortfall(persons, items', payments', share2)
    ensures Adjusted(persons, items', payments', share2) == (items', payments')
  {
    ReconciliationBalanced(persons, items, payments, share, items', payments');
    BalancedOnlyPads(persons, items', payments', share2);
    PadCovered(items', persons);
    PadCovered(payments', persons);
  }
}
