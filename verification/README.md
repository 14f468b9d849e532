# Pot-commun debt engine, modelled in Dafny

Pot-commun keeps the shared expenses of a group trip and says who owes whom
how much. This project models the engine of `potcommun.py`: the debt
manager, its transactions and their money splits. Its contracts prove how
the debts are computed.

- **Persons** are compared by name. The `Person` datatype gets exactly
  that equality for free.
- **Splits.** An *item* is something consumed by some persons. A *payment*
  is money paid by some persons. Both are *splits*: an amount in cents and
  a set of persons. A split is divided by the floor-plus-remainder rule.
  Everyone gets `amount // n`, and `amount % n` of them get one cent more
  (`IsFairShare`). Which persons get the extra cent depends on set
  iteration order, so the model leaves it open. It proves that no cent is
  created or lost.
- **Transactions.** An *outlay* is a receipt. A *refund* is a direct
  repayment between two persons. A transaction collects items, payments and
  participants. Adding a split adds its persons to the participants.
- **Reconciliation.** Each transaction is reconciled on its own
  (`checkAndAdjustTotals`). Every participant gets a zero entry on both
  sides. When the item total and the payment total differ, the shortfall is
  spread over all participants on the smaller side, by the same rule. The
  result is balanced, and reconciling again changes nothing.
- **Totals and balances.** The manager merges the reconciled totals of all
  transactions into grand totals. Balances are items minus payments. For
  valid transactions the balances cover every participant and add up to
  zero.
- **Settlement.** Zero balances are dropped. Then, repeatedly, the person
  with the largest balance pays the person with the smallest one as much as
  closes one of the two. The proved result:
  - every balance ends at zero;
  - there is at most one debt fewer than there are non-zero balances, and
    none when every balance is zero;
  - every debt is between two distinct persons, for a positive amount;
  - the `Wrong balances!` error happens exactly when the balances do not
    sum to zero.

Exceptions become values of `Results.Result`: ZeroDivision, ValueError,
KeyError and WrongBalances. Python integers are unbounded, and so are
Dafny's. Dafny's `/` equals Python's `//` for the positive divisors the
engine uses. Dictionaries are `map<Person, int>` (`Totals.Tally`). Sets
iterated in arbitrary order are visited with a non-deterministic choice, and
only properties that hold for every order are stated.

Where a test and the code disagree, the model follows the code:

- `potcommuntests.py` calls an older API: string persons, `addPerson`,
  `addOutlay` and a two-argument `checkAndAdjustTotals`.
- The model uses the current API with the same amounts.
- The test at `potcommuntests.py:95-97` expects payments `{A: 11}`. With
  the participants passed explicitly, the code pads B to 0:
  `{A: 11, B: 0}`.

Files:

- `results.dfy`, `people.dfy`: shared datatypes.
- `totals.dfy`: per-person tallies and their sums.
- `splits.dfy`: splits, fair division, `computeTotals`, `mergeTotals`.
- `reconcile.dfy`: `checkAndAdjustTotals`.
- `settlement.dfy`: `filterNull` and the settlement loop.
- `transactions.dfy`: the `Transaction` class.
- `manager.dfy`: the `DebtManager` class and the whole-journey computations.
- `scenarios.dfy`: the test suite's expected values.

## Model

| member | source | states |
|---|---|---|
| People.Str | potcommun.py:449-450 | `Person.__str__` returns the name followed by exactly two spaces |
| Totals.SumValues | potcommun.py:103-104 | the loop returns `sum(m.values())`, whatever order the keys are visited in |
| Totals.SumMerged | potcommun.py:388-395 | merging two totals key by key adds their sums |
| Totals.SumDiff | potcommun.py:152-158 | the key-wise difference of totals over the same persons sums to the difference of the sums |
| Splits.Equal | potcommun.py:408-427 | two splits are equal iff same kind, same amount, same persons and, for items, same label |
| Splits.Participants | potcommun.py:369-375 | a bare string among the persons raises ValueError iff present; otherwise the persons form a set holding exactly the given persons |
| Splits.NewItem | potcommun.py:418-421 | `Item(persons, label, amount)`: ValueError iff a person is a bare string; otherwise an item with that label, amount and person set |
| Splits.NewPayment | potcommun.py:368-375 | `Payment(persons, amount)`: ValueError iff a person is a bare string; otherwise a payment with that amount and person set |
| Splits.Distribute | potcommun.py:400-404 | the loop gives every person the given base amount (`AmountPerPerson` passes the floor share), and one more cent to exactly as many persons as the rounding error allowed |
| Splits.AmountPerPerson | potcommun.py:397-405 | ZeroDivision iff the split has no person; otherwise a fair share (floor, plus one cent for exactly `amount % n` persons) keyed by the split's persons, summing to the amount |
| Splits.FairShareSum | potcommun.py:397-405 | a fair share sums to the split amount: no cent is created or lost |
| Splits.FairShareEven | potcommun.py:397-405 | when the persons divide the amount evenly, the share is unique: everyone gets the quotient |
| Splits.MergeTotals | potcommun.py:388-395 | `mergeTotals` adds the second totals into the first key by key: keys are the union, a missing key counts as 0, and the sums add |
| Splits.MergeAllShares | potcommun.py:377-386 | folding fair shares gives totals keyed by the persons of all splits, summing to the total amount |
| Splits.ComputeTotals | potcommun.py:377-386 | static `computeTotals`: ZeroDivision iff some split has no person; otherwise the merge of fair shares of every split, keyed by their persons and summing to their amounts |
| Reconcile.PadParticipants | potcommun.py:121-124 | both dictionaries gain a 0 for each participant they lack, and nothing else changes |
| Reconcile.RaiseAll | potcommun.py:129-130 | every participant's entry is raised by `missingAmount // n`, the others unchanged |
| Reconcile.HandOutRemainder | potcommun.py:132-135 | the rounding loop raises exactly `roundingError` participants by one cent each, all other entries unchanged and no key added |
| Reconcile.SpreadShortfall | potcommun.py:116-135 | the side to adjust is raised by a fair share of the missing amount: each participant by `missingAmount // n` or one cent more, nobody else, and its sum grows by exactly the missing amount |
| Reconcile.CheckAndAdjustTotals | potcommun.py:98-137 | ZeroDivision iff the sums differ and there is no participant; otherwise both sides are padded with the participants and, when the sums differ, the smaller side is raised by a fair share of the shortfall |
| Reconcile.ReconciliationBalanced | potcommun.py:98-137 | after reconciliation the item and payment sums agree, and both sides hold every participant |
| Reconcile.ReconciliationRaisesSmaller | potcommun.py:107-135 | only the smaller side is raised: each participant there by `shortfall // n` or one cent more, nobody else changes, and the larger side is only padded |
| Reconcile.BalancedOnlyPads | potcommun.py:113-127 | with equal sums, reconciliation only adds zero defaults |
| Reconcile.ReconciliationIdempotent | potcommun.py:98-137 | reconciling an already reconciled pair changes nothing |
| Settlement.Pay | potcommun.py:180-189 | settling one debt lowers the debtor's balance by the amount and raises the creditor's by it, nobody else changing |
| Settlement.PayConserves | potcommun.py:180-189 | settling a debt keeps the sum of the balances |
| Settlement.ApplyConserves | potcommun.py:169-192 | settling any list of debts keeps the sum of the balances |
| Settlement.FilterNull | potcommun.py:160-167 | `filterNull` keeps exactly the non-zero balances, unchanged, and keeps the sum |
| Settlement.Extremes | potcommun.py:174-177 | the two ends of the names sorted by balance: two distinct persons holding the smallest and the largest balance |
| Settlement.SettleOnce | potcommun.py:174-191 | one greedy step: the largest balance pays the smallest the amount that closes one of the two, zero balances are dropped, one fewer balance is open, and the loop state is kept |
| Settlement.SettleStep | potcommun.py:180-191 | one more debt that closes a balance keeps the loop state: open balances track the debts, keep their sum and stay within the bound on the number of debts |
| Settlement.SettledIff | potcommun.py:176-191 | when at most one balance is left open, none is left iff the balances summed to zero |
| Settlement.Settle | potcommun.py:169-192 | WrongBalances iff the balances do not sum to zero; otherwise the debts zero every balance, number at most one fewer than the non-zero balances (none when all are zero), and each is between two distinct persons for a positive amount |
| Transactions.Transaction.Outlay | potcommun.py:311-342 | a new outlay has its date and label, no item, no payment and no participant |
| Transactions.Transaction.Refund | potcommun.py:345-361 | a refund holds one item of the amount for the credited person, labelled with the debited person's name, one payment of the amount by the debited person, and both as participants |
| Transactions.Transaction.Label | potcommun.py:363-366 | an outlay's label is its own title; a refund's label is "Refund to " followed by `str` of the credited person |
| Transactions.Transaction.AddItem | potcommun.py:317-319 | the item is appended and its persons join the participants; the payments are unchanged and validity is kept |
| Transactions.Transaction.AddPayment | potcommun.py:321-323 | the payment is appended and its persons join the participants; the items are unchanged and validity is kept |
| Transactions.Transaction.AddPersons | potcommun.py:325-328 | a bare string raises ValueError and changes nothing; otherwise the given persons join the participants |
| Manager.ReconcileOne | potcommun.py:143-145 | ZeroDivision iff an item or payment has no person, or the sums differ with no participant; otherwise the reconciliation of the transaction's item and payment totals |
| Manager.ReconciliationFacts | potcommun.py:143-145 | a reconciled valid transaction is balanced, and both totals are keyed by exactly its participants |
| Manager.RefundShifts | potcommun.py:345-361 | a reconciled refund moves exactly its amount: the credited person's balance rises by it and the debited one's falls by it (nothing for a refund to oneself) |
| Manager.VisitsOnce | potcommun.py:139-150 | the trace of the totals loop has one step per transaction |
| Manager.GrandTotalsBalanced | potcommun.py:139-150 | grand totals of valid transactions are keyed by every participant, and the item and payment sums agree |
| Manager.GrandBalances | potcommun.py:152-158 | balances of valid transactions have one entry per participant and add up to zero |
| Manager.BalancesOf | potcommun.py:152-158 | KeyError iff a name of the item totals is missing from the payment totals; otherwise item total minus payment total for every name |
| Manager.Visit | potcommun.py:142-147 | one pass of the totals loop: ZeroDivision iff the transaction fails to reconcile; otherwise its reconciled totals are merged into the running ones |
| Manager.DebtManager.constructor | potcommun.py:70-73 | a new manager has the given name, no person and no transaction |
| Manager.DebtManager.AddPersons | potcommun.py:75-78 | a bare string raises ValueError and changes nothing; otherwise the given persons join the manager's |
| Manager.DebtManager.GetPerson | potcommun.py:80-83 | returns the person of that name iff the manager has one, otherwise None |
| Manager.DebtManager.AddTransaction | potcommun.py:85-92 | records the transaction and its current participants and returns it |
| Manager.DebtManager.AddRefund | potcommun.py:94-96 | records the refund without adding its persons to the manager's, and returns it |
| Manager.DebtManager.ComputeTotals | potcommun.py:139-150 | ZeroDivision iff some transaction fails to reconcile; otherwise the merge of every transaction's reconciled totals, each transaction visited once |
| Manager.DebtManager.ComputeBalances | potcommun.py:152-158 | ZeroDivision exactly as for the totals; KeyError only when a name of the item totals has no payment total; otherwise consumed minus paid per person; with valid transactions no KeyError, one balance per participant, summing to zero |
| Manager.DebtManager.ComputeDebts | potcommun.py:169-192 | ZeroDivision iff some transaction fails to reconcile; KeyError only when a name of the item totals has no payment total; WrongBalances only when the balances do not sum to zero; valid transactions raise nothing but ZeroDivision; otherwise the debts zero every balance, number at most one fewer than the non-zero balances (none when all are zero), and each is between two distinct persons for a positive amount |
| Scenarios.TotalsExample | potcommuntests.py:76-79 | payments `(A, B): 4`, `(A): 3`, `(B): 5` total `{A: 5, B: 7}` |
| Scenarios.MergeExample | potcommuntests.py:81-83 | merging `{A: 5, B: 7}` with `{A: 5, C: 3}` gives `{A: 10, B: 7, C: 3}` |
| Scenarios.AdjustItemsExample | potcommuntests.py:95-97 | items `{A: 4, B: 3}` against payments `{A: 11}` reconcile to `{A: 6, B: 5}` and `{A: 11, B: 0}` |
| Scenarios.AdjustPaymentsExample | potcommuntests.py:99-100 | items `{A: 3}` against payments `{A: 4, B: 3}` reconcile to `{A: 5, B: 2}` and `{A: 4, B: 3}` |
| Scenarios.RestaurantParts | potcommuntests.py:43-50 | the restaurant reconciles to items `{Alice: 2500, Bob: 3500}` and payments `{Alice: 6000, Bob: 0}` |
| Scenarios.CinemaParts | potcommuntests.py:52-56 | the cinema reconciles to items `{Alice: 1000, Bob: 1000}` and payments `{Alice: 0, Bob: 2000}` |
| Scenarios.PaymentOnlyParts | potcommuntests.py:113-114 | an outlay with only Bob's payment of 2000 puts the missing items on Bob alone, so it nets to zero |
| Scenarios.ExampleTotals | potcommuntests.py:87-93 | both outlays, in either order, give totals `{Alice: 3500, Bob: 4500}`, `{Alice: 6000, Bob: 2000}` and balances `{Alice: -2500, Bob: 2500}` |
| Scenarios.PairSettled | potcommuntests.py:58-65 | with two opposite balances, the only settlement meeting the settlement contract is one debt from the positive to the negative balance |
| Scenarios.SimpleExample | potcommuntests.py:28-65 | the restaurant and cinema journey computes the single debt: Bob owes Alice 2500 |

## Left out

- Reporting and printing are not modelled: `getItemsPerPerson`, `getPaymentsPerPerson`, `getPaymentsOrItemsPerPerson`, `printItems`, `printPayments`, `printReport` (potcommun.py:194-306). They only format data.
- The `Handler` storage hooks (potcommun.py:453-468) do nothing. The storage, form and curses front-ends are not part of this model.
- `Transaction.getId` returns the object identity. Transactions are class references here, so there is no separate identifier.
- `getItem` and `getPayment` only forward to the split constructors, modelled by `Splits.NewItem` and `Splits.NewPayment`.
- The `Person` constructor's UTF-8 decoding and its ValueError for non-string names are not modelled. A person is its name.
- The `transaction.mgr = self` back-reference set by `addTransaction` is not modelled. Nothing in the engine reads it.
- Item and payment sets are sequences in order of addition. Equal but distinct split objects are all kept, as in the source. Adding the very same object twice keeps it twice here and once in the source.
- Dictionary updates in place (`mergeTotals`, `checkAndAdjustTotals`, `filterNull`) return new maps instead. Every caller in the source uses the returned value.
- A split's person set is a value here. Mutating it after the split joins a transaction, which the source would allow, is not modelled.
- Dates are read only by the report code left out above, which uses them in its report keys (potcommun.py:238). The model stores them and never reads them.
- Refund persons are typed `Person`, so a bare-string refund party cannot be passed. The ValueError that case raises in the source is not modelled.
- Splits.AmountPerPerson: which persons receive the remainder cents is left open, because the source takes them in set iteration order.
- Reconcile.CheckAndAdjustTotals: which participants receive the remainder cents of the shortfall is left open, for the same reason.
- Manager.DebtManager.ComputeTotals: the order in which transactions are visited is left open, because it is set order. The first failing transaction in that order ends the loop.
- Settlement.Extremes: which person is chosen among equal smallest or largest balances is left open, because the Python sort breaks ties by dictionary order.
- Settlement.Settle: the contract states the properties of the result, not the exact list of debts. The greedy choice is stated per step by `Settlement.SettleOnce`.
- Manager.DebtManager.ComputeDebts, Manager.DebtManager.ComputeBalances: KeyError and WrongBalances are characterised by their cause, and ruled out only for valid transactions. Invalid transactions arise by bypassing `addItem`/`addPayment` (adding to `items` or `payments` directly skips `addPersons`, potcommun.py:317-323) or by changing a split's or a transaction's sets after the split was added; neither path is modelled.
- The class doctest (potcommun.py:55-66) is not modelled. It uses an older `addItem`/`addPayment` signature: its first call passes a tuple of names, a label and an amount to `addItem`, which takes a single item, and fails there (potcommun.py:58, 317). Its `('A', 4, 'B')` also depends on which of A and B gets the odd cent of the 25 € meal.
- The tests at potcommuntests.py:103-117 and 120-137 are not modelled as whole journeys. The first expects Bob to owe 2500, but an outlay with no items puts its missing amount on its own participants only (`Scenarios.PaymentOnlyParts`), so under the code as written Bob owes Alice 3500. The second is unfinished.
- Transactions.Transaction.AddPersons, Manager.DebtManager.AddPersons, Manager.DebtManager.GetPerson, Splits.Participants: participant elements are typed `Person`, which the source never checks. `addPersons` rejects only a bare string, so a tuple of strings (as in the class doctest, potcommun.py:63) becomes participants; the split constructor rejects only string elements, so any other non-`Person` element is kept. Those string participants, and the AttributeError `getPerson` then raises at `person.name`, are not modelled.
- Manager.DebtManager.constructor: the default argument `name="unnamed"` is not modelled; the name is always passed. The engine never reads the name.
- Transactions.Transaction.Label: the error of `str(self.creditPerson)` is not modelled. Person names are always unicode, so under Python 2 `str` encodes `__str__`'s result as ASCII and raises UnicodeEncodeError for a credited name with a non-ASCII character. The model gives a label for every name.
