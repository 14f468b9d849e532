/**
 * Transactions: an outlay (a receipt) or a direct refund, holding the items
 * consumed, the payments made and the set of participants, which grows as
 * items and payments are added.
 */
module Transactions {
  import opened People
  import opened Results
  import opened Totals
  import opened Splits

  /** What a transaction is: an outlay with its label, or a refund between two persons. */
  datatype Kind =
    | OutlayKind(title: string)
    | RefundKind(debitPerson: Person, amount: int, creditPerson: Person)

  /**
   * A transaction. The date is only read by the report code
   * (`getPaymentsOrItemsPerPerson`), which is not part of this model; here it
   * is stored and never read.
   * The Python item and payment sets keep every added object (the split
   * classes define equality but keep identity hashing), so they are
   * sequences here, in the order of addition.
   */
  class Transaction {
    const date: int
    const kind: Kind
    var items: seq<Split>
    var payments: seq<Split>
    var persons: set<Person>

    /** Every person of every split is a participant. */
    ghost predicate Valid()
      reads this
    {
      && (forall s :: s in items ==> s.persons <= persons)
      && (forall s :: s in payments ==> s.persons <= persons)
    }

    /** `Outlay(date, label)`: an empty transaction. */
    constructor Outlay(date: int, title: string)
      ensures this.date == date && kind == OutlayKind(title)
      ensures items == [] && payments == [] && persons == {}
      ensures Valid()
    {
      this.date := date;
      kind := OutlayKind(title);
      items := [];
      payments := [];
      persons := {};
    }

    /**
     * `Refund(date, debitPerson, amount, creditPerson)`: the credited person
     * consumes an item of `amount`, paid by the debited person.
     */
    constructor Refund(date: int, debitPerson: Person, amount: int, creditPerson: Person)
      ensures this.date == date && kind == RefundKind(debitPerson, amount, creditPerson)
      ensures items == [Item({creditPerson}, "Refund from " + Str(debitPerson), amount)]
      ensures payments == [Payment({debitPerson}, amount)]
      ensures persons == {creditPerson, debitPerson}
      ensures Valid()
    {
      this.date := date;
      kind := RefundKind(debitPerson, amount, creditPerson);
      items := [];
      payments := [];
      persons := {};
      new;
      AddItem(Item({creditPerson}, "Refund from " + Str(debitPerson), amount));
      AddPayment(Payment({debitPerson}, amount));
    }

    /** The label: an outlay's own, or "Refund to <credited person>". */
    function Label(): (r: string)
      reads this
      ensures kind.OutlayKind? ==> r == kind.title
      ensures kind.RefundKind? ==> |r| == |kind.creditPerson.name| + 12
      ensures kind.RefundKind? ==> r[..10] == "Refund to " && r[10..] == Str(kind.creditPerson)
    {
      match kind
      case OutlayKind(title) => title
      case RefundKind(_, _, creditPerson) => "Refund to " + Str(creditPerson)
    }

    /** `addItem`: the item's persons join the participants. */
    method AddItem(item: Split)
      modifies this
      ensures items == old(items) + [item] && payments == old(payments)
      ensures persons == old(persons) + item.persons
      ensures old(Valid()) ==> Valid()
    {
      persons := persons + item.persons;
      items := items + [item];
    }

    /** `addPayment`: the payment's persons join the participants. */
    method AddPayment(payment: Split)
      modifies this
      ensures payments == old(payments) + [payment] && items == old(items)
      ensures persons == old(persons) + payment.persons
      ensures old(Valid()) ==> Valid()
    {
      persons := persons + payment.persons;
      payments := payments + [payment];
    }

    /** `addPersons`: a bare string raises ValueError; any other collection joins the participants. */
    method AddPersons(arg: PersonsArg) returns (r: Outcome)
      modifies this
      ensures arg.Bare? ==> r == Fail(ValueError) && persons == old(persons)
      ensures arg.Members? ==> r == Pass && persons == old(persons) + MembersOf(arg.ps)
      ensures items == old(items) && payments == old(payments)
      ensures old(Valid()) ==> Valid()
    {
      if arg.Bare? {
        return Fail(ValueError);
      }
      persons := persons + MembersOf(arg.ps);
      r := Pass;
    }
  }
}
