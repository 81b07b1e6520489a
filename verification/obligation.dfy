/**
 * The obligation (debt) entity and the meaning of its derived fields.
 * The balance and the status are computed by the server; this module
 * states, as a relation, what the type's documentation promises about
 * them, without choosing between `overdue` and `open`/`partially_paid`
 * where the documentation allows both.
 */
module Obligations {
  import opened Common
  import JsText
  import Lists

  datatype ObligationStatus = Open | PartiallyPaid | Paid | Overdue

  /** An expense recorded as a payment against an obligation. */
  datatype Payment = Payment(amount: real, isDeleted: bool)

  /** An obligation as the server returns it, with its balance fields. */
  datatype ObligationResponse = ObligationResponse(
    id: string,
    title: string,
    description: Option<string>,
    totalAmount: real,
    currency: string,
    dueDate: Option<string>,   // "YYYY-MM-DD"
    paidAmount: real,
    remainingAmount: real,
    status: ObligationStatus)

  /** The payments that have not been deleted, in order. */
  function Live(payments: seq<Payment>): (r: seq<Payment>)
    ensures forall p :: p in r <==> p in payments && !p.isDeleted
  {
    Lists.Filter(payments, (p: Payment) => !p.isDeleted)
  }

  function SumAmounts(payments: seq<Payment>): real
  {
    if payments == [] then 0.0 else payments[0].amount + SumAmounts(payments[1..])
  }

  /** The sum of the payments that are not deleted. */
  function PaidAmount(payments: seq<Payment>): (r: real)
    ensures (forall i :: 0 <= i < |payments| ==> payments[i].amount >= 0.0) ==> r >= 0.0
  {
    if payments == [] then 0.0
    else (if payments[0].isDeleted then 0.0 else payments[0].amount) + PaidAmount(payments[1..])
  }

  /** The paid amount is the plain sum over the live payments. */
  lemma {:induction false} PaidAmountIsLiveSum(payments: seq<Payment>)
    ensures PaidAmount(payments) == SumAmounts(Live(payments))
  {
    if payments != [] {
      PaidAmountIsLiveSum(payments[1..]);
      var keep := (p: Payment) => !p.isDeleted;
      assert Lists.Filter(payments, keep) ==
        if keep(payments[0]) then [payments[0]] + Lists.Filter(payments[1..], keep)
        else Lists.Filter(payments[1..], keep);
      if keep(payments[0]) {
        assert ([payments[0]] + Lists.Filter(payments[1..], keep))[1..] == Lists.Filter(payments[1..], keep);
      }
    }
  }

  /** Adding deleted payments changes nothing in the paid amount. */
  lemma {:induction false} DeletedPaymentsIgnored(payments: seq<Payment>, deleted: seq<Payment>)
    requires forall i :: 0 <= i < |deleted| ==> deleted[i].isDeleted
    ensures PaidAmount(payments + deleted) == PaidAmount(payments)
  {
    if payments == [] {
      DeletedSumZero(deleted);
      assert payments + deleted == deleted;
    } else {
      DeletedPaymentsIgnored(payments[1..], deleted);
      assert (payments + deleted)[1..] == payments[1..] + deleted;
    }
  }

  lemma {:induction false} DeletedSumZero(deleted: seq<Payment>)
    requires forall i :: 0 <= i < |deleted| ==> deleted[i].isDeleted
    ensures PaidAmount(deleted) == 0.0
  {
    if deleted != [] {
      DeletedSumZero(deleted[1..]);
    }
  }

  /** `totalAmount - paidAmount`, not clamped: negative once the debt is overpaid. */
  function RemainingAmount(totalAmount: real, payments: seq<Payment>): (r: real)
    ensures r + PaidAmount(payments) == totalAmount
    ensures r < 0.0 <==> PaidAmount(payments) > totalAmount
  {
    totalAmount - PaidAmount(payments)
  }

  /**
   * The statuses the documentation allows for an obligation with these
   * inputs on the day `today` ("YYYY-MM-DD", compared as text, which orders
   * such dates chronologically).
   */
  predicate StatusAllowed(totalAmount: real, dueDate: Option<string>, payments: seq<Payment>,
                          today: string, s: ObligationStatus)
  {
    match s
    case Open => Live(payments) == []
    case PartiallyPaid => Live(payments) != [] && PaidAmount(payments) < totalAmount
    case Paid => PaidAmount(payments) >= totalAmount
    case Overdue =>
      dueDate.Some? && JsText.Less(dueDate.value, today)
      && RemainingAmount(totalAmount, payments) > 0.0
  }

  /**
   * A response is consistent with its payments: positive total, paid amount
   * over the live payments, remaining as the difference, and an allowed status.
   */
  predicate Consistent(o: ObligationResponse, payments: seq<Payment>, today: string)
  {
    && o.totalAmount > 0.0
    && o.paidAmount == PaidAmount(payments)
    && o.remainingAmount == o.totalAmount - o.paidAmount
    && StatusAllowed(o.totalAmount, o.dueDate, payments, today, o.status)
  }

  /** No live payments means nothing has been paid. */
  lemma {:induction false} NoLivePaymentsPaidZero(payments: seq<Payment>)
    requires Live(payments) == []
    ensures PaidAmount(payments) == 0.0
  {
    PaidAmountIsLiveSum(payments);
  }

  /** A consistent obligation is `paid` exactly when the payments cover the total. */
  lemma PaidExactly(o: ObligationResponse, payments: seq<Payment>, today: string)
    requires Consistent(o, payments, today)
    ensures o.status == Paid <==> o.paidAmount >= o.totalAmount
  {
    if o.status == Open {
      NoLivePaymentsPaidZero(payments);
    }
  }

  /** `overdue` needs a due date before today and a positive remaining balance. */
  lemma OverdueNeedsDueDate(o: ObligationResponse, payments: seq<Payment>, today: string)
    requires Consistent(o, payments, today) && o.status == Overdue
    ensures o.dueDate.Some? && JsText.Less(o.dueDate.value, today)
    ensures o.remainingAmount > 0.0 && o.paidAmount < o.totalAmount
  {
  }

  /** `open` means no payment is recorded, so nothing is paid and all of it remains. */
  lemma OpenHasNoPayments(o: ObligationResponse, payments: seq<Payment>, today: string)
    requires Consistent(o, payments, today) && o.status == Open
    ensures forall p :: p in payments ==> p.isDeleted
    ensures o.paidAmount == 0.0 && o.remainingAmount == o.totalAmount
  {
    NoLivePaymentsPaidZero(payments);
  }

  /** `partially_paid` means some live payment and a positive remaining balance. */
  lemma PartiallyPaidMeans(o: ObligationResponse, payments: seq<Payment>, today: string)
    requires Consistent(o, payments, today) && o.status == PartiallyPaid
    ensures exists p :: p in payments && !p.isDeleted
    ensures 0.0 < o.remainingAmount
  {
    assert Live(payments)[0] in Live(payments);
  }

  /** The status allowed when the due date is not considered. */
  function BalanceStatus(totalAmount: real, payments: seq<Payment>): (r: ObligationStatus)
    requires totalAmount > 0.0
    ensures r != Overdue
    ensures forall dueDate, today :: StatusAllowed(totalAmount, dueDate, payments, today, r)
  {
    if PaidAmount(payments) >= totalAmount then Paid
    else if Live(payments) == [] then Open
    else PartiallyPaid
  }

  /**
   * Apart from `overdue`, exactly one status is allowed: any two different
   * allowed statuses include `overdue`.
   */
  lemma StatusesExclusive(totalAmount: real, dueDate: Option<string>, payments: seq<Payment>,
                          today: string, s1: ObligationStatus, s2: ObligationStatus)
    requires totalAmount > 0.0
    requires StatusAllowed(totalAmount, dueDate, payments, today, s1)
    requires StatusAllowed(totalAmount, dueDate, payments, today, s2)
    requires s1 != s2
    ensures s1 == Overdue || s2 == Overdue
  {
    if Live(payments) == [] {
      NoLivePaymentsPaidZero(payments);
    }
  }

  /** `overdue` never applies together with `paid`. */
  lemma OverdueNotPaid(totalAmount: real, dueDate: Option<string>, payments: seq<Payment>, today: string)
    requires StatusAllowed(totalAmount, dueDate, payments, today, Overdue)
    ensures !StatusAllowed(totalAmount, dueDate, payments, today, Paid)
  {
  }
}
