/**
 * What one row of the obligations list shows: the progress percentage,
 * the due-date text, the status badge label and the accent colour.
 */
module ObligationsList {
  import opened Common
  import opened Obligations
  import JsNumbers

  /** The eight accent colours rows cycle through. */
  const AccentColors: seq<string> := [
    "oklch(0.55 0.20 255)",
    "oklch(0.55 0.20 290)",
    "oklch(0.55 0.20 330)",
    "oklch(0.60 0.18 20)",
    "oklch(0.60 0.16 55)",
    "oklch(0.55 0.18 145)",
    "oklch(0.50 0.15 200)",
    "oklch(0.55 0.18 175)"
  ]

  /** The accent of the row at position `idx`. */
  function AccentColor(idx: nat): (r: string)
    ensures r in AccentColors
    ensures r == AccentColors[idx % 8]
  {
    AccentColors[idx % |AccentColors|]
  }

  /** Rows eight apart share their accent. */
  lemma AccentCycles(idx: nat)
    ensures AccentColor(idx + 8) == AccentColor(idx)
  {
    assert (idx + 8) % 8 == idx % 8;
  }

  /** The progress bar: paid share of the total in whole percent, capped at 100; 0 without a positive total. */
  function Pct(paidAmount: real, totalAmount: real): (r: int)
    ensures r <= 100
    ensures totalAmount <= 0.0 ==> r == 0
  {
    if totalAmount > 0.0 then
      var p := JsNumbers.MathRound(paidAmount / totalAmount * 100.0);
      if p < 100 then p else 100
    else 0
  }

  /** With `0 <= paid <= total`, the percentage is the rounded share and lies in 0..100. */
  lemma PctInRange(paidAmount: real, totalAmount: real)
    requires 0.0 <= paidAmount <= totalAmount && totalAmount > 0.0
    ensures 0 <= Pct(paidAmount, totalAmount) <= 100
    ensures Pct(paidAmount, totalAmount) == JsNumbers.MathRound(paidAmount / totalAmount * 100.0)
  {
    var x := paidAmount / totalAmount * 100.0;
    assert paidAmount / totalAmount <= 1.0;
    assert 0.0 <= x <= 100.0;
  }

  /** An overpaid obligation shows exactly 100. */
  lemma PctOverpaid(paidAmount: real, totalAmount: real)
    requires totalAmount > 0.0 && paidAmount >= totalAmount
    ensures Pct(paidAmount, totalAmount) == 100
  {
    assert paidAmount / totalAmount >= 1.0;
  }

  /** For a fixed positive total, paying more never lowers the percentage. */
  lemma PctMonotone(paid1: real, paid2: real, totalAmount: real)
    requires totalAmount > 0.0 && paid1 <= paid2
    ensures Pct(paid1, totalAmount) <= Pct(paid2, totalAmount)
  {
    assert paid1 / totalAmount <= paid2 / totalAmount;
    assert paid1 / totalAmount * 100.0 <= paid2 / totalAmount * 100.0;
  }

  /** The due-date cell: "Sin vencimiento" for a missing (or empty) date, otherwise the formatted date. */
  function DueDateLabel(dueDate: Option<string>, format: string -> string): (r: string)
    ensures dueDate == None || dueDate == Some("") ==> r == "Sin vencimiento"
    ensures dueDate.Some? && dueDate.value != "" ==> r == format(dueDate.value)
  {
    if dueDate.None? || dueDate.value == "" then "Sin vencimiento" else format(dueDate.value)
  }

  /** The status badge label. */
  function StatusLabel(s: ObligationStatus): string
  {
    match s
    case Open => "Abierta"
    case PartiallyPaid => "Pago parcial"
    case Paid => "Pagada"
    case Overdue => "Vencida"
  }

  /** The four statuses read differently. */
  lemma StatusLabelsDistinct(s1: ObligationStatus, s2: ObligationStatus)
    requires StatusLabel(s1) == StatusLabel(s2)
    ensures s1 == s2
  {
  }

  /** The progress shown for a consistent obligation that is `paid` is 100. */
  lemma PaidShowsFull(o: ObligationResponse, payments: seq<Payment>, today: string)
    requires Consistent(o, payments, today) && o.status == Paid
    ensures Pct(o.paidAmount, o.totalAmount) == 100
  {
    PaidExactly(o, payments, today);
    PctOverpaid(o.paidAmount, o.totalAmount);
  }
}
