/** Applying a payment to an invoice.

    A payment must be positive. It lowers the invoice's outstanding amount,
    rounded to cents, in place on the caller's invoice, and moves the status
    to `Paid` when nothing is left or to `Overpaid` when the balance turns
    negative; a balance still above zero leaves the status as it was. The
    payment's identifier, date and reference number come from the host and
    are parameters here. */
module PaymentService {
  import opened Models
  import opened Rounding

  const InvalidAmountMessage := "Invalid payment amount"

  /** The part of an invoice a payment changes. */
  datatype Balance = Balance(outstanding: real, status: InvoiceStatus)

  function BalanceOf(invoice: Invoice): Balance
    reads invoice
  {
    Balance(invoice.outstandingAmount, invoice.status)
  }

  /** The status an invoice has once `outstanding` is left to pay. */
  function NextStatus(status: InvoiceStatus, outstanding: real): InvoiceStatus {
    if outstanding == 0.0 then Paid
    else if outstanding < 0.0 then Overpaid
    else status
  }

  /** What one payment of `amount` does to a balance. */
  function ApplyPayment(b: Balance, amount: real, round2: real -> real): Result<Balance> {
    if amount <= 0.0 then Err(InvalidAmountMessage)
    else
      var outstanding := round2(b.outstanding - amount);
      Ok(Balance(outstanding, NextStatus(b.status, outstanding)))
  }

  /** Processes one payment against `invoice`, updating the invoice in place. */
  method ProcessPayment(invoice: Invoice, paymentAmount: real, paymentMethod: PaymentMethod,
                        paymentId: string, paymentDate: int, referenceNumber: string,
                        round2: real -> real)
    returns (r: Result<PaymentResult>)
    modifies invoice`outstandingAmount, invoice`status
    ensures r.Ok? <==> ApplyPayment(old(BalanceOf(invoice)), paymentAmount, round2).Ok?
    ensures r.Err? ==> r.message == InvalidAmountMessage && unchanged(invoice)
    ensures r.Ok? ==>
      BalanceOf(invoice) == ApplyPayment(old(BalanceOf(invoice)), paymentAmount, round2).value
    ensures r.Ok? ==> r.value == PaymentResult(
      Payment(paymentId, invoice.id, paymentMethod, paymentAmount, paymentDate, referenceNumber, Success),
      invoice)
  {
    if paymentAmount <= 0.0 {
      return Err(InvalidAmountMessage);
    }
    var payment := Payment(paymentId, invoice.id, paymentMethod, paymentAmount,
                           paymentDate, referenceNumber, Success);
    invoice.outstandingAmount := round2(invoice.outstandingAmount - paymentAmount);
    if invoice.outstandingAmount == 0.0 {
      invoice.status := Paid;
    } else if invoice.outstandingAmount < 0.0 {
      invoice.status := Overpaid;
    }
    return Ok(PaymentResult(payment, invoice));
  }

  /** A zero or negative amount is refused and changes nothing; any positive
      amount is accepted, whatever the invoice's state. */
  lemma AcceptedIffPositive(b: Balance, amount: real, round2: real -> real)
    ensures ApplyPayment(b, amount, round2).Ok? <==> amount > 0.0
    ensures amount <= 0.0 ==> ApplyPayment(b, amount, round2) == Err("Invalid payment amount")
  {
  }

  /** After an accepted payment the status agrees with the sign of the new
      balance: zero is paid, negative is overpaid, and a positive balance
      keeps the previous status. */
  lemma StatusFollowsBalance(b: Balance, amount: real, round2: real -> real)
    requires amount > 0.0
    ensures var n := ApplyPayment(b, amount, round2).value;
      n.outstanding == round2(b.outstanding - amount) &&
      (n.outstanding == 0.0 ==> n.status == Paid) &&
      (n.outstanding < 0.0 ==> n.status == Overpaid) &&
      (n.outstanding > 0.0 ==> n.status == b.status)
  {
  }

  /** An invoice's status matches its balance: pending while something is
      owed, paid at zero, overpaid below zero. */
  predicate Consistent(b: Balance) {
    b.status == (if b.outstanding == 0.0 then Paid
                 else if b.outstanding < 0.0 then Overpaid
                 else Pending)
  }

  /** A payment keeps the status consistent with the balance, provided the
      rounding never turns a non-positive amount positive. Without that
      assumption a balance that drops to zero or below could round back up
      and leave a `Paid` invoice owing money. */
  lemma PaymentKeepsConsistent(b: Balance, amount: real, round2: real -> real)
    requires Consistent(b)
    requires amount > 0.0
    requires PositiveOnlyFromPositive(round2)
    ensures Consistent(ApplyPayment(b, amount, round2).value)
  {
    var x := b.outstanding - amount;
    if round2(x) > 0.0 {
      assert x > 0.0;
    }
  }

  /** Once paid or overpaid, an invoice never returns to pending. */
  lemma NeverBackToPending(b: Balance, amount: real, round2: real -> real)
    requires b.status != Pending
    requires amount > 0.0
    ensures ApplyPayment(b, amount, round2).value.status != Pending
  {
  }

  /** Payments applied one after another, in order; the first refused one
      stops the sequence with its error. */
  function ApplyPayments(b: Balance, amounts: seq<real>, round2: real -> real): Result<Balance>
    decreases |amounts|
  {
    if |amounts| == 0 then Ok(b)
    else
      match ApplyPayment(b, amounts[0], round2)
      case Err(m) => Err(m)
      case Ok(next) => ApplyPayments(next, amounts[1..], round2)
  }

  function SumCents(cents: seq<int>): int {
    if |cents| == 0 then 0 else cents[0] + SumCents(cents[1..])
  }

  lemma {:induction false} SumCentsPositive(cents: seq<int>)
    requires forall i :: 0 <= i < |cents| ==> cents[i] > 0
    ensures SumCents(cents) >= 0
    ensures |cents| > 0 ==> SumCents(cents) > 0
  {
    if |cents| > 0 {
      SumCentsPositive(cents[1..]);
    }
  }

  /** Payments in whole cents against a balance in whole cents, with a
      rounding that leaves whole cents alone: the balance ends as the start
      minus the sum paid, exactly, and the status as one payment of that sum
      would leave it. */
  lemma {:induction false} PaymentsInCents(start: int, status: InvoiceStatus, cents: seq<int>,
                                           amounts: seq<real>, round2: real -> real)
    requires FixesCents(round2)
    requires |amounts| == |cents|
    requires forall i :: 0 <= i < |cents| ==> cents[i] > 0 && amounts[i] == Cents(cents[i])
    ensures var rest := start - SumCents(cents);
      ApplyPayments(Balance(Cents(start), status), amounts, round2)
        == Ok(Balance(Cents(rest), if |cents| == 0 then status else NextStatus(status, Cents(rest))))
    decreases |cents|
  {
    if |cents| > 0 {
      var after := start - cents[0];
      assert Cents(start) - amounts[0] == Cents(after);
      var next := Balance(Cents(after), NextStatus(status, Cents(after)));
      assert ApplyPayment(Balance(Cents(start), status), amounts[0], round2) == Ok(next);
      PaymentsInCents(after, next.status, cents[1..], amounts[1..], round2);
      SumCentsPositive(cents[1..]);
    }
  }

  /** Scenario: 200 owed, paid 75, 75 and 50, ends at zero and paid. */
  lemma ThreePaymentsSettle()
    ensures ApplyPayments(Balance(200.0, Pending), [75.0, 75.0, 50.0], RoundHalfAwayFromZero)
      == Ok(Balance(0.0, Paid))
  {
    RoundFixesCents();
    PaymentsInCents(20000, Pending, [7500, 7500, 5000], [75.0, 75.0, 50.0], RoundHalfAwayFromZero);
  }

  /** Scenario: 1000 owed, paid 750 and then 300, ends 50 overpaid. */
  lemma OverpaymentScenario()
    ensures ApplyPayments(Balance(1000.0, Pending), [750.0, 300.0], RoundHalfAwayFromZero)
      == Ok(Balance(-50.0, Overpaid))
  {
    RoundFixesCents();
    PaymentsInCents(100000, Pending, [75000, 30000], [750.0, 300.0], RoundHalfAwayFromZero);
  }

  /** Scenario: 1000 owed, paid in four quarters of 250, ends at zero and paid. */
  lemma FourQuartersSettle()
    ensures ApplyPayments(Balance(1000.0, Pending), [250.0, 250.0, 250.0, 250.0], RoundHalfAwayFromZero)
      == Ok(Balance(0.0, Paid))
  {
    RoundFixesCents();
    PaymentsInCents(100000, Pending, [25000, 25000, 25000, 25000], [250.0, 250.0, 250.0, 250.0],
                    RoundHalfAwayFromZero);
  }

  /** Scenario: the large invoice's total of 3745002.66 paid in one go
      leaves nothing owed and the invoice paid. */
  lemma LargePaymentSettles()
    ensures ApplyPayment(Balance(3745002.66, Pending), 3745002.66, RoundHalfAwayFromZero)
      == Ok(Balance(0.0, Paid))
  {
    assert RoundedCents(0.0) == 0;
  }
}
