/** The library used end to end, under the assumed half-away-from-zero
    rounding: items are totalled, an invoice is built from the totals,
    paid, and a receipt is issued. Identifiers, dates and reference numbers
    are fixed placeholder values standing in for the host's. */
module Workflow {
  import opened Models
  import opened Rounding
  import opened InvoiceService
  import opened PaymentService
  import opened ReceiptService

  /** Two items at a 10% rate total 2000 + 200; paying 2200 settles the
      invoice, and the receipt lists both items with their tax. */
  method SettleInFull() returns (totals: Result<InvoiceTotals>, paid: Result<PaymentResult>, receipt: Receipt)
    ensures totals == Ok(InvoiceTotals(2000.0, 200.0, 2200.0))
    ensures paid.Ok? && paid.value.updatedInvoice.status == Paid
    ensures paid.value.updatedInvoice.outstandingAmount == 0.0
    ensures receipt.totalPaid == 2200.0 && receipt.remainingBalance == 0.0
    ensures |receipt.items| == 2 && receipt.items[0].amount == 1650.0 && receipt.items[1].amount == 550.0
  {
    var consulting := new InvoiceItem("1", "Consulting Services", 10.0, 150.0, 0.1, 0.0, 0.0);
    var license := new InvoiceItem("2", "Software License", 1.0, 500.0, 0.1, 0.0, 0.0);
    var items := new InvoiceItem[2][consulting, license];
    ghost var s := items[..];
    TwoItemTotals(s);
    assert ItemValid(s[0]) && ItemValid(s[1]);
    assert Processed(s, 0.1) == 2;
    assert s[..2] == [consulting, license];
    assert consulting in s[..2] && license in s[..2];
    totals := CalculateInvoiceTotal(items, 0.1, RoundHalfAwayFromZero);
    assert consulting.lineTotal == 1500.0 && consulting.taxAmount == 150.0;
    assert license.lineTotal == 500.0 && license.taxAmount == 50.0;

    var invoice := new Invoice("inv-1", "INV-001", 0, items, totals.value.total, totals.value.tax,
                               totals.value.total, Pending);
    assert RoundedCents(0.0) == 0;
    paid := ProcessPayment(invoice, 2200.0, BankTransfer, "pay-1", 0, "0", RoundHalfAwayFromZero);
    receipt := GenerateReceipt(paid.value.payment, invoice, "rcpt-1", "0", 0);
  }

  /** Two valid items: the totals are the rounded sums of the two lines. */
  lemma TwoValidItems(s: seq<InvoiceItem>, taxRate: real, round2: real -> real)
    requires |s| == 2 && TaxRateValid(taxRate) && ItemValid(s[0]) && ItemValid(s[1])
    ensures var sub := LineTotal(s[0]) + LineTotal(s[1]);
      var tax := TaxOn(LineTotal(s[0]), taxRate) + TaxOn(LineTotal(s[1]), taxRate);
      CalculateTotals(s, taxRate, round2) == Ok(InvoiceTotals(round2(sub), round2(tax), round2(sub + tax)))
  {
    assert ValidPrefix(s) == 2 by {
      assert ValidPrefix(s[1..]) == 1 by { assert s[1..][1..] == []; }
    }
    assert s[..1][..0] == [] && s[..1] == [s[0]];
    assert SumLineTotals(s[..1]) == LineTotal(s[0]);
    assert SumTaxAmounts(s[..1], taxRate) == TaxOn(LineTotal(s[0]), taxRate);
  }

  lemma TwoItemTotals(s: seq<InvoiceItem>)
    requires |s| == 2
    requires s[0].quantity == 10.0 && s[0].unitPrice == 150.0
    requires s[1].quantity == 1.0 && s[1].unitPrice == 500.0
    ensures CalculateTotals(s, 0.1, RoundHalfAwayFromZero) == Ok(InvoiceTotals(2000.0, 200.0, 2200.0))
  {
    TwoValidItems(s, 0.1, RoundHalfAwayFromZero);
    assert RoundedCents(2000.0) == 200000;
    assert RoundedCents(200.0) == 20000;
    assert RoundedCents(2200.0) == 220000;
  }

  /** 1 x 500 and 2 x 25.50 at 7%: 551.00, 38.57, 589.57. */
  lemma BasicInvoiceTotals(s: seq<InvoiceItem>)
    requires |s| == 2
    requires s[0].quantity == 1.0 && s[0].unitPrice == 500.0
    requires s[1].quantity == 2.0 && s[1].unitPrice == 25.5
    ensures CalculateTotals(s, 0.07, RoundHalfAwayFromZero) == Ok(InvoiceTotals(551.0, 38.57, 589.57))
  {
    TwoValidItems(s, 0.07, RoundHalfAwayFromZero);
    assert RoundedCents(551.0) == 55100;
    assert RoundedCents(38.57) == 3857;
    assert RoundedCents(589.57) == 58957;
  }

  /** 5 x 10.50 and 3 x 20.75 at 10%: the tax 11.475 rounds up to 11.48 and
      the total 126.225 to 126.23. */
  lemma HalfCentTotals(s: seq<InvoiceItem>)
    requires |s| == 2
    requires s[0].quantity == 5.0 && s[0].unitPrice == 10.5
    requires s[1].quantity == 3.0 && s[1].unitPrice == 20.75
    ensures CalculateTotals(s, 0.1, RoundHalfAwayFromZero) == Ok(InvoiceTotals(114.75, 11.48, 126.23))
  {
    TwoValidItems(s, 0.1, RoundHalfAwayFromZero);
    assert RoundedCents(114.75) == 11475;
    assert RoundedCents(11.475) == 1148;
    assert RoundedCents(126.225) == 12623;
  }

  /** 1 x 999999.99 and 5 x 500000.50 at 7%: 3500002.49, 245000.17,
      3745002.66; the total rounds the unrounded sum 3745002.6643. */
  lemma LargeAmountTotals(s: seq<InvoiceItem>)
    requires |s| == 2
    requires s[0].quantity == 1.0 && s[0].unitPrice == 999999.99
    requires s[1].quantity == 5.0 && s[1].unitPrice == 500000.5
    ensures CalculateTotals(s, 0.07, RoundHalfAwayFromZero)
      == Ok(InvoiceTotals(3500002.49, 245000.17, 3745002.66))
  {
    TwoValidItems(s, 0.07, RoundHalfAwayFromZero);
    assert RoundedCents(3500002.49) == 350000249;
    assert RoundedCents(245000.1743) == 24500017;
    assert RoundedCents(3745002.6643) == 374500266;
  }

  /** One valid item: the totals are the rounded line figures. */
  lemma OneValidItem(s: seq<InvoiceItem>, taxRate: real, round2: real -> real)
    requires |s| == 1 && TaxRateValid(taxRate) && ItemValid(s[0])
    ensures var sub := LineTotal(s[0]);
      var tax := TaxOn(LineTotal(s[0]), taxRate);
      CalculateTotals(s, taxRate, round2) == Ok(InvoiceTotals(round2(sub), round2(tax), round2(sub + tax)))
  {
    assert ValidPrefix(s) == 1;
    assert s[..0] == [];
    assert SumLineTotals(s) == LineTotal(s[0]);
    assert SumTaxAmounts(s, taxRate) == TaxOn(LineTotal(s[0]), taxRate);
  }

  lemma OneItemTotals(s: seq<InvoiceItem>)
    requires |s| == 1
    requires s[0].quantity == 1.0 && s[0].unitPrice == 1000.0
    ensures CalculateTotals(s, 0.08, RoundHalfAwayFromZero) == Ok(InvoiceTotals(1000.0, 80.0, 1080.0))
  {
    OneValidItem(s, 0.08, RoundHalfAwayFromZero);
    assert RoundedCents(1000.0) == 100000;
    assert RoundedCents(80.0) == 8000;
    assert RoundedCents(1080.0) == 108000;
  }

  /** 3 x 33.33 at 7%: 99.99, the tax 6.9993 rounds to 7.00, and the total
      106.9893 rounds to 106.99. */
  lemma RoundingPrecisionTotals(s: seq<InvoiceItem>)
    requires |s| == 1
    requires s[0].quantity == 3.0 && s[0].unitPrice == 33.33
    ensures CalculateTotals(s, 0.07, RoundHalfAwayFromZero) == Ok(InvoiceTotals(99.99, 7.0, 106.99))
  {
    OneValidItem(s, 0.07, RoundHalfAwayFromZero);
    assert RoundedCents(99.99) == 9999;
    assert RoundedCents(6.9993) == 700;
    assert RoundedCents(106.9893) == 10699;
  }

  /** 1 x 0.004 at a rate of 1: subtotal and tax each round to 0.00, but
      the total rounds the unrounded 0.008 to 0.01, so it differs from the
      sum of the rounded subtotal and tax. */
  lemma TotalNotSumOfRoundedFigures(s: seq<InvoiceItem>)
    requires |s| == 1
    requires s[0].quantity == 1.0 && s[0].unitPrice == 0.004
    ensures CalculateTotals(s, 1.0, RoundHalfAwayFromZero) == Ok(InvoiceTotals(0.0, 0.0, 0.01))
  {
    OneValidItem(s, 1.0, RoundHalfAwayFromZero);
    assert RoundedCents(0.004) == 0;
    assert RoundedCents(0.008) == 1;
  }

  /** One item of 1000 at an 8% rate owes 1080; three payments of 432, 432
      and 216 leave 648, then 216, then nothing, and the invoice is paid. */
  method PayInInstalments() returns (balances: seq<real>, status: InvoiceStatus)
    ensures balances == [648.0, 216.0, 0.0]
    ensures status == Paid
  {
    var phase := new InvoiceItem("1", "Project Phase 1", 1.0, 1000.0, 0.08, 0.0, 0.0);
    var items := new InvoiceItem[1][phase];
    OneItemTotals(items[..]);
    var totals := CalculateInvoiceTotal(items, 0.08, RoundHalfAwayFromZero);
    var invoice := new Invoice("inv-1", "INV-001", 0, items, totals.value.total, totals.value.tax,
                               totals.value.total, Pending);
    RoundFixesCents();
    assert 648.0 == Cents(64800) && 216.0 == Cents(21600) && 0.0 == Cents(0);

    var first := ProcessPayment(invoice, 432.0, Cash, "pay-1", 0, "1", RoundHalfAwayFromZero);
    var receipt1 := GenerateReceipt(first.value.payment, invoice, "rcpt-1", "1", 0);
    var second := ProcessPayment(invoice, 432.0, BankTransfer, "pay-2", 0, "2", RoundHalfAwayFromZero);
    var receipt2 := GenerateReceipt(second.value.payment, invoice, "rcpt-2", "2", 0);
    var third := ProcessPayment(invoice, 216.0, Card, "pay-3", 0, "3", RoundHalfAwayFromZero);
    var receipt3 := GenerateReceipt(third.value.payment, invoice, "rcpt-3", "3", 0);
    balances := [receipt1.remainingBalance, receipt2.remainingBalance, receipt3.remainingBalance];
    status := invoice.status;
  }
}
