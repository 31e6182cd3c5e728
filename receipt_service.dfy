/** Building a receipt for a payment.

    A receipt copies the payment's identifier and amount and the invoice's
    current outstanding amount, and lists every invoice item with its
    stored line total plus tax. It reads both inputs and changes neither.
    The receipt's identifier, number and date come from the host and are
    parameters here. */
module ReceiptService {
  import opened Models
  import InvoiceService

  /** The receipt line for one invoice item. */
  function ReceiptLine(item: InvoiceItem): ReceiptItem
    reads item
  {
    ReceiptItem(item.id, item.description, item.lineTotal + item.taxAmount)
  }

  /** One receipt line per item, in the items' order. */
  function ReceiptLines(items: seq<InvoiceItem>): (lines: seq<ReceiptItem>)
    reads set i | 0 <= i < |items| :: items[i]
    ensures |lines| == |items|
    ensures forall i :: 0 <= i < |items| ==>
      lines[i].id == items[i].id && lines[i].description == items[i].description &&
      lines[i].amount == items[i].lineTotal + items[i].taxAmount
  {
    if |items| == 0 then [] else [ReceiptLine(items[0])] + ReceiptLines(items[1..])
  }

  /** The receipt for `payment` against `invoice`. The payment is not
      checked to belong to the invoice. */
  function GenerateReceipt(payment: Payment, invoice: Invoice,
                           receiptId: string, receiptNumber: string, receiptDate: int): (r: Receipt)
    reads invoice, invoice.items, set i | 0 <= i < invoice.items.Length :: invoice.items[i]
    ensures r.id == receiptId && r.receiptNumber == receiptNumber && r.receiptDate == receiptDate
    ensures r.paymentId == payment.id
    ensures r.totalPaid == payment.amount
    ensures r.remainingBalance == invoice.outstandingAmount
    ensures |r.items| == invoice.items.Length
    ensures forall i :: 0 <= i < invoice.items.Length ==>
      r.items[i].id == invoice.items[i].id &&
      r.items[i].description == invoice.items[i].description &&
      r.items[i].amount == invoice.items[i].lineTotal + invoice.items[i].taxAmount
  {
    Receipt(receiptId, payment.id, receiptNumber, receiptDate, payment.amount,
            invoice.outstandingAmount, ReceiptLines(invoice.items[..]))
  }

  /** The sum of a receipt's line amounts. */
  function LinesTotal(lines: seq<ReceiptItem>): real {
    if |lines| == 0 then 0.0 else LinesTotal(lines[..|lines| - 1]) + lines[|lines| - 1].amount
  }

  /** The lines of a prefix of the items are the prefix of the lines. */
  lemma LinesOfPrefix(items: seq<InvoiceItem>, n: nat)
    requires n <= |items|
    ensures ReceiptLines(items)[..n] == ReceiptLines(items[..n])
  {
    var whole, part := ReceiptLines(items), ReceiptLines(items[..n]);
    assert forall i :: 0 <= i < n ==> whole[i] == part[i];
  }

  /** Once the totals calculation has written every item, the receipt lines
      add up to the invoice's unrounded subtotal plus tax, whatever was paid:
      a receipt itemises the whole invoice, not the payment. */
  lemma {:induction false} LinesAddUpToGross(items: seq<InvoiceItem>, taxRate: real)
    requires forall i :: 0 <= i < |items| ==> InvoiceService.Computed(items[i], taxRate)
    ensures LinesTotal(ReceiptLines(items))
      == InvoiceService.SumLineTotals(items) + InvoiceService.SumTaxAmounts(items, taxRate)
  {
    if |items| > 0 {
      var n := |items| - 1;
      LinesOfPrefix(items, n);
      LinesAddUpToGross(items[..n], taxRate);
      assert InvoiceService.Computed(items[n], taxRate);
    }
  }
}
