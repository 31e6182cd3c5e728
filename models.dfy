/** Records of the invoicing library: invoice items, invoices, totals,
    payments and receipts, with the three enumerations they use.

    Money is an exact `real` (not an IEEE-754 double). A `Date` is modelled
    as an `int` number of milliseconds; identifiers and reference numbers,
    which the library draws from the host's clock and random source, are
    plain strings supplied by the caller. */
module Models {

  /** The outcome of an operation that may throw: `Err` carries the message
      of the `Error` the library throws. */
  datatype Result<+T> = Ok(value: T) | Err(message: string)

  datatype InvoiceStatus = Pending | Paid | Overpaid

  datatype PaymentMethod = Cash | BankTransfer | Card

  /** Only `Success` is ever produced; `Failed` is declared but unused. */
  datatype PaymentStatus = Success | Failed

  /** A line of an invoice. `lineTotal` and `taxAmount` are derived values
      that the totals calculation writes in place; the library never assigns
      the other fields, so they are constants here. `taxRate` is stored but
      never used by the calculation. */
  class InvoiceItem {
    const id: string
    const description: string
    const quantity: real
    const unitPrice: real
    var lineTotal: real
    const taxRate: real
    var taxAmount: real

    constructor (id: string, description: string, quantity: real, unitPrice: real,
                 taxRate: real, lineTotal: real, taxAmount: real)
      ensures this.id == id && this.description == description
      ensures this.quantity == quantity && this.unitPrice == unitPrice
      ensures this.taxRate == taxRate
      ensures this.lineTotal == lineTotal && this.taxAmount == taxAmount
    {
      this.id := id;
      this.description := description;
      this.quantity := quantity;
      this.unitPrice := unitPrice;
      this.taxRate := taxRate;
      this.lineTotal := lineTotal;
      this.taxAmount := taxAmount;
    }
  }

  /** An invoice. Payments update `outstandingAmount` and `status` in place
      on the caller's object; the item array is shared with whoever built it. */
  class Invoice {
    var id: string
    var invoiceNumber: string
    var invoiceDate: int
    var items: array<InvoiceItem>
    var totalAmount: real
    var totalTax: real
    var outstandingAmount: real
    var status: InvoiceStatus

    constructor (id: string, invoiceNumber: string, invoiceDate: int, items: array<InvoiceItem>,
                 totalAmount: real, totalTax: real, outstandingAmount: real, status: InvoiceStatus)
      ensures this.id == id && this.invoiceNumber == invoiceNumber
      ensures this.invoiceDate == invoiceDate && this.items == items
      ensures this.totalAmount == totalAmount && this.totalTax == totalTax
      ensures this.outstandingAmount == outstandingAmount && this.status == status
    {
      this.id := id;
      this.invoiceNumber := invoiceNumber;
      this.invoiceDate := invoiceDate;
      this.items := items;
      this.totalAmount := totalAmount;
      this.totalTax := totalTax;
      this.outstandingAmount := outstandingAmount;
      this.status := status;
    }
  }

  /** The three figures returned by the totals calculation. */
  datatype InvoiceTotals = InvoiceTotals(subtotal: real, tax: real, total: real)

  /** A payment record; immutable once built. */
  datatype Payment = Payment(
    id: string,
    invoiceId: string,
    paymentMethod: PaymentMethod,
    amount: real,
    paymentDate: int,
    referenceNumber: string,
    status: PaymentStatus)

  /** What a payment returns: the new payment and the invoice it was applied
      to (the same object, not a copy). */
  datatype PaymentResult = PaymentResult(payment: Payment, updatedInvoice: Invoice)

  datatype ReceiptItem = ReceiptItem(id: string, description: string, amount: real)

  datatype Receipt = Receipt(
    id: string,
    paymentId: string,
    receiptNumber: string,
    receiptDate: int,
    totalPaid: real,
    remainingBalance: real,
    items: seq<ReceiptItem>)
}
