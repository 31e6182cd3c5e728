# Invoice system: totals, payments and receipts

This project models the computational core of a small TypeScript invoicing
library and proves properties of the model in Dafny. There are three
operations:

- **`InvoiceService.calculateInvoiceTotal`**
  - Validates the item list in a fixed order.
  - Walks the caller's item array, writing each item's `lineTotal` and
    `taxAmount` in place.
  - Returns subtotal, tax and total, each rounded to two decimals.
- **`PaymentService.processPayment`**
  - Rejects a payment amount that is not positive.
  - Lowers the invoice's outstanding amount in place.
  - Moves the invoice to paid or overpaid according to the sign of the new
    balance.
  - Returns a payment record together with the same invoice object.
- **`ReceiptService.generateReceipt`**
  - A read-only projection of a payment and an invoice into a receipt that
    lists every invoice item.

Files:

- `models.dfy` holds the records.
  - `InvoiceItem` and `Invoice` are classes, because the library updates
    them in place.
  - `Payment`, `PaymentResult`, `Receipt`, `ReceiptItem` and
    `InvoiceTotals` are datatypes.
  - Thrown errors become `Result.Err` values carrying the exact message.
- `invoice_service.dfy` holds the totals calculation.
  - `CalculateTotals` states the returned value or thrown message as a
    function of the items.
  - The loop `CalculateInvoiceTotal` is proved to return it, to write
    exactly the items it has passed, and to leave the rest alone. This also
    holds when it stops at an invalid item halfway.
- `payment_service.dfy` holds the payment step.
  - `ApplyPayment` is the pure balance transition.
  - `ProcessPayment` is the in-place update, proved against it.
- `receipt_service.dfy` holds the receipt projection and its link to the
  totals calculation.
- `rounding.dfy` holds the rounding assumptions, described below.
- `workflow.dfy` holds end-to-end scenarios and the worked figures of the
  library's own examples.

Money is an exact `real`, not an IEEE-754 double. Dates are `int`
milliseconds. The library draws identifiers, dates and reference numbers
from the host's random source and clock; here the caller passes them in as
parameters.

Two-decimal rounding (`roundToTwoDecimals`) is defined in a utility file
that is not part of this model. Every operation takes it as a parameter
`round2: real -> real`, and the general lemmas assume nothing about it.
Three lemmas state their extra assumption as a named predicate:

- `PaymentsInCents` and `ZeroTaxRate` assume `FixesCents`: whole cents are
  left alone.
- `PaymentKeepsConsistent` assumes `PositiveOnlyFromPositive`: a
  non-positive amount never rounds to a positive one.

`Rounding.RoundHalfAwayFromZero` is an **assumed** concrete rounding, half
away from zero to whole cents. It is used only for the worked examples.
`RoundFixesCents` and `RoundPositiveOnlyFromPositive` prove that it meets
the two assumptions above, so neither assumption is vacuous.
`RoundWithinHalfCent` is a separate sanity property of the assumed
rounding: it moves an amount by at most half a cent.

The fields of `InvoiceItem` that the library never assigns are `const`:
`id`, `description`, `quantity`, `unitPrice` and `taxRate`. Only
`lineTotal` and `taxAmount` are mutable. As a result, "the calculation
writes nothing but these two fields" holds by construction. The method's
`modifies items[..]` together with `ensures items[..] == old(items[..])`
adds that the array's length, order and identity of items are unchanged.

## Model

| member | source | states |
|---|---|---|
| Models.InvoiceItem.constructor | src/models/invoice.model.ts:3-11 | an item holds exactly the id, description, quantity, unit price, tax rate, line total and tax amount it was built with |
| Models.Invoice.constructor | src/models/invoice.model.ts:13-22 | an invoice holds exactly the id, number, date, item array, totals, outstanding amount and status it was built with |
| InvoiceService.ValidPrefix | src/services/invoice.service.ts:19-30 | the loop reaches index k: every item before k has positive quantity and non-negative price, and when k is not the end the item at k fails one of the two checks |
| InvoiceService.CalculateInvoiceTotal | src/services/invoice.service.ts:5-47 | returns the value or message given by `CalculateTotals` on the array as it was at the call. Every item object that occurs among the first `Processed` entries, wherever else it also occurs, has lineTotal = quantity * unitPrice and taxAmount = lineTotal * the invoice-level rate. Every item object of the array not among them keeps its old lineTotal and taxAmount, even when the loop stops at an invalid item. The array's contents are the same objects in the same order |
| InvoiceService.EmptyItemsFailFirst | src/services/invoice.service.ts:9-11 | an empty item list fails with "Invoice must contain at least one item" whatever the tax rate, so this check precedes the rate check |
| InvoiceService.TaxRateRejectedIffOutOfRange | src/services/invoice.service.ts:12-14 | with at least one item, the result is "Tax rate must be between 0 and 1" if and only if the rate is below 0 or above 1; the bounds 0 and 1 are accepted |
| InvoiceService.FirstInvalidItemDecides | src/services/invoice.service.ts:19-30 | if item k is the first invalid one, the loop has processed exactly k items. The error names item k's id: the quantity message when its quantity is not positive, otherwise the unit-price message |
| InvoiceService.SucceedsIffAllValid | src/services/invoice.service.ts:9-30 | the calculation succeeds if and only if there is an item, the rate is in [0, 1] and every item passes both checks |
| InvoiceService.TaxIsRateTimesSubtotal | src/services/invoice.service.ts:32-36 | the accumulated tax equals the invoice-level rate times the accumulated line totals |
| InvoiceService.SubtotalNonNegative | src/services/invoice.service.ts:21-35 | for items that pass validation, the accumulated line totals are not negative |
| InvoiceService.TaxBetweenZeroAndSubtotal | src/services/invoice.service.ts:12-36 | with valid inputs, 0 <= unrounded tax <= unrounded subtotal |
| InvoiceService.SuccessFigures | src/services/invoice.service.ts:42-46 | on success, subtotal = round2(sum of line totals), tax = round2(rate * that sum) and total = round2((1 + rate) * that sum): the total is rounded from the unrounded sums, not from the rounded subtotal and tax |
| InvoiceService.ZeroTaxRate | src/services/invoice.service.ts:33-46 | at rate 0 the tax is round2(0), which is 0 under any rounding that fixes whole cents, and the total equals the subtotal |
| PaymentService.ProcessPayment | src/services/payment.service.ts:7-40 | succeeds if and only if `ApplyPayment` accepts the amount. On failure it returns "Invalid payment amount" and leaves the invoice unchanged. On success the invoice's balance and status become what `ApplyPayment` gives, and nothing else of the invoice may change. The result holds a Success payment with the caller's id, method, amount, date, reference and the invoice's id, together with the very invoice object passed in |
| PaymentService.AcceptedIffPositive | src/services/payment.service.ts:12-14 | a payment is accepted if and only if its amount is above 0; 0 and negative amounts give "Invalid payment amount" |
| PaymentService.StatusFollowsBalance | src/services/payment.service.ts:26-34 | after an accepted payment the balance is round2(old balance - amount). A new balance of 0 gives Paid and a negative one gives Overpaid. A positive one keeps the previous status, so Pending is never assigned |
| PaymentService.PaymentKeepsConsistent | src/services/payment.service.ts:26-34 | if the status matched the balance's sign before (Pending above 0, Paid at 0, Overpaid below 0), it still does after a payment, given a rounding that never makes a non-positive amount positive |
| PaymentService.NeverBackToPending | src/services/payment.service.ts:30-34 | a paid or overpaid invoice is never moved back to pending by a further payment |
| PaymentService.PaymentsInCents | src/services/payment.service.ts:26-34 | successive payments in whole cents against a balance in whole cents, under a rounding that fixes whole cents, leave exactly the start minus the sum paid. The status is the one a single payment of that sum would leave |
| PaymentService.ThreePaymentsSettle | src/services/__tests__/payment.test.ts:126-161 | 200 owed, paid 75, 75, 50 under the assumed rounding: balance 0, status Paid |
| PaymentService.OverpaymentScenario | src/services/__tests__/payment.test.ts:57-88 | 1000 owed, paid 750 then 300 under the assumed rounding: balance -50, status Overpaid |
| PaymentService.FourQuartersSettle | src/services/__tests__/payment.test.ts:255-307 | 1000 owed, paid 250 four times under the assumed rounding: balance 0, status Paid |
| PaymentService.LargePaymentSettles | src/services/__tests__/payment.test.ts:233-252 | paying the full 3745002.66 of the large invoice leaves balance 0 and status Paid |
| ReceiptService.ReceiptLines | src/services/receipt.service.ts:15-19 | one line per item, in the items' order. Line i has item i's id and description, and the amount item i's lineTotal + taxAmount: the full item amount, not a share of the payment |
| ReceiptService.GenerateReceipt | src/services/receipt.service.ts:7-20 | the receipt carries the caller's id, number and date, the payment's id and amount (as totalPaid), and the invoice's outstanding amount as read at the call (as remainingBalance). It has exactly one line per invoice item in order, each with that item's id, description and lineTotal + taxAmount. It has no precondition, so a payment for another invoice is accepted. Being a function, it modifies neither input |
| ReceiptService.LinesAddUpToGross | src/services/receipt.service.ts:15-19 | once the totals calculation has written every item, the receipt's line amounts sum to the unrounded subtotal plus tax of the invoice, whatever was paid |
| Workflow.TwoValidItems | src/services/invoice.service.ts:19-46 | for two valid items the totals are the rounded sums of their two line totals and two tax amounts |
| Workflow.OneValidItem | src/services/invoice.service.ts:19-46 | for one valid item the totals are its rounded line total, tax and their sum |
| Workflow.BasicInvoiceTotals | src/services/__tests__/invoice.test.ts:6-33 | 1 x 500 and 2 x 25.50 at 7% give 551.00, 38.57, 589.57 under the assumed rounding |
| Workflow.HalfCentTotals | src/services/__tests__/invoice.test.ts:54-80 | 5 x 10.50 and 3 x 20.75 at 10% give 114.75, 11.48, 126.23; the half cents round away from zero |
| Workflow.LargeAmountTotals | src/services/__tests__/payment.test.ts:205-231 | 1 x 999999.99 and 5 x 500000.50 at 7% give 3500002.49, 245000.17, 3745002.66 |
| Workflow.RoundingPrecisionTotals | test/app.test.ts:135-154 | 3 x 33.33 at 7% gives 99.99, 7.00 (from 6.9993), 106.99 (from 106.9893) |
| Workflow.TotalNotSumOfRoundedFigures | src/services/invoice.service.ts:42-46 | 1 x 0.004 at rate 1 gives subtotal 0.00 and tax 0.00 but total 0.01: the total is rounded from the unrounded 0.008, not summed from the rounded figures |
| Workflow.TwoItemTotals | test/app.test.ts:9-37 | 10 x 150 and 1 x 500 at 10% give 2000, 200, 2200 |
| Workflow.OneItemTotals | test/app.test.ts:71-85 | 1 x 1000 at 8% gives 1000, 80, 1080 |
| Workflow.SettleInFull | test/app.test.ts:9-69 | end to end on real objects: totals 2000/200/2200. Paying 2200 leaves balance 0 and status Paid. The receipt shows 2200 paid, 0 remaining, and two lines of 1650 and 550 written by the totals calculation |
| Workflow.PayInInstalments | test/app.test.ts:71-133 | end to end on real objects: 1080 owed, paid 432, 432, 216. The three receipts show 648, 216 and 0 remaining, and the invoice ends Paid |

## Left out

- Host calls `crypto.randomUUID()`, `Date.now()` and `new Date()`
  (src/services/payment.service.ts:17, 21-22;
  src/services/receipt.service.ts:8, 10-11) are nondeterministic. Their
  results are parameters, so uniqueness of ids is not modelled.
- `roundToTwoDecimals` (src/utils/roundToTwoDecimals.util.ts) is not part
  of this model. It is the parameter `round2`, and the one concrete
  definition, `Rounding.RoundHalfAwayFromZero`, is an assumption.
- IEEE-754 behaviour is not modelled: accumulation-order artefacts, exact
  `===` on doubles, NaN (which passes the `<= 0` amount check in the
  library) and infinities. Amounts are exact reals.
- InvoiceItem: fields other than `lineTotal` and `taxAmount` are `const`,
  because none of the three services ever assigns them. The model
  therefore does not cover a caller changing an item's quantity, price or
  id between calls, which the library's plain objects would allow.
- CalculateInvoiceTotal: the item array is non-null and holds no null
  entries. The library would raise a host `TypeError` on such input, which
  is not modelled.
- `PaymentResult` is imported by src/services/payment.service.ts:3 but not
  declared in src/models/payment.model.ts. It is modelled from its
  construction at src/services/payment.service.ts:36-39.
- src/main.ts is a demonstration script that only prints sample data.
- The test files are used only as sources of properties and worked
  figures.
