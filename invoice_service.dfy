/** The totals calculation of an invoice (`InvoiceService.calculateInvoiceTotal`).

    The calculation checks that there is at least one item, then that the
    invoice-level tax rate lies in [0, 1], then walks the items in order:
    each item must have a positive quantity and then a non-negative unit
    price, and each item that passes has its `lineTotal` and `taxAmount`
    overwritten in place before the next item is looked at. The three
    figures returned are rounded once, at the end, from the unrounded sums.

    `CalculateTotals` states the returned value (or the thrown message) as a
    function of the items' ids, quantities and unit prices;
    `CalculateInvoiceTotal` is the loop, proved to return that value and to
    leave behind exactly the in-place writes the loop makes, also when it
    throws halfway. */
module InvoiceService {
  import opened Models
  import opened Rounding

  const EmptyItemsMessage: string := "Invoice must contain at least one item"
  const TaxRateMessage: string := "Tax rate must be between 0 and 1"

  function QuantityMessage(id: string): string {
    "Invoice item id " + id + ": Quantity must be greater than 0"
  }

  function UnitPriceMessage(id: string): string {
    "Invoice item id " + id + ": Unit price cannot be negative"
  }

  predicate TaxRateValid(taxRate: real) {
    0.0 <= taxRate <= 1.0
  }

  /** An item passes validation when its quantity is positive and its unit
      price is not negative. */
  predicate ItemValid(item: InvoiceItem) {
    item.quantity > 0.0 && item.unitPrice >= 0.0
  }

  /** The message for an item that fails validation: the quantity is
      checked before the unit price. */
  function ItemError(item: InvoiceItem): string
    requires !ItemValid(item)
  {
    if item.quantity <= 0.0 then QuantityMessage(item.id) else UnitPriceMessage(item.id)
  }

  /** The index of the first item that fails validation, or the number of
      items when all pass. */
  function ValidPrefix(items: seq<InvoiceItem>): (k: nat)
    ensures k <= |items|
    ensures forall i :: 0 <= i < k ==> ItemValid(items[i])
    ensures k < |items| ==> !ItemValid(items[k])
  {
    if items == [] || !ItemValid(items[0]) then 0 else 1 + ValidPrefix(items[1..])
  }

  /** The number of items whose `lineTotal` and `taxAmount` the loop writes
      before it returns or throws. */
  function Processed(items: seq<InvoiceItem>, taxRate: real): nat {
    if |items| == 0 || !TaxRateValid(taxRate) then 0 else ValidPrefix(items)
  }

  /** The line total of an item: quantity times unit price. */
  function LineTotal(item: InvoiceItem): real {
    item.quantity * item.unitPrice
  }

  /** The tax on an amount at the given rate. */
  function TaxOn(amount: real, taxRate: real): real {
    amount * taxRate
  }

  /** The sum of the line totals, accumulated in item order. */
  function SumLineTotals(items: seq<InvoiceItem>): real {
    if items == [] then 0.0
    else SumLineTotals(items[..|items| - 1]) + LineTotal(items[|items| - 1])
  }

  /** The sum of the per-line tax amounts, each taken at the invoice-level
      rate, accumulated in item order. */
  function SumTaxAmounts(items: seq<InvoiceItem>, taxRate: real): real {
    if items == [] then 0.0
    else SumTaxAmounts(items[..|items| - 1], taxRate) + TaxOn(LineTotal(items[|items| - 1]), taxRate)
  }

  /** The value `calculateInvoiceTotal` returns, or the message it throws. */
  function CalculateTotals(items: seq<InvoiceItem>, taxRate: real, round2: real -> real): Result<InvoiceTotals> {
    if |items| == 0 then Err(EmptyItemsMessage)
    else if !TaxRateValid(taxRate) then Err(TaxRateMessage)
    else if ValidPrefix(items) < |items| then Err(ItemError(items[ValidPrefix(items)]))
    else
      var subtotal := SumLineTotals(items);
      var tax := SumTaxAmounts(items, taxRate);
      Ok(InvoiceTotals(round2(subtotal), round2(tax), round2(subtotal + tax)))
  }

  /** One more item extends both sums by its line total and its tax. */
  lemma SumsExtend(items: seq<InvoiceItem>, taxRate: real, i: nat)
    requires i < |items|
    ensures SumLineTotals(items[..i + 1]) == SumLineTotals(items[..i]) + LineTotal(items[i])
    ensures SumTaxAmounts(items[..i + 1], taxRate) == SumTaxAmounts(items[..i], taxRate) + TaxOn(LineTotal(items[i]), taxRate)
  {
    assert items[..i + 1][..i] == items[..i];
  }

  /** The item's derived fields hold its line total and the tax on it at the
      invoice-level rate (not at the item's own `taxRate`). */
  predicate Computed(item: InvoiceItem, taxRate: real)
    reads item
  {
    item.lineTotal == LineTotal(item) && item.taxAmount == TaxOn(item.lineTotal, taxRate)
  }

  /** `calculateInvoiceTotal` over the caller's item array. */
  method CalculateInvoiceTotal(items: array<InvoiceItem>, taxRate: real, round2: real -> real)
    returns (r: Result<InvoiceTotals>)
    modifies items[..]
    ensures items[..] == old(items[..])
    ensures r == CalculateTotals(old(items[..]), taxRate, round2)
    ensures var s := old(items[..]);
      forall x :: x in s[..Processed(s, taxRate)] ==> Computed(x, taxRate)
    ensures var s := old(items[..]);
      forall x :: x in s && x !in s[..Processed(s, taxRate)] ==>
        x.lineTotal == old(x.lineTotal) && x.taxAmount == old(x.taxAmount)
  {
    if items.Length == 0 {
      return Err(EmptyItemsMessage);
    }
    if taxRate < 0.0 || taxRate > 1.0 {
      return Err(TaxRateMessage);
    }
    ghost var s := items[..];
    var subtotal := 0.0;
    var tax := 0.0;
    for i := 0 to items.Length
      invariant forall j :: 0 <= j < i ==> ItemValid(s[j])
      invariant subtotal == SumLineTotals(s[..i])
      invariant tax == SumTaxAmounts(s[..i], taxRate)
      invariant forall x :: x in s[..i] ==> Computed(x, taxRate)
      invariant forall x :: x in s && x !in s[..i] ==>
        x.lineTotal == old(x.lineTotal) && x.taxAmount == old(x.taxAmount)
    {
      var item := items[i];
      if item.quantity <= 0.0 || item.unitPrice < 0.0 {
        FirstInvalidItemDecides(s, taxRate, round2, i);
        return Err(ItemError(item));
      }
      var lineTotal := LineTotal(item);
      var taxAmount := TaxOn(lineTotal, taxRate);
      SumsExtend(s, taxRate, i);
      subtotal := subtotal + lineTotal;
      tax := tax + taxAmount;
      item.lineTotal := lineTotal;
      item.taxAmount := taxAmount;
      assert s[..i + 1] == s[..i] + [item];
    }
    assert s[..|s|] == s;
    assert Processed(s, taxRate) == |s|;
    return Ok(InvoiceTotals(round2(subtotal), round2(tax), round2(subtotal + tax)));
  }

  // ---------------------------------------------------------------------
  // Properties of the calculation

  /** An empty item list fails, whatever the tax rate: this check comes first. */
  lemma EmptyItemsFailFirst(taxRate: real, round2: real -> real)
    ensures CalculateTotals([], taxRate, round2) == Err(EmptyItemsMessage)
  {
  }

  /** With at least one item, the tax-rate message is reported exactly when
      the rate lies outside [0, 1]; both bounds are accepted. */
  lemma TaxRateRejectedIffOutOfRange(items: seq<InvoiceItem>, taxRate: real, round2: real -> real)
    requires |items| > 0
    ensures CalculateTotals(items, taxRate, round2) == Err(TaxRateMessage) <==> (taxRate < 0.0 || taxRate > 1.0)
  {
    if TaxRateValid(taxRate) && ValidPrefix(items) < |items| {
      assert ItemError(items[ValidPrefix(items)])[0] == 'I' != TaxRateMessage[0];
    }
  }

  /** The first item in array order that fails a check decides the error,
      and within one item the quantity check comes before the price check;
      the items before it are the ones the loop has written. */
  lemma FirstInvalidItemDecides(items: seq<InvoiceItem>, taxRate: real, round2: real -> real, k: nat)
    requires TaxRateValid(taxRate)
    requires k < |items|
    requires forall i :: 0 <= i < k ==> ItemValid(items[i])
    requires !ItemValid(items[k])
    ensures Processed(items, taxRate) == k
    ensures items[k].quantity <= 0.0 ==> CalculateTotals(items, taxRate, round2) == Err(QuantityMessage(items[k].id))
    ensures items[k].quantity > 0.0 ==> CalculateTotals(items, taxRate, round2) == Err(UnitPriceMessage(items[k].id))
  {
    assert ValidPrefix(items) == k;
  }

  /** The calculation succeeds exactly when there are items, the rate is in
      [0, 1] and every item passes validation. */
  lemma SucceedsIffAllValid(items: seq<InvoiceItem>, taxRate: real, round2: real -> real)
    ensures CalculateTotals(items, taxRate, round2).Ok? <==>
      |items| > 0 && TaxRateValid(taxRate) && forall i :: 0 <= i < |items| ==> ItemValid(items[i])
  {
    if |items| > 0 && TaxRateValid(taxRate) && forall i :: 0 <= i < |items| ==> ItemValid(items[i]) {
      assert ValidPrefix(items) == |items|;
    }
  }

  /** The accumulated tax is the invoice-level rate applied to the
      accumulated line totals. */
  lemma {:induction false} TaxIsRateTimesSubtotal(items: seq<InvoiceItem>, taxRate: real)
    ensures SumTaxAmounts(items, taxRate) == taxRate * SumLineTotals(items)
  {
    if items != [] {
      var init, last := items[..|items| - 1], items[|items| - 1];
      TaxIsRateTimesSubtotal(init, taxRate);
      calc {
        SumTaxAmounts(items, taxRate);
        taxRate * SumLineTotals(init) + LineTotal(last) * taxRate;
        taxRate * (SumLineTotals(init) + LineTotal(last));
      }
    }
  }

  /** Valid items never make the accumulated line totals negative. */
  lemma {:induction false} SubtotalNonNegative(items: seq<InvoiceItem>)
    requires forall i :: 0 <= i < |items| ==> ItemValid(items[i])
    ensures SumLineTotals(items) >= 0.0
  {
    if items != [] {
      var last := items[|items| - 1];
      SubtotalNonNegative(items[..|items| - 1]);
      assert ItemValid(last);
      assert LineTotal(last) >= 0.0 by {
        assert last.quantity * last.unitPrice >= 0.0 * last.unitPrice;
      }
    }
  }

  /** With valid inputs the unrounded sums satisfy 0 <= tax <= subtotal. */
  lemma TaxBetweenZeroAndSubtotal(items: seq<InvoiceItem>, taxRate: real)
    requires TaxRateValid(taxRate)
    requires forall i :: 0 <= i < |items| ==> ItemValid(items[i])
    ensures 0.0 <= SumTaxAmounts(items, taxRate) <= SumLineTotals(items)
  {
    TaxIsRateTimesSubtotal(items, taxRate);
    SubtotalNonNegative(items);
    BoundByRate(taxRate, SumLineTotals(items), SumTaxAmounts(items, taxRate));
  }

  /** A rate in [0, 1] of a non-negative amount lies between 0 and that amount. */
  lemma BoundByRate(rate: real, amount: real, part: real)
    requires 0.0 <= rate <= 1.0 && amount >= 0.0 && part == rate * amount
    ensures 0.0 <= part <= amount
  {
    assert amount - part == (1.0 - rate) * amount;
  }

  /** On success, subtotal and tax are the rounded unrounded sums, the tax
      being the rate times the unrounded subtotal, and the total is rounded
      from the unrounded sum of the two, not from the rounded figures. */
  lemma SuccessFigures(items: seq<InvoiceItem>, taxRate: real, round2: real -> real)
    requires CalculateTotals(items, taxRate, round2).Ok?
    ensures var t := CalculateTotals(items, taxRate, round2).value;
      && t.subtotal == round2(SumLineTotals(items))
      && t.tax == round2(taxRate * SumLineTotals(items))
      && t.total == round2((1.0 + taxRate) * SumLineTotals(items))
  {
    TaxIsRateTimesSubtotal(items, taxRate);
  }

  /** A tax rate of 0 gives a tax of `round2(0)`, which is 0 for any rounding
      that leaves whole cents alone, and a total equal to the subtotal. */
  lemma ZeroTaxRate(items: seq<InvoiceItem>, round2: real -> real)
    requires CalculateTotals(items, 0.0, round2).Ok?
    ensures CalculateTotals(items, 0.0, round2).value.tax == round2(0.0)
    ensures FixesCents(round2) ==> CalculateTotals(items, 0.0, round2).value.tax == 0.0
    ensures CalculateTotals(items, 0.0, round2).value.total == CalculateTotals(items, 0.0, round2).value.subtotal
  {
    TaxIsRateTimesSubtotal(items, 0.0);
    var subtotal := SumLineTotals(items);
    assert SumTaxAmounts(items, 0.0) == 0.0;
    assert subtotal + SumTaxAmounts(items, 0.0) == subtotal;
    assert Cents(0) == 0.0;
  }
}
