/** The invoice status engine: the amount paid against an invoice, the
    status derived from it, and what it means for the stored statuses to be
    up to date. */
module Statuses {
  import opened Records

  /** Sum of the amounts of the payments against invoice `inv`
      (0 when there are none). */
  function PaidSum(payments: seq<Payment>, inv: InvoiceId): int
  {
    if payments == [] then 0
    else
      var last := payments[|payments| - 1];
      PaidSum(payments[..|payments| - 1], inv) + (if last.invoice == inv then last.amount else 0)
  }

  ghost predicate PositiveAmounts(payments: seq<Payment>)
  {
    forall p :: p in payments ==> p.amount > 0
  }

  ghost predicate NoPaymentFor(payments: seq<Payment>, inv: InvoiceId)
  {
    forall p :: p in payments ==> p.invoice != inv
  }

  /** With positive amounts, nothing has been paid exactly when no payment
      refers to the invoice. */
  lemma {:induction false} PaidSumZeroIffNoPayment(payments: seq<Payment>, inv: InvoiceId)
    requires PositiveAmounts(payments)
    ensures PaidSum(payments, inv) >= 0
    ensures PaidSum(payments, inv) == 0 <==> NoPaymentFor(payments, inv)
  {
    if payments != [] {
      var init, last := payments[..|payments| - 1], payments[|payments| - 1];
      assert payments == init + [last];
      PaidSumZeroIffNoPayment(init, inv);
      if last.invoice == inv {
        assert !NoPaymentFor(payments, inv);
      } else if NoPaymentFor(init, inv) {
        assert NoPaymentFor(payments, inv);
      }
    }
  }

  /** Appending a payment adds its amount to its own invoice's sum only. */
  lemma {:induction false} PaidSumAppend(payments: seq<Payment>, p: Payment, inv: InvoiceId)
    ensures PaidSum(payments + [p], inv) == PaidSum(payments, inv) + (if p.invoice == inv then p.amount else 0)
  {
    assert (payments + [p])[..|payments|] == payments;
  }

  /** The payments table after deleting the payments of invoice `inv`,
      in the same order. */
  function WithoutInvoice(payments: seq<Payment>, inv: InvoiceId): (r: seq<Payment>)
    ensures NoPaymentFor(r, inv)
    ensures forall p :: p in r ==> p in payments
    ensures forall p :: p in payments && p.invoice != inv ==> p in r
  {
    if payments == [] then []
    else
      var init, last := payments[..|payments| - 1], payments[|payments| - 1];
      assert payments == init + [last];
      var rest := WithoutInvoice(init, inv);
      if last.invoice == inv then rest else rest + [last]
  }

  /** Deleting one invoice's payments leaves every other invoice's sum as it was. */
  lemma {:induction false} WithoutInvoiceKeepsOtherSums(payments: seq<Payment>, inv: InvoiceId, other: InvoiceId)
    requires other != inv
    ensures PaidSum(WithoutInvoice(payments, inv), other) == PaidSum(payments, other)
  {
    if payments != [] {
      var init, last := payments[..|payments| - 1], payments[|payments| - 1];
      WithoutInvoiceKeepsOtherSums(init, inv, other);
      if last.invoice != inv {
        PaidSumAppend(WithoutInvoice(init, inv), last, other);
      }
    }
  }

  /** Deleting the payments of an invoice nobody has paid changes nothing. */
  lemma {:induction false} WithoutInvoiceUnpaid(payments: seq<Payment>, inv: InvoiceId)
    requires NoPaymentFor(payments, inv)
    ensures WithoutInvoice(payments, inv) == payments
  {
    if payments != [] {
      var init := payments[..|payments| - 1];
      assert payments == init + [payments[|payments| - 1]];
      WithoutInvoiceUnpaid(init, inv);
    }
  }

  /** Invoice total minus what has been paid against it. */
  function OpenBalance(invoices: map<InvoiceId, Invoice>, payments: seq<Payment>, inv: InvoiceId): int
    requires inv in invoices
  {
    invoices[inv].total - PaidSum(payments, inv)
  }

  /** The status of invoice `inv` recomputed from its total and its payments;
      an unknown invoice counts as open. */
  function InvoiceStatus(invoices: map<InvoiceId, Invoice>, payments: seq<Payment>, inv: InvoiceId): Status
  {
    if inv !in invoices then Open
    else
      var paid := PaidSum(payments, inv);
      if paid == 0 then Open
      else if paid < invoices[inv].total then Partial
      else Paid
  }

  /** What each status means when every payment amount is positive. */
  lemma StatusMeaning(invoices: map<InvoiceId, Invoice>, payments: seq<Payment>, inv: InvoiceId)
    requires PositiveAmounts(payments)
    ensures InvoiceStatus(invoices, payments, inv) == Open
        <==> inv !in invoices || NoPaymentFor(payments, inv)
    ensures InvoiceStatus(invoices, payments, inv) == Partial
        <==> inv in invoices && !NoPaymentFor(payments, inv) && PaidSum(payments, inv) < invoices[inv].total
    ensures InvoiceStatus(invoices, payments, inv) == Paid
        <==> inv in invoices && !NoPaymentFor(payments, inv) && PaidSum(payments, inv) >= invoices[inv].total
  {
    PaidSumZeroIffNoPayment(payments, inv);
  }

  /** Every stored status equals the recomputed one. */
  ghost predicate StatusesCurrent(invoices: map<InvoiceId, Invoice>, payments: seq<Payment>)
  {
    forall i :: i in invoices ==> invoices[i].status == InvoiceStatus(invoices, payments, i)
  }

  /** `a` and `b` hold the same invoices, apart perhaps from their stored statuses. */
  ghost predicate SameExceptStatus(a: map<InvoiceId, Invoice>, b: map<InvoiceId, Invoice>)
  {
    a.Keys == b.Keys && forall i :: i in a ==> a[i].(status := b[i].status) == b[i]
  }

  lemma SameExceptStatusTransitive(a: map<InvoiceId, Invoice>, b: map<InvoiceId, Invoice>, c: map<InvoiceId, Invoice>)
    requires SameExceptStatus(a, b) && SameExceptStatus(c, b)
    ensures SameExceptStatus(a, c)
  {
  }

  /** The up-to-date statuses are determined by the totals and the payments:
      two tables that differ only in stored statuses and are both current are equal. */
  lemma CurrentTableIsUnique(a: map<InvoiceId, Invoice>, b: map<InvoiceId, Invoice>, payments: seq<Payment>)
    requires SameExceptStatus(a, b)
    requires StatusesCurrent(a, payments) && StatusesCurrent(b, payments)
    ensures a == b
  {
    forall i | i in a
      ensures a[i] == b[i]
    {
      assert InvoiceStatus(a, payments, i) == InvoiceStatus(b, payments, i);
    }
  }
}
