/** A worked example on a fresh ledger: one product at 10.00 a carton with
    100 cartons in stock, one customer with 30 days' terms, and a delivery
    of 20 cartons on day 19723 (2024-01-01). Amounts are in cents. */
module Scenario {
  import opened Records
  import opened Statuses
  import opened Booking
  import opened Ledger

  /** Books the delivery, then tries to pay 250.00 (rejected: more than the
      open 200.00) and pays 200.00 (accepted: the invoice becomes paid). */
  method BookAndPay() returns (total: int, due: int, stock: int, rejected: bool, status: Status)
    ensures total == 20000 && due == 19723 + 30 && stock == 80
    ensures rejected && status == Paid
  {
    var l, p, c := NewShop();
    var booked := BookOne(l, c, p);
    total, due, stock := l.invoices[0].total, l.invoices[0].due, l.products[p].stock;
    rejected, status := PayInvoice(l);
  }

  /** On the booked invoice 0 of 200.00, nothing paid yet: a payment of
      250.00 is rejected, one of 200.00 is accepted and marks it paid. */
  method PayInvoice(l: Ledger) returns (rejected: bool, status: Status)
    requires l.Valid() && l.tolerance == 0
    requires l.invoices == map[0 := Invoice(0, 20000, 19723, 19753, Open)]
    requires l.payments == [] && l.nextPayment == 0
    modifies l
    ensures rejected && status == Paid
  {
    var tooMuch := l.RecordPayment(0, 25000, 19724, Bank, "");
    rejected := tooMuch.Failure?;
    var exact := l.RecordPayment(0, 20000, 19724, Bank, "");
    assert exact.Success?;
    assert l.payments == [Payment(0, 0, 20000, 19724, Bank, "")];
    assert PaidSum(l.payments, 0) == 20000;
    status := l.invoices[0].status;
  }

  /** Books the delivery and deletes it again before any payment: the stock
      is back at 100 and the invoice is gone. */
  method BookAndDelete() returns (stock: int, invoiceGone: bool, found: bool)
    ensures stock == 100 && invoiceGone && found
  {
    var l, p, c := NewShop();
    var booked := BookOne(l, c, p);
    found := l.DeleteDelivery(0);
    stock, invoiceGone := l.products[p].stock, 0 !in l.invoices;
  }

  /** A fresh ledger with the product and the customer of the example. */
  method NewShop() returns (l: Ledger, p: ProductId, c: CustomerId)
    ensures fresh(l)
    ensures l.Valid() && l.tolerance == 0
    ensures l.products == map[p := Product("Karton", "SKU-1", 1000, 100, 0)]
    ensures l.customers == map[c := Customer("Markt", "", "", 30)]
    ensures l.deliveries == map[] && l.invoices == map[] && l.payments == []
    ensures l.nextDelivery == 0 && l.nextInvoice == 0 && l.nextPayment == 0
  {
    l := new Ledger(0);
    var added := l.AddProduct("Karton", "SKU-1", 1000, 100, 0);
    p := added.value;
    c := l.AddCustomer("Markt", "", "", 30);
  }

  /** Books 20 cartons of product `p` for customer `c` on a ledger holding
      only them, under delivery and invoice id 0. */
  method BookOne(l: Ledger, c: CustomerId, p: ProductId) returns (ids: seq<DeliveryId>)
    requires l.Valid() && l.tolerance == 0
    requires l.products == map[p := Product("Karton", "SKU-1", 1000, 100, 0)]
    requires l.customers == map[c := Customer("Markt", "", "", 30)]
    requires l.deliveries == map[] && l.invoices == map[] && l.payments == []
    requires l.nextDelivery == 0 && l.nextInvoice == 0 && l.nextPayment == 0
    modifies l
    ensures l.Valid() && l.tolerance == 0
    ensures ids == [0]
    ensures l.products == map[p := Product("Karton", "SKU-1", 1000, 80, 0)]
    ensures l.deliveries == map[0 := Delivery(19723, c, p, 20, 1000, "")]
    ensures l.invoices == map[0 := Invoice(0, 20000, 19723, 19753, Open)]
    ensures l.payments == [] && l.nextPayment == 0
  {
    var quantities := map[p := 20];
    var line := Line(p, 20, 1000);
    ghost var t0 := l.Snapshot();
    assert Requested(t0.products, [p], quantities) == [line] by {
      assert Quantity(quantities, p) == 20;
      assert [p][..0] == [];
    }
    assert Debit(t0.products, [line]) == map[p := Product("Karton", "SKU-1", 1000, 80, 0)] by {
      assert [line][..0] == [];
    }
    assert NewDeliveries([line], 0, 19723, c, "") == map[0 := Delivery(19723, c, p, 20, 1000, "")] by {
      assert [line][..0] == [];
    }
    assert NewInvoices([line], 0, 0, 19723, 30) == map[0 := Invoice(0, 20000, 19723, 19753, Open)] by {
      assert [line][..0] == [];
    }
    var r := l.BookDelivery(c, 19723, "", [p], quantities);
    ids := r.value;
  }
}
