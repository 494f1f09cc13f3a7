/** The ledger: the tables of products, customers, deliveries, invoices and
    payments, updated in place by the four write paths (booking a delivery,
    deleting a delivery, recording a payment, refreshing invoice statuses). */
module Ledger {
  import opened Records
  import opened Statuses
  import opened Booking

  datatype AddError = MissingField | DuplicateSku

  datatype PayError = Overpayment(attempted: int, open: int)

  /** Updating a union of maps updates its right-hand side. */
  lemma UpdateUnion<K, V>(m: map<K, V>, n: map<K, V>, k: K, v: V)
    ensures (m + n)[k := v] == m + n[k := v]
  {
  }

  /** All tables of the ledger together with their auto-increment counters. */
  datatype Tables = Tables(
    products: map<ProductId, Product>,
    customers: map<CustomerId, Customer>,
    deliveries: map<DeliveryId, Delivery>,
    invoices: map<InvoiceId, Invoice>,
    payments: seq<Payment>,
    nextProduct: nat, nextCustomer: nat, nextDelivery: nat, nextInvoice: nat, nextPayment: nat)

  ghost predicate StockValid(t: Tables)
  {
    && (forall p :: p in t.products ==> p < t.nextProduct && t.products[p].stock >= 0)
    && (forall c :: c in t.customers ==> c < t.nextCustomer)
  }

  ghost predicate DeliveriesValid(t: Tables)
  {
    forall d :: d in t.deliveries ==>
      && d < t.nextDelivery
      && t.deliveries[d].product in t.products
      && t.deliveries[d].customer in t.customers
      && t.deliveries[d].qty > 0
      && t.deliveries[d].unitPrice > 0
  }

  /** Invoices refer to existing deliveries, one invoice per delivery and one
      delivery per invoice, with total = unit price * quantity. */
  ghost predicate InvoicesValid(t: Tables)
  {
    && (forall i :: i in t.invoices ==>
          && i < t.nextInvoice
          && t.invoices[i].delivery in t.deliveries
          && t.invoices[i].total == t.deliveries[t.invoices[i].delivery].unitPrice * t.deliveries[t.invoices[i].delivery].qty)
    && (forall i, j :: i in t.invoices && j in t.invoices && t.invoices[i].delivery == t.invoices[j].delivery ==> i == j)
    && (forall d :: d in t.deliveries ==> exists i :: i in t.invoices && t.invoices[i].delivery == d)
  }

  /** Payments refer to existing invoices, are positive, and never exceed an
      invoice's total by more than the tolerance. */
  ghost predicate PaymentsValid(t: Tables, tolerance: int)
  {
    && (forall p :: p in t.payments ==> p.id < t.nextPayment && p.invoice in t.invoices && p.amount > 0)
    && (forall i :: i in t.invoices ==> PaidSum(t.payments, i) <= t.invoices[i].total + tolerance)
  }

  /** The ledger's invariant: stock is never negative, every delivery has
      exactly one invoice, totals are price times quantity, payments stay
      within the totals plus the tolerance, and every stored status is up to date. */
  ghost predicate TablesValid(t: Tables, tolerance: int)
  {
    && StockValid(t)
    && DeliveriesValid(t)
    && InvoicesValid(t)
    && PaymentsValid(t, tolerance)
    && StatusesCurrent(t.invoices, t.payments)
  }

  /** The tables after the write pass of a booking of `lines` for `customer`
      on day `date` (before the status refresh). */
  function Written(t: Tables, lines: seq<Line>, date: int, customer: CustomerId, note: string): Tables
    requires customer in t.customers
  {
    t.(products := Debit(t.products, lines),
       deliveries := t.deliveries + NewDeliveries(lines, t.nextDelivery, date, customer, note),
       invoices := t.invoices + NewInvoices(lines, t.nextInvoice, t.nextDelivery, date, t.customers[customer].terms),
       nextDelivery := t.nextDelivery + |lines|,
       nextInvoice := t.nextInvoice + |lines|)
  }

  /** One step of the write pass on the tables: the line's delivery under the
      next delivery id, its product's stock lowered by its quantity, and the
      invoice of that delivery under the next invoice id. */
  function WriteStep(w: Tables, l: Line, date: int, customer: CustomerId, note: string, terms: int): Tables
    requires l.product in w.products
  {
    w.(deliveries := w.deliveries[w.nextDelivery := Delivery(date, customer, l.product, l.qty, l.unitPrice, note)],
       products := w.products[l.product := w.products[l.product].(stock := w.products[l.product].stock - l.qty)],
       invoices := w.invoices[w.nextInvoice := Invoice(w.nextDelivery, l.unitPrice * l.qty, date, date + terms, Open)],
       nextDelivery := w.nextDelivery + 1,
       nextInvoice := w.nextInvoice + 1)
  }

  /** Writing one more line is one more write step. */
  lemma WrittenExtend(t: Tables, lines: seq<Line>, k: nat, date: int, customer: CustomerId, note: string)
    requires k < |lines|
    requires customer in t.customers
    requires lines[k].product in t.products
    ensures lines[k].product in Written(t, lines[..k], date, customer, note).products
    ensures Written(t, lines[..k + 1], date, customer, note)
         == WriteStep(Written(t, lines[..k], date, customer, note), lines[k], date, customer, note, t.customers[customer].terms)
  {
    var l, terms := lines[k], t.customers[customer].terms;
    var w, w' := Written(t, lines[..k], date, customer, note), Written(t, lines[..k + 1], date, customer, note);
    var s := WriteStep(w, l, date, customer, note, terms);
    assert w'.products == s.products by {
      DebitExtend(t.products, lines, k);
    }
    assert w'.deliveries == s.deliveries by {
      NewDeliveriesExtend(lines, k, t.nextDelivery, date, customer, note);
      UpdateUnion(t.deliveries, NewDeliveries(lines[..k], t.nextDelivery, date, customer, note), t.nextDelivery + k,
                  Delivery(date, customer, l.product, l.qty, l.unitPrice, note));
    }
    assert w'.invoices == s.invoices by {
      NewInvoicesExtend(lines, k, t.nextInvoice, t.nextDelivery, date, terms);
      UpdateUnion(t.invoices, NewInvoices(lines[..k], t.nextInvoice, t.nextDelivery, date, terms), t.nextInvoice + k,
                  Invoice(t.nextDelivery + k, l.unitPrice * l.qty, date, date + terms, Open));
    }
  }

  /** Lines that passed validation: distinct products, each with a price and
      no more than the product's stock. */
  ghost predicate ValidatedLines(t: Tables, lines: seq<Line>)
  {
    && DistinctProducts(lines)
    && forall l :: l in lines ==> l.product in t.products && 0 < l.qty <= t.products[l.product].stock && l.unitPrice > 0
  }

  /** A booking of validated lines keeps the invariant, and the new invoices'
      stored status `open` is already the recomputed one. */
  lemma WrittenValid(t: Tables, tolerance: int, lines: seq<Line>, date: int, customer: CustomerId, note: string)
    requires TablesValid(t, tolerance) && tolerance >= 0
    requires customer in t.customers
    requires ValidatedLines(t, lines)
    ensures TablesValid(Written(t, lines, date, customer, note), tolerance)
  {
    var w := Written(t, lines, date, customer, note);
    DebitKeepsStockNonNegative(t.products, lines);
    WrittenDeliveriesValid(t, tolerance, lines, date, customer, note);
    WrittenInvoicesValid(t, tolerance, lines, date, customer, note);
    WrittenPaymentsValid(t, tolerance, lines, date, customer, note);
  }

  lemma WrittenDeliveriesValid(t: Tables, tolerance: int, lines: seq<Line>, date: int, customer: CustomerId, note: string)
    requires TablesValid(t, tolerance)
    requires customer in t.customers
    requires ValidatedLines(t, lines)
    ensures DeliveriesValid(Written(t, lines, date, customer, note))
  {
    var w := Written(t, lines, date, customer, note);
    var nd := NewDeliveries(lines, t.nextDelivery, date, customer, note);
    NewDeliveriesAt(lines, t.nextDelivery, date, customer, note);
    forall d | d in w.deliveries
      ensures d < w.nextDelivery && w.deliveries[d].product in w.products && w.deliveries[d].customer in w.customers
      ensures w.deliveries[d].qty > 0 && w.deliveries[d].unitPrice > 0
    {
      if d in nd {
        assert lines[d - t.nextDelivery] in lines;
      }
    }
  }

  lemma WrittenInvoicesValid(t: Tables, tolerance: int, lines: seq<Line>, date: int, customer: CustomerId, note: string)
    requires TablesValid(t, tolerance)
    requires customer in t.customers
    ensures InvoicesValid(Written(t, lines, date, customer, note))
  {
    WrittenInvoiceRows(t, tolerance, lines, date, customer, note);
    WrittenInvoicesUnique(t, tolerance, lines, date, customer, note);
    WrittenDeliveriesInvoiced(t, tolerance, lines, date, customer, note);
  }

  /** Each invoice, old or new, belongs to an existing delivery and totals its
      price times quantity; the new invoices are exactly those of the new deliveries. */
  lemma WrittenInvoiceRows(t: Tables, tolerance: int, lines: seq<Line>, date: int, customer: CustomerId, note: string)
    requires TablesValid(t, tolerance)
    requires customer in t.customers
    ensures var w := Written(t, lines, date, customer, note);
      forall i :: i in w.invoices ==>
        && i < w.nextInvoice && w.invoices[i].delivery in w.deliveries
        && w.invoices[i].total == w.deliveries[w.invoices[i].delivery].unitPrice * w.deliveries[w.invoices[i].delivery].qty
        && (i >= t.nextInvoice <==> w.invoices[i].delivery >= t.nextDelivery)
  {
    var w := Written(t, lines, date, customer, note);
    var nd := NewDeliveries(lines, t.nextDelivery, date, customer, note);
    var ni := NewInvoices(lines, t.nextInvoice, t.nextDelivery, date, t.customers[customer].terms);
    NewDeliveriesAt(lines, t.nextDelivery, date, customer, note);
    NewInvoicesAt(lines, t.nextInvoice, t.nextDelivery, date, t.customers[customer].terms);
    forall i | i in w.invoices
      ensures i < w.nextInvoice && w.invoices[i].delivery in w.deliveries
      ensures w.invoices[i].total == w.deliveries[w.invoices[i].delivery].unitPrice * w.deliveries[w.invoices[i].delivery].qty
      ensures i >= t.nextInvoice <==> w.invoices[i].delivery >= t.nextDelivery
    {
      if i in ni {
        var d := t.nextDelivery + (i - t.nextInvoice);
        assert w.invoices[i] == ni[i] && ni[i].delivery == d;
        assert d in nd && w.deliveries[d] == nd[d];
      } else {
        assert w.invoices[i] == t.invoices[i];
        assert t.invoices[i].delivery !in nd;
      }
    }
  }

  lemma WrittenInvoicesUnique(t: Tables, tolerance: int, lines: seq<Line>, date: int, customer: CustomerId, note: string)
    requires TablesValid(t, tolerance)
    requires customer in t.customers
    ensures var w := Written(t, lines, date, customer, note);
      forall i, j :: i in w.invoices && j in w.invoices && w.invoices[i].delivery == w.invoices[j].delivery ==> i == j
  {
    var w := Written(t, lines, date, customer, note);
    WrittenInvoiceRows(t, tolerance, lines, date, customer, note);
    NewInvoicesAt(lines, t.nextInvoice, t.nextDelivery, date, t.customers[customer].terms);
  }

  lemma WrittenDeliveriesInvoiced(t: Tables, tolerance: int, lines: seq<Line>, date: int, customer: CustomerId, note: string)
    requires TablesValid(t, tolerance)
    requires customer in t.customers
    ensures var w := Written(t, lines, date, customer, note);
      forall d :: d in w.deliveries ==> exists i :: i in w.invoices && w.invoices[i].delivery == d
  {
    var w := Written(t, lines, date, customer, note);
    var nd := NewDeliveries(lines, t.nextDelivery, date, customer, note);
    var ni := NewInvoices(lines, t.nextInvoice, t.nextDelivery, date, t.customers[customer].terms);
    NewDeliveriesAt(lines, t.nextDelivery, date, customer, note);
    NewInvoicesAt(lines, t.nextInvoice, t.nextDelivery, date, t.customers[customer].terms);
    forall d | d in w.deliveries
      ensures exists i :: i in w.invoices && w.invoices[i].delivery == d
    {
      if d in nd {
        var i := t.nextInvoice + (d - t.nextDelivery);
        assert i in ni && w.invoices[i].delivery == d;
      } else {
        var i :| i in t.invoices && t.invoices[i].delivery == d;
        assert i !in ni && w.invoices[i].delivery == d;
      }
    }
  }

  lemma WrittenPaymentsValid(t: Tables, tolerance: int, lines: seq<Line>, date: int, customer: CustomerId, note: string)
    requires TablesValid(t, tolerance) && tolerance >= 0
    requires customer in t.customers
    requires ValidatedLines(t, lines)
    ensures PaymentsValid(Written(t, lines, date, customer, note), tolerance)
    ensures StatusesCurrent(Written(t, lines, date, customer, note).invoices, t.payments)
  {
    var w := Written(t, lines, date, customer, note);
    var ni := NewInvoices(lines, t.nextInvoice, t.nextDelivery, date, t.customers[customer].terms);
    NewInvoicesUnpaid(t, tolerance, lines, date, customer, note);
    forall i | i in w.invoices
      ensures PaidSum(t.payments, i) <= w.invoices[i].total + tolerance
    {
      if i !in ni {
        assert w.invoices[i] == t.invoices[i];
      }
    }
    forall i | i in w.invoices
      ensures w.invoices[i].status == InvoiceStatus(w.invoices, t.payments, i)
    {
      if i !in ni {
        assert w.invoices[i] == t.invoices[i];
        assert t.invoices[i].status == InvoiceStatus(t.invoices, t.payments, i);
      }
    }
  }

  /** The new invoices have a positive total, nothing paid against them, and
      the stored status `open`. */
  lemma NewInvoicesUnpaid(t: Tables, tolerance: int, lines: seq<Line>, date: int, customer: CustomerId, note: string)
    requires TablesValid(t, tolerance)
    requires customer in t.customers
    requires ValidatedLines(t, lines)
    ensures var ni := NewInvoices(lines, t.nextInvoice, t.nextDelivery, date, t.customers[customer].terms);
      forall i :: i in ni ==> i !in t.invoices && PaidSum(t.payments, i) == 0 < ni[i].total && ni[i].status == Open
  {
    var ni := NewInvoices(lines, t.nextInvoice, t.nextDelivery, date, t.customers[customer].terms);
    NewInvoicesAt(lines, t.nextInvoice, t.nextDelivery, date, t.customers[customer].terms);
    forall i | i in ni
      ensures i !in t.invoices && PaidSum(t.payments, i) == 0 < ni[i].total && ni[i].status == Open
    {
      var l := lines[i - t.nextInvoice];
      assert l in lines;
      PositiveTotal(l.unitPrice, l.qty);
      assert NoPaymentFor(t.payments, i);
      PaidSumZeroIffNoPayment(t.payments, i);
    }
  }

  lemma PositiveTotal(unitPrice: int, qty: int)
    requires unitPrice > 0 && qty > 0
    ensures unitPrice * qty > 0
  {
  }

  /** The tables after deleting delivery `id` together with its invoice `inv`
      and that invoice's payments, and restoring the delivered quantity. */
  function Deleted(t: Tables, id: DeliveryId, inv: InvoiceId): Tables
    requires id in t.deliveries && t.deliveries[id].product in t.products
  {
    var d := t.deliveries[id];
    t.(products := Restock(t.products, d.product, d.qty),
       deliveries := t.deliveries - {id},
       invoices := t.invoices - {inv},
       payments := WithoutInvoice(t.payments, inv))
  }

  /** Deleting a delivery with its own invoice keeps the invariant. */
  lemma DeletedValid(t: Tables, tolerance: int, id: DeliveryId, inv: InvoiceId)
    requires TablesValid(t, tolerance)
    requires id in t.deliveries && inv in t.invoices && t.invoices[inv].delivery == id
    ensures TablesValid(Deleted(t, id, inv), tolerance)
  {
    var w := Deleted(t, id, inv);
    assert StockValid(w) && DeliveriesValid(w);
    DeletedInvoicesValid(t, tolerance, id, inv);
    DeletedPaymentsValid(t, tolerance, id, inv);
  }

  lemma DeletedInvoicesValid(t: Tables, tolerance: int, id: DeliveryId, inv: InvoiceId)
    requires TablesValid(t, tolerance)
    requires id in t.deliveries && inv in t.invoices && t.invoices[inv].delivery == id
    ensures InvoicesValid(Deleted(t, id, inv))
  {
    var w := Deleted(t, id, inv);
    forall i | i in w.invoices
      ensures w.invoices[i].delivery in w.deliveries
    {
      assert w.invoices[i].delivery != id;
    }
    forall d | d in w.deliveries
      ensures exists i :: i in w.invoices && w.invoices[i].delivery == d
    {
      var i :| i in t.invoices && t.invoices[i].delivery == d;
      assert i in w.invoices;
    }
  }

  lemma DeletedPaymentsValid(t: Tables, tolerance: int, id: DeliveryId, inv: InvoiceId)
    requires TablesValid(t, tolerance)
    requires id in t.deliveries && inv in t.invoices && t.invoices[inv].delivery == id
    ensures PaymentsValid(Deleted(t, id, inv), tolerance)
    ensures StatusesCurrent(Deleted(t, id, inv).invoices, Deleted(t, id, inv).payments)
  {
    var w := Deleted(t, id, inv);
    forall i | i in w.invoices
      ensures PaidSum(w.payments, i) == PaidSum(t.payments, i)
    {
      WithoutInvoiceKeepsOtherSums(t.payments, inv, i);
    }
    forall i | i in w.invoices
      ensures w.invoices[i].status == InvoiceStatus(w.invoices, w.payments, i)
    {
      assert t.invoices[i].status == InvoiceStatus(t.invoices, t.payments, i);
    }
  }

  /** Booking a single line and then deleting the delivery it created gives
      back the tables as they were, apart from the id counters, which never
      go back: the product's stock is restored and the delivery, its invoice
      and (absent) payments are gone. */
  lemma BookThenDeleteRestores(t: Tables, tolerance: int, l: Line, date: int, customer: CustomerId, note: string)
    requires TablesValid(t, tolerance)
    requires customer in t.customers && l.product in t.products
    ensures
      var w := Written(t, [l], date, customer, note);
      && t.nextDelivery in w.deliveries && w.deliveries[t.nextDelivery].product == l.product
      && t.nextInvoice in w.invoices && w.invoices[t.nextInvoice].delivery == t.nextDelivery
      && Deleted(w, t.nextDelivery, t.nextInvoice)
           == t.(nextDelivery := t.nextDelivery + 1, nextInvoice := t.nextInvoice + 1)
  {
    assert t.nextDelivery !in t.deliveries;
    assert t.nextInvoice !in t.invoices;
    assert NoPaymentFor(t.payments, t.nextInvoice);
    DeleteUndoesWrite(t, l, date, customer, note);
  }

  /** The round trip above, given only that the ids the booking takes are
      fresh and nothing is paid against the new invoice id. */
  lemma DeleteUndoesWrite(t: Tables, l: Line, date: int, customer: CustomerId, note: string)
    requires customer in t.customers && l.product in t.products
    requires t.nextDelivery !in t.deliveries && t.nextInvoice !in t.invoices
    requires NoPaymentFor(t.payments, t.nextInvoice)
    ensures
      var w := Written(t, [l], date, customer, note);
      && t.nextDelivery in w.deliveries && w.deliveries[t.nextDelivery].product == l.product
      && t.nextInvoice in w.invoices && w.invoices[t.nextInvoice].delivery == t.nextDelivery
      && Deleted(w, t.nextDelivery, t.nextInvoice)
           == t.(nextDelivery := t.nextDelivery + 1, nextInvoice := t.nextInvoice + 1)
  {
    var terms := t.customers[customer].terms;
    assert [l][..0] == [];
    var nd := map[t.nextDelivery := Delivery(date, customer, l.product, l.qty, l.unitPrice, note)];
    var ni := map[t.nextInvoice := Invoice(t.nextDelivery, l.unitPrice * l.qty, date, date + terms, Open)];
    assert NewDeliveries([l], t.nextDelivery, date, customer, note) == nd;
    assert NewInvoices([l], t.nextInvoice, t.nextDelivery, date, terms) == ni;
    var w := Written(t, [l], date, customer, note);
    var r := Deleted(w, t.nextDelivery, t.nextInvoice);
    assert r.products == t.products by {
      RestockUndoesDebit(t.products, l);
    }
    assert r.payments == t.payments by {
      WithoutInvoiceUnpaid(t.payments, t.nextInvoice);
    }
  }

  /** The tables after appending payment `p` to the payments of invoice
      `p.invoice` and updating that invoice's stored status. */
  function Recorded(t: Tables, p: Payment): Tables
    requires p.invoice in t.invoices
  {
    var payments := t.payments + [p];
    t.(payments := payments,
       nextPayment := t.nextPayment + 1,
       invoices := t.invoices[p.invoice := t.invoices[p.invoice].(status := InvoiceStatus(t.invoices, payments, p.invoice))])
  }

  /** A payment of at most the open balance plus the tolerance keeps the
      invariant, in particular every invoice's paid sum stays within its
      total plus the tolerance. */
  lemma RecordedValid(t: Tables, tolerance: int, p: Payment)
    requires TablesValid(t, tolerance)
    requires p.invoice in t.invoices && p.id == t.nextPayment && p.amount > 0
    requires p.amount <= OpenBalance(t.invoices, t.payments, p.invoice) + tolerance
    ensures TablesValid(Recorded(t, p), tolerance)
  {
    var w := Recorded(t, p);
    assert w.products == t.products && w.customers == t.customers && w.deliveries == t.deliveries;
    assert w.nextProduct == t.nextProduct && w.nextCustomer == t.nextCustomer;
    assert w.nextDelivery == t.nextDelivery && w.nextInvoice == t.nextInvoice;
    assert SameExceptStatus(w.invoices, t.invoices);
    assert StockValid(w) && DeliveriesValid(w);
    InvoicesValidIgnoresStatus(t, w);
    RecordedWithinTotals(t, tolerance, p);
    RecordedStatusesCurrent(t, p);
  }

  /** The invoice invariant does not depend on the stored statuses. */
  lemma InvoicesValidIgnoresStatus(t: Tables, w: Tables)
    requires InvoicesValid(t)
    requires w.deliveries == t.deliveries && w.nextInvoice == t.nextInvoice
    requires SameExceptStatus(w.invoices, t.invoices)
    ensures InvoicesValid(w)
  {
    forall d | d in w.deliveries
      ensures exists i :: i in w.invoices && w.invoices[i].delivery == d
    {
      var i :| i in t.invoices && t.invoices[i].delivery == d;
      assert i in w.invoices && w.invoices[i].delivery == d;
    }
  }

  lemma RecordedWithinTotals(t: Tables, tolerance: int, p: Payment)
    requires PaymentsValid(t, tolerance)
    requires p.invoice in t.invoices && p.id == t.nextPayment && p.amount > 0
    requires p.amount <= OpenBalance(t.invoices, t.payments, p.invoice) + tolerance
    ensures PaymentsValid(Recorded(t, p), tolerance)
  {
    var w := Recorded(t, p);
    forall i | i in w.invoices
      ensures PaidSum(w.payments, i) <= w.invoices[i].total + tolerance
    {
      PaidSumAppend(t.payments, p, i);
    }
  }

  /** Refreshing every status after appending the payment yields exactly the
      tables of Recorded: only the paid invoice's status can change. */
  lemma RecordedByRefresh(t: Tables, p: Payment, invoices: map<InvoiceId, Invoice>)
    requires StatusesCurrent(t.invoices, t.payments)
    requires p.invoice in t.invoices
    requires SameExceptStatus(invoices, t.invoices)
    requires StatusesCurrent(invoices, t.payments + [p])
    ensures Recorded(t, p) == t.(payments := t.payments + [p], nextPayment := t.nextPayment + 1, invoices := invoices)
  {
    var w := Recorded(t, p);
    RecordedStatusesCurrent(t, p);
    assert SameExceptStatus(w.invoices, t.invoices);
    SameExceptStatusTransitive(invoices, t.invoices, w.invoices);
    CurrentTableIsUnique(invoices, w.invoices, w.payments);
  }

  /** Recomputing the paid invoice's status after the insert leaves every
      stored status current. */
  lemma RecordedStatusesCurrent(t: Tables, p: Payment)
    requires StatusesCurrent(t.invoices, t.payments)
    requires p.invoice in t.invoices
    ensures StatusesCurrent(Recorded(t, p).invoices, Recorded(t, p).payments)
  {
    var w := Recorded(t, p);
    forall i | i in w.invoices
      ensures w.invoices[i].status == InvoiceStatus(w.invoices, w.payments, i)
    {
      PaidSumAppend(t.payments, p, i);
      if i != p.invoice {
        assert t.invoices[i].status == InvoiceStatus(t.invoices, t.payments, i);
      }
    }
  }

  class Ledger {
    /** Allowed excess of a payment over the open balance, in cents. */
    const tolerance: int

    var products: map<ProductId, Product>
    var customers: map<CustomerId, Customer>
    var deliveries: map<DeliveryId, Delivery>
    var invoices: map<InvoiceId, Invoice>
    var payments: seq<Payment>

    /** The next identity each table's auto-increment hands out. */
    var nextProduct: nat
    var nextCustomer: nat
    var nextDelivery: nat
    var nextInvoice: nat
    var nextPayment: nat

    /** The current contents of all tables. */
    ghost function Snapshot(): Tables
      reads this
    {
      Tables(products, customers, deliveries, invoices, payments,
             nextProduct, nextCustomer, nextDelivery, nextInvoice, nextPayment)
    }

    /** The ledger's invariant: see TablesValid. */
    ghost predicate Valid()
      reads this
    {
      tolerance >= 0 && TablesValid(Snapshot(), tolerance)
    }

    constructor (tolerance: int)
      requires tolerance >= 0
      ensures Valid()
      ensures this.tolerance == tolerance
      ensures products == map[] && customers == map[] && deliveries == map[] && invoices == map[] && payments == []
      ensures nextProduct == 0 && nextCustomer == 0 && nextDelivery == 0 && nextInvoice == 0 && nextPayment == 0
    {
      this.tolerance := tolerance;
      products, customers, deliveries, invoices, payments := map[], map[], map[], map[], [];
      nextProduct, nextCustomer, nextDelivery, nextInvoice, nextPayment := 0, 0, 0, 0, 0;
    }

    /** Adds a product; name and SKU are required and the SKU must be new. */
    method AddProduct(name: string, sku: string, price: int, stock: int, minStock: int) returns (r: Result<ProductId, AddError>)
      requires Valid()
      requires stock >= 0
      modifies this`products, this`nextProduct
      ensures Valid()
      ensures r.Failure? ==> products == old(products) && nextProduct == old(nextProduct)
      ensures r.Success? <==> name != [] && sku != [] && forall p :: p in old(products) ==> old(products)[p].sku != sku
      ensures r == Failure(MissingField) <==> name == [] || sku == []
      ensures r == Failure(DuplicateSku) <==>
        name != [] && sku != [] && exists p :: p in old(products) && old(products)[p].sku == sku
      ensures r.Success? ==>
        && r.value == old(nextProduct) && nextProduct == old(nextProduct) + 1
        && products == old(products)[r.value := Product(name, sku, price, stock, minStock)]
    {
      if name == [] || sku == [] {
        return Failure(MissingField);
      }
      if exists p :: p in products && products[p].sku == sku {
        return Failure(DuplicateSku);
      }
      r := Success(nextProduct);
      products := products[nextProduct := Product(name, sku, price, stock, minStock)];
      nextProduct := nextProduct + 1;
    }

    /** Adds a customer with payment terms of `terms` days. */
    method AddCustomer(name: string, address: string, contact: string, terms: int) returns (id: CustomerId)
      requires Valid()
      modifies this`customers, this`nextCustomer
      ensures Valid()
      ensures id == old(nextCustomer) && nextCustomer == old(nextCustomer) + 1
      ensures customers == old(customers)[id := Customer(name, address, contact, terms)]
    {
      id := nextCustomer;
      customers := customers[id := Customer(name, address, contact, terms)];
      nextCustomer := nextCustomer + 1;
    }

    /** Overwrites every invoice's stored status with the recomputed one. */
    method RefreshInvoiceStatuses()
      modifies this`invoices
      ensures SameExceptStatus(invoices, old(invoices))
      ensures StatusesCurrent(invoices, payments)
      ensures Snapshot() == old(Snapshot()).(invoices := invoices)
    {
      ghost var before := invoices;
      var todo := invoices.Keys;
      while todo != {}
        invariant todo <= before.Keys
        invariant SameExceptStatus(invoices, before)
        invariant forall i :: i in before && i !in todo ==> invoices[i].status == InvoiceStatus(before, payments, i)
        decreases todo
      {
        var i :| i in todo;
        var s := InvoiceStatus(invoices, payments, i);
        invoices := invoices[i := invoices[i].(status := s)];
        todo := todo - {i};
      }
      forall i | i in invoices
        ensures invoices[i].status == InvoiceStatus(invoices, payments, i)
      {
        assert InvoiceStatus(invoices, payments, i) == InvoiceStatus(before, payments, i);
      }
    }

    /** Books one delivery per selected product with a positive quantity, and
        one invoice per delivery, after validating every line first; a
        rejected booking writes nothing. */
    method BookDelivery(customer: CustomerId, date: int, note: string, selected: seq<ProductId>, quantities: map<ProductId, int>)
      returns (r: Result<seq<DeliveryId>, BookError>)
      requires Valid()
      requires customer in customers
      requires InCatalog(products, selected)
      requires Distinct(selected)
      modifies this`products, this`deliveries, this`invoices, this`nextDelivery, this`nextInvoice
      ensures Valid()
      ensures r.Success? <==> selected != [] && AnyWanted(selected, quantities) && AllFit(old(products), selected, quantities)
      ensures selected == [] ==> r == Failure(NothingSelected)
      ensures r.Failure? ==> Snapshot() == old(Snapshot())
      ensures r.Success? ==>
        var lines := Requested(old(products), selected, quantities);
        && Snapshot() == Written(old(Snapshot()), lines, date, customer, note)
        && |r.value| == |lines|
        && (forall k :: 0 <= k < |lines| ==> r.value[k] == old(nextDelivery) + k)
    {
      if selected == [] {
        return Failure(NothingSelected);
      }
      var checked := ValidateLines(products, selected, quantities);
      if checked.Failure? {
        return Failure(checked.error);
      }
      var lines := checked.value;
      RequestedDistinct(products, selected, quantities);
      assert ValidatedLines(Snapshot(), lines);
      WrittenValid(Snapshot(), tolerance, lines, date, customer, note);
      var ids := WriteLines(lines, date, customer, note);
      ghost var written := invoices;
      RefreshInvoiceStatuses();
      CurrentTableIsUnique(invoices, written, payments);
      r := Success(ids);
    }

    /** Deletes delivery `id`: adds its quantity back to its product's stock,
        deletes the payments of its invoice, the invoice and the delivery.
        An unknown delivery is reported and nothing changes. */
    method DeleteDelivery(id: DeliveryId) returns (found: bool)
      requires Valid()
      modifies this`products, this`deliveries, this`invoices, this`payments
      ensures Valid()
      ensures found <==> id in old(deliveries)
      ensures !found ==> Snapshot() == old(Snapshot())
      ensures found ==> exists inv :: inv in old(invoices) && old(invoices)[inv].delivery == id
                                     && Snapshot() == Deleted(old(Snapshot()), id, inv)
    {
      if id !in deliveries {
        return false;
      }
      ghost var t0 := Snapshot();
      var inv :| inv in invoices && invoices[inv].delivery == id;
      DeletedValid(t0, tolerance, id, inv);
      RemoveDelivery(id, inv);
      found := true;
    }

    /** Records a payment against invoice `inv` unless it exceeds the open
        balance by more than the tolerance; then refreshes the statuses. */
    method RecordPayment(inv: InvoiceId, amount: int, paidAt: int, via: PayMethod, note: string)
      returns (r: Result<PaymentId, PayError>)
      requires Valid()
      requires inv in invoices
      requires amount > 0
      modifies this`invoices, this`payments, this`nextPayment
      ensures Valid()
      ensures r.Failure? <==> amount > OpenBalance(old(invoices), old(payments), inv) + tolerance
      ensures r.Failure? ==>
        && r.error == Overpayment(amount, OpenBalance(old(invoices), old(payments), inv))
        && Snapshot() == old(Snapshot())
      ensures r.Success? ==>
        && r.value == old(nextPayment)
        && Snapshot() == Recorded(old(Snapshot()), Payment(r.value, inv, amount, paidAt, via, note))
    {
      var open := invoices[inv].total - PaidSum(payments, inv);
      if amount > open + tolerance {
        return Failure(Overpayment(amount, open));
      }
      var p := Payment(nextPayment, inv, amount, paidAt, via, note);
      ghost var t0 := Snapshot();
      RecordedValid(t0, tolerance, p);
      AppendPayment(p);
      RefreshInvoiceStatuses();
      RecordedByRefresh(t0, p, invoices);
      r := Success(p.id);
    }

    /** The write pass of a booking: for each line, insert a delivery, lower
        the product's stock and insert the delivery's invoice. */
    method WriteLines(lines: seq<Line>, date: int, customer: CustomerId, note: string) returns (ids: seq<DeliveryId>)
      requires customer in customers
      requires forall l :: l in lines ==> l.product in products
      modifies this`products, this`deliveries, this`invoices, this`nextDelivery, this`nextInvoice
      ensures Snapshot() == Written(old(Snapshot()), lines, date, customer, note)
      ensures |ids| == |lines| && forall k :: 0 <= k < |lines| ==> ids[k] == old(nextDelivery) + k
    {
      var terms := customers[customer].terms;
      ghost var t0 := Snapshot();
      ids := [];
      var k := 0;
      while k < |lines|
        invariant 0 <= k <= |lines|
        invariant Snapshot() == Written(t0, lines[..k], date, customer, note)
        invariant |ids| == k && forall j :: 0 <= j < k ==> ids[j] == t0.nextDelivery + j
      {
        var l := lines[k];
        assert l in lines;
        WrittenExtend(t0, lines, k, date, customer, note);
        ids := ids + [nextDelivery];
        WriteLine(l, date, customer, note, terms);
        k := k + 1;
      }
      assert lines[..k] == lines;
    }

    /** Puts the delivery's quantity back into stock, then deletes the
        invoice `inv` with its payments and the delivery itself. */
    method RemoveDelivery(id: DeliveryId, inv: InvoiceId)
      requires id in deliveries && deliveries[id].product in products
      modifies this`products, this`deliveries, this`invoices, this`payments
      ensures Snapshot() == Deleted(old(Snapshot()), id, inv)
    {
      var d := deliveries[id];
      products := products[d.product := products[d.product].(stock := products[d.product].stock + d.qty)];
      payments := WithoutInvoice(payments, inv);
      invoices := invoices - {inv};
      deliveries := deliveries - {id};
    }

    /** Inserts one payment row. */
    method AppendPayment(p: Payment)
      modifies this`payments, this`nextPayment
      ensures Snapshot() == old(Snapshot()).(payments := old(payments) + [p], nextPayment := old(nextPayment) + 1)
    {
      payments := payments + [p];
      nextPayment := nextPayment + 1;
    }

    /** One step of the write pass: insert the line's delivery under the next
        delivery id, lower the product's stock, and insert the invoice of that
        delivery (the one with the largest id) under the next invoice id. */
    method WriteLine(l: Line, date: int, customer: CustomerId, note: string, terms: int)
      requires l.product in products
      modifies this`products, this`deliveries, this`invoices, this`nextDelivery, this`nextInvoice
      ensures Snapshot() == WriteStep(old(Snapshot()), l, date, customer, note, terms)
    {
      deliveries := deliveries[nextDelivery := Delivery(date, customer, l.product, l.qty, l.unitPrice, note)];
      products := products[l.product := products[l.product].(stock := products[l.product].stock - l.qty)];
      invoices := invoices[nextInvoice := Invoice(nextDelivery, l.unitPrice * l.qty, date, date + terms, Open)];
      nextDelivery := nextDelivery + 1;
      nextInvoice := nextInvoice + 1;
    }
  }
}
