/** Booking a multi-product delivery: the validation pass over the selected
    products, and the rows the write pass produces. */
module Booking {
  import opened Records

  /** One accepted line of a booking: a product, a positive quantity and the
      product's price captured at booking time. */
  datatype Line = Line(product: ProductId, qty: int, unitPrice: int)

  datatype BookError =
    | NothingSelected
    | MissingPrice(product: ProductId)
    | InsufficientStock(product: ProductId, available: int, requested: int)
    | NoQuantity

  /** The quantity entered for `p`; a product without an entry counts as 0. */
  function Quantity(quantities: map<ProductId, int>, p: ProductId): int
  {
    if p in quantities then quantities[p] else 0
  }

  ghost predicate InCatalog(catalog: map<ProductId, Product>, selected: seq<ProductId>)
  {
    forall p :: p in selected ==> p in catalog
  }

  ghost predicate Distinct(selected: seq<ProductId>)
  {
    forall i, j :: 0 <= i < j < |selected| ==> selected[i] != selected[j]
  }

  ghost predicate DistinctProducts(lines: seq<Line>)
  {
    forall i, j :: 0 <= i < j < |lines| ==> lines[i].product != lines[j].product
  }

  /** A selected product passes validation: it is skipped (quantity <= 0), or
      it has a price and enough stock. */
  ghost predicate Fits(catalog: map<ProductId, Product>, quantities: map<ProductId, int>, p: ProductId)
    requires p in catalog
  {
    var q := Quantity(quantities, p);
    q <= 0 || (catalog[p].price > 0 && q <= catalog[p].stock)
  }

  ghost predicate AllFit(catalog: map<ProductId, Product>, selected: seq<ProductId>, quantities: map<ProductId, int>)
    requires InCatalog(catalog, selected)
  {
    forall k :: 0 <= k < |selected| ==> Fits(catalog, quantities, selected[k])
  }

  ghost predicate AnyWanted(selected: seq<ProductId>, quantities: map<ProductId, int>)
  {
    exists k :: 0 <= k < |selected| && Quantity(quantities, selected[k]) > 0
  }

  /** Position `k` holds the first selected product that fails validation. */
  ghost predicate FirstMisfit(catalog: map<ProductId, Product>, selected: seq<ProductId>, quantities: map<ProductId, int>, k: int)
    requires InCatalog(catalog, selected)
  {
    && 0 <= k < |selected|
    && !Fits(catalog, quantities, selected[k])
    && forall j :: 0 <= j < k ==> Fits(catalog, quantities, selected[j])
  }

  /** The lines of the selected products whose quantity is positive, in
      selection order. */
  function Requested(catalog: map<ProductId, Product>, selected: seq<ProductId>, quantities: map<ProductId, int>): (lines: seq<Line>)
    requires InCatalog(catalog, selected)
    ensures |lines| <= |selected|
    ensures forall l :: l in lines ==>
      && l.product in selected
      && l.qty == Quantity(quantities, l.product) > 0
      && l.unitPrice == catalog[l.product].price
  {
    if selected == [] then []
    else
      var p := selected[|selected| - 1];
      var q := Quantity(quantities, p);
      Requested(catalog, selected[..|selected| - 1], quantities)
        + (if q > 0 then [Line(p, q, catalog[p].price)] else [])
  }

  /** Every selected product with a positive quantity gets its line, with
      that quantity and the product's catalogue price. */
  lemma {:induction false} RequestedComplete(catalog: map<ProductId, Product>, selected: seq<ProductId>, quantities: map<ProductId, int>)
    requires InCatalog(catalog, selected)
    ensures forall k :: 0 <= k < |selected| && Quantity(quantities, selected[k]) > 0 ==>
      Line(selected[k], Quantity(quantities, selected[k]), catalog[selected[k]].price) in Requested(catalog, selected, quantities)
  {
    if selected != [] {
      var init := selected[..|selected| - 1];
      assert forall k :: 0 <= k < |init| ==> init[k] == selected[k];
      RequestedComplete(catalog, init, quantities);
    }
  }

  /** Of two lines, the earlier one is for a product selected before the
      later one's. */
  ghost predicate InSelectionOrder(lines: seq<Line>, selected: seq<ProductId>)
  {
    forall i, j :: 0 <= i < j < |lines| ==>
      exists a, b :: 0 <= a < b < |selected| && selected[a] == lines[i].product && selected[b] == lines[j].product
  }

  /** The lines come in selection order. */
  lemma {:induction false} RequestedInOrder(catalog: map<ProductId, Product>, selected: seq<ProductId>, quantities: map<ProductId, int>)
    requires InCatalog(catalog, selected)
    ensures InSelectionOrder(Requested(catalog, selected, quantities), selected)
  {
    if selected != [] {
      var init, p := selected[..|selected| - 1], selected[|selected| - 1];
      assert forall k :: 0 <= k < |init| ==> init[k] == selected[k];
      RequestedInOrder(catalog, init, quantities);
      var before := Requested(catalog, init, quantities);
      var lines := Requested(catalog, selected, quantities);
      assert forall k :: 0 <= k < |before| ==> lines[k] == before[k];
      forall i, j | 0 <= i < j < |lines|
        ensures exists a, b :: 0 <= a < b < |selected| && selected[a] == lines[i].product && selected[b] == lines[j].product
      {
        if j < |before| {
          var a, b :| 0 <= a < b < |init| && init[a] == before[i].product && init[b] == before[j].product;
          assert selected[a] == lines[i].product && selected[b] == lines[j].product;
        } else {
          assert lines[i] in before;
          var a :| 0 <= a < |init| && init[a] == lines[i].product;
          assert selected[a] == lines[i].product && selected[|selected| - 1] == lines[j].product;
        }
      }
    }
  }

  /** Without repeated products in the selection, no product occurs in two lines. */
  lemma {:induction false} RequestedDistinct(catalog: map<ProductId, Product>, selected: seq<ProductId>, quantities: map<ProductId, int>)
    requires InCatalog(catalog, selected)
    requires Distinct(selected)
    ensures DistinctProducts(Requested(catalog, selected, quantities))
  {
    if selected != [] {
      var init, p := selected[..|selected| - 1], selected[|selected| - 1];
      assert selected == init + [p];
      RequestedDistinct(catalog, init, quantities);
      var before := Requested(catalog, init, quantities);
      forall l | l in before
        ensures l.product != p
      {
        var j :| 0 <= j < |init| && init[j] == l.product;
        assert selected[j] == l.product;
      }
    }
  }

  /** The validation pass of a booking: walks the selection in order, skips
      non-positive quantities, stops at the first product without a price or
      without enough stock, and rejects a booking with no positive quantity. */
  method ValidateLines(catalog: map<ProductId, Product>, selected: seq<ProductId>, quantities: map<ProductId, int>)
    returns (r: Result<seq<Line>, BookError>)
    requires InCatalog(catalog, selected)
    ensures r.Success? <==> AnyWanted(selected, quantities) && AllFit(catalog, selected, quantities)
    ensures r.Success? ==> r.value == Requested(catalog, selected, quantities) && r.value != []
    ensures r.Failure? && r.error.MissingPrice? ==>
      var p := r.error.product;
      exists k :: FirstMisfit(catalog, selected, quantities, k) && selected[k] == p && catalog[p].price <= 0
    ensures r.Failure? && r.error.InsufficientStock? ==>
      var p := r.error.product;
      exists k :: && FirstMisfit(catalog, selected, quantities, k) && selected[k] == p
                  && catalog[p].price > 0 && r.error.available == catalog[p].stock
                  && r.error.requested == Quantity(quantities, p) > r.error.available
    ensures r.Failure? ==> r.error.NoQuantity? == !AnyWanted(selected, quantities)
    ensures r.Failure? ==> !r.error.NothingSelected?
  {
    var lines: seq<Line> := [];
    var k := 0;
    while k < |selected|
      invariant 0 <= k <= |selected|
      invariant lines == Requested(catalog, selected[..k], quantities)
      invariant forall j :: 0 <= j < k ==> Fits(catalog, quantities, selected[j])
      invariant lines != [] <==> exists j :: 0 <= j < k && Quantity(quantities, selected[j]) > 0
    {
      var p := selected[k];
      var q := Quantity(quantities, p);
      assert selected[..k + 1] == selected[..k] + [p];
      assert selected[..k + 1][..k] == selected[..k];
      if q > 0 {
        var product := catalog[p];
        if product.price <= 0 {
          assert FirstMisfit(catalog, selected, quantities, k);
          return Failure(MissingPrice(p));
        }
        if q > product.stock {
          assert FirstMisfit(catalog, selected, quantities, k);
          return Failure(InsufficientStock(p, product.stock, q));
        }
        lines := lines + [Line(p, q, product.price)];
      }
      k := k + 1;
    }
    assert selected[..k] == selected;
    if lines == [] {
      return Failure(NoQuantity);
    }
    return Success(lines);
  }

  /** The deliveries inserted for `lines`, numbered from `first` on. */
  function NewDeliveries(lines: seq<Line>, first: DeliveryId, date: int, customer: CustomerId, note: string): map<DeliveryId, Delivery>
  {
    if lines == [] then map[]
    else
      var l := lines[|lines| - 1];
      NewDeliveries(lines[..|lines| - 1], first, date, customer, note)[first + |lines| - 1 := Delivery(date, customer, l.product, l.qty, l.unitPrice, note)]
  }

  /** One delivery per line, under consecutive ids from `first`, carrying the
      line's product, quantity and captured price. */
  lemma {:induction false} NewDeliveriesAt(lines: seq<Line>, first: DeliveryId, date: int, customer: CustomerId, note: string)
    ensures forall d :: d in NewDeliveries(lines, first, date, customer, note) <==> first <= d < first + |lines|
    ensures forall d :: d in NewDeliveries(lines, first, date, customer, note) ==>
      var l := lines[d - first];
      NewDeliveries(lines, first, date, customer, note)[d] == Delivery(date, customer, l.product, l.qty, l.unitPrice, note)
  {
    if lines != [] {
      var init := lines[..|lines| - 1];
      NewDeliveriesAt(init, first, date, customer, note);
      assert forall k :: 0 <= k < |init| ==> init[k] == lines[k];
    }
  }

  /** The invoices inserted for `lines`, numbered from `first` on. */
  function NewInvoices(lines: seq<Line>, first: InvoiceId, firstDelivery: DeliveryId, date: int, terms: int): map<InvoiceId, Invoice>
  {
    if lines == [] then map[]
    else
      var l := lines[|lines| - 1];
      NewInvoices(lines[..|lines| - 1], first, firstDelivery, date, terms)[first + |lines| - 1 :=
        Invoice(firstDelivery + |lines| - 1, l.unitPrice * l.qty, date, date + terms, Open)]
  }

  /** One invoice per line, under consecutive ids from `first`: the one at
      position k belongs to delivery `firstDelivery + k`, totals price times
      quantity, is issued on the delivery date, falls due `terms` days later
      and starts open. */
  lemma {:induction false} NewInvoicesAt(lines: seq<Line>, first: InvoiceId, firstDelivery: DeliveryId, date: int, terms: int)
    ensures forall i :: i in NewInvoices(lines, first, firstDelivery, date, terms) <==> first <= i < first + |lines|
    ensures forall i :: i in NewInvoices(lines, first, firstDelivery, date, terms) ==>
      var l := lines[i - first];
      NewInvoices(lines, first, firstDelivery, date, terms)[i]
        == Invoice(firstDelivery + (i - first), l.unitPrice * l.qty, date, date + terms, Open)
  {
    if lines != [] {
      var init := lines[..|lines| - 1];
      NewInvoicesAt(init, first, firstDelivery, date, terms);
      assert forall k :: 0 <= k < |init| ==> init[k] == lines[k];
    }
  }

  /** Extending the booked lines by one adds exactly one delivery, under the next id. */
  lemma NewDeliveriesExtend(lines: seq<Line>, k: nat, first: DeliveryId, date: int, customer: CustomerId, note: string)
    requires k < |lines|
    ensures NewDeliveries(lines[..k + 1], first, date, customer, note)
         == NewDeliveries(lines[..k], first, date, customer, note)[first + k :=
              Delivery(date, customer, lines[k].product, lines[k].qty, lines[k].unitPrice, note)]
  {
    assert lines[..k + 1][..k] == lines[..k];
  }

  /** Extending the booked lines by one adds exactly one invoice, under the next id. */
  lemma NewInvoicesExtend(lines: seq<Line>, k: nat, first: InvoiceId, firstDelivery: DeliveryId, date: int, terms: int)
    requires k < |lines|
    ensures NewInvoices(lines[..k + 1], first, firstDelivery, date, terms)
         == NewInvoices(lines[..k], first, firstDelivery, date, terms)[first + k :=
              Invoice(firstDelivery + k, lines[k].unitPrice * lines[k].qty, date, date + terms, Open)]
  {
    assert lines[..k + 1][..k] == lines[..k];
  }

  /** The products table after lowering the stock of each line's product by
      the line's quantity, line by line (a line for an unknown product
      changes nothing). */
  function Debit(products: map<ProductId, Product>, lines: seq<Line>): (r: map<ProductId, Product>)
    ensures r.Keys == products.Keys
  {
    if lines == [] then products
    else
      var l := lines[|lines| - 1];
      var m := Debit(products, lines[..|lines| - 1]);
      if l.product in m then m[l.product := m[l.product].(stock := m[l.product].stock - l.qty)] else m
  }

  /** Debiting one more line lowers that line's product's stock by its quantity. */
  lemma DebitExtend(products: map<ProductId, Product>, lines: seq<Line>, k: nat)
    requires k < |lines|
    requires lines[k].product in products
    ensures
      var m, l := Debit(products, lines[..k]), lines[k];
      Debit(products, lines[..k + 1]) == m[l.product := m[l.product].(stock := m[l.product].stock - l.qty)]
  {
    assert lines[..k + 1][..k] == lines[..k];
    assert lines[..k + 1][k] == lines[k];
  }

  /** The products table after adding `qty` back to the stock of `p`. */
  function Restock(products: map<ProductId, Product>, p: ProductId, qty: int): (r: map<ProductId, Product>)
    requires p in products
    ensures r.Keys == products.Keys
    ensures r[p].stock == products[p].stock + qty
    ensures r[p].(stock := products[p].stock) == products[p]
    ensures forall p' :: p' in products && p' != p ==> r[p'] == products[p']
  {
    products[p := products[p].(stock := products[p].stock + qty)]
  }

  /** A product no line mentions keeps its row. */
  lemma {:induction false} DebitElsewhere(products: map<ProductId, Product>, lines: seq<Line>, p: ProductId)
    requires p in products
    requires forall l :: l in lines ==> l.product != p
    ensures Debit(products, lines)[p] == products[p]
  {
    if lines != [] {
      var init := lines[..|lines| - 1];
      assert forall l :: l in init ==> l in lines;
      DebitElsewhere(products, init, p);
    }
  }

  /** With distinct products, the product of the line at position k loses
      exactly that line's quantity. */
  lemma {:induction false} DebitOnLines(products: map<ProductId, Product>, lines: seq<Line>)
    requires forall l :: l in lines ==> l.product in products
    requires DistinctProducts(lines)
    ensures forall k :: 0 <= k < |lines| ==>
      Debit(products, lines)[lines[k].product] == products[lines[k].product].(stock := products[lines[k].product].stock - lines[k].qty)
  {
    if lines != [] {
      var init, last := lines[..|lines| - 1], lines[|lines| - 1];
      assert forall k :: 0 <= k < |init| ==> init[k] == lines[k];
      assert forall l :: l in init ==> l in lines;
      DebitOnLines(products, init);
      assert forall l :: l in init ==> l.product != last.product;
      DebitElsewhere(products, init, last.product);
    }
  }

  /** With distinct products, each line's product loses exactly the line's
      quantity and every other product is untouched. */
  lemma DebitEffect(products: map<ProductId, Product>, lines: seq<Line>)
    requires forall l :: l in lines ==> l.product in products
    requires DistinctProducts(lines)
    ensures forall l :: l in lines ==>
      Debit(products, lines)[l.product] == products[l.product].(stock := products[l.product].stock - l.qty)
    ensures forall p :: p in products && (forall l :: l in lines ==> l.product != p) ==>
      Debit(products, lines)[p] == products[p]
  {
    DebitOnLines(products, lines);
    forall p | p in products && (forall l :: l in lines ==> l.product != p)
      ensures Debit(products, lines)[p] == products[p]
    {
      DebitElsewhere(products, lines, p);
    }
  }

  /** Stock stays non-negative when every line's quantity was checked
      against its product's stock and no product occurs twice. */
  lemma DebitKeepsStockNonNegative(products: map<ProductId, Product>, lines: seq<Line>)
    requires forall l :: l in lines ==> l.product in products && l.qty <= products[l.product].stock
    requires DistinctProducts(lines)
    requires forall p :: p in products ==> products[p].stock >= 0
    ensures forall p :: p in Debit(products, lines) ==> Debit(products, lines)[p].stock >= 0
  {
    DebitEffect(products, lines);
    var r := Debit(products, lines);
    forall p | p in r
      ensures r[p].stock >= 0
    {
      if l :| l in lines && l.product == p {
        assert r[p].stock == products[p].stock - l.qty;
      }
    }
  }

  /** Restocking a single booked line gives back the original products table. */
  lemma RestockUndoesDebit(products: map<ProductId, Product>, l: Line)
    requires l.product in products
    ensures Restock(Debit(products, [l]), l.product, l.qty) == products
  {
    assert [l][..0] == [];
  }
}
