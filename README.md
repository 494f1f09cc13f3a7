# adetta-lite ledger, modelled in Dafny

adetta-lite is a small Streamlit app for a wholesaler. It keeps products with
their stock, customers with payment terms, deliveries, one invoice per
delivery, and payments against invoices. Its rules live inline in the tab
blocks of `adetta_lite.py`. This project pulls those rules out into one
ledger state and its operations, and proves what they guarantee.

- `records.dfy` (module `Records`): the table rows (`Product`, `Customer`,
  `Delivery`, `Invoice`, `Payment`), the invoice `Status` (`open`, `partial`,
  `paid`) and a `Result` type for operations that can be refused.
- `statuses.dfy` (module `Statuses`): the invoice status engine.
  - `PaidSum` is the sum of an invoice's payments. `OpenBalance` is the total
    minus that sum.
  - `InvoiceStatus` is the classification done by `invoice_status`.
  - `WithoutInvoice` is the payments table after `DELETE FROM payments WHERE
    invoice_id = …`.
  - `StatusesCurrent` and `SameExceptStatus` describe what a status refresh
    achieves.
- `booking.dfy` (module `Booking`): the booking form's rules.
  - `ValidateLines` is the validation loop. `Requested` is the list of lines
    it builds.
  - `NewDeliveries` and `NewInvoices` are the rows the write loop inserts.
  - `Debit` and `Restock` are the stock updates of booking and deletion.
- `ledger.dfy` (module `Ledger`): the class `Ledger`. Its fields are the
  tables and the auto-increment counters, and its methods are the write
  paths: add product, add customer, refresh statuses, book delivery, delete
  delivery and record payment.
  - `Tables` is a value copy of the whole state.
  - `TablesValid` is the invariant every method keeps: stock is never
    negative, every delivery has exactly one invoice, each invoice total is
    unit price × quantity, payments stay within total + tolerance, and every
    stored status equals the recomputed one.
  - `Written`, `Deleted` and `Recorded` give the tables after each
    operation; the methods are proved equal to them.
- `scenario.dfy` (module `Scenario`): a worked example through the class.
  - A product at 10.00 with 100 cartons and a customer with 30 days' terms.
  - Booking 20 cartons on 2024-01-01 gives an open invoice of 200.00, due 30
    days later, and leaves 80 cartons.
  - Paying 250.00 is refused; paying 200.00 marks the invoice paid.
  - Deleting the delivery instead puts the stock back to 100 and removes the
    invoice.

Modelling choices:
- Money is in integer cents, so the 1e-6 float epsilon of the payment check
  becomes the integer `tolerance` of a ledger (0 or more).
- Dates are integer day numbers, so "ddate + terms days" is an addition.
- The payments table is a sequence in insertion order. Every other table is
  a map from id to row.
- Ids come from per-table counters that never go back: the tables use
  `AUTOINCREMENT` / `SERIAL` (`adetta_lite.py:26`).
- The invoice of a booked line is linked with `SELECT MAX(id) FROM
  deliveries`. The model uses the delivery id that was just assigned, which
  is the same thing with a single writer.

## Model

| member | source | states |
|---|---|---|
| Statuses.PaidSum | adetta_lite.py:126 | the `SUM(amount)` of an invoice's payments, 0 when there are none; characterised by PaidSumZeroIffNoPayment and PaidSumAppend |
| Statuses.OpenBalance | adetta_lite.py:514 | the open balance, total minus paid sum, against which RecordPayment refuses an overpayment |
| Statuses.InvoiceStatus | adetta_lite.py:121-132 | the status `invoice_status` computes (unknown invoice or nothing paid: open; paid below total: partial; otherwise paid); characterised by StatusMeaning |
| Booking.NewDeliveries | adetta_lite.py:427-432 | the delivery rows the write loop inserts; characterised by NewDeliveriesAt and NewDeliveriesExtend |
| Booking.NewInvoices | adetta_lite.py:439-446 | the invoice rows the write loop inserts; characterised by NewInvoicesAt and NewInvoicesExtend |
| Ledger.Written | adetta_lite.py:420-446 | the tables after the write loop: stock debited, the new deliveries and invoices added, both counters advanced by the number of lines; BookDelivery and WriteLines are proved equal to it, WrittenValid and WrittenExtend characterise it |
| Ledger.WriteStep | adetta_lite.py:427-446 | the tables after one iteration of the write loop; WriteLine is proved equal to it, WrittenExtend ties it to Written |
| Ledger.Deleted | adetta_lite.py:483-500 | the tables after the deletion cascade; DeleteDelivery and RemoveDelivery are proved equal to it, DeletedValid and BookThenDeleteRestores characterise it |
| Ledger.Recorded | adetta_lite.py:566-570 | the tables after the payment insert and the refresh; RecordPayment is proved equal to it, RecordedValid and RecordedByRefresh characterise it |
| Statuses.StatusMeaning | adetta_lite.py:121-132 | with positive payment amounts: status is open exactly when the invoice is unknown or has no payment; partial exactly when it has a payment and the paid sum is below the total; paid exactly when it has a payment and the paid sum reaches the total |
| Statuses.PaidSumZeroIffNoPayment | adetta_lite.py:125-128 | the paid sum is never negative, and it is zero exactly when no payment refers to the invoice |
| Statuses.PaidSumAppend | adetta_lite.py:125 | inserting a payment adds its amount to its own invoice's paid sum and leaves every other invoice's sum unchanged |
| Statuses.WithoutInvoice | adetta_lite.py:496 | after deleting an invoice's payments, none refers to it, every payment of another invoice is kept, and nothing new appears |
| Statuses.WithoutInvoiceKeepsOtherSums | adetta_lite.py:496 | deleting one invoice's payments leaves every other invoice's paid sum unchanged |
| Statuses.WithoutInvoiceUnpaid | adetta_lite.py:496 | deleting the payments of an invoice that has none leaves the payments table unchanged |
| Statuses.CurrentTableIsUnique | adetta_lite.py:134-138 | two invoice tables that differ only in stored statuses, and whose statuses are both up to date, are equal, so a refresh has exactly one possible outcome |
| Ledger.Ledger.RefreshInvoiceStatuses | adetta_lite.py:134-138 | afterwards every stored status equals the recomputed status; no invoice gains or loses a row or changes any field besides its status; no other table changes |
| Booking.Requested | adetta_lite.py:389-412 | the validated lines: at most one per selected product, each for a selected product with its requested quantity (> 0) and its catalogue price; completeness and order are the next two rows |
| Booking.RequestedComplete | adetta_lite.py:389-412 | every selected product with a positive quantity gets its line, carrying that quantity and the product's catalogue price |
| Booking.RequestedInOrder | adetta_lite.py:389-412 | the lines come in selection order: of two lines, the earlier one is for a product selected before the later one's |
| Booking.RequestedDistinct | adetta_lite.py:389-412 | when no product is selected twice, no product occurs in two lines |
| Booking.ValidateLines | adetta_lite.py:389-416 | succeeds exactly when some selected quantity is positive and every positive quantity has a price > 0 and at most the product's stock; the result is then the non-empty `Requested` list; a missing price or short stock is reported for the first offending product; "no quantity" is reported only when no quantity is positive |
| Booking.NewDeliveriesAt | adetta_lite.py:427-432 | one delivery per line under consecutive ids, carrying the booking date, customer, note, and the line's product, quantity and captured unit price |
| Booking.NewInvoicesAt | adetta_lite.py:439-446 | one invoice per line under consecutive ids; the k-th belongs to the k-th new delivery, totals unit price × quantity, is issued on the delivery date, falls due after the customer's terms and starts open |
| Booking.NewDeliveriesExtend | adetta_lite.py:427-432 | booking one more line inserts exactly one more delivery, under the next id |
| Booking.NewInvoicesExtend | adetta_lite.py:442-446 | booking one more line inserts exactly one more invoice, under the next id, linked to the delivery just inserted |
| Booking.Debit | adetta_lite.py:434-437 | lowering stock never adds or removes a product |
| Booking.DebitOnLines | adetta_lite.py:434-437 | with distinct products, the product of each line loses exactly that line's quantity |
| Booking.DebitElsewhere | adetta_lite.py:434-437 | a product that no line names keeps its row unchanged |
| Booking.DebitEffect | adetta_lite.py:434-437 | with distinct products, each line's product loses exactly the line's quantity and every other product is unchanged |
| Booking.DebitKeepsStockNonNegative | adetta_lite.py:402-405 | when each quantity was checked against its product's stock and no product repeats, no stock goes negative |
| Booking.DebitExtend | adetta_lite.py:434-437 | debiting one more line lowers that line's product's stock by its quantity |
| Booking.Restock | adetta_lite.py:487-490 | only the given product's stock changes, and it rises by exactly the quantity |
| Booking.RestockUndoesDebit | adetta_lite.py:487-490 | putting back the quantity of one booked line restores the products table exactly |
| Ledger.WrittenExtend | adetta_lite.py:420-446 | the write pass over n + 1 lines is the write pass over the first n followed by one delivery insert, one stock decrement and one invoice insert |
| Ledger.WrittenValid | adetta_lite.py:420-448 | writing validated lines keeps the ledger invariant, and the new invoices' stored status open is already the recomputed one |
| Ledger.WrittenDeliveriesValid | adetta_lite.py:427-432 | every new delivery refers to an existing product and customer and has a positive quantity and price |
| Ledger.WrittenInvoicesValid | adetta_lite.py:439-446 | after the write pass every invoice refers to a delivery, totals its price × quantity, and deliveries and invoices correspond one to one |
| Ledger.WrittenInvoiceRows | adetta_lite.py:439-446 | every invoice after the write pass refers to an existing delivery and totals that delivery's price × quantity |
| Ledger.WrittenInvoicesUnique | adetta_lite.py:442-446 | no two invoices after the write pass belong to the same delivery |
| Ledger.WrittenDeliveriesInvoiced | adetta_lite.py:442-446 | every delivery after the write pass has an invoice |
| Ledger.WrittenPaymentsValid | adetta_lite.py:442-448 | the write pass keeps every payment's invoice and every invoice's paid sum within total + tolerance, and all stored statuses stay current |
| Ledger.NewInvoicesUnpaid | adetta_lite.py:442-446 | no existing payment refers to a newly inserted invoice, so its paid sum is 0 |
| Ledger.DeletedValid | adetta_lite.py:483-500 | deleting a delivery together with its invoice and that invoice's payments, and restocking, keeps the ledger invariant |
| Ledger.DeletedInvoicesValid | adetta_lite.py:493-500 | after the deletion the remaining invoices still correspond one to one with the remaining deliveries |
| Ledger.DeletedPaymentsValid | adetta_lite.py:493-497 | after the deletion no payment refers to a missing invoice, paid sums stay within totals, and statuses stay current |
| Ledger.BookThenDeleteRestores | adetta_lite.py:483-500 | booking one line and then deleting the delivery it created restores products (stock included), deliveries, invoices and payments exactly; only the id counters have moved on |
| Ledger.DeleteUndoesWrite | adetta_lite.py:483-500 | when the ids a booking takes are fresh and nothing is paid against the new invoice id, deleting the delivery of a one-line booking restores every table; only the id counters have moved on |
| Ledger.RecordedValid | adetta_lite.py:562-570 | a payment of at most the open balance plus the tolerance keeps the ledger invariant; in particular every invoice's paid sum stays at most its total plus the tolerance |
| Ledger.RecordedWithinTotals | adetta_lite.py:563 | after an accepted payment every invoice's paid sum is at most its total plus the tolerance |
| Ledger.RecordedStatusesCurrent | adetta_lite.py:570 | after the payment and the refresh every stored status equals the recomputed one |
| Ledger.RecordedByRefresh | adetta_lite.py:566-570 | refreshing all statuses after inserting the payment changes only the paid invoice's status |
| Ledger.InvoicesValidIgnoresStatus | adetta_lite.py:134-138 | the invoice/delivery correspondence does not depend on stored statuses |
| Ledger.Ledger.constructor | adetta_lite.py:24-96 | a new ledger has empty tables, counters at 0 and satisfies the invariant |
| Ledger.Ledger.AddProduct | adetta_lite.py:220-230 | a product is inserted under the next id exactly when name and SKU are non-empty and the SKU is not taken; otherwise the reason is reported and nothing changes |
| Ledger.Ledger.AddCustomer | adetta_lite.py:248-252 | the customer is inserted under the next id with its terms |
| Ledger.Ledger.BookDelivery | adetta_lite.py:379-451 | succeeds exactly when something is selected, some quantity is positive and every positive line has a price and enough stock; a refused booking changes no table; an accepted one leaves the tables equal to the `Requested` lines written (one delivery and one open invoice each, stock lowered) and returns their consecutive delivery ids; the invariant (stock ≥ 0 included) is kept |
| Ledger.Ledger.WriteLines | adetta_lite.py:420-446 | the loop's tables are those of the write pass over all lines, and it returns the consecutive new delivery ids |
| Ledger.Ledger.WriteLine | adetta_lite.py:427-446 | one line inserts its delivery, lowers its product's stock and inserts its invoice |
| Ledger.Ledger.DeleteDelivery | adetta_lite.py:477-504 | reports found exactly when the delivery exists; a missing delivery changes nothing; otherwise the tables become those with the stock put back and the delivery, its invoice and that invoice's payments gone; the invariant is kept |
| Ledger.Ledger.RemoveDelivery | adetta_lite.py:483-500 | restocks the delivery's product and deletes the invoice's payments, the invoice and the delivery |
| Ledger.Ledger.RecordPayment | adetta_lite.py:562-574 | refused, with the attempted amount and the open balance, exactly when the amount exceeds the open balance plus the tolerance, and then nothing changes; otherwise one payment row is appended under the next id and only that invoice's status is recomputed; the invariant (paid sum ≤ total + tolerance) is kept |
| Ledger.Ledger.AppendPayment | adetta_lite.py:566-569 | inserts exactly one payment row under the next id |
| Scenario.NewShop | adetta_lite.py:220-252 | a fresh ledger with one product (10.00, 100 in stock) and one customer (30 days' terms) |
| Scenario.BookOne | adetta_lite.py:379-451 | booking 20 cartons gives delivery 0 and invoice 0 of 200.00, issued on the delivery date, due 30 days later and open, and 80 cartons left |
| Scenario.PayInvoice | adetta_lite.py:562-574 | on that invoice a payment of 250.00 is refused and one of 200.00 makes it paid |
| Scenario.BookAndPay | adetta_lite.py:562-574 | the booking then payment example ends with total 200.00, due date + 30, stock 80, the overpayment refused and the invoice paid |
| Scenario.BookAndDelete | adetta_lite.py:477-504 | deleting the booked delivery is found, puts the stock back to 100 and removes its invoice |

## Left out

- The Streamlit UI (forms, tabs, metrics, messages, `st.rerun`) is not modelled. Only the accept or refuse decision of each branch is kept, as a `Result` or a `found` flag.
- SQLAlchemy, the DDL and the SQL text are not modelled. The tables are in-memory maps and a sequence, and each statement is a map update.
- Query caching (`st.cache_data`) is not modelled: the model always reads the current tables.
- PIN login, the dashboard, the revenue, customer-debt and expense reports, and the expense insert are not modelled. They are presentation or read-only aggregation.
- Floating point and the 1e-6 epsilon are not modelled. Amounts are integer cents, and the epsilon is the integer `tolerance` fixed when a ledger is made.
- Calendar arithmetic is not modelled: dates are day numbers.
- Concurrent sessions and transactions are not modelled. The form reads stock and open balances when the page is rendered, but the model validates against the current state. The `MAX(id)` link is the id just assigned. Each operation is atomic.
- Product and customer selection by name is not modelled. The form identifies products (`adetta_lite.py:393`) and the customer (`adetta_lite.py:383`) by name and uses the first row with that name. The model selects both by id, and each selected product occurs once (a multiselect).
- Ledger.Ledger.BookDelivery requires the customer and every selected product to exist, because the form only offers existing rows.
- Ledger.Ledger.DeleteDelivery has no branch for a delivery without an invoice (`if not inv.empty`). The invariant guarantees the invoice exists, so that branch cannot be taken.
- Ledger.Ledger.RecordPayment requires an existing invoice and a positive amount: the form offers only listed invoices and has a minimum of 0.01.
- Ledger.Ledger.AddProduct models the unique-SKU constraint of the products table as a refusal (`DuplicateSku`). It requires a non-negative start stock, which is the form's minimum.
