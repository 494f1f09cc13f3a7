/** Rows of the ledger's tables (products, customers, deliveries, invoices,
    payments). Money is kept in integer cents and dates as integer day
    numbers; every identity is an auto-incremented natural number. */
module Records {

  type ProductId = nat
  type CustomerId = nat
  type DeliveryId = nat
  type InvoiceId = nat
  type PaymentId = nat

  /** Derived classification of an invoice from its payments. */
  datatype Status = Open | Partial | Paid

  datatype PayMethod = Cash | Bank | Card

  datatype Product = Product(name: string, sku: string, price: int, stock: int, minStock: int)

  /** `terms` is the number of days from issue date to due date. */
  datatype Customer = Customer(name: string, address: string, contact: string, terms: int)

  /** `unitPrice` is the product's price captured when the delivery is booked. */
  datatype Delivery = Delivery(date: int, customer: CustomerId, product: ProductId, qty: int, unitPrice: int, note: string)

  datatype Invoice = Invoice(delivery: DeliveryId, total: int, issued: int, due: int, status: Status)

  datatype Payment = Payment(id: PaymentId, invoice: InvoiceId, amount: int, paidAt: int, via: PayMethod, note: string)

  datatype Result<+T, +E> = Success(value: T) | Failure(error: E)
}
