/**
 * The records of the five tables (inventory-backend/models/) and the shape of
 * an HTTP reply. Prices and amounts are integer cents; `None` is SQL NULL.
 */
module Records {
  import opened Wrappers

  datatype Product = Product(
    name: string,
    description: Option<string>,
    category: Option<string>,
    price: int,
    stock: int,
    lowStockThreshold: int,
    imageUrl: Option<string>)

  /** Column defaults of a new product. */
  const DefaultStock: int := 0
  const DefaultLowStockThreshold: int := 10

  datatype OrderStatus = OrderPending | Completed | Cancelled

  /** An order belongs to a user: `userId` is NOT NULL, so there are no guest orders. */
  datatype Order = Order(
    userId: nat,
    totalAmount: int,
    status: OrderStatus,
    customerName: string,
    customerEmail: string,
    createdAt: nat)

  /** A line of an order; `productName` and `price` are copies taken when it was written. */
  datatype OrderItem = OrderItem(
    orderId: nat,
    productId: nat,
    productName: string,
    quantity: int,
    price: int,
    subtotal: int)

  datatype ReportStatus = ReportPending | Restocked | Dismissed

  datatype MissingProductReport = MissingProductReport(
    productName: string,
    requestedQuantity: int,
    customerId: nat,
    customerName: string,
    status: ReportStatus,
    requestCount: int,
    createdAt: nat)

  /** Column default of `requestCount`. */
  const DefaultRequestCount: int := 1

  datatype Role = Admin | Customer

  /** A user account; the password hash is not part of the model. */
  datatype User = User(
    name: string,
    email: string,
    role: Role,
    phone: Option<string>,
    address: Option<string>,
    createdAt: nat)

  /** A handler's reply: a JSON value, or an error status with its `message`. */
  datatype Response<T> = Ok(value: T) | Fail(status: nat, message: string)

  /** A field of a request body: absent (`undefined`), or given. */
  datatype Field<T> = Absent | Given(value: T)
}
