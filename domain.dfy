/**
 * The storefront's records, mirrored from the hosted backend's tables
 * (src/types/index.ts). Money is in integer cents, timestamps are
 * integers, strings are sequences of characters. Columns that may be
 * NULL are `Option`s.
 */
module Domain {

  datatype Option<T> = None | Some(value: T)

  /** `Profile['role']`. */
  datatype Role = Customer | Admin | Gestor

  /** `Order['status']`. */
  datatype Status = Pending | Confirmed | OnTheWay | Delivered | Cancelled

  /** `Order['payment_method']`. */
  datatype PaymentMethod = CashOnDelivery | BankTransfer | OtherPayment

  /** The string the backend stores for a status. */
  function StatusValue(s: Status): string
  {
    match s
    case Pending => "pending"
    case Confirmed => "confirmed"
    case OnTheWay => "on_the_way"
    case Delivered => "delivered"
    case Cancelled => "cancelled"
  }

  /** Distinct statuses are stored as distinct strings. */
  lemma StatusValueInjective(a: Status, b: Status)
    ensures StatusValue(a) == StatusValue(b) ==> a == b
  {
  }

  /** The string the backend stores for a role. */
  function RoleValue(r: Role): string
  {
    match r
    case Customer => "customer"
    case Admin => "admin"
    case Gestor => "gestor"
  }

  function PaymentValue(m: PaymentMethod): string
  {
    match m
    case CashOnDelivery => "cash_on_delivery"
    case BankTransfer => "bank_transfer"
    case OtherPayment => "other"
  }

  datatype Category = Category(
    id: string,
    name: string,
    slug: string,
    description: Option<string>,
    imageUrl: Option<string>)

  /** A product, with its category relation when the query populated it. */
  datatype Product = Product(
    id: string,
    categoryId: Option<string>,
    name: string,
    description: Option<string>,
    price: int,
    stock: int,
    imageUrl: Option<string>,
    isActive: bool,
    category: Option<Category>)

  /** `CartItem`: a snapshot of the product and a quantity. */
  datatype CartLine = CartLine(product: Product, quantity: int)

  datatype OrderItem = OrderItem(
    orderId: string,
    productId: Option<string>,
    productName: string,
    productPrice: int,
    quantity: int,
    subtotal: int)

  /** The profile relation embedded in an order row. */
  datatype OrderProfile = OrderProfile(fullName: string, phone: string)

  datatype Order = Order(
    id: string,
    userId: string,
    status: Status,
    deliveryAddress: string,
    deliveryProvince: string,
    deliveryMunicipality: string,
    deliveryPhone: string,
    deliverySlot: string,
    paymentMethod: PaymentMethod,
    total: int,
    notes: Option<string>,
    createdAt: int,
    orderItems: Option<seq<OrderItem>>,
    profile: Option<OrderProfile>)

  datatype Profile = Profile(
    id: string,
    fullName: string,
    phone: string,
    address: string,
    province: string,
    municipality: string,
    role: Role)

  /** One row of `order_status_history`; `status` is the raw column. */
  datatype StatusChange = StatusChange(
    id: string,
    orderId: string,
    status: string,
    changedAt: int,
    note: Option<string>)

  /** A product review; `rating` is the raw column. */
  datatype Review = Review(id: string, productId: string, userId: string, rating: int, comment: Option<string>)
}
