/**
 * The records of the point-of-sale application: products, sale lines, sales, pending
 * orders, staff members, stores, users and the settings the core reads. Amounts are
 * whole francs CFA.
 */
module Types {
  import opened Wrappers

  datatype PaymentMethod = Cash | AirtelMoney | MoovMoney

  /** The text each payment method is stored and exported as. */
  function PaymentMethodLabel(m: PaymentMethod): string
  {
    match m
    case Cash => "Espèces"
    case AirtelMoney => "Airtel Money"
    case MoovMoney => "Moov Money"
  }

  datatype PaymentStatus = PaymentSuccess | PaymentPending | PaymentFailed

  datatype UserRole = Owner | Manager | Waiter

  datatype SubscriptionTier = Starter | Pro | Enterprise

  datatype SubscriptionStatus = Active | Expired | Trial

  datatype User = User(
    id: string,
    name: string,
    email: string,
    photo: Option<string>,
    role: UserRole,
    assignedStoreId: Option<string>,
    isVerified: Option<bool>)

  datatype Store = Store(
    id: string,
    name: string,
    location: string,
    tvaEnabled: bool,
    subscriptionStatus: SubscriptionStatus,
    tier: SubscriptionTier,
    activationCode: Option<string>,
    staffAccessCode: Option<string>)

  datatype Product = Product(
    id: string,
    name: string,
    price: int,
    costPrice: int,
    stock: int,
    threshold: int,
    hasConsigne: bool,
    category: string,
    image: Option<string>)

  /** A sale line: the product's name, category, price and cost copied at sale time. */
  datatype SaleItem = SaleItem(
    productId: string,
    productName: string,
    category: string,
    quantity: int,
    price: int,
    unitCost: int)

  datatype Sale = Sale(
    id: string,
    orderNumber: string,
    storeId: string,
    tableNumber: Option<string>,
    customerName: Option<string>,
    timestamp: string,
    items: seq<SaleItem>,
    subtotal: real,
    tvaAmount: real,
    total: int,
    totalCost: int,
    paymentMethod: PaymentMethod,
    paymentStatus: PaymentStatus,
    transactionId: Option<string>,
    managedBy: string)

  datatype OrderStatus = Pending | Validated | Cancelled

  datatype PendingOrder = PendingOrder(
    id: string,
    customerName: string,
    tableNumber: string,
    waiterName: Option<string>,
    items: seq<SaleItem>,
    timestamp: string,
    total: int,
    status: OrderStatus)

  datatype StaffPerformance = StaffPerformance(
    attendance: int,
    salesSkills: int,
    clientSatisfaction: int,
    honesty: int,
    lastEvaluation: string,
    complaints: int)

  datatype StaffMember = StaffMember(
    id: string,
    name: string,
    username: string,
    accessCode: string,
    role: string,
    performance: StaffPerformance,
    totalSalesGenerated: int,
    isActive: bool)

  /** The settings the modelled logic reads; a `None` charge is a field absent from the record. */
  datatype Settings = Settings(
    bistroName: string,
    managerName: string,
    tvaRate: real,
    monthlyRent: Option<int>,
    monthlyDjSalary: Option<int>,
    monthlyManagerSalary: Option<int>,
    monthlyElectricity: Option<int>,
    monthlyWater: Option<int>,
    appSubscription: Option<int>,
    monthlyWifi: Option<int>,
    monthlyCanal: Option<int>,
    installationDate: Option<int>)

  /** `products.find(p => p.id === id)`: the first product carrying that id. */
  function FindProduct(ps: seq<Product>, id: string): (r: Option<Product>)
    ensures r.None? <==> forall i :: 0 <= i < |ps| ==> ps[i].id != id
    ensures r.Some? ==> exists i :: 0 <= i < |ps| && ps[i] == r.value && r.value.id == id
                          && forall j :: 0 <= j < i ==> ps[j].id != id
  {
    if |ps| == 0 then None
    else if ps[0].id == id then Some(ps[0])
    else
      var r := FindProduct(ps[1..], id);
      assert r.Some? ==> exists i :: 1 <= i < |ps| && ps[i] == r.value;
      r
  }

  /** `sales.reduce((acc, s) => acc + s.total, 0)`. */
  function SalesTotal(sales: seq<Sale>): int
  {
    if |sales| == 0 then 0 else SalesTotal(sales[..|sales| - 1]) + sales[|sales| - 1].total
  }

  /** Summing the totals of two runs of sales one after the other. */
  lemma {:induction false} SalesTotalAppend(a: seq<Sale>, b: seq<Sale>)
    ensures SalesTotal(a + b) == SalesTotal(a) + SalesTotal(b)
  {
    if |b| > 0 {
      SalesTotalAppend(a, b[..|b| - 1]);
      assert (a + b)[..|a + b| - 1] == a + b[..|b| - 1];
    } else {
      assert a + b == a;
    }
  }

  /** The sum of `price * quantity` over sale lines. */
  function ItemsTotal(items: seq<SaleItem>): int
  {
    if |items| == 0 then 0 else items[0].price * items[0].quantity + ItemsTotal(items[1..])
  }

  /** The sum of `unitCost * quantity` over sale lines. */
  function ItemsCost(items: seq<SaleItem>): int
  {
    if |items| == 0 then 0 else items[0].unitCost * items[0].quantity + ItemsCost(items[1..])
  }
}
