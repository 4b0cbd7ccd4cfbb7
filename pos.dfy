/**
 * The counter screen: a cart bounded by stock, ticket numbering, construction of the
 * sale record, and the checkout and draft-print guards.
 */
module POS {
  import opened Wrappers
  import opened Types
  import opened Text
  import opened Cart

  /** The ticket number `CMD-` followed by n, left-padded with '0' to three digits. */
  function OrderNumber(n: nat): string
  {
    "CMD-" + PadStart(NatToString(n), 3, '0')
  }

  /** The ticket number is the prefix `CMD-` and at least three decimal digits denoting n. */
  lemma OrderNumberDenotes(n: nat)
    ensures |OrderNumber(n)| >= 7 && OrderNumber(n)[..4] == "CMD-"
    ensures AllDigits(OrderNumber(n)[4..])
    ensures |OrderNumber(n)[4..]| == if |NatToString(n)| >= 3 then |NatToString(n)| else 3
    ensures DecimalValue(OrderNumber(n)[4..]) == n
  {
    var d := NatToString(n);
    var padded := PadStart(d, 3, '0');
    assert OrderNumber(n)[4..] == padded;
    if |d| < 3 {
      assert padded == Repeat('0', 3 - |d|) + d;
      LeadingZeros(3 - |d|, d);
    }
  }

  /** Distinct sale counts give distinct ticket numbers. */
  lemma OrderNumberInjective(m: nat, n: nat)
    ensures OrderNumber(m) == OrderNumber(n) ==> m == n
  {
    OrderNumberDenotes(m);
    OrderNumberDenotes(n);
  }

  /**
   * The tax-inclusive split `subtotal = T / (1 + r/100)`, `tvaAmount = T - subtotal`, over
   * the reals (the application computes it in floating point).
   */
  function VatSplit(total: int, tvaRate: real): (r: (real, real))
    requires tvaRate >= 0.0
    ensures r.0 + r.1 == total as real
  {
    var divisor := 1.0 + tvaRate / 100.0;
    var subtotal := total as real / divisor;
    (subtotal, total as real - subtotal)
  }

  /** Adding the tax back onto the subtotal gives the total; a zero rate leaves no tax. */
  lemma VatSplitInverts(total: int, tvaRate: real)
    requires tvaRate >= 0.0
    ensures VatSplit(total, tvaRate).0 * (1.0 + tvaRate / 100.0) == total as real
    ensures tvaRate == 0.0 ==> VatSplit(total, tvaRate) == (total as real, 0.0)
  {
    if tvaRate == 0.0 {
      assert 1.0 + tvaRate / 100.0 == 1.0;
      assert total as real / 1.0 == total as real;
    }
  }

  /**
   * `createSaleObject`: the sale for the current cart, or the id of a cart line whose
   * product is no longer in the catalogue (where the source's `find(...)!` throws).
   */
  function CreateSale(c: Cart, ps: seq<Product>, salesCount: nat, tvaRate: real,
                      waiterName: string, managerName: string, customerName: string,
                      tableNumber: string, saleId: string, timestamp: string): (r: Result<Sale, string>)
    requires tvaRate >= 0.0
    ensures r.Ok? <==> forall i :: 0 <= i < |c| ==> FindProduct(ps, c[i].id).Some?
    ensures r.Err? ==> Has(c, r.error) && FindProduct(ps, r.error).None?
    ensures r.Ok? ==>
      var s := r.value;
      && s.id == saleId && s.timestamp == timestamp && s.storeId == ""
      && s.orderNumber == OrderNumber(salesCount + 1)
      && |s.items| == |c|
      && (forall i :: 0 <= i < |c| ==>
            var p := FindProduct(ps, c[i].id).value;
            s.items[i] == SaleItem(c[i].id, p.name, p.category, c[i].qty, p.price, p.costPrice))
      && s.total == Total(c, ps) && s.total == ItemsTotal(s.items)
      && s.totalCost == ItemsCost(s.items)
      && (s.subtotal, s.tvaAmount) == VatSplit(s.total, tvaRate)
      && s.paymentMethod == Cash && s.paymentStatus == PaymentSuccess
      && s.transactionId == None
      && s.managedBy == (if waiterName != "" then waiterName else managerName)
      && s.customerName == Some(customerName) && s.tableNumber == Some(tableNumber)
  {
    match ToItems(c, ps)
    case Err(id) => Err(id)
    case Ok(items) =>
      ItemsMatchCart(c, ps);
      var total := Total(c, ps);
      var vat := VatSplit(total, tvaRate);
      Ok(Sale(
        id := saleId,
        orderNumber := OrderNumber(salesCount + 1),
        storeId := "",
        tableNumber := Some(tableNumber),
        customerName := Some(customerName),
        timestamp := timestamp,
        items := items,
        subtotal := vat.0,
        tvaAmount := vat.1,
        total := total,
        totalCost := Cost(c, ps),
        paymentMethod := Cash,
        paymentStatus := PaymentSuccess,
        transactionId := None,
        managedBy := if waiterName != "" then waiterName else managerName))
  }

  /** What the checkout and draft buttons produce. */
  datatype Ticket = EmptyTotal | MissingProduct(id: string) | Built(sale: Sale)

  /** `if (cartTotal === 0) return; const sale = createSaleObject();` */
  function MakeTicket(c: Cart, ps: seq<Product>, salesCount: nat, tvaRate: real,
                      waiterName: string, managerName: string, customerName: string,
                      tableNumber: string, saleId: string, timestamp: string): (t: Ticket)
    requires tvaRate >= 0.0
    ensures t.EmptyTotal? <==> Total(c, ps) == 0
    ensures t.Built? ==> Total(c, ps) != 0 && t.sale.total == Total(c, ps)
                         && t.sale.orderNumber == OrderNumber(salesCount + 1) && t.sale.id == saleId
    ensures t.MissingProduct? ==> Has(c, t.id) && FindProduct(ps, t.id).None?
    ensures t.Built? ==> CreateSale(c, ps, salesCount, tvaRate, waiterName, managerName, customerName,
                                    tableNumber, saleId, timestamp) == Ok(t.sale)
  {
    if Total(c, ps) == 0 then EmptyTotal
    else match CreateSale(c, ps, salesCount, tvaRate, waiterName, managerName, customerName,
                          tableNumber, saleId, timestamp)
      case Err(id) => MissingProduct(id)
      case Ok(s) => Built(s)
  }

  /** `addToCart`: refused for an unknown product or when the cart already holds its whole stock. */
  function AddWithinStock(ps: seq<Product>, c: Cart, id: string): (r: Cart)
    ensures FindProduct(ps, id).None? || FindProduct(ps, id).value.stock <= Qty(c, id) ==> r == c
    ensures FindProduct(ps, id).Some? && Qty(c, id) < FindProduct(ps, id).value.stock ==>
              forall k :: Qty(r, k) == Qty(c, k) + (if k == id then 1 else 0)
    ensures DistinctIds(c) ==> DistinctIds(r)
  {
    match FindProduct(ps, id)
    case None => c
    case Some(p) => if p.stock <= Qty(c, id) then c else Increment(c, id)
  }

  /** Every line names a known product and asks for no more than its stock. */
  ghost predicate WithinStock(c: Cart, ps: seq<Product>)
  {
    forall k :: Has(c, k) ==> FindProduct(ps, k).Some? && Qty(c, k) <= FindProduct(ps, k).value.stock
  }

  /** The cart operations a cashier can perform on the counter screen. */
  datatype CartAction = AddOne(id: string) | RemoveOne(id: string) | DeleteLine(id: string)

  function Apply(ps: seq<Product>, c: Cart, a: CartAction): Cart
  {
    match a
    case AddOne(id) => AddWithinStock(ps, c, id)
    case RemoveOne(id) => Decrement(c, id)
    case DeleteLine(id) => Remove(c, id)
  }

  function Run(ps: seq<Product>, c: Cart, acts: seq<CartAction>): Cart
    decreases |acts|
  {
    if |acts| == 0 then c else Run(ps, Apply(ps, c, acts[0]), acts[1..])
  }

  /** Each cart action keeps the cart within stock and its ids distinct. */
  lemma ApplyWithinStock(ps: seq<Product>, c: Cart, a: CartAction)
    requires DistinctIds(c) && WithinStock(c, ps)
    ensures DistinctIds(Apply(ps, c, a)) && WithinStock(Apply(ps, c, a), ps)
  {
    var r := Apply(ps, c, a);
    if a.RemoveOne? && Qty(c, a.id) > 1 {
      if !Has(c, a.id) {
        QtyAbsent(c, a.id);
      }
      assert Ids(r) == Ids(c);
    }
    forall k | Has(r, k)
      ensures FindProduct(ps, k).Some? && Qty(r, k) <= FindProduct(ps, k).value.stock
    {
      if !Has(c, k) {
        assert a.AddOne? && k == a.id;
      }
    }
  }

  /** Starting from an empty cart, no sequence of actions takes a line past its product's stock. */
  lemma {:induction false} RunWithinStock(ps: seq<Product>, c: Cart, acts: seq<CartAction>)
    requires DistinctIds(c) && WithinStock(c, ps)
    ensures DistinctIds(Run(ps, c, acts)) && WithinStock(Run(ps, c, acts), ps)
    decreases |acts|
  {
    if |acts| > 0 {
      ApplyWithinStock(ps, c, acts[0]);
      RunWithinStock(ps, Apply(ps, c, acts[0]), acts[1..]);
    }
  }

  lemma EmptyCartWithinStock(ps: seq<Product>, acts: seq<CartAction>)
    ensures WithinStock(Run(ps, [], acts), ps)
  {
    RunWithinStock(ps, [], acts);
  }

  /** The quantity `loadPendingOrder` leaves for product k: that of the last item naming k. */
  function LastQty(items: seq<SaleItem>, k: string): int
  {
    if |items| == 0 then 0
    else if items[|items| - 1].productId == k then items[|items| - 1].quantity
    else LastQty(items[..|items| - 1], k)
  }

  /** Some item names product k. */
  predicate Names(items: seq<SaleItem>, k: string)
  {
    exists i :: 0 <= i < |items| && items[i].productId == k
  }

  lemma NamesSnoc(items: seq<SaleItem>, k: string)
    requires |items| > 0
    ensures Names(items, k) <==> Names(items[..|items| - 1], k) || items[|items| - 1].productId == k
  {
    var init := items[..|items| - 1];
    if Names(items, k) {
      var i :| 0 <= i < |items| && items[i].productId == k;
      if i < |init| {
        assert init[i] == items[i];
      }
    }
    if Names(init, k) {
      var i :| 0 <= i < |init| && init[i].productId == k;
      assert items[i] == init[i];
    }
  }

  /** `order.items.forEach(item => { newCart[item.productId] = item.quantity; })` from `{}`. */
  function FromItems(items: seq<SaleItem>): (r: Cart)
    ensures DistinctIds(r)
    ensures forall k :: Qty(r, k) == LastQty(items, k)
    ensures forall k :: Has(r, k) <==> Names(items, k)
  {
    if |items| == 0 then []
    else
      var prev := FromItems(items[..|items| - 1]);
      var last := items[|items| - 1];
      PutHas(prev, last.productId, last.quantity);
      forall k
        ensures Names(items, k) <==> Names(items[..|items| - 1], k) || k == last.productId
      {
        NamesSnoc(items, k);
      }
      Put(prev, last.productId, last.quantity)
  }

  /** The last item naming a product decides its quantity; earlier ones are overwritten. */
  lemma {:induction false} LastQtyIsLast(items: seq<SaleItem>, i: nat)
    requires i < |items|
    requires forall j :: i < j < |items| ==> items[j].productId != items[i].productId
    ensures LastQty(items, items[i].productId) == items[i].quantity
  {
    if i < |items| - 1 {
      LastQtyIsLast(items[..|items| - 1], i);
    }
  }

  /** The counter screen's own state. */
  class PosSession {
    var cart: Cart
    var customerName: string
    var tableNumber: string
    var waiterName: string
    var isProcessing: bool

    ghost predicate Valid()
      reads this
    {
      DistinctIds(cart)
    }

    constructor (managerName: string)
      ensures Valid() && cart == [] && customerName == "" && tableNumber == ""
      ensures waiterName == managerName && !isProcessing
    {
      cart := [];
      customerName := "";
      tableNumber := "";
      waiterName := managerName;
      isProcessing := false;
    }

    method AddToCart(ps: seq<Product>, id: string)
      requires Valid()
      modifies this`cart
      ensures Valid() && cart == AddWithinStock(ps, old(cart), id)
    {
      cart := AddWithinStock(ps, cart, id);
    }

    method RemoveFromCart(id: string)
      requires Valid()
      modifies this`cart
      ensures Valid() && cart == Decrement(old(cart), id)
    {
      cart := Decrement(cart, id);
    }

    method DeleteFromCart(id: string)
      requires Valid()
      modifies this`cart
      ensures Valid() && cart == Remove(old(cart), id)
    {
      cart := Remove(cart, id);
    }

    /** The "empty the cart" button, behind a confirmation. */
    method ClearCart(confirmed: bool)
      requires Valid()
      modifies this`cart
      ensures Valid() && cart == if confirmed then [] else old(cart)
    {
      if confirmed {
        cart := [];
      }
    }

    /** The customer, table and waiter inputs of the ticket. */
    method SetDetails(customer: string, table: string, waiter: string)
      modifies this`customerName, this`tableNumber, this`waiterName
      ensures customerName == customer && tableNumber == table && waiterName == waiter
    {
      customerName, tableNumber, waiterName := customer, table, waiter;
    }

    /**
     * `loadPendingOrder`: the cart becomes the order's items, the ticket takes the order's
     * customer, table and waiter; the returned id is handed to `onValidatePending`.
     */
    method LoadPendingOrder(order: PendingOrder, managerName: string) returns (validatedId: string)
      requires Valid()
      modifies this`cart, this`customerName, this`tableNumber, this`waiterName
      ensures Valid() && cart == FromItems(order.items)
      ensures customerName == order.customerName && tableNumber == order.tableNumber
      ensures waiterName == if order.waiterName.Some? && order.waiterName.value != ""
                            then order.waiterName.value else managerName
      ensures validatedId == order.id
    {
      var newCart: Cart := [];
      var i := 0;
      while i < |order.items|
        invariant 0 <= i <= |order.items|
        invariant newCart == FromItems(order.items[..i])
      {
        var item := order.items[i];
        assert order.items[..i + 1][..i] == order.items[..i];
        newCart := Put(newCart, item.productId, item.quantity);
        i := i + 1;
      }
      assert order.items[..i] == order.items;
      cart := newCart;
      customerName := order.customerName;
      tableNumber := order.tableNumber;
      waiterName := if order.waiterName.Some? && order.waiterName.value != ""
                    then order.waiterName.value else managerName;
      validatedId := order.id;
    }

    /** `handlePrintDraft`: the ticket that would be printed; nothing changes. */
    method PrintDraft(ps: seq<Product>, salesCount: nat, tvaRate: real, managerName: string,
                      saleId: string, timestamp: string) returns (t: Ticket)
      requires tvaRate >= 0.0
      ensures t == MakeTicket(cart, ps, salesCount, tvaRate, waiterName, managerName,
                              customerName, tableNumber, saleId, timestamp)
      ensures t.EmptyTotal? <==> Total(cart, ps) == 0
    {
      t := MakeTicket(cart, ps, salesCount, tvaRate, waiterName, managerName,
                      customerName, tableNumber, saleId, timestamp);
    }

    /**
     * `handleCheckout`: with a zero total nothing happens; otherwise the sale is built and,
     * once handed to `onSale`, the cart is emptied and the ticket reset to the manager.
     * When building throws, the processing flag stays raised and nothing else changes.
     */
    method Checkout(ps: seq<Product>, salesCount: nat, tvaRate: real, managerName: string,
                    saleId: string, timestamp: string) returns (t: Ticket)
      requires Valid() && tvaRate >= 0.0
      modifies this
      ensures Valid()
      ensures t == MakeTicket(old(cart), ps, salesCount, tvaRate, old(waiterName), managerName,
                              old(customerName), old(tableNumber), saleId, timestamp)
      ensures t.EmptyTotal? ==> unchanged(this)
      ensures t.MissingProduct? ==>
                (isProcessing && cart == old(cart) && customerName == old(customerName)
                 && tableNumber == old(tableNumber) && waiterName == old(waiterName))
      ensures t.Built? ==>
                (!isProcessing && cart == [] && customerName == "" && tableNumber == ""
                 && waiterName == managerName)
    {
      t := MakeTicket(cart, ps, salesCount, tvaRate, waiterName, managerName,
                      customerName, tableNumber, saleId, timestamp);
      if t.EmptyTotal? {
        return;
      }
      isProcessing := true;
      if t.Built? {
        isProcessing := false;
        cart := [];
        customerName := "";
        tableNumber := "";
        waiterName := managerName;
      }
    }
  }
}
