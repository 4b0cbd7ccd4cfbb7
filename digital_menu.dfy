/**
 * The customer-facing menu: a product listing, a second cart with no stock ceiling, and the
 * guarded submission of a PENDING order for the counter to validate.
 */
module DigitalMenu {
  import opened Wrappers
  import opened Types
  import opened Text
  import opened Seqs
  import opened Cart

  /** The category chip that selects every category. */
  const AllCategories: string := "Tous"

  predicate Listed(p: Product, query: string, category: string)
  {
    && Contains(Lower(p.name), Lower(query))
    && (category == AllCategories || p.category == category)
    && p.stock > 0
  }

  /** `filteredProducts`. */
  function MenuListing(ps: seq<Product>, query: string, category: string): (r: seq<Product>)
    ensures forall p :: p in r <==>
              && p in ps
              && Contains(Lower(p.name), Lower(query))
              && (category == AllCategories || p.category == category)
              && p.stock > 0
    ensures IsSubsequence(r, ps)
  {
    Filter(ps, (p: Product) => Listed(p, query, category))
  }

  /** `isFormValid`, which enables the order button together with a non-empty cart. */
  function IsFormValid(customerName: string, tableNumber: string): (b: bool)
    ensures b <==> |Trim(customerName)| >= 2 && |Trim(tableNumber)| > 0
  {
    |Trim(customerName)| >= 2 && |Trim(tableNumber)| > 0
  }

  /** Whenever the button is enabled, the handler's own guard lets the order through. */
  lemma ValidFormPassesGuard(customerName: string, tableNumber: string)
    requires IsFormValid(customerName, tableNumber)
    ensures customerName != "" && tableNumber != ""
  {
    assert Trim(customerName) == TrimEnd(TrimStart(customerName));
    assert Trim(tableNumber) == TrimEnd(TrimStart(tableNumber));
  }

  /** `waiterName.trim() || undefined`. */
  function WaiterOf(waiterName: string): (r: Option<string>)
    ensures r.None? <==> Trim(waiterName) == ""
    ensures r.Some? ==> r.value == Trim(waiterName)
  {
    if Trim(waiterName) == "" then None else Some(Trim(waiterName))
  }

  datatype Submission = Rejected | MissingProduct(id: string) | Submitted(order: PendingOrder)

  /**
   * `handleSubmitOrder`: nothing without a name, a table and at least one item; the `!`
   * after `find` throws on a line whose product is gone; otherwise a PENDING order for the
   * cart's lines and total.
   */
  function BuildOrder(c: Cart, ps: seq<Product>, customerName: string, tableNumber: string,
                      waiterName: string, orderId: string, timestamp: string): (r: Submission)
    ensures r.Rejected? <==> customerName == "" || tableNumber == "" || Count(c) == 0
    ensures !r.Rejected? ==> (r.Submitted? <==> forall i :: 0 <= i < |c| ==> FindProduct(ps, c[i].id).Some?)
    ensures r.MissingProduct? ==> Has(c, r.id) && FindProduct(ps, r.id).None?
    ensures r.Submitted? ==>
              var o := r.order;
              && o.id == orderId && o.timestamp == timestamp && o.status == Pending
              && o.customerName == customerName && o.tableNumber == tableNumber
              && o.waiterName == WaiterOf(waiterName)
              && o.total == Total(c, ps) && o.total == ItemsTotal(o.items)
              && |o.items| == |c|
              && (forall i :: 0 <= i < |c| ==> FindProduct(ps, c[i].id).Some?)
              && forall i :: 0 <= i < |c| ==>
                   var p := FindProduct(ps, c[i].id).value;
                   o.items[i] == SaleItem(c[i].id, p.name, p.category, c[i].qty, p.price, p.costPrice)
  {
    if customerName == "" || tableNumber == "" || Count(c) == 0 then Rejected
    else match ToItems(c, ps)
      case Err(id) => MissingProduct(id)
      case Ok(items) =>
        ItemsMatchCart(c, ps);
        Submitted(PendingOrder(orderId, customerName, tableNumber, WaiterOf(waiterName), items,
                               timestamp, Total(c, ps), Pending))
  }

  /** The menu screen's own state. */
  class MenuSession {
    var cart: Cart
    var customerName: string
    var tableNumber: string
    var waiterName: string
    var showConfirmation: bool

    /** Cart keys are distinct and every quantity is at least 1. */
    ghost predicate Valid()
      reads this
    {
      DistinctIds(cart) && AllPositive(cart)
    }

    constructor ()
      ensures Valid() && cart == [] && customerName == "" && tableNumber == "" && waiterName == ""
      ensures !showConfirmation
    {
      cart := [];
      customerName, tableNumber, waiterName := "", "", "";
      showConfirmation := false;
    }

    /** `addToCart`: one more of id, whatever the stock. */
    method AddToCart(id: string)
      requires Valid()
      modifies this`cart
      ensures Valid() && cart == Increment(old(cart), id)
      ensures forall k :: Qty(cart, k) == Qty(old(cart), k) + (if k == id then 1 else 0)
    {
      QtyNonNegative(cart, id);
      PutPositive(cart, id, Qty(cart, id) + 1);
      cart := Increment(cart, id);
    }

    /** `removeFromCart`: one fewer of id, the key dropping once it would reach zero. */
    method RemoveFromCart(id: string)
      requires Valid()
      modifies this`cart
      ensures Valid() && cart == Decrement(old(cart), id)
    {
      if Qty(cart, id) > 1 {
        PutPositive(cart, id, Qty(cart, id) - 1);
      } else {
        RemovePositive(cart, id);
      }
      cart := Decrement(cart, id);
    }

    /** The name, table and waiter inputs. */
    method SetDetails(customer: string, table: string, waiter: string)
      modifies this`customerName, this`tableNumber, this`waiterName
      ensures customerName == customer && tableNumber == table && waiterName == waiter
    {
      customerName, tableNumber, waiterName := customer, table, waiter;
    }

    /** `handleSubmitOrder`: the order is handed on and the confirmation shown; the cart stays. */
    method SubmitOrder(ps: seq<Product>, orderId: string, timestamp: string) returns (r: Submission)
      requires Valid()
      modifies this`showConfirmation
      ensures r == BuildOrder(cart, ps, customerName, tableNumber, waiterName, orderId, timestamp)
      ensures r.Rejected? <==> customerName == "" || tableNumber == "" || cart == []
      ensures showConfirmation == (r.Submitted? || old(showConfirmation))
    {
      CountZeroIffEmpty(cart);
      r := BuildOrder(cart, ps, customerName, tableNumber, waiterName, orderId, timestamp);
      if r.Submitted? {
        showConfirmation := true;
      }
    }

    /** Closing the confirmation empties the cart. */
    method DismissConfirmation()
      modifies this`cart, this`showConfirmation
      ensures Valid() && cart == [] && !showConfirmation
    {
      cart := [];
      showConfirmation := false;
    }
  }
}
