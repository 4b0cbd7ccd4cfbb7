/**
 * The application shell: the in-memory lists it hands to the screens, kept in step with
 * the product, sale and staff tables of the local database; the commit of a sale; the
 * pending-order and subscription updates; and the trial-licence arithmetic.
 */
module App {
  import opened Wrappers
  import opened Types
  import opened Cart
  import opened Seqs
  import opened POS
  import opened LocalDb
  import Inventory
  import SettingsScreen

  /** `1000 * 60 * 60 * 24`. */
  const MsPerDay: int := 86400000
  const TrialDays: int := 30

  /** `STORES[0]`, the only configured store. */
  const DefaultStore: Store :=
    Store("lbv-1", "Bistro Libreville HQ", "Glass, LBV", true, Active, Enterprise, Some("123456"), Some("2410"))

  const InitialCategories: seq<string> := ["Boisson", "Nourriture", "Divers"]

  /** `sale.items.find(i => i.productId === id)`. */
  function FirstItem(items: seq<SaleItem>, id: string): (r: Option<SaleItem>)
    ensures r.None? <==> forall i :: 0 <= i < |items| ==> items[i].productId != id
    ensures r.Some? ==> exists i :: 0 <= i < |items| && items[i] == r.value && r.value.productId == id
                          && forall j :: 0 <= j < i ==> items[j].productId != id
  {
    if |items| == 0 then None
    else if items[0].productId == id then Some(items[0])
    else
      var r := FirstItem(items[1..], id);
      assert r.Some? ==> exists i :: 1 <= i < |items| && items[i] == r.value;
      r
  }

  /** The quantity the first sold line naming id takes off its stock; 0 when none names it. */
  function SoldQuantity(items: seq<SaleItem>, id: string): int
  {
    match FirstItem(items, id)
    case Some(it) => it.quantity
    case None => 0
  }

  /** `sold ? { ...p, stock: p.stock - sold.quantity } : p`. */
  function Decremented(p: Product, items: seq<SaleItem>): Product
  {
    match FirstItem(items, p.id)
    case Some(it) => p.(stock := p.stock - it.quantity)
    case None => p
  }

  /** `updatedProducts`: each product's stock less its first sold line, with no lower bound. */
  function StockAfterSale(ps: seq<Product>, items: seq<SaleItem>): (r: seq<Product>)
    ensures |r| == |ps|
    ensures forall i :: 0 <= i < |ps| ==>
              r[i] == ps[i].(stock := ps[i].stock - SoldQuantity(items, ps[i].id))
    ensures forall i :: 0 <= i < |ps| && (forall j :: 0 <= j < |items| ==> items[j].productId != ps[i].id) ==>
              r[i] == ps[i]
    decreases |ps|
  {
    if |ps| == 0 then []
    else
      var rest := StockAfterSale(ps[1..], items);
      assert forall i :: 1 <= i < |ps| ==> ps[1..][i - 1] == ps[i];
      [Decremented(ps[0], items)] + rest
  }

  /** Looking a product up after the sale finds the same product with its decremented stock. */
  lemma {:induction false} FindAfterSale(ps: seq<Product>, items: seq<SaleItem>, k: string)
    ensures FindProduct(ps, k).None? ==> FindProduct(StockAfterSale(ps, items), k).None?
    ensures FindProduct(ps, k).Some? ==>
              FindProduct(StockAfterSale(ps, items), k) == Some(Decremented(FindProduct(ps, k).value, items))
    decreases |ps|
  {
    if |ps| > 0 {
      var u := StockAfterSale(ps, items);
      var rest := StockAfterSale(ps[1..], items);
      assert u == [Decremented(ps[0], items)] + rest;
      assert u[1..] == rest;
      if ps[0].id != k {
        FindAfterSale(ps[1..], items, k);
      }
    }
  }

  /** The ids the sale's lines name. */
  function SoldIds(items: seq<SaleItem>): set<string>
  {
    set i | 0 <= i < |items| :: items[i].productId
  }

  /**
   * The product table after `for (const soldItem of sale.items)`, which puts the updated
   * product of each line, if there is one.
   */
  function WriteBack(rows: map<string, Product>, updated: seq<Product>, items: seq<SaleItem>): map<string, Product>
  {
    if |items| == 0 then rows
    else
      var m := WriteBack(rows, updated, items[..|items| - 1]);
      match FindProduct(updated, items[|items| - 1].productId)
      case Some(p) => m[p.id := p]
      case None => m
  }

  /** The loop of `handleNewSale` that puts each sold product, as updated, back into the table. */
  method WriteBackStock(t: Table<Product>, updated: seq<Product>, items: seq<SaleItem>)
    requires t.key == ProductKey
    modifies t
    ensures t.rows == WriteBack(old(t.rows), updated, items)
  {
    var i := 0;
    while i < |items|
      invariant 0 <= i <= |items|
      invariant t.rows == WriteBack(old(t.rows), updated, items[..i])
    {
      var prod := FindProduct(updated, items[i].productId);
      assert items[..i + 1][..i] == items[..i];
      if prod.Some? {
        t.Put(prod.value);
      }
      i := i + 1;
    }
    assert items[..i] == items;
  }

  /** `db.sales.add(saleWithStore)`: refused exactly when a stored sale has the same id. */
  method AddSale(t: Table<Sale>, sales: seq<Sale>, stamped: Sale) returns (committed: bool)
    requires t.key == SaleKey && t.rows == TableOf(sales, SaleKey)
    modifies t
    ensures committed <==> forall i :: 0 <= i < |sales| ==> sales[i].id != stamped.id
    ensures t.rows == if committed then TableOf([stamped] + sales, SaleKey) else old(t.rows)
  {
    TableOfLookup(sales, SaleKey, stamped.id);
    assert (stamped.id in t.rows) <==> exists i :: 0 <= i < |sales| && sales[i].id == stamped.id;
    committed := t.Add(stamped);
    if committed {
      TableOfPrepend(stamped, sales, SaleKey);
    }
  }

  /** The stock write-back of `handleNewSale` leaves the table holding the updated list. */
  method SyncStock(t: Table<Product>, products: seq<Product>, items: seq<SaleItem>)
    requires t.key == ProductKey && t.rows == TableOf(products, ProductKey)
    modifies t
    ensures t.rows == TableOf(StockAfterSale(products, items), ProductKey)
  {
    WriteBackStock(t, StockAfterSale(products, items), items);
    MirrorAfterSale(products, items);
  }

  /** Only products named by some line are written, each as the updated list has it. */
  lemma {:induction false} WriteBackWrites(rows: map<string, Product>, updated: seq<Product>,
                                           items: seq<SaleItem>, k: string)
    ensures var w := WriteBack(rows, updated, items);
            && (k in w <==> k in rows || (k in SoldIds(items) && FindProduct(updated, k).Some?))
            && (k in w ==> w[k] == if k in SoldIds(items) && FindProduct(updated, k).Some?
                                   then FindProduct(updated, k).value else rows[k])
  {
    if |items| > 0 {
      var init := items[..|items| - 1];
      WriteBackWrites(rows, updated, init, k);
      assert SoldIds(items) == SoldIds(init) + {items[|items| - 1].productId} by {
        assert forall i :: 0 <= i < |init| ==> init[i] == items[i];
      }
    }
  }

  /** After the write-back the product table holds exactly the updated list. */
  lemma MirrorAfterSale(ps: seq<Product>, items: seq<SaleItem>)
    ensures WriteBack(TableOf(ps, ProductKey), StockAfterSale(ps, items), items)
            == TableOf(StockAfterSale(ps, items), ProductKey)
  {
    var u := StockAfterSale(ps, items);
    var lhs := WriteBack(TableOf(ps, ProductKey), u, items);
    var rhs := TableOf(u, ProductKey);
    forall k
      ensures (k in lhs <==> k in rhs) && (k in lhs ==> lhs[k] == rhs[k])
    {
      WriteBackWrites(TableOf(ps, ProductKey), u, items, k);
      TableOfLookup(ps, ProductKey, k);
      TableOfLookup(u, ProductKey, k);
      FindByProductKey(ps, k);
      FindByProductKey(u, k);
      FindAfterSale(ps, items, k);
      if k !in SoldIds(items) {
        assert FirstItem(items, k).None?;
      }
    }
    assert lhs == rhs;
  }

  /**
   * A cart kept within stock, sold from a catalogue with distinct ids and no negative
   * stock, leaves no negative stock.
   */
  lemma SaleFromCartKeepsStock(c: Cart, ps: seq<Product>, items: seq<SaleItem>)
    requires DistinctIds(c) && WithinStock(c, ps)
    requires forall i, j :: 0 <= i < j < |ps| ==> ps[i].id != ps[j].id
    requires forall i :: 0 <= i < |ps| ==> ps[i].stock >= 0
    requires ToItems(c, ps) == Ok(items)
    ensures forall i :: 0 <= i < |ps| ==> StockAfterSale(ps, items)[i].stock >= 0
  {
    forall i | 0 <= i < |ps|
      ensures StockAfterSale(ps, items)[i].stock >= 0
    {
      var id := ps[i].id;
      match FirstItem(items, id)
      case None =>
      case Some(it) =>
        var k :| 0 <= k < |items| && items[k] == it && it.productId == id;
        assert items[k].productId == c[k].id && items[k].quantity == c[k].qty;
        QtyOfLine(c, k);
        assert Has(c, id) by {
          assert Ids(c)[k] == id;
        }
        FindFirstOfDistinct(ps, i);
    }
  }

  /** In a catalogue with distinct ids, looking up a product's id finds that product. */
  lemma {:induction false} FindFirstOfDistinct(ps: seq<Product>, i: nat)
    requires i < |ps| && forall a, b :: 0 <= a < b < |ps| ==> ps[a].id != ps[b].id
    ensures FindProduct(ps, ps[i].id) == Some(ps[i])
    decreases i
  {
    if i > 0 {
      FindFirstOfDistinct(ps[1..], i - 1);
    }
  }

  /** `prev.filter(o => o.id !== id)`, the `onValidatePending` update. */
  function RemovePending(orders: seq<PendingOrder>, id: string): (r: seq<PendingOrder>)
    ensures forall o :: o in r <==> o in orders && o.id != id
    ensures forall i :: 0 <= i < |r| ==> r[i].id != id
    ensures IsSubsequence(r, orders)
  {
    Filter(orders, (o: PendingOrder) => o.id != id)
  }

  /** The codes the billing screen hands back after a payment. */
  datatype Codes = Codes(activation: string, staff: string)

  /** `updateTierWithCodes`: an empty supplied code keeps the previous one. */
  function WithTier(s: Store, tier: SubscriptionTier, codes: Option<Codes>): (r: Store)
    ensures r.tier == tier && r.subscriptionStatus == Active
    ensures r.activationCode == if codes.Some? && codes.value.activation != ""
                                then Some(codes.value.activation) else s.activationCode
    ensures r.staffAccessCode == if codes.Some? && codes.value.staff != ""
                                 then Some(codes.value.staff) else s.staffAccessCode
    ensures r.id == s.id && r.name == s.name && r.location == s.location && r.tvaEnabled == s.tvaEnabled
  {
    s.(tier := tier,
       subscriptionStatus := Active,
       activationCode := if codes.Some? && codes.value.activation != "" then Some(codes.value.activation)
                         else s.activationCode,
       staffAccessCode := if codes.Some? && codes.value.staff != "" then Some(codes.value.staff)
                          else s.staffAccessCode)
  }

  /** Applying the same upgrade twice is applying it once. */
  lemma WithTierIdempotent(s: Store, tier: SubscriptionTier, codes: Option<Codes>)
    ensures WithTier(WithTier(s, tier, codes), tier, codes) == WithTier(s, tier, codes)
  {
  }

  datatype License = License(daysRemaining: int, isExpired: bool)

  /** `Math.floor(ms / 86400000)`: whole days elapsed (negative for a date in the future). */
  function ElapsedDays(ms: int): (d: int)
    ensures MsPerDay * d <= ms < MsPerDay * (d + 1)
  {
    ms / MsPerDay
  }

  /**
   * `licenseInfo`: with no installation date (absent or 0) the full trial and no expiry;
   * otherwise `max(0, 30 - days elapsed)`, expired only at 0 days on a non-ACTIVE store.
   */
  function LicenseInfo(installationDate: Option<int>, now: int, status: SubscriptionStatus): (r: License)
    ensures installationDate.None? || installationDate == Some(0) ==> r == License(TrialDays, false)
    ensures r.daysRemaining >= 0
    ensures r.isExpired <==> r.daysRemaining == 0 && status != Active
    ensures installationDate.Some? && installationDate.value != 0 ==>
              r.daysRemaining == (if TrialDays - ElapsedDays(now - installationDate.value) > 0
                                  then TrialDays - ElapsedDays(now - installationDate.value) else 0)
    ensures installationDate.Some? && now >= installationDate.value ==> r.daysRemaining <= TrialDays
  {
    if installationDate.None? || installationDate.value == 0 then License(TrialDays, false)
    else
      var days := ElapsedDays(now - installationDate.value);
      var remaining := if TrialDays - days > 0 then TrialDays - days else 0;
      License(remaining, remaining <= 0 && status != Active)
  }

  /** An installation date in the future gives more than the 30 trial days. */
  lemma FutureInstallationExceedsTrial()
    ensures LicenseInfo(Some(2 * MsPerDay), 0, Trial).daysRemaining == 32
  {
    assert ElapsedDays(0 - 2 * MsPerDay) == -2;
  }

  /** What a screen hands to `setProducts` / `setStaff`: a new list or an updater of the old one. */
  datatype ListUpdate<!T> = Replace(items: seq<T>) | Modify(f: seq<T> -> seq<T>)

  /** The list React's state setter ends up with. */
  function Resolve<T>(u: ListUpdate<T>, prev: seq<T>): seq<T>
  {
    match u
    case Replace(xs) => xs
    case Modify(f) => f(prev)
  }

  /**
   * The table left by `handleUpdateProducts` / `handleUpdateStaff` as written: `clear()`,
   * then `bulkAdd` of the argument, which for an updater is not an array of records.
   */
  function PersistedAsWritten<T>(u: ListUpdate<T>, key: T -> string): map<string, T>
  {
    match u
    case Replace(xs) => TableOf(xs, key)
    case Modify(_) => map[]
  }

  /** Whenever an updater leaves a non-empty list, the table as written no longer holds it. */
  lemma UpdaterEmptiesTable<T>(u: ListUpdate<T>, prev: seq<T>, key: T -> string)
    requires u.Modify? && Resolve(u, prev) != []
    ensures PersistedAsWritten(u, key) != TableOf(Resolve(u, prev), key)
  {
    var xs := Resolve(u, prev);
    TableOfLookup(xs, key, key(xs[0]));
  }

  /** Deleting one of two products from the stock screen empties the product table. */
  lemma DeleteEmptiesCatalog(p1: Product, p2: Product)
    requires p1.id != p2.id
    ensures var u := Modify((ps: seq<Product>) => Inventory.WithoutProduct(ps, p2.id));
            && Resolve(u, [p1, p2]) == [p1]
            && PersistedAsWritten(u, ProductKey) == map[]
            && TableOf(Resolve(u, [p1, p2]), ProductKey) == map[p1.id := p1]
  {
    var r := Inventory.WithoutProduct([p1, p2], p2.id);
    FilterCounts([p1, p2], (p: Product) => p.id != p2.id);
    assert p1 in r;
    assert forall p :: p in r ==> p == p1;
    assert r == [p1] by {
      assert multiset(r)[p1] == multiset([p1, p2])[p1] == 1;
      assert multiset(r) == multiset{p1};
      assert |r| == |multiset(r)| == 1;
      assert r[0] in r;
    }
    assert TableOf([p1], ProductKey) == map[p1.id := p1] by {
      assert [p1][1..] == [];
      assert AddAll(map[], [p1], ProductKey) == AddAll(map[p1.id := p1], [], ProductKey);
    }
  }

  /** The application's state. */
  class App {
    var currentStore: Store
    var settings: Settings
    var products: seq<Product>
    var staff: seq<StaffMember>
    var categories: seq<string>
    var sales: seq<Sale>
    var pendingOrders: seq<PendingOrder>
    const db: Db

    /** The product, sale and staff tables hold exactly the in-memory lists. */
    ghost predicate Valid()
      reads this, db, db.products, db.sales, db.staff
    {
      && db.Valid()
      && db.products.rows == TableOf(products, ProductKey)
      && db.sales.rows == TableOf(sales, SaleKey)
      && db.staff.rows == TableOf(staff, StaffKey)
    }

    /** The state before anything is loaded; `now` is the first run's installation date. */
    constructor (now: int)
      ensures Valid() && fresh(db) && fresh(db.products) && fresh(db.sales) && fresh(db.staff)
      ensures currentStore == DefaultStore && categories == InitialCategories
      ensures products == [] && staff == [] && sales == [] && pendingOrders == []
      ensures settings.managerName == "Gérant" && settings.tvaRate == 18.0
      ensures settings.installationDate == Some(now)
    {
      currentStore := DefaultStore;
      settings := Settings(DefaultStore.name, "Gérant", 18.0, Some(0), None, None, Some(0), Some(0),
                           Some(0), None, None, Some(now));
      products, staff, sales, pendingOrders := [], [], [], [];
      categories := InitialCategories;
      db := new Db();
    }

    /**
     * `handleNewSale`: the sale is stored with this store's id; when that is refused (its id
     * is taken) nothing else happens. Otherwise each product named by a line loses the first
     * such line's quantity, is written back, and the sale goes first in the history.
     */
    method HandleNewSale(sale: Sale) returns (committed: bool)
      requires Valid()
      modifies this`sales, this`products, db.sales, db.products
      ensures Valid()
      ensures committed <==> forall i :: 0 <= i < |old(sales)| ==> old(sales)[i].id != sale.id
      ensures committed ==> sales == [sale.(storeId := currentStore.id)] + old(sales)
      ensures committed ==> products == StockAfterSale(old(products), sale.items)
      ensures !committed ==> sales == old(sales) && products == old(products)
    {
      var stamped := sale.(storeId := currentStore.id);
      committed := AddSale(db.sales, sales, stamped);
      if !committed {
        return;
      }
      SyncStock(db.products, products, sale.items);
      sales := [stamped] + sales;
      products := StockAfterSale(products, sale.items);
    }

    /** `handleUpdateProducts`, persisting the list the state setter resolves to. */
    method HandleUpdateProducts(u: ListUpdate<Product>)
      requires Valid()
      modifies this`products, db.products
      ensures Valid() && products == Resolve(u, old(products))
    {
      var next := Resolve(u, products);
      products := next;
      db.products.Clear();
      var ok := db.products.BulkAdd(next);
    }

    /** `handleUpdateStaff`, persisting the list the state setter resolves to. */
    method HandleUpdateStaff(u: ListUpdate<StaffMember>)
      requires Valid()
      modifies this`staff, db.staff
      ensures Valid() && staff == Resolve(u, old(staff))
    {
      var next := Resolve(u, staff);
      staff := next;
      db.staff.Clear();
      var ok := db.staff.BulkAdd(next);
    }

    /** `onValidatePending`. */
    method ValidatePending(id: string)
      modifies this`pendingOrders
      ensures pendingOrders == RemovePending(old(pendingOrders), id)
    {
      pendingOrders := RemovePending(pendingOrders, id);
    }

    method UpdateTierWithCodes(tier: SubscriptionTier, codes: Option<Codes>)
      modifies this`currentStore
      ensures currentStore == WithTier(old(currentStore), tier, codes)
    {
      currentStore := WithTier(currentStore, tier, codes);
    }

    /**
     * The counter's checkout followed by `onSale`: the counter resets once the sale is
     * built, whether or not the store then accepts it.
     */
    method PosCheckout(pos: PosSession, saleId: string, timestamp: string) returns (t: Ticket, committed: bool)
      requires Valid() && pos.Valid() && settings.tvaRate >= 0.0
      modifies pos, this`sales, this`products, db.sales, db.products
      ensures Valid() && pos.Valid()
      ensures t == MakeTicket(old(pos.cart), old(products), |old(sales)|, settings.tvaRate,
                              old(pos.waiterName), settings.managerName, old(pos.customerName),
                              old(pos.tableNumber), saleId, timestamp)
      ensures t.Built? && committed ==>
                && sales == [t.sale.(storeId := currentStore.id)] + old(sales)
                && products == StockAfterSale(old(products), t.sale.items)
      ensures !(t.Built? && committed) ==> sales == old(sales) && products == old(products)
      ensures t.Built? ==> (committed <==> forall i :: 0 <= i < |old(sales)| ==> old(sales)[i].id != saleId)
      ensures t.EmptyTotal? ==> unchanged(pos)
      ensures t.MissingProduct? ==>
                (pos.isProcessing && pos.cart == old(pos.cart) && pos.customerName == old(pos.customerName)
                 && pos.tableNumber == old(pos.tableNumber) && pos.waiterName == old(pos.waiterName))
      ensures t.Built? ==>
                (!pos.isProcessing && pos.cart == [] && pos.customerName == "" && pos.tableNumber == ""
                 && pos.waiterName == settings.managerName)
    {
      t := pos.Checkout(products, |sales|, settings.tvaRate, settings.managerName, saleId, timestamp);
      committed := false;
      if t.Built? {
        committed := HandleNewSale(t.sale);
      }
    }

    /** The counter loads a pending order and the order leaves the pending list. */
    method LoadPendingIntoPos(pos: PosSession, order: PendingOrder)
      requires pos.Valid()
      modifies pos`cart, pos`customerName, pos`tableNumber, pos`waiterName, this`pendingOrders
      ensures pos.Valid() && pos.cart == FromItems(order.items)
      ensures pos.customerName == order.customerName && pos.tableNumber == order.tableNumber
      ensures pos.waiterName == if order.waiterName.Some? && order.waiterName.value != ""
                                then order.waiterName.value else settings.managerName
      ensures pendingOrders == RemovePending(old(pendingOrders), order.id)
    {
      var id := pos.LoadPendingOrder(order, settings.managerName);
      ValidatePending(id);
    }

    /** The stock screen's `handleDelete`, behind its confirmation. */
    method DeleteProduct(id: string, confirmed: bool)
      requires Valid()
      modifies this`products, db.products
      ensures Valid()
      ensures products == if confirmed then Inventory.WithoutProduct(old(products), id) else old(products)
    {
      if confirmed {
        HandleUpdateProducts(Modify((ps: seq<Product>) => Inventory.WithoutProduct(ps, id)));
      }
    }

    /** The stock screen's `handleSave`. */
    method SaveProduct(editing: Option<Product>, form: Inventory.ProductForm, image: Option<string>, freshId: string)
      requires Valid()
      modifies this`products, db.products
      ensures Valid()
      ensures products == Inventory.SaveProduct(old(products), editing, form, image, freshId)
    {
      var data := Inventory.ProductFromForm(editing, form, image, freshId);
      if editing.Some? {
        var id := editing.value.id;
        HandleUpdateProducts(Modify((ps: seq<Product>) => ReplaceWhere(ps, (p: Product) => p.id == id, data)));
      } else {
        HandleUpdateProducts(Modify((ps: seq<Product>) => ps + [data]));
      }
    }

    /** The stock screen's `handleAddCategory`; categories live only in memory here. */
    method AddCategory(name: string) returns (r: Result<seq<string>, Inventory.CategoryError>)
      modifies this`categories
      ensures r == Inventory.AddCategory(old(categories), name)
      ensures categories == if r.Ok? then r.value else old(categories)
    {
      r := Inventory.AddCategory(categories, name);
      if r.Ok? {
        categories := r.value;
      }
    }

    /** The stock screen's `removeCategory`. */
    method RemoveCategory(cat: string) returns (r: Result<seq<string>, Inventory.CategoryError>)
      modifies this`categories
      ensures r == Inventory.RemoveCategory(old(categories), products, cat)
      ensures categories == if r.Ok? then r.value else old(categories)
    {
      r := Inventory.RemoveCategory(categories, products, cat);
      if r.Ok? {
        categories := r.value;
      }
    }

    /** The console's `handleStaffSave`. */
    method SaveStaff(editing: Option<StaffMember>, form: SettingsScreen.StaffForm, freshId: string, now: string)
      returns (saved: bool)
      requires Valid()
      modifies this`staff, db.staff
      ensures Valid()
      ensures var r := SettingsScreen.SaveStaff(old(staff), editing, form, freshId, now);
              saved == r.Ok? && staff == if r.Ok? then r.value else old(staff)
    {
      if editing.None? && SettingsScreen.UsernameTaken(staff, form.username) {
        return false;
      }
      var data := SettingsScreen.StaffFromForm(editing, form, freshId, now);
      if editing.Some? {
        var id := editing.value.id;
        HandleUpdateStaff(Modify((s: seq<StaffMember>) => ReplaceWhere(s, (m: StaffMember) => m.id == id, data)));
      } else {
        HandleUpdateStaff(Modify((s: seq<StaffMember>) => s + [data]));
      }
      saved := true;
    }

    /** The console's `toggleStaffStatus`. */
    method ToggleStaffStatus(id: string)
      requires Valid()
      modifies this`staff, db.staff
      ensures Valid() && staff == SettingsScreen.ToggleStatus(old(staff), id)
    {
      HandleUpdateStaff(Modify((s: seq<StaffMember>) => SettingsScreen.ToggleStatus(s, id)));
    }

    /** The console's `deleteStaff`, behind its confirmation. */
    method DeleteStaff(id: string, confirmed: bool)
      requires Valid()
      modifies this`staff, db.staff
      ensures Valid()
      ensures staff == if confirmed then SettingsScreen.WithoutMember(old(staff), id) else old(staff)
    {
      if confirmed {
        HandleUpdateStaff(Modify((s: seq<StaffMember>) => SettingsScreen.WithoutMember(s, id)));
      }
    }
  }
}
