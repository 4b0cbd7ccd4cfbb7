/** The manager's dashboard figures: gross takings, stock value at cost, fixed charges and the daily target. */
module Dashboard {
  import opened Wrappers
  import opened Types
  import App

  /** `totalStockValueAchat`: the sum of `costPrice * stock` over the catalogue. */
  function StockValue(ps: seq<Product>): int
  {
    if |ps| == 0 then 0 else ps[0].costPrice * ps[0].stock + StockValue(ps[1..])
  }

  /** `(x || 0)` for an optional amount. */
  function OrZero(x: Option<int>): (r: int)
    ensures x.None? ==> r == 0
    ensures x.Some? ==> r == x.value
  {
    if x.Some? then x.value else 0
  }

  /** The charges that make up `monthlyFixedCharges`, in the order they are added. */
  function ChargeFields(s: Settings): seq<Option<int>>
  {
    [s.monthlyRent, s.monthlyManagerSalary, s.monthlyElectricity, s.monthlyWater,
     s.monthlyWifi, s.monthlyCanal, s.monthlyDjSalary]
  }

  function SumPresent(xs: seq<Option<int>>): int
  {
    if |xs| == 0 then 0 else SumPresent(xs[..|xs| - 1]) + OrZero(xs[|xs| - 1])
  }

  /** `monthlyFixedCharges`. */
  function FixedCharges(s: Settings): int
  {
    SumPresent(ChargeFields(s))
  }

  /**
   * The fixed charges are rent, manager salary, electricity, water, wifi, TV and DJ salary,
   * a missing one counting 0; the app subscription is not among them.
   */
  lemma FixedChargesAre(s: Settings, subscription: Option<int>)
    ensures FixedCharges(s) == OrZero(s.monthlyRent) + OrZero(s.monthlyManagerSalary)
                               + OrZero(s.monthlyElectricity) + OrZero(s.monthlyWater)
                               + OrZero(s.monthlyWifi) + OrZero(s.monthlyCanal) + OrZero(s.monthlyDjSalary)
    ensures FixedCharges(s.(appSubscription := subscription)) == FixedCharges(s)
  {
    var xs := ChargeFields(s);
    assert xs[..7] == xs;
    SumPrefix(xs, 7);
    SumPrefix(xs, 6);
    SumPrefix(xs, 5);
    SumPrefix(xs, 4);
    SumPrefix(xs, 3);
    SumPrefix(xs, 2);
    SumPrefix(xs, 1);
    assert ChargeFields(s.(appSubscription := subscription)) == xs;
  }

  lemma SumPrefix(xs: seq<Option<int>>, k: nat)
    requires 1 <= k <= |xs|
    ensures SumPresent(xs[..k]) == SumPresent(xs[..k - 1]) + OrZero(xs[k - 1])
  {
    assert xs[..k][..k - 1] == xs[..k - 1];
  }

  /** The charges never go negative when none of the amounts is negative. */
  lemma {:induction false} ChargesNonNegative(xs: seq<Option<int>>)
    requires forall i :: 0 <= i < |xs| ==> OrZero(xs[i]) >= 0
    ensures SumPresent(xs) >= 0
    decreases |xs|
  {
    if |xs| > 0 {
      ChargesNonNegative(xs[..|xs| - 1]);
    }
  }

  datatype Analytics = Analytics(totalGross: int, totalStockValueAchat: int, monthlyFixedCharges: int)

  /** The `analytics` memo. */
  function AnalyticsOf(sales: seq<Sale>, products: seq<Product>, settings: Settings): (a: Analytics)
    ensures a.totalGross == SalesTotal(sales)
    ensures a.totalStockValueAchat == StockValue(products)
    ensures a.monthlyFixedCharges == FixedCharges(settings)
  {
    Analytics(SalesTotal(sales), StockValue(products), FixedCharges(settings))
  }

  /** The cost value of the stock a sale takes off the shelves. */
  function SoldCost(ps: seq<Product>, items: seq<SaleItem>): int
  {
    if |ps| == 0 then 0 else ps[0].costPrice * App.SoldQuantity(items, ps[0].id) + SoldCost(ps[1..], items)
  }

  /** A recorded sale lowers the stock value by the cost price of exactly what it sold. */
  lemma {:induction false} StockValueAfterSale(ps: seq<Product>, items: seq<SaleItem>)
    ensures StockValue(App.StockAfterSale(ps, items)) == StockValue(ps) - SoldCost(ps, items)
    decreases |ps|
  {
    if |ps| > 0 {
      var r := App.StockAfterSale(ps, items);
      StockValueAfterSale(ps[1..], items);
      assert r[1..] == App.StockAfterSale(ps[1..], items);
      var q := App.SoldQuantity(items, ps[0].id);
      assert r[0] == ps[0].(stock := ps[0].stock - q);
      Distribute(ps[0].costPrice, ps[0].stock, q);
    }
  }

  lemma Distribute(a: int, b: int, q: int)
    ensures a * (b - q) == a * b - a * q
  {
  }

  /** `dailyFixedTarget`: a thirtieth of the monthly charges. */
  function DailyTarget(charges: int): real
  {
    charges as real / 30.0
  }

  /** A day's bar is green when the day's takings reach the daily target. */
  function BarIsGreen(dayTotal: int, charges: int): (green: bool)
    ensures green <==> 30 * dayTotal >= charges
  {
    dayTotal as real >= DailyTarget(charges)
  }
}
