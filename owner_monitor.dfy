/**
 * The owner's overview: today's takings, and the best-selling products by quantity, counted
 * per product name into a JavaScript object and ranked by a sort on the counts.
 */
module OwnerMonitor {
  import opened Types
  import opened Cart
  import Seqs
  import SalesHistory

  /** `productCounts`: product name to quantity sold, keys in first-sold order. */
  type Counts = seq<Line>

  /** Every sold line, sale after sale, in the order the nested `forEach` visits them. */
  function AllItems(sales: seq<Sale>): seq<SaleItem>
  {
    if |sales| == 0 then [] else AllItems(sales[..|sales| - 1]) + sales[|sales| - 1].items
  }

  /** `productCounts[name] = (productCounts[name] || 0) + quantity` for one sold line. */
  function Step(c: Counts, it: SaleItem): Counts
  {
    Put(c, it.productName, Qty(c, it.productName) + it.quantity)
  }

  /** The counts after visiting the given lines from an empty object. */
  function Tally(items: seq<SaleItem>): Counts
  {
    if |items| == 0 then [] else Step(Tally(items[..|items| - 1]), items[|items| - 1])
  }

  /** The sum of the quantities of the lines carrying that name. */
  function NameQuantity(items: seq<SaleItem>, name: string): int
  {
    if |items| == 0 then 0
    else NameQuantity(items[..|items| - 1], name)
         + (if items[|items| - 1].productName == name then items[|items| - 1].quantity else 0)
  }

  /** Each name's count is the total quantity sold under that name. */
  lemma {:induction false} TallyCounts(items: seq<SaleItem>, name: string)
    ensures Qty(Tally(items), name) == NameQuantity(items, name)
    decreases |items|
  {
    if |items| > 0 {
      TallyCounts(items[..|items| - 1], name);
      StepCounts(Tally(items[..|items| - 1]), items[|items| - 1], name);
    }
  }

  /** Some line carries that name. */
  predicate Sold(items: seq<SaleItem>, name: string)
  {
    exists i :: 0 <= i < |items| && items[i].productName == name
  }

  lemma SoldSnoc(items: seq<SaleItem>, name: string)
    requires |items| > 0
    ensures Sold(items, name) <==> Sold(items[..|items| - 1], name) || items[|items| - 1].productName == name
  {
    var init := items[..|items| - 1];
    if Sold(items, name) {
      var i :| 0 <= i < |items| && items[i].productName == name;
      if i < |init| {
        assert init[i] == items[i];
      }
    }
    if Sold(init, name) {
      var i :| 0 <= i < |init| && init[i].productName == name;
      assert items[i] == init[i];
    }
  }

  lemma StepHas(c: Counts, it: SaleItem)
    ensures forall k :: Has(Step(c, it), k) <==> Has(c, k) || k == it.productName
  {
    PutHas(c, it.productName, Qty(c, it.productName) + it.quantity);
  }

  /** Only names that were sold get a key. */
  lemma {:induction false} TallyKeys(items: seq<SaleItem>, name: string)
    ensures Has(Tally(items), name) <==> Sold(items, name)
    decreases |items|
  {
    if |items| > 0 {
      var init := items[..|items| - 1];
      var it := items[|items| - 1];
      var c := Tally(init);
      TallyKeys(init, name);
      SoldSnoc(items, name);
      StepHas(c, it);
      assert Tally(items) == Step(c, it);
    }
  }

  /** Each sold name gets one key. */
  lemma {:induction false} TallyDistinct(items: seq<SaleItem>)
    ensures DistinctIds(Tally(items))
    decreases |items|
  {
    if |items| > 0 {
      TallyDistinct(items[..|items| - 1]);
    }
  }

  lemma StepCounts(c: Counts, it: SaleItem, name: string)
    ensures Qty(Step(c, it), name) == Qty(c, name) + (if it.productName == name then it.quantity else 0)
  {
  }

  lemma {:induction false} TallySnoc(items: seq<SaleItem>, it: SaleItem)
    ensures Tally(items + [it]) == Step(Tally(items), it)
  {
    assert (items + [it])[..|items|] == items;
  }

  lemma AllItemsPrefix(sales: seq<Sale>, i: nat)
    requires i < |sales|
    ensures AllItems(sales[..i + 1]) == AllItems(sales[..i]) + sales[i].items
  {
    assert sales[..i + 1][..i] == sales[..i];
  }

  lemma SnocSlice(a: seq<SaleItem>, b: seq<SaleItem>, j: nat)
    requires j < |b|
    ensures a + b[..j + 1] == (a + b[..j]) + [b[j]]
  {
    assert b[..j + 1] == b[..j] + [b[j]];
  }

  /** The nested `forEach` that fills `productCounts`. */
  method ProductCounts(sales: seq<Sale>) returns (counts: Counts)
    ensures counts == Tally(AllItems(sales))
  {
    counts := [];
    var i := 0;
    while i < |sales|
      invariant 0 <= i <= |sales|
      invariant counts == Tally(AllItems(sales[..i]))
    {
      var items := sales[i].items;
      ghost var done := AllItems(sales[..i]);
      var j := 0;
      assert done + items[..0] == done;
      while j < |items|
        invariant 0 <= j <= |items|
        invariant counts == Tally(done + items[..j])
      {
        var it := items[j];
        ghost var before := done + items[..j];
        TallySnoc(before, it);
        SnocSlice(done, items, j);
        counts := Step(counts, it);
        assert counts == Tally(before + [it]);
        j := j + 1;
      }
      assert items[..j] == items;
      AllItemsPrefix(sales, i);
      i := i + 1;
    }
    assert sales[..i] == sales;
  }

  /** Counts in non-increasing order. */
  predicate NonIncreasing(s: seq<Line>)
  {
    forall i, j :: 0 <= i < j < |s| ==> s[i].qty >= s[j].qty
  }

  /** A head no smaller than anything after it keeps the order. */
  lemma ConsNonIncreasing(h: Line, t: seq<Line>)
    requires NonIncreasing(t)
    requires forall y :: y in t ==> y.qty <= h.qty
    ensures NonIncreasing([h] + t)
  {
    var r := [h] + t;
    forall i, j | 0 <= i < j < |r|
      ensures r[i].qty >= r[j].qty
    {
      assert r[j] == t[j - 1];
      if i > 0 {
        assert r[i] == t[i - 1];
      }
    }
  }

  /** Places x after every entry with at least its count, so equal counts keep their arrival order. */
  function Insert(x: Line, s: seq<Line>): (r: seq<Line>)
    ensures multiset(r) == multiset(s) + multiset{x}
    ensures |r| == |s| + 1
  {
    if |s| == 0 then [x]
    else if s[0].qty >= x.qty then
      assert s == [s[0]] + s[1..];
      [s[0]] + Insert(x, s[1..])
    else
      [x] + s
  }

  /** Inserting into a non-increasing list keeps it non-increasing. */
  lemma {:induction false} InsertSorted(x: Line, s: seq<Line>)
    requires NonIncreasing(s)
    ensures NonIncreasing(Insert(x, s))
    decreases |s|
  {
    if |s| == 0 {
    } else if s[0].qty >= x.qty {
      var rest := Insert(x, s[1..]);
      InsertSorted(x, s[1..]);
      assert s == [s[0]] + s[1..];
      forall y | y in rest
        ensures y.qty <= s[0].qty
      {
        assert y in multiset(rest);
        if y != x {
          assert y in multiset(s[1..]);
        }
      }
      ConsNonIncreasing(s[0], rest);
    } else {
      ConsNonIncreasing(x, s);
    }
  }

  /** `sort(([, a], [, b]) => b - a)`, a stable sort by decreasing count. */
  function SortByCount(xs: seq<Line>): (r: seq<Line>)
    ensures NonIncreasing(r)
    ensures multiset(r) == multiset(xs)
    ensures |r| == |xs|
  {
    if |xs| == 0 then []
    else
      assert xs == xs[..|xs| - 1] + [xs[|xs| - 1]];
      var sorted := SortByCount(xs[..|xs| - 1]);
      InsertSorted(xs[|xs| - 1], sorted);
      Insert(xs[|xs| - 1], sorted)
  }

  const TopCount: nat := 5

  function Take(s: seq<Line>, n: nat): (r: seq<Line>)
    ensures |r| == if |s| < n then |s| else n
    ensures r == s[..|r|]
  {
    if |s| < n then s else s[..n]
  }

  /** What a prefix of a non-increasing list leaves out is no larger than anything it keeps. */
  lemma {:induction false} PrefixIsTop(sorted: seq<Line>, n: nat)
    requires NonIncreasing(sorted) && n <= |sorted|
    ensures forall x, i :: x in sorted && x !in sorted[..n] && 0 <= i < n ==> x.qty <= sorted[i].qty
  {
    assert forall j :: 0 <= j < n ==> sorted[..n][j] == sorted[j];
    forall x, i | x in sorted && x !in sorted[..n] && 0 <= i < n
      ensures x.qty <= sorted[i].qty
    {
      var k :| 0 <= k < |sorted| && sorted[k] == x;
    }
  }

  /** A prefix is part of the whole, as a multiset. */
  lemma {:induction false} PrefixIncluded(s: seq<Line>, n: nat)
    requires n <= |s|
    ensures multiset(s[..n]) <= multiset(s)
  {
    assert s == s[..n] + s[n..];
  }

  /**
   * `topProducts`: the five best counts, in non-increasing order, each an entry of the counts,
   * and no entry left out has a higher count than any shown.
   */
  function TopProducts(counts: Counts): (r: seq<Line>)
    ensures |r| == if |counts| < TopCount then |counts| else TopCount
    ensures NonIncreasing(r)
    ensures multiset(r) <= multiset(counts)
    ensures forall x :: x in r ==> x in counts
    ensures forall x, i :: x in counts && x !in r && 0 <= i < |r| ==> x.qty <= r[i].qty
  {
    var sorted := SortByCount(counts);
    TopOfSorted(counts, sorted);
    Take(sorted, TopCount)
  }

  lemma TopOfSorted(counts: Counts, sorted: seq<Line>)
    requires NonIncreasing(sorted) && multiset(sorted) == multiset(counts)
    ensures var r := Take(sorted, TopCount);
            NonIncreasing(r) && multiset(r) <= multiset(counts)
            && (forall x :: x in r ==> x in counts)
            && forall x, i :: x in counts && x !in r && 0 <= i < |r| ==> x.qty <= r[i].qty
  {
    var r := Take(sorted, TopCount);
    PrefixIncluded(sorted, |r|);
    PrefixIsTop(sorted, |r|);
    forall x | x in counts
      ensures x in sorted
    {
      assert x in multiset(counts);
    }
    forall x | x in r
      ensures x in counts
    {
      assert x in multiset(r);
    }
  }

  /** The sales whose local date is `today`; `dayOf` stands for `toLocaleDateString` on a timestamp. */
  function TodaySales(sales: seq<Sale>, dayOf: string -> string, today: string): (r: seq<Sale>)
    ensures forall s :: s in r <==> s in sales && dayOf(s.timestamp) == today
    ensures Seqs.IsSubsequence(r, sales)
  {
    Seqs.Filter(sales, (s: Sale) => dayOf(s.timestamp) == today)
  }

  /** The other days' sales, the complement of `TodaySales`. */
  function OtherDays(sales: seq<Sale>, dayOf: string -> string, today: string): seq<Sale>
  {
    Seqs.Filter(sales, (s: Sale) => dayOf(s.timestamp) != today)
  }

  /** Today's total and count together with the other days' make up all the sales. */
  lemma TodayAndOtherDays(sales: seq<Sale>, dayOf: string -> string, today: string)
    ensures SalesTotal(TodaySales(sales, dayOf, today)) + SalesTotal(OtherDays(sales, dayOf, today))
            == SalesTotal(sales)
    ensures |TodaySales(sales, dayOf, today)| + |OtherDays(sales, dayOf, today)| == |sales|
  {
    var f := (s: Sale) => dayOf(s.timestamp) == today;
    var g := (s: Sale) => dayOf(s.timestamp) != today;
    SalesHistory.TotalSplits(sales, f, g);
    Seqs.FilterSplitsLength(sales, f, g);
  }

  /** The `stats` memo: today's total and count, and the top products of all time. */
  method Stats(sales: seq<Sale>, dayOf: string -> string, today: string)
    returns (totalToday: int, topProducts: seq<Line>, todayCount: nat)
    ensures totalToday == SalesTotal(TodaySales(sales, dayOf, today))
    ensures todayCount == |TodaySales(sales, dayOf, today)| && todayCount <= |sales|
    ensures topProducts == TopProducts(Tally(AllItems(sales)))
    ensures forall x :: x in topProducts ==> NameQuantity(AllItems(sales), x.id) == x.qty
  {
    var todaySales := TodaySales(sales, dayOf, today);
    totalToday := SalesTotal(todaySales);
    todayCount := |todaySales|;
    var counts := ProductCounts(sales);
    topProducts := TopProducts(counts);
    forall x | x in topProducts
      ensures NameQuantity(AllItems(sales), x.id) == x.qty
    {
      var k :| 0 <= k < |counts| && counts[k] == x;
      TallyCounts(AllItems(sales), x.id);
      TallyDistinct(AllItems(sales));
      QtyOfLine(counts, k);
    }
  }
}
