/** The sales-history screen: search, CSV export, the report total and the expanded row. */
module SalesHistory {
  import opened Wrappers
  import opened Types
  import opened Text
  import Seqs

  /** `field?.toLowerCase().includes(q)`: false when the field is absent. */
  predicate OptionalContains(field: Option<string>, q: string)
  {
    field.Some? && Contains(Lower(field.value), q)
  }

  /** The `filteredSales` predicate. */
  predicate MatchesSearch(s: Sale, search: string)
  {
    var q := Lower(search);
    OptionalContains(s.transactionId, q)
    || Contains(Lower(s.orderNumber), q)
    || OptionalContains(s.tableNumber, q)
    || OptionalContains(s.customerName, q)
    || exists i :: 0 <= i < |s.items| && Contains(Lower(s.items[i].productName), q)
  }

  /** `filteredSales`: the sales matching the query, in their order. */
  function FilterSales(sales: seq<Sale>, search: string): (r: seq<Sale>)
    ensures forall s :: s in r <==> s in sales && MatchesSearch(s, search)
    ensures Seqs.IsSubsequence(r, sales)
  {
    Seqs.Filter(sales, (s: Sale) => MatchesSearch(s, search))
  }

  /** Every sale has an order number, so an empty query keeps the whole list. */
  lemma EmptySearchKeepsAll(sales: seq<Sale>)
    ensures FilterSales(sales, "") == sales
  {
    forall i | 0 <= i < |sales|
      ensures MatchesSearch(sales[i], "")
    {
      ContainsEmpty(Lower(sales[i].orderNumber));
    }
    Seqs.FilterAll(sales, (s: Sale) => MatchesSearch(s, ""));
  }

  /** `totalPeriod`: the report total of the filtered sales. */
  function TotalPeriod(filtered: seq<Sale>): int
  {
    SalesTotal(filtered)
  }

  /** Splitting the sales by a test and its negation splits their total: kept plus rejected is everything. */
  lemma {:induction false} TotalSplits(sales: seq<Sale>, f: Sale -> bool, g: Sale -> bool)
    requires forall s :: g(s) == !f(s)
    ensures TotalPeriod(Seqs.Filter(sales, f)) + SalesTotal(Seqs.Filter(sales, g)) == SalesTotal(sales)
    decreases |sales|
  {
    if |sales| > 0 {
      var x, rest := sales[0], sales[1..];
      var kept, dropped := Seqs.Filter(rest, f), Seqs.Filter(rest, g);
      TotalSplits(rest, f, g);
      assert sales == [x] + rest;
      assert SalesTotal([x]) == x.total by {
        assert [x][..0] == [];
      }
      SalesTotalAppend([x], rest);
      if f(x) {
        assert Seqs.Filter(sales, f) == [x] + kept;
        assert Seqs.Filter(sales, g) == dropped;
        SalesTotalAppend([x], kept);
      } else {
        assert Seqs.Filter(sales, f) == kept;
        assert Seqs.Filter(sales, g) == [x] + dropped;
        SalesTotalAppend([x], dropped);
      }
    }
  }

  /** The report total never exceeds the grand total when no sale is negative. */
  lemma ReportWithinGrandTotal(sales: seq<Sale>, search: string)
    requires forall i :: 0 <= i < |sales| ==> sales[i].total >= 0
    ensures 0 <= TotalPeriod(FilterSales(sales, search)) <= SalesTotal(sales)
  {
    var f := (s: Sale) => MatchesSearch(s, search);
    var g := (s: Sale) => !MatchesSearch(s, search);
    TotalSplits(sales, f, g);
    NonNegativeTotal(Seqs.Filter(sales, f), sales);
    NonNegativeTotal(Seqs.Filter(sales, g), sales);
  }

  lemma {:induction false} NonNegativeTotal(xs: seq<Sale>, from: seq<Sale>)
    requires forall i :: 0 <= i < |from| ==> from[i].total >= 0
    requires forall s :: s in xs ==> s in from
    ensures SalesTotal(xs) >= 0
    decreases |xs|
  {
    if |xs| > 0 {
      NonNegativeTotal(xs[..|xs| - 1], from);
      assert xs[|xs| - 1] in xs;
    }
  }

  /** `toggleExpand`: the id currently expanded, if any, after a click on `id`. */
  function ToggleExpand(expanded: Option<string>, id: string): (r: Option<string>)
    ensures r.None? <==> expanded == Some(id)
    ensures r.Some? ==> r.value == id
  {
    if expanded == Some(id) then None else Some(id)
  }

  /** `x || fallback` for an optional text: absent and empty both fall back. */
  function OrDefault(field: Option<string>, fallback: string): (r: string)
    ensures field.Some? && field.value != "" ==> r == field.value
    ensures field.None? || field.value == "" ==> r == fallback
  {
    if field.Some? && field.value != "" then field.value else fallback
  }

  const Header: seq<string> := ["Date", "Heure", "Ticket", "Client", "Table", "Total_FCFA", "Paiement", "Caissier"]

  const ByteOrderMark: char := '\U{FEFF}'

  /**
   * One CSV row. The locale date and time of the timestamp come from `dateOf` and `timeOf`,
   * which stand for `toLocaleDateString` and `toLocaleTimeString`.
   */
  function Row(s: Sale, dateOf: string -> string, timeOf: string -> string): (r: seq<string>)
    ensures |r| == |Header|
    ensures r[0] == dateOf(s.timestamp) && r[1] == timeOf(s.timestamp) && r[2] == s.orderNumber
    ensures r[3] == OrDefault(s.customerName, "Comptoir") && r[4] == OrDefault(s.tableNumber, "-")
    ensures r[5] == IntToString(s.total) && r[6] == PaymentMethodLabel(s.paymentMethod) && r[7] == s.managedBy
  {
    [dateOf(s.timestamp), timeOf(s.timestamp), s.orderNumber,
     OrDefault(s.customerName, "Comptoir"), OrDefault(s.tableNumber, "-"),
     IntToString(s.total), PaymentMethodLabel(s.paymentMethod), s.managedBy]
  }

  function RowLine(s: Sale, dateOf: string -> string, timeOf: string -> string): string
  {
    Join(Row(s, dateOf, timeOf), ';')
  }

  function RowLines(sales: seq<Sale>, dateOf: string -> string, timeOf: string -> string): (r: seq<string>)
    ensures |r| == |sales|
    ensures forall i :: 0 <= i < |sales| ==> r[i] == RowLine(sales[i], dateOf, timeOf)
  {
    seq(|sales|, i requires 0 <= i < |sales| => RowLine(sales[i], dateOf, timeOf))
  }

  /** `exportToCSV`'s content: nothing for an empty list, else the BOM, the header and one line per sale. */
  function Csv(sales: seq<Sale>, search: string, dateOf: string -> string, timeOf: string -> string)
    : (r: Option<string>)
    ensures r.None? <==> FilterSales(sales, search) == []
    ensures r.Some? ==> |r.value| >= 1 && r.value[0] == ByteOrderMark
  {
    var filtered := FilterSales(sales, search);
    if |filtered| == 0 then None
    else Some([ByteOrderMark] + Join([Join(Header, ';')] + RowLines(filtered, dateOf, timeOf), '\n'))
  }

  /** A cell that neither splits a row nor a line. */
  predicate Clean(cell: string)
  {
    ';' !in cell && '\n' !in cell
  }

  /** The cells taken from free text (dates, order number, names) carry no separator. */
  predicate TextCellsClean(s: Sale, dateOf: string -> string, timeOf: string -> string)
  {
    Clean(dateOf(s.timestamp)) && Clean(timeOf(s.timestamp)) && Clean(s.orderNumber)
    && Clean(OrDefault(s.customerName, "Comptoir")) && Clean(OrDefault(s.tableNumber, "-"))
    && Clean(s.managedBy)
  }

  /** A number's decimal text has only digits and a minus sign. */
  lemma NumeralClean(n: int)
    ensures Clean(IntToString(n))
  {
    var digits := NatToString(if n < 0 then -n else n);
    assert forall i :: 0 <= i < |digits| ==> IsDigit(digits[i]);
  }

  lemma RowClean(s: Sale, dateOf: string -> string, timeOf: string -> string)
    requires TextCellsClean(s, dateOf, timeOf)
    ensures forall k :: 0 <= k < |Row(s, dateOf, timeOf)| ==> Clean(Row(s, dateOf, timeOf)[k])
  {
    var r := Row(s, dateOf, timeOf);
    NumeralClean(s.total);
    assert Clean(PaymentMethodLabel(s.paymentMethod));
    forall k | 0 <= k < |r|
      ensures Clean(r[k])
    {
    }
  }

  /** Each row line is free of line breaks and splits back into its cells. */
  lemma RowsReadBack(filtered: seq<Sale>, dateOf: string -> string, timeOf: string -> string)
    requires forall i :: 0 <= i < |filtered| ==> TextCellsClean(filtered[i], dateOf, timeOf)
    ensures forall i :: 0 <= i < |filtered| ==>
              '\n' !in RowLines(filtered, dateOf, timeOf)[i]
              && Split(RowLines(filtered, dateOf, timeOf)[i], ';') == Row(filtered[i], dateOf, timeOf)
  {
    forall i | 0 <= i < |filtered|
      ensures '\n' !in RowLine(filtered[i], dateOf, timeOf)
      ensures Split(RowLine(filtered[i], dateOf, timeOf), ';') == Row(filtered[i], dateOf, timeOf)
    {
      RowClean(filtered[i], dateOf, timeOf);
      JoinAvoids(Row(filtered[i], dateOf, timeOf), ';', '\n');
      SplitJoin(Row(filtered[i], dateOf, timeOf), ';');
    }
  }

  /** The header line splits back into the eight column names. */
  lemma HeaderReadsBack()
    ensures '\n' !in Join(Header, ';') && Split(Join(Header, ';'), ';') == Header
  {
    forall k | 0 <= k < |Header|
      ensures ';' !in Header[k] && '\n' !in Header[k]
    {
    }
    JoinAvoids(Header, ';', '\n');
    SplitJoin(Header, ';');
  }

  /** Putting a header line before row lines, none of which has a line break, makes lines without one. */
  lemma NoBreaks(header: string, rows: seq<string>)
    requires '\n' !in header
    requires forall i :: 0 <= i < |rows| ==> '\n' !in rows[i]
    ensures forall k :: 0 <= k < |[header] + rows| ==> '\n' !in ([header] + rows)[k]
  {
    var all := [header] + rows;
    forall k | 0 <= k < |all|
      ensures '\n' !in all[k]
    {
      if k > 0 {
        assert all[k] == rows[k - 1];
      }
    }
  }

  /** The sales of a filtered list keep the property every sale has. */
  lemma FilteredClean(sales: seq<Sale>, search: string, dateOf: string -> string, timeOf: string -> string)
    requires forall i :: 0 <= i < |sales| ==> TextCellsClean(sales[i], dateOf, timeOf)
    ensures forall i :: 0 <= i < |FilterSales(sales, search)| ==>
              TextCellsClean(FilterSales(sales, search)[i], dateOf, timeOf)
  {
    var filtered := FilterSales(sales, search);
    forall i | 0 <= i < |filtered|
      ensures TextCellsClean(filtered[i], dateOf, timeOf)
    {
      assert filtered[i] in sales;
    }
  }

  /**
   * When the free-text cells carry no separator, the export reads back: a BOM, then lines that are
   * the header and one row per filtered sale, each splitting into its eight cells.
   */
  lemma CsvReadsBack(sales: seq<Sale>, search: string, dateOf: string -> string, timeOf: string -> string)
    requires FilterSales(sales, search) != []
    requires forall i :: 0 <= i < |sales| ==> TextCellsClean(sales[i], dateOf, timeOf)
    ensures Split(Csv(sales, search, dateOf, timeOf).value[1..], '\n')
            == [Join(Header, ';')] + RowLines(FilterSales(sales, search), dateOf, timeOf)
    ensures Split(Join(Header, ';'), ';') == Header
    ensures forall i :: 0 <= i < |FilterSales(sales, search)| ==>
              Split(RowLines(FilterSales(sales, search), dateOf, timeOf)[i], ';')
              == Row(FilterSales(sales, search)[i], dateOf, timeOf)
  {
    var filtered := FilterSales(sales, search);
    FilteredClean(sales, search, dateOf, timeOf);
    RowsReadBack(filtered, dateOf, timeOf);
    HeaderReadsBack();
    NoBreaks(Join(Header, ';'), RowLines(filtered, dateOf, timeOf));
    SplitJoin([Join(Header, ';')] + RowLines(filtered, dateOf, timeOf), '\n');
  }
}
