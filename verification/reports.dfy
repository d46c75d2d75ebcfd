/** The daily report ("corte del día"): read-only aggregations over the
    sales journal. The start of the current day is a parameter. */
module Reports {
  import opened Optional
  import opened Seqs
  import opened Types
  import opened Ledger
  import opened Journal

  /** `todaySales`: the sales stamped at or after the start of the day. */
  function TodaySales(sales: seq<Sale>, startOfDay: int): (r: seq<Sale>)
    ensures |r| <= |sales|
    ensures forall s :: s in r <==> s in sales && s.timestamp >= startOfDay
  {
    Filter(sales, (s: Sale) => s.timestamp >= startOfDay)
  }

  /** The day's filter distributes over concatenation, so it keeps the
      journal's order and each sale's multiplicity. */
  lemma TodaySalesAppend(a: seq<Sale>, b: seq<Sale>, startOfDay: int)
    ensures TodaySales(a + b, startOfDay) == TodaySales(a, startOfDay) + TodaySales(b, startOfDay)
  {
    FilterAppend(a, b, (s: Sale) => s.timestamp >= startOfDay);
  }

  /** `totalRevenue`: Σ total over the sales. With balanced journal entries
      it is the sum over every journaled line. */
  function TotalRevenue(sales: seq<Sale>): (r: int)
    ensures JournalBalanced(sales) ==> r == ItemsTotal(AllItems(sales))
  {
    if |sales| == 0 then 0
    else
      BalancedTail(sales);
      ItemsTotalAppend(sales[0].items, AllItems(sales[1..]));
      sales[0].total + TotalRevenue(sales[1..])
  }

  /** `totalCost`: Σ totalCost over the sales, likewise the cost of every
      journaled line when the entries are balanced. */
  function TotalCost(sales: seq<Sale>): (r: int)
    ensures JournalBalanced(sales) ==> r == ItemsCost(AllItems(sales))
  {
    if |sales| == 0 then 0
    else
      BalancedTail(sales);
      ItemsTotalAppend(sales[0].items, AllItems(sales[1..]));
      sales[0].totalCost + TotalCost(sales[1..])
  }

  lemma BalancedTail(sales: seq<Sale>)
    requires |sales| > 0
    ensures JournalBalanced(sales) ==> Balanced(sales[0]) && JournalBalanced(sales[1..])
  {
    if JournalBalanced(sales) {
      forall k | 0 <= k < |sales[1..]|
        ensures Balanced(sales[1..][k])
      {
        assert sales[1..][k] == sales[k + 1];
      }
    }
  }

  /** Both totals are additive over the journal, so the report of a day is
      the report of its morning plus that of its afternoon. */
  lemma {:induction false} SalesTotalsAppend(a: seq<Sale>, b: seq<Sale>)
    ensures TotalRevenue(a + b) == TotalRevenue(a) + TotalRevenue(b)
    ensures TotalCost(a + b) == TotalCost(a) + TotalCost(b)
  {
    if |a| == 0 {
      assert a + b == b;
    } else {
      assert (a + b)[1..] == a[1..] + b;
      SalesTotalsAppend(a[1..], b);
    }
  }

  /** `netProfit`: revenue minus cost, which is the sum of every sale's own
      margin, and with balanced entries the margin over all journaled lines. */
  function NetProfit(sales: seq<Sale>): (r: int)
    ensures r == Margins(sales)
    ensures JournalBalanced(sales) ==> r == ItemsTotal(AllItems(sales)) - ItemsCost(AllItems(sales))
  {
    MarginsSplit(sales);
    TotalRevenue(sales) - TotalCost(sales)
  }

  /** The margin of each sale, summed: an independent account of the profit. */
  function Margins(sales: seq<Sale>): int {
    if |sales| == 0 then 0 else (sales[0].total - sales[0].totalCost) + Margins(sales[1..])
  }

  lemma {:induction false} MarginsSplit(sales: seq<Sale>)
    ensures Margins(sales) == TotalRevenue(sales) - TotalCost(sales)
  {
    if |sales| > 0 {
      MarginsSplit(sales[1..]);
    }
  }

  predicate IsCredit(s: Sale) {
    s.paymentMethod == Credito
  }

  /** `creditSalesCount`: how many of the sales were on credit. */
  function CreditSalesCount(sales: seq<Sale>): (n: nat)
    ensures n <= |sales|
    ensures n == 0 <==> forall s :: s in sales ==> s.paymentMethod == Efectivo
    ensures n == |sales| <==> forall s :: s in sales ==> s.paymentMethod == Credito
  {
    CreditFilterFacts(sales);
    |Filter(sales, IsCredit)|
  }

  lemma CreditFilterFacts(sales: seq<Sale>)
    ensures var credit := Filter(sales, IsCredit);
            && (|credit| == 0 <==> forall s :: s in sales ==> s.paymentMethod == Efectivo)
            && (|credit| == |sales| <==> forall s :: s in sales ==> s.paymentMethod == Credito)
  {
    var credit := Filter(sales, IsCredit);
    if |credit| == |sales| {
      FilterFullLength(sales, IsCredit);
    }
    if forall s :: s in sales ==> s.paymentMethod == Credito {
      FilterKeepsAll(sales, IsCredit);
    }
    if |credit| > 0 {
      assert credit[0] in credit;
    }
  }

  /** The credit count is additive over the journal. */
  lemma CreditSalesCountAppend(a: seq<Sale>, b: seq<Sale>)
    ensures CreditSalesCount(a + b) == CreditSalesCount(a) + CreditSalesCount(b)
  {
    FilterAppend(a, b, IsCredit);
  }

  /** A filter that loses nothing keeps every element. */
  lemma {:induction false} FilterFullLength<T(!new)>(s: seq<T>, keep: T -> bool)
    requires |Filter(s, keep)| == |s|
    ensures Filter(s, keep) == s
  {
    if |s| > 0 {
      FilterFullLength(s[1..], keep);
    }
  }

  /** Every line of the sales, sale after sale (`flatMap(s => s.items)`). */
  function AllItems(sales: seq<Sale>): seq<SaleItem> {
    if |sales| == 0 then [] else sales[0].items + AllItems(sales[1..])
  }

  // ---------------------------------------------------------------------
  // salesByCategory
  // ---------------------------------------------------------------------

  /** The category a line is reported under: its product's, or 'Varios' when
      the product is no longer in the catalogue. */
  function CategoryOf(products: seq<Product>, productId: string): Category {
    match Find(products, ProductKey, productId)
    case Some(p) => p.category
    case None => Varios
  }

  /** `acc[cat] || 0`. */
  function Bucket(m: map<Category, int>, c: Category): int {
    if c in m then m[c] else 0
  }

  /** The reduce over the lines: each line's subtotal goes to its category. */
  function CategoryFold(acc: map<Category, int>, items: seq<SaleItem>, products: seq<Product>): map<Category, int>
    decreases |items|
  {
    if |items| == 0 then acc
    else
      var c := CategoryOf(products, items[0].productId);
      CategoryFold(acc[c := Bucket(acc, c) + Subtotal(items[0])], items[1..], products)
  }

  /** `salesByCategory`: the categories shown are exactly those of the lines,
      and each carries exactly the subtotals of the lines reported under it
      (a category not shown reads as zero). */
  function SalesByCategory(sales: seq<Sale>, products: seq<Product>): (r: map<Category, int>)
    ensures r.Keys == CategoriesSold(AllItems(sales), products)
    ensures forall c :: Bucket(r, c) == CategorySum(AllItems(sales), products, c)
  {
    CategoryFoldSpec(map[], AllItems(sales), products);
    CategoryFold(map[], AllItems(sales), products)
  }

  /** Reference account: Σ subtotals of the lines reported under `c`. */
  function CategorySum(items: seq<SaleItem>, products: seq<Product>, c: Category): int {
    if |items| == 0 then 0
    else (if CategoryOf(products, items[0].productId) == c then Subtotal(items[0]) else 0)
         + CategorySum(items[1..], products, c)
  }

  /** The categories some line is reported under. */
  function CategoriesSold(items: seq<SaleItem>, products: seq<Product>): set<Category> {
    set item | item in items :: CategoryOf(products, item.productId)
  }

  lemma CategoriesSoldCons(items: seq<SaleItem>, products: seq<Product>)
    requires |items| > 0
    ensures CategoriesSold(items, products)
            == {CategoryOf(products, items[0].productId)} + CategoriesSold(items[1..], products)
  {
    forall x | x in CategoriesSold(items, products)
      ensures x == CategoryOf(products, items[0].productId) || x in CategoriesSold(items[1..], products)
    {
      var item :| item in items && CategoryOf(products, item.productId) == x;
      if item != items[0] {
        var j :| 0 <= j < |items| && items[j] == item;
        assert items[1..][j - 1] == item;
      }
    }
    forall x | x in CategoriesSold(items[1..], products)
      ensures x in CategoriesSold(items, products)
    {
      var item :| item in items[1..] && CategoryOf(products, item.productId) == x;
      assert item in items;
    }
    assert items[0] in items;
  }

  /** The keys of the folded map: the starting keys and every line's category. */
  lemma {:induction false} CategoryFoldKeys(acc: map<Category, int>, items: seq<SaleItem>, products: seq<Product>)
    ensures CategoryFold(acc, items, products).Keys == acc.Keys + CategoriesSold(items, products)
    decreases |items|
  {
    if |items| > 0 {
      var c := CategoryOf(products, items[0].productId);
      var acc' := acc[c := Bucket(acc, c) + Subtotal(items[0])];
      assert acc'.Keys == acc.Keys + {c};
      assert CategoryFold(acc, items, products) == CategoryFold(acc', items[1..], products);
      CategoryFoldKeys(acc', items[1..], products);
      CategoriesSoldCons(items, products);
    }
  }

  /** Each bucket of the folded map: its starting amount plus the subtotals
      of the lines reported under it. */
  lemma {:induction false} CategoryFoldBuckets(acc: map<Category, int>, items: seq<SaleItem>, products: seq<Product>, c: Category)
    ensures Bucket(CategoryFold(acc, items, products), c) == Bucket(acc, c) + CategorySum(items, products, c)
    decreases |items|
  {
    if |items| > 0 {
      var d := CategoryOf(products, items[0].productId);
      var acc' := acc[d := Bucket(acc, d) + Subtotal(items[0])];
      assert CategoryFold(acc, items, products) == CategoryFold(acc', items[1..], products);
      CategoryFoldBuckets(acc', items[1..], products, c);
      assert Bucket(acc', c) == Bucket(acc, c) + (if d == c then Subtotal(items[0]) else 0);
    }
  }

  lemma CategoryFoldSpec(acc: map<Category, int>, items: seq<SaleItem>, products: seq<Product>)
    ensures var r := CategoryFold(acc, items, products);
            && r.Keys == acc.Keys + CategoriesSold(items, products)
            && forall c :: Bucket(r, c) == Bucket(acc, c) + CategorySum(items, products, c)
  {
    CategoryFoldKeys(acc, items, products);
    forall c: Category
      ensures Bucket(CategoryFold(acc, items, products), c) == Bucket(acc, c) + CategorySum(items, products, c)
    {
      CategoryFoldBuckets(acc, items, products, c);
    }
  }

  /** Every line lands in exactly one category, so the four buckets add up to
      the sum over all lines. */
  lemma {:induction false} CategorySumsPartition(items: seq<SaleItem>, products: seq<Product>)
    ensures CategorySum(items, products, MasaYTortilla) + CategorySum(items, products, Abarrotes)
          + CategorySum(items, products, Bebidas) + CategorySum(items, products, Varios)
         == ItemsTotal(items)
  {
    if |items| > 0 {
      CategorySumsPartition(items[1..], products);
    }
  }

  /** The pie chart's slices add up to the day's revenue when the journal is
      balanced. */
  lemma CategoryChartAddsUpToRevenue(sales: seq<Sale>, products: seq<Product>)
    requires JournalBalanced(sales)
    ensures var r := SalesByCategory(sales, products);
            Bucket(r, MasaYTortilla) + Bucket(r, Abarrotes) + Bucket(r, Bebidas) + Bucket(r, Varios)
            == TotalRevenue(sales)
  {
    CategorySumsPartition(AllItems(sales), products);
  }

  // ---------------------------------------------------------------------
  // The per-name breakdown of the printed report
  // ---------------------------------------------------------------------

  datatype Row = Row(name: string, quantity: int, subtotal: int)

  function RowName(r: Row): string { r.name }
  function ItemName(item: SaleItem): string { item.name }

  /** Σ quantity and Σ subtotal down the rows of a breakdown. */
  function RowsQuantity(rows: seq<Row>): int {
    if |rows| == 0 then 0 else rows[0].quantity + RowsQuantity(rows[1..])
  }

  function RowsSubtotal(rows: seq<Row>): int {
    if |rows| == 0 then 0 else rows[0].subtotal + RowsSubtotal(rows[1..])
  }

  /** Σ quantity over the lines, whatever their product. */
  function ItemsQuantity(items: seq<SaleItem>): int {
    if |items| == 0 then 0 else items[0].quantity + ItemsQuantity(items[1..])
  }

  lemma {:induction false} RowsSumsAppend(a: seq<Row>, b: seq<Row>)
    ensures RowsQuantity(a + b) == RowsQuantity(a) + RowsQuantity(b)
    ensures RowsSubtotal(a + b) == RowsSubtotal(a) + RowsSubtotal(b)
  {
    if |a| == 0 {
      assert a + b == b;
    } else {
      assert (a + b)[1..] == a[1..] + b;
      RowsSumsAppend(a[1..], b);
    }
  }

  lemma {:induction false} RowsSumsUpdate(rows: seq<Row>, k: nat, row: Row)
    requires k < |rows|
    ensures RowsQuantity(rows[k := row]) == RowsQuantity(rows) - rows[k].quantity + row.quantity
    ensures RowsSubtotal(rows[k := row]) == RowsSubtotal(rows) - rows[k].subtotal + row.subtotal
  {
    if k == 0 {
      assert rows[k := row][1..] == rows[1..];
    } else {
      assert rows[k := row][1..] == rows[1..][k - 1 := row];
      RowsSumsUpdate(rows[1..], k - 1, row);
    }
  }

  lemma {:induction false} ItemsQuantityAppend(a: seq<SaleItem>, b: seq<SaleItem>)
    ensures ItemsQuantity(a + b) == ItemsQuantity(a) + ItemsQuantity(b)
  {
    if |a| == 0 {
      assert a + b == b;
    } else {
      assert (a + b)[1..] == a[1..] + b;
      ItemsQuantityAppend(a[1..], b);
    }
  }

  /** One step of the reduce: add the line to the row with its name, or open
      a new row at the end. Rows with other names are untouched, no row is
      lost or renamed, and the line's quantity and subtotal are added to the
      rows' sums exactly once. */
  function AddToRows(rows: seq<Row>, item: SaleItem): (r: seq<Row>)
    ensures |rows| <= |r| <= |rows| + 1
    ensures forall i :: 0 <= i < |rows| ==> r[i].name == rows[i].name
    ensures forall i :: 0 <= i < |rows| && rows[i].name != item.name ==> r[i] == rows[i]
    ensures |r| == |rows| + 1 ==> r[|rows|] == Row(item.name, item.quantity, Subtotal(item))
    ensures RowsQuantity(r) == RowsQuantity(rows) + item.quantity
    ensures RowsSubtotal(r) == RowsSubtotal(rows) + Subtotal(item)
  {
    var k := FirstIndex(rows, RowName, item.name);
    if k < |rows| then
      var row := Row(rows[k].name, rows[k].quantity + item.quantity, rows[k].subtotal + Subtotal(item));
      RowsSumsUpdate(rows, k, row);
      rows[k := row]
    else
      var row := Row(item.name, item.quantity, Subtotal(item));
      RowsSumsAppend(rows, [row]);
      rows + [row]
  }

  /** The breakdown rows, folding the lines left to right: at most one row
      per line, one row per distinct name, and the rows account for every
      unit and every centavo of the lines. */
  function Breakdown(items: seq<SaleItem>): (r: seq<Row>)
    ensures |r| <= |items|
    ensures DistinctBy(r, RowName)
    ensures RowNames(r) == ItemNames(items)
    ensures RowsQuantity(r) == ItemsQuantity(items)
    ensures RowsSubtotal(r) == ItemsTotal(items)
    decreases |items|
  {
    if |items| == 0 then []
    else
      var n := |items| - 1;
      var before := Breakdown(items[..n]);
      assert items == items[..n] + [items[n]];
      BreakdownStep(items[..n], items[n], before);
      AddToRows(before, items[n])
  }

  /** One fold step carries the breakdown's contract from the lines seen to
      those lines plus one more. */
  lemma BreakdownStep(prefix: seq<SaleItem>, item: SaleItem, before: seq<Row>)
    requires |before| <= |prefix|
    requires DistinctBy(before, RowName) && RowNames(before) == ItemNames(prefix)
    requires RowsQuantity(before) == ItemsQuantity(prefix) && RowsSubtotal(before) == ItemsTotal(prefix)
    ensures var rows := AddToRows(before, item);
            && |rows| <= |prefix + [item]|
            && DistinctBy(rows, RowName) && RowNames(rows) == ItemNames(prefix + [item])
            && RowsQuantity(rows) == ItemsQuantity(prefix + [item])
            && RowsSubtotal(rows) == ItemsTotal(prefix + [item])
  {
    var items := prefix + [item];
    assert items[..|items| - 1] == prefix;
    AddToRowsNames(before, item);
    ItemNamesSnoc(items);
    ItemsTotalAppend(prefix, [item]);
    ItemsQuantityAppend(prefix, [item]);
  }

  /** Reference accounts: Σ quantity and Σ subtotal of the lines named `name`. */
  function NameQuantity(items: seq<SaleItem>, name: string): int
    decreases |items|
  {
    if |items| == 0 then 0
    else NameQuantity(items[..|items| - 1], name) + (if items[|items| - 1].name == name then items[|items| - 1].quantity else 0)
  }

  function NameSubtotal(items: seq<SaleItem>, name: string): int
    decreases |items|
  {
    if |items| == 0 then 0
    else NameSubtotal(items[..|items| - 1], name) + (if items[|items| - 1].name == name then Subtotal(items[|items| - 1]) else 0)
  }

  /** Where a name first appears among the lines. */
  function FirstAppearance(items: seq<SaleItem>, name: string): nat {
    FirstIndex(items, ItemName, name)
  }

  function RowNames(rows: seq<Row>): set<string> {
    set r | r in rows :: r.name
  }

  function ItemNames(items: seq<SaleItem>): set<string> {
    set item | item in items :: item.name
  }

  /** One fold step keeps the row names distinct and adds the line's name. */
  lemma AddToRowsNames(before: seq<Row>, item: SaleItem)
    requires DistinctBy(before, RowName)
    ensures var rows := AddToRows(before, item);
            && DistinctBy(rows, RowName)
            && RowNames(rows) == RowNames(before) + {item.name}
            && (item.name in RowNames(before) <==> |rows| == |before|)
  {
    var rows := AddToRows(before, item);
    var k := FirstIndex(before, RowName, item.name);
    if k < |before| {
      assert before[k] in before;
      assert RowNames(rows) == RowNames(before) by {
        assert forall r :: r in rows ==> r.name in RowNames(before);
        forall r | r in before
          ensures r.name in RowNames(rows)
        {
          var i :| 0 <= i < |before| && before[i] == r;
          assert rows[i].name == r.name;
        }
      }
      assert DistinctBy(rows, RowName) by {
        forall i, j | 0 <= i < j < |rows|
          ensures RowName(rows[i]) != RowName(rows[j])
        {
          assert RowName(before[i]) != RowName(before[j]);
        }
      }
    } else {
      assert item.name !in RowNames(before) by {
        forall i | 0 <= i < |before|
          ensures before[i].name != item.name
        {
          assert RowName(before[i]) != item.name;
        }
      }
      assert RowNames(rows) == RowNames(before) + {item.name} by {
        assert forall r :: r in rows <==> r in before || r == rows[|before|];
      }
      assert DistinctBy(rows, RowName) by {
        forall i, j | 0 <= i < j < |rows|
          ensures RowName(rows[i]) != RowName(rows[j])
        {
          if j == |before| {
            assert before[i] in before;
          } else {
            assert RowName(before[i]) != RowName(before[j]);
          }
        }
      }
    }
  }

  /** The names of the lines grow by the last line's name. */
  lemma ItemNamesSnoc(items: seq<SaleItem>)
    requires |items| > 0
    ensures ItemNames(items) == ItemNames(items[..|items| - 1]) + {items[|items| - 1].name}
  {
    var n := |items| - 1;
    assert items == items[..n] + [items[n]];
    assert forall x :: x in items <==> x in items[..n] || x == items[n];
  }

  /** Rows that sum their names over some lines. */
  predicate RowsSum(rows: seq<Row>, items: seq<SaleItem>) {
    forall i :: 0 <= i < |rows| ==>
      rows[i].quantity == NameQuantity(items, rows[i].name)
      && rows[i].subtotal == NameSubtotal(items, rows[i].name)
  }

  /** One fold step keeps every row summing its name over the lines seen. */
  lemma AddToRowsSums(prefix: seq<SaleItem>, item: SaleItem, before: seq<Row>)
    requires DistinctBy(before, RowName) && RowNames(before) == ItemNames(prefix)
    requires RowsSum(before, prefix)
    ensures RowsSum(AddToRows(before, item), prefix + [item])
  {
    var items := prefix + [item];
    var rows := AddToRows(before, item);
    assert items[..|items| - 1] == prefix;
    AddToRowsNames(before, item);
    var k := FirstIndex(before, RowName, item.name);
    assert k < |before| ==> rows[k] == Row(before[k].name, before[k].quantity + item.quantity, before[k].subtotal + Subtotal(item));
    forall i | 0 <= i < |rows|
      ensures rows[i].quantity == NameQuantity(items, rows[i].name)
      ensures rows[i].subtotal == NameSubtotal(items, rows[i].name)
    {
      if i < |before| {
        if k == |before| || i != k {
          assert rows[i] == before[i];
          if k < |before| {
            assert RowName(before[i]) != RowName(before[k]);
          }
        }
      } else {
        QuantityAbsentName(prefix, item.name);
      }
    }
  }

  /** Each row sums the quantities and subtotals of the lines with its name. */
  lemma {:induction false} BreakdownSums(items: seq<SaleItem>)
    ensures RowsSum(Breakdown(items), items)
    decreases |items|
  {
    if |items| > 0 {
      var n := |items| - 1;
      var prefix, item := items[..n], items[n];
      assert items == prefix + [item];
      assert Breakdown(items) == AddToRows(Breakdown(prefix), item);
      BreakdownSums(prefix);
      AddToRowsSums(prefix, item, Breakdown(prefix));
    }
  }

  lemma {:induction false} QuantityAbsentName(items: seq<SaleItem>, name: string)
    requires name !in ItemNames(items)
    ensures NameQuantity(items, name) == 0 && NameSubtotal(items, name) == 0
    decreases |items|
  {
    if |items| > 0 {
      var n := |items| - 1;
      assert items[n] in items;
      assert ItemNames(items[..n]) <= ItemNames(items) by {
        assert forall x :: x in items[..n] ==> x in items;
      }
      QuantityAbsentName(items[..n], name);
    }
  }

  /** A name already among the lines keeps its first appearance. */
  lemma FirstAppearanceKept(prefix: seq<SaleItem>, item: SaleItem, name: string)
    requires name in ItemNames(prefix)
    ensures FirstAppearance(prefix + [item], name) == FirstAppearance(prefix, name) < |prefix|
  {
    FirstIndexSnoc(prefix, item, ItemName, name);
    var x :| x in prefix && x.name == name;
    var j :| 0 <= j < |prefix| && prefix[j] == x;
    assert ItemName(prefix[j]) == name;
  }

  /** A new name first appears at the line that brings it. */
  lemma FirstAppearanceNew(prefix: seq<SaleItem>, item: SaleItem)
    requires item.name !in ItemNames(prefix)
    ensures FirstAppearance(prefix + [item], item.name) == |prefix|
  {
    FirstIndexSnoc(prefix, item, ItemName, item.name);
  }

  /** Rows in order of their names' first appearance among some lines. */
  predicate RowsInOrder(rows: seq<Row>, items: seq<SaleItem>) {
    forall i, j :: 0 <= i < j < |rows| ==>
      FirstAppearance(items, rows[i].name) < FirstAppearance(items, rows[j].name)
  }

  /** One fold step keeps the rows in order of first appearance. */
  lemma AddToRowsOrder(prefix: seq<SaleItem>, item: SaleItem, before: seq<Row>)
    requires DistinctBy(before, RowName) && RowNames(before) == ItemNames(prefix)
    requires RowsInOrder(before, prefix)
    ensures RowsInOrder(AddToRows(before, item), prefix + [item])
  {
    var items := prefix + [item];
    var rows := AddToRows(before, item);
    AddToRowsNames(before, item);
    forall i, j | 0 <= i < j < |rows|
      ensures FirstAppearance(items, rows[i].name) < FirstAppearance(items, rows[j].name)
    {
      assert before[i] in before;
      FirstAppearanceKept(prefix, item, before[i].name);
      if j < |before| {
        assert before[j] in before;
        FirstAppearanceKept(prefix, item, before[j].name);
      } else {
        FirstAppearanceNew(prefix, item);
      }
    }
  }

  /** The rows come in order of their names' first appearance. */
  lemma {:induction false} BreakdownOrder(items: seq<SaleItem>)
    ensures RowsInOrder(Breakdown(items), items)
    decreases |items|
  {
    if |items| > 0 {
      var n := |items| - 1;
      var prefix, item := items[..n], items[n];
      assert items == prefix + [item];
      assert Breakdown(items) == AddToRows(Breakdown(prefix), item);
      BreakdownOrder(prefix);
      AddToRowsOrder(prefix, item, Breakdown(prefix));
    }
  }

  /** The breakdown has one row per distinct line name, in order of first
      appearance, and each row sums the quantities and subtotals of the lines
      with its name. */
  lemma BreakdownSpec(items: seq<SaleItem>)
    ensures var rows := Breakdown(items);
            && DistinctBy(rows, RowName)
            && RowNames(rows) == ItemNames(items)
            && (forall i :: 0 <= i < |rows| ==>
                  rows[i].quantity == NameQuantity(items, rows[i].name)
                  && rows[i].subtotal == NameSubtotal(items, rows[i].name))
            && (forall i, j :: 0 <= i < j < |rows| ==>
                  FirstAppearance(items, rows[i].name) < FirstAppearance(items, rows[j].name))
  {
    BreakdownSums(items);
    BreakdownOrder(items);
  }
}
