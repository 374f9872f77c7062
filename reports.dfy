/** The sales and inventory reports: totals over the bill history, the paid and
    unpaid split, units and revenue per medicine with the five best sellers, and
    the number of medicines and the stock value per category. */
module Reports {
  import opened Seqs
  import opened Dict
  import opened Types
  import opened AppContext

  /** `bills.reduce((sum, bill) => sum + bill.totalAmount, 0)`. */
  function TotalSales(bills: seq<Bill>): (r: int)
    ensures bills == [] ==> r == 0
    ensures (forall i :: 0 <= i < |bills| ==> bills[i].totalAmount >= 0) ==> r >= 0
  {
    if forall i :: 0 <= i < |bills| ==> bills[i].totalAmount >= 0 then
      SumNonNegative(bills, BillAmount);
      Sum(bills, BillAmount)
    else
      Sum(bills, BillAmount)
  }

  /** `bills.filter(bill => bill.paid)`. */
  function PaidBills(bills: seq<Bill>): (r: seq<Bill>)
    ensures forall b :: b in r <==> b in bills && b.paid
    ensures SubsequenceOf(r, bills)
  {
    var r := Filter(bills, IsPaid);
    assert forall b :: b in bills && b.paid ==> b in r;
    r
  }

  /** `bills.filter(bill => !bill.paid)`. */
  function UnpaidBills(bills: seq<Bill>): (r: seq<Bill>)
    ensures forall b :: b in r <==> b in bills && !b.paid
    ensures SubsequenceOf(r, bills)
  {
    var r := Filter(bills, IsUnpaid);
    assert forall b :: b in bills && !b.paid ==> b in r;
    r
  }

  /** The amount of the paid bills: 0 when none is paid. */
  function PaidAmount(bills: seq<Bill>): (r: int)
    ensures (forall b :: b in bills ==> !b.paid) ==> r == 0
    ensures (forall b :: b in bills ==> b.totalAmount >= 0) ==> r >= 0
  {
    NoneSelected(bills, PaidBills(bills), true);
    AmountNonNegative(bills, PaidBills(bills));
    Sum(PaidBills(bills), BillAmount)
  }

  /** The amount still owed: 0 when every bill is paid. */
  function UnpaidAmount(bills: seq<Bill>): (r: int)
    ensures (forall b :: b in bills ==> b.paid) ==> r == 0
    ensures (forall b :: b in bills ==> b.totalAmount >= 0) ==> r >= 0
  {
    NoneSelected(bills, UnpaidBills(bills), false);
    AmountNonNegative(bills, UnpaidBills(bills));
    Sum(UnpaidBills(bills), BillAmount)
  }

  /** A selection of bills none of which has the selected status is empty. */
  lemma NoneSelected(bills: seq<Bill>, selected: seq<Bill>, paid: bool)
    requires forall b :: b in selected ==> b in bills && b.paid == paid
    ensures (forall b :: b in bills ==> b.paid != paid) ==> selected == []
  {
    if selected != [] {
      assert selected[0] in selected;
    }
  }

  /** A selection of bills with non-negative totals has a non-negative amount. */
  lemma AmountNonNegative(bills: seq<Bill>, selected: seq<Bill>)
    requires forall b :: b in selected ==> b in bills
    ensures (forall b :: b in bills ==> b.totalAmount >= 0) ==> Sum(selected, BillAmount) >= 0
  {
    if forall b :: b in bills ==> b.totalAmount >= 0 {
      assert forall i :: 0 <= i < |selected| ==> selected[i] in bills;
      SumNonNegative(selected, BillAmount);
    }
  }

  /** Paid and unpaid bills split the history: every bill is counted once, and the two
      amounts add up to the total sales. */
  lemma PaidUnpaidPartition(bills: seq<Bill>)
    ensures |PaidBills(bills)| + |UnpaidBills(bills)| == |bills|
    ensures PaidAmount(bills) + UnpaidAmount(bills) == TotalSales(bills)
  {
    FilterPartition(bills, IsPaid, IsUnpaid, BillAmount);
  }

  /** Units and revenue sold of one medicine. */
  datatype Sales = Sales(count: int, revenue: int)

  const NoSales := Sales(0, 0)

  function AddSales(a: Sales, b: Sales): Sales { Sales(a.count + b.count, a.revenue + b.revenue) }

  /** What one line contributes: its quantity and `price * quantity`. */
  function SaleOf(l: BillItem): Sales { Sales(l.quantity, LineAmount(l)) }

  /** The lines of all bills, bill after bill, in order. */
  function Lines(bills: seq<Bill>): seq<BillItem>
  {
    if bills == [] then [] else Lines(bills[..|bills| - 1]) + bills[|bills| - 1].items
  }

  /** Revenue of the lines for medicine `id`. */
  function RevenueOf(lines: seq<BillItem>, id: Id): int
  {
    if lines == [] then 0
    else
      var last := lines[|lines| - 1];
      RevenueOf(lines[..|lines| - 1], id) + (if last.medicineId == id then LineAmount(last) else 0)
  }

  /** The `medicinesSold` dictionary: for every line of every bill, create the entry for its
      medicine at zero if missing, then add the line's quantity and revenue. */
  method MedicinesSold(bills: seq<Bill>) returns (sold: seq<(Id, Sales)>)
    ensures sold == Tally(Lines(bills), LineKey, SaleOf, NoSales, AddSales)
  {
    sold := [];
    var i := 0;
    while i < |bills|
      invariant 0 <= i <= |bills|
      invariant sold == Tally(Lines(bills[..i]), LineKey, SaleOf, NoSales, AddSales)
    {
      LinesStep(bills, i);
      sold := RecordBill(sold, Lines(bills[..i]), bills[i].items);
      i := i + 1;
    }
    assert bills[..i] == bills;
  }

  /** The inner loop of `medicinesSold`: the lines of one bill, in order. */
  method RecordBill(sold0: seq<(Id, Sales)>, ghost done: seq<BillItem>, items: seq<BillItem>)
    returns (sold: seq<(Id, Sales)>)
    requires sold0 == Tally(done, LineKey, SaleOf, NoSales, AddSales)
    ensures sold == Tally(done + items, LineKey, SaleOf, NoSales, AddSales)
  {
    sold := sold0;
    assert done + items[..0] == done;
    var j := 0;
    while j < |items|
      invariant 0 <= j <= |items|
      invariant sold == Tally(done + items[..j], LineKey, SaleOf, NoSales, AddSales)
    {
      SoldStep(done, items, j);
      sold := RecordLine(sold, items[j]);
      j := j + 1;
    }
    assert items[..j] == items;
  }

  /** One line: `if (!acc[id]) acc[id] = { count: 0, revenue: 0 }`, then the line's
      quantity and `price * quantity` are added to the entry. */
  method RecordLine(sold0: seq<(Id, Sales)>, item: BillItem) returns (sold: seq<(Id, Sales)>)
    ensures sold == AddTo(sold0, item.medicineId, SaleOf(item), NoSales, AddSales)
  {
    sold := sold0;
    var k := KeyIndex(sold, item.medicineId);
    if k == -1 {
      sold := sold + [(item.medicineId, NoSales)];
      k := |sold| - 1;
    }
    var entry := sold[k].1;
    var updated := Sales(entry.count + item.quantity, entry.revenue + item.price * item.quantity);
    assert updated == AddSales(entry, SaleOf(item));
    sold := sold[k := (item.medicineId, updated)];
  }

  lemma LinesStep(bills: seq<Bill>, i: nat)
    requires i < |bills|
    ensures Lines(bills[..i]) + bills[i].items == Lines(bills[..i + 1])
  {
    assert bills[..i + 1][..i] == bills[..i];
  }

  lemma SoldStep(done: seq<BillItem>, items: seq<BillItem>, j: nat)
    requires j < |items|
    ensures Tally(done + items[..j + 1], LineKey, SaleOf, NoSales, AddSales) ==
      AddTo(Tally(done + items[..j], LineKey, SaleOf, NoSales, AddSales), items[j].medicineId, SaleOf(items[j]), NoSales, AddSales)
  {
    TallySnoc(done + items[..j], items[j], LineKey, SaleOf, NoSales, AddSales);
    assert done + items[..j + 1] == done + items[..j] + [items[j]];
  }

  /** The generic accumulation, read back for sales: a medicine's entry holds its total
      quantity and its total revenue. */
  lemma {:induction false} SoldWhere(lines: seq<BillItem>, id: Id)
    ensures SumWhere(lines, LineKey, id, SaleOf, NoSales, AddSales) == Sales(QtyOf(lines, id), RevenueOf(lines, id))
  {
    if lines != [] {
      SoldWhere(lines[..|lines| - 1], id);
    }
  }

  /** Medicine `id` has a line in some bill. */
  ghost predicate InSomeBill(bills: seq<Bill>, id: Id)
  {
    exists i, j :: 0 <= i < |bills| && 0 <= j < |bills[i].items| && bills[i].items[j].medicineId == id
  }

  lemma OccursConcat(a: seq<BillItem>, b: seq<BillItem>, id: Id)
    ensures Occurs(a + b, LineKey, id) <==> Occurs(a, LineKey, id) || Occurs(b, LineKey, id)
  {
    if Occurs(a + b, LineKey, id) {
      var i :| 0 <= i < |a + b| && LineKey((a + b)[i]) == id;
      if i < |a| { assert LineKey(a[i]) == id; } else { assert LineKey(b[i - |a|]) == id; }
    }
    if Occurs(a, LineKey, id) {
      var i :| 0 <= i < |a| && LineKey(a[i]) == id;
      assert LineKey((a + b)[i]) == id;
    }
    if Occurs(b, LineKey, id) {
      var i :| 0 <= i < |b| && LineKey(b[i]) == id;
      assert LineKey((a + b)[|a| + i]) == id;
    }
  }

  /** A medicine occurs among the flattened lines exactly when some bill has a line for it. */
  lemma {:induction false} LinesOccur(bills: seq<Bill>, id: Id)
    ensures Occurs(Lines(bills), LineKey, id) <==> InSomeBill(bills, id)
  {
    if bills != [] {
      var n := |bills| - 1;
      LinesOccur(bills[..n], id);
      OccursConcat(Lines(bills[..n]), bills[n].items, id);
      if InSomeBill(bills, id) {
        var i, j :| 0 <= i < |bills| && 0 <= j < |bills[i].items| && bills[i].items[j].medicineId == id;
        if i < n {
          assert bills[..n][i].items[j].medicineId == id;
        } else {
          assert LineKey(bills[n].items[j]) == id;
        }
      }
      if InSomeBill(bills[..n], id) {
        var i, j :| 0 <= i < n && 0 <= j < |bills[..n][i].items| && bills[..n][i].items[j].medicineId == id;
        assert bills[i].items[j].medicineId == id;
      }
      if Occurs(bills[n].items, LineKey, id) {
        var j :| 0 <= j < |bills[n].items| && LineKey(bills[n].items[j]) == id;
        assert bills[n].items[j].medicineId == id;
      }
    }
  }

  /** `medicinesSold` has one entry per medicine sold in some bill, and that entry holds the
      medicine's total units and total revenue over all bills. */
  lemma MedicinesSoldCorrect(bills: seq<Bill>, id: Id)
    ensures var sold := Tally(Lines(bills), LineKey, SaleOf, NoSales, AddSales);
      && DistinctKeys(sold)
      && (KeyIndex(sold, id) != -1 <==> InSomeBill(bills, id))
      && Get(sold, id, NoSales) == Sales(QtyOf(Lines(bills), id), RevenueOf(Lines(bills), id))
  {
    TallyCorrect(Lines(bills), LineKey, SaleOf, NoSales, AddSales, id);
    SoldWhere(Lines(bills), id);
    LinesOccur(bills, id);
  }

  function SoldCount(e: (Id, Sales)): int { e.1.count }

  function SoldRevenue(e: (Id, Sales)): int { e.1.revenue }

  function Quantity(l: BillItem): int { l.quantity }

  lemma AddSalesSum(acc: seq<(Id, Sales)>, l: BillItem)
    ensures Sum(AddTo(acc, l.medicineId, SaleOf(l), NoSales, AddSales), SoldCount) == Sum(acc, SoldCount) + l.quantity
    ensures Sum(AddTo(acc, l.medicineId, SaleOf(l), NoSales, AddSales), SoldRevenue) == Sum(acc, SoldRevenue) + LineAmount(l)
  {
    var i := KeyIndex(acc, l.medicineId);
    var e := if i == -1 then (l.medicineId, SaleOf(l)) else (l.medicineId, AddSales(acc[i].1, SaleOf(l)));
    if i == -1 {
      SumAppend(acc, e, SoldCount);
      SumAppend(acc, e, SoldRevenue);
    } else {
      SumUpdate(acc, i, e, SoldCount);
      SumUpdate(acc, i, e, SoldRevenue);
    }
  }

  /** Units and revenue are conserved: summed over `medicinesSold` they equal the totals
      over all lines. */
  lemma {:induction false} SoldTotals(lines: seq<BillItem>)
    ensures Sum(Tally(lines, LineKey, SaleOf, NoSales, AddSales), SoldCount) == Sum(lines, Quantity)
    ensures Sum(Tally(lines, LineKey, SaleOf, NoSales, AddSales), SoldRevenue) == Sum(lines, LineAmount)
  {
    if lines != [] {
      var n := |lines| - 1;
      SoldTotals(lines[..n]);
      AddSalesSum(Tally(lines[..n], LineKey, SaleOf, NoSales, AddSales), lines[n]);
      assert lines == lines[..n] + [lines[n]];
      SumAppend(lines[..n], lines[n], Quantity);
      SumAppend(lines[..n], lines[n], LineAmount);
    }
  }

  /** Every bill whose stored total is its lines' total (as `generateBill` stores it). */
  ghost predicate TotalsConsistent(bills: seq<Bill>)
  {
    forall i :: 0 <= i < |bills| ==> bills[i].totalAmount == Subtotal(bills[i].items)
  }

  lemma {:induction false} LinesTotal(bills: seq<Bill>)
    requires TotalsConsistent(bills)
    ensures Sum(Lines(bills), LineAmount) == TotalSales(bills)
  {
    if bills != [] {
      var n := |bills| - 1;
      assert TotalsConsistent(bills[..n]);
      LinesTotal(bills[..n]);
      SumConcat(Lines(bills[..n]), bills[n].items, LineAmount);
      assert bills == bills[..n] + [bills[n]];
      SumAppend(bills[..n], bills[n], BillAmount);
    }
  }

  /** When every bill's total is its lines' total, the revenue per medicine adds up to the
      total sales. */
  lemma SoldRevenueIsTotalSales(bills: seq<Bill>)
    requires TotalsConsistent(bills)
    ensures Sum(Tally(Lines(bills), LineKey, SaleOf, NoSales, AddSales), SoldRevenue) == TotalSales(bills)
  {
    SoldTotals(Lines(bills));
    LinesTotal(bills);
  }

  /** A row of the top-selling table. */
  datatype TopSeller = TopSeller(id: Id, name: string, count: int, revenue: int)

  /** An id missing from the inventory is shown as "Unknown". */
  function SellerRow(meds: seq<Medicine>, e: (Id, Sales)): TopSeller
  {
    var found := FindMedicine(meds, e.0);
    TopSeller(e.0, if found.Some? then found.value.name else "Unknown", e.1.count, e.1.revenue)
  }

  function SellerRows(meds: seq<Medicine>, sold: seq<(Id, Sales)>): (r: seq<TopSeller>)
    ensures |r| == |sold|
    ensures forall t :: 0 <= t < |sold| ==> r[t] == SellerRow(meds, sold[t])
  {
    if sold == [] then [] else [SellerRow(meds, sold[0])] + SellerRows(meds, sold[1..])
  }

  function SellerCount(s: TopSeller): int { s.count }

  /** `Object.entries(medicinesSold).map(...).sort((a, b) => b.count - a.count).slice(0, 5)`. */
  function TopSelling(meds: seq<Medicine>, sold: seq<(Id, Sales)>): (r: seq<TopSeller>)
    ensures |r| == Min(5, |sold|)
    ensures NonIncreasing(r, SellerCount)
    ensures multiset(r) <= multiset(SellerRows(meds, sold))
  {
    var sorted := SortDesc(SellerRows(meds, sold), SellerCount);
    var r := Take(sorted, 5);
    assert sorted == r + sorted[|r|..];
    r
  }

  /** The cut is by units: a row left out of the top five sold no more units than any row kept. */
  lemma TopSellingDominates(meds: seq<Medicine>, sold: seq<(Id, Sales)>, x: TopSeller)
    requires multiset(TopSelling(meds, sold))[x] < multiset(SellerRows(meds, sold))[x]
    ensures forall t :: 0 <= t < |TopSelling(meds, sold)| ==> TopSelling(meds, sold)[t].count >= x.count
  {
    var sorted := SortDesc(SellerRows(meds, sold), SellerCount);
    PrefixDominates(sorted, SellerCount, |TopSelling(meds, sold)|, x);
  }

  /** Every top seller is a medicine sold in some bill, with its total units and revenue over
      all bills, named from the inventory or "Unknown" when it is no longer there. */
  lemma TopSellingEntries(bills: seq<Bill>, meds: seq<Medicine>, t: nat)
    requires t < |TopSelling(meds, Tally(Lines(bills), LineKey, SaleOf, NoSales, AddSales))|
    ensures var e := TopSelling(meds, Tally(Lines(bills), LineKey, SaleOf, NoSales, AddSales))[t];
      && InSomeBill(bills, e.id)
      && e.count == QtyOf(Lines(bills), e.id)
      && e.revenue == RevenueOf(Lines(bills), e.id)
      && e.name == (if FindMedicine(meds, e.id).Some? then FindMedicine(meds, e.id).value.name else "Unknown")
  {
    var sold := Tally(Lines(bills), LineKey, SaleOf, NoSales, AddSales);
    var rows := SellerRows(meds, sold);
    var e := TopSelling(meds, sold)[t];
    assert e in multiset(rows);
    var u :| 0 <= u < |rows| && rows[u] == e;
    MedicinesSoldCorrect(bills, sold[u].0);
    KeyIndexDistinct(sold, u);
  }

  function CategoryOf(m: Medicine): string { m.category }

  function One(m: Medicine): int { 1 }

  /** One step of both category loops: `if (!acc[c]) acc[c] = 0; acc[c] += v`. */
  method AddToCategory(acc0: seq<(string, int)>, category: string, v: int) returns (acc: seq<(string, int)>)
    ensures acc == AddTo(acc0, category, v, 0, Add)
  {
    acc := acc0;
    var k := KeyIndex(acc, category);
    if k == -1 {
      acc := acc + [(category, 0)];
      k := |acc| - 1;
    }
    acc := acc[k := (category, acc[k].1 + v)];
  }

  /** The `categoryData` dictionary: one more medicine for the medicine's category. */
  method CategoryCounts(meds: seq<Medicine>) returns (counts: seq<(string, int)>)
    ensures counts == Tally(meds, CategoryOf, One, 0, Add)
  {
    counts := [];
    var i := 0;
    while i < |meds|
      invariant 0 <= i <= |meds|
      invariant counts == Tally(meds[..i], CategoryOf, One, 0, Add)
    {
      var m := meds[i];
      TallySnoc(meds[..i], m, CategoryOf, One, 0, Add);
      assert meds[..i + 1] == meds[..i] + [m];
      assert CategoryOf(m) == m.category && One(m) == 1;
      counts := AddToCategory(counts, m.category, 1);
      i := i + 1;
    }
    assert meds[..i] == meds;
  }

  /** The `stockValueByCategory` dictionary: `price * stock` added to the medicine's category. */
  method StockValueByCategory(meds: seq<Medicine>) returns (values: seq<(string, int)>)
    ensures values == Tally(meds, CategoryOf, StockValue, 0, Add)
  {
    values := [];
    var i := 0;
    while i < |meds|
      invariant 0 <= i <= |meds|
      invariant values == Tally(meds[..i], CategoryOf, StockValue, 0, Add)
    {
      var m := meds[i];
      TallySnoc(meds[..i], m, CategoryOf, StockValue, 0, Add);
      assert meds[..i + 1] == meds[..i] + [m];
      assert CategoryOf(m) == m.category && StockValue(m) == m.price * m.stock;
      values := AddToCategory(values, m.category, m.price * m.stock);
      i := i + 1;
    }
    assert meds[..i] == meds;
  }

  lemma {:induction false} SumOne(meds: seq<Medicine>)
    ensures Sum(meds, One) == |meds|
  {
    if meds != [] {
      SumOne(meds[1..]);
    }
  }

  /** `categoryData` has one entry per category in the inventory, holding the number of
      medicines in it; the counts add up to the number of medicines. */
  lemma CategoryCountsCorrect(meds: seq<Medicine>, c: string)
    ensures var counts := Tally(meds, CategoryOf, One, 0, Add);
      && DistinctKeys(counts)
      && (KeyIndex(counts, c) != -1 <==> exists i :: 0 <= i < |meds| && meds[i].category == c)
      && Get(counts, c, 0) == |Filter(meds, KeyIs(CategoryOf, c))|
      && Sum(counts, EntryValue) == |meds|
  {
    TallyCorrect(meds, CategoryOf, One, 0, Add, c);
    SumWhereFilter(meds, CategoryOf, c, One);
    SumOne(Filter(meds, KeyIs(CategoryOf, c)));
    TallySum(meds, CategoryOf, One);
    SumOne(meds);
    assert Occurs(meds, CategoryOf, c) <==> exists i :: 0 <= i < |meds| && meds[i].category == c by {
      if Occurs(meds, CategoryOf, c) {
        var i :| 0 <= i < |meds| && CategoryOf(meds[i]) == c;
      }
      if exists i :: 0 <= i < |meds| && meds[i].category == c {
        var i :| 0 <= i < |meds| && meds[i].category == c;
        assert CategoryOf(meds[i]) == c;
      }
    }
  }

  /** `stockValueByCategory[c]` is the stock value of the medicines in category `c`, and the
      values add up to the inventory's total stock value. */
  lemma StockValueByCategoryCorrect(meds: seq<Medicine>, c: string)
    ensures var values := Tally(meds, CategoryOf, StockValue, 0, Add);
      && DistinctKeys(values)
      && Get(values, c, 0) == Sum(Filter(meds, KeyIs(CategoryOf, c)), StockValue)
      && Sum(values, EntryValue) == Sum(meds, StockValue)
  {
    TallyCorrect(meds, CategoryOf, StockValue, 0, Add, c);
    SumWhereFilter(meds, CategoryOf, c, StockValue);
    TallySum(meds, CategoryOf, StockValue);
  }

  /** `barChartData`: the per-category values in non-increasing order, none lost or added. */
  function BarChart(values: seq<(string, int)>): (r: seq<(string, int)>)
    ensures NonIncreasing(r, EntryValue)
    ensures multiset(r) == multiset(values)
  {
    SortDesc(values, EntryValue)
  }
}
