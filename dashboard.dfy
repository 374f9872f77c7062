/** The dashboard cards: the number of pending bills, the inventory value, the
    low-stock count and the colour of each low-stock row. */
module Dashboard {
  import opened Seqs
  import opened Dict
  import opened Types
  import opened AppContext
  import opened Reports

  /** `bills.filter(bill => !bill.paid).length`: together with the paid bills this counts
      every bill once, and it is zero exactly when every bill is paid. */
  function PendingBills(bills: seq<Bill>): (r: nat)
    ensures r <= |bills|
    ensures r + |PaidBills(bills)| == |bills|
    ensures r == 0 <==> forall i :: 0 <= i < |bills| ==> bills[i].paid
  {
    PaidUnpaidPartition(bills);
    if forall i :: 0 <= i < |bills| ==> bills[i].paid then
      FilterDropsAll(bills, IsUnpaid);
      |UnpaidBills(bills)|
    else
      var i :| 0 <= i < |bills| && !bills[i].paid;
      assert bills[i] in UnpaidBills(bills);
      |UnpaidBills(bills)|
  }

  /** `medicines.reduce((total, m) => total + m.price * m.stock, 0)`. */
  function TotalInventoryValue(meds: seq<Medicine>): (r: int)
    ensures meds == [] ==> r == 0
    ensures (forall i :: 0 <= i < |meds| ==> meds[i].price >= 0 && meds[i].stock >= 0) ==> r >= 0
  {
    if forall i :: 0 <= i < |meds| ==> meds[i].price >= 0 && meds[i].stock >= 0 then
      assert forall i :: 0 <= i < |meds| ==> StockValue(meds[i]) >= 0;
      SumNonNegative(meds, StockValue);
      Sum(meds, StockValue)
    else
      Sum(meds, StockValue)
  }

  /** The dashboard's inventory value is what the bars of the stock-value-by-category chart
      add up to. */
  lemma InventoryValueIsCategoryTotal(meds: seq<Medicine>)
    ensures Sum(Tally(meds, CategoryOf, StockValue, 0, Add), EntryValue) == TotalInventoryValue(meds)
  {
    TallySum(meds, CategoryOf, StockValue);
  }

  /** Adding a medicine (`addMedicine`) adds its price times its stock. */
  lemma InventoryValueAppend(meds: seq<Medicine>, m: Medicine)
    ensures TotalInventoryValue(meds + [m]) == TotalInventoryValue(meds) + m.price * m.stock
  {
    SumAppend(meds, m, StockValue);
  }

  /** Writing a record back with `updateMedicine` changes the value by the difference
      between the new record's value and the old one's. */
  lemma InventoryValueReplace(meds: seq<Medicine>, m: Medicine, i: nat)
    requires DistinctIds(meds) && i < |meds| && m.id == meds[i].id
    ensures TotalInventoryValue(ReplaceById(meds, m)) ==
      TotalInventoryValue(meds) - meds[i].price * meds[i].stock + m.price * m.stock
  {
    assert ReplaceById(meds, m) == meds[i := m];
    SumUpdate(meds, i, m, StockValue);
  }

  /** `getLowStockMedicines().length`: zero exactly when every medicine has more than ten units. */
  function LowStockCount(meds: seq<Medicine>): (r: nat)
    ensures r <= |meds|
    ensures r == 0 <==> forall i :: 0 <= i < |meds| ==> meds[i].stock > LowStockThreshold
  {
    var low := LowStockMedicines(meds);
    if forall i :: 0 <= i < |meds| ==> meds[i].stock > LowStockThreshold then
      FilterDropsAll(meds, IsLowStock);
      |low|
    else
      var i :| 0 <= i < |meds| && meds[i].stock <= LowStockThreshold;
      assert meds[i] in low;
      |low|
  }

  /** The colour of a low-stock row. */
  datatype Tier = Critical | Warning

  /** `medicine.stock <= 5 ? 'text-red-500' : 'text-amber-500'`. */
  function StockTier(m: Medicine): Tier
  {
    if m.stock <= 5 then Critical else Warning
  }

  /** On the low-stock list, five units or fewer is critical and six to ten is a warning. */
  lemma LowStockTiers(meds: seq<Medicine>, m: Medicine)
    requires m in LowStockMedicines(meds)
    ensures StockTier(m) == Critical <==> m.stock <= 5
    ensures StockTier(m) == Warning <==> 6 <= m.stock <= 10
  {
  }
}
