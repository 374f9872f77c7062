/** The application state: the inventory, the bill history and the bill being
    composed (the cart), with the operations that change them. The cart rules are
    pure functions over the line list; the `Store` class holds the three pieces of
    state and applies them. */
module AppContext {
  import opened Seqs
  import opened Types

  /** The bill being composed: a customer name and an ordered list of lines. */
  datatype CurrentBill = CurrentBill(customerName: string, items: seq<BillItem>)

  const EmptyBill := CurrentBill("", [])

  /** Medicines with at most this many units are low on stock. */
  const LowStockThreshold := 10

  /** Why a cart change was refused (the error notification's text). */
  datatype CartError = MedicineNotFound | NotEnoughStock

  /** The outcome of a cart change: the new line list, or the refusal. */
  datatype CartResult = Accepted(items: seq<BillItem>) | Refused(error: CartError)

  ghost predicate DistinctIds(meds: seq<Medicine>)
  {
    forall i, j :: 0 <= i < j < |meds| ==> meds[i].id != meds[j].id
  }

  function MedicineKey(m: Medicine): Id { m.id }

  function LineKey(l: BillItem): Id { l.medicineId }

  /** No medicine has two lines in one cart. */
  ghost predicate DistinctLines(items: seq<BillItem>)
  {
    forall i, j :: 0 <= i < j < |items| ==> items[i].medicineId != items[j].medicineId
  }

  /** Index of the first medicine with this id, or -1. */
  function MedicineIndex(meds: seq<Medicine>, id: Id): (r: int)
    ensures -1 <= r < |meds|
    ensures 0 <= r ==> meds[r].id == id && forall t :: 0 <= t < r ==> meds[t].id != id
    ensures r == -1 <==> forall t :: 0 <= t < |meds| ==> meds[t].id != id
  {
    if meds == [] then -1
    else if meds[0].id == id then 0
    else
      var r := MedicineIndex(meds[1..], id);
      assert forall t :: 0 < t < |meds| ==> meds[t] == meds[1..][t - 1];
      if r == -1 then -1 else r + 1
  }

  /** `medicines.find(m => m.id === id)`. */
  function FindMedicine(meds: seq<Medicine>, id: Id): (r: Option<Medicine>)
    ensures r.None? <==> forall t :: 0 <= t < |meds| ==> meds[t].id != id
    ensures r.Some? ==> r.value in meds && r.value.id == id
  {
    var k := MedicineIndex(meds, id);
    if k == -1 then None else Some(meds[k])
  }

  /** With distinct ids, the record found is the one at the index holding that id. */
  lemma FindDistinct(meds: seq<Medicine>, i: nat)
    requires DistinctIds(meds) && i < |meds|
    ensures FindMedicine(meds, meds[i].id) == Some(meds[i])
  {
    var k := MedicineIndex(meds, meds[i].id);
    assert k != -1;
  }

  /** `items.findIndex(i => i.medicineId === id)`. */
  function LineIndex(items: seq<BillItem>, id: Id): (r: int)
    ensures -1 <= r < |items|
    ensures 0 <= r ==> items[r].medicineId == id && forall t :: 0 <= t < r ==> items[t].medicineId != id
    ensures r == -1 <==> forall t :: 0 <= t < |items| ==> items[t].medicineId != id
  {
    if items == [] then -1
    else if items[0].medicineId == id then 0
    else
      var r := LineIndex(items[1..], id);
      assert forall t :: 0 < t < |items| ==> items[t] == items[1..][t - 1];
      if r == -1 then -1 else r + 1
  }

  /** Total quantity of the lines for medicine `id`. */
  function QtyOf(lines: seq<BillItem>, id: Id): int
  {
    if lines == [] then 0
    else
      var last := lines[|lines| - 1];
      QtyOf(lines[..|lines| - 1], id) + (if last.medicineId == id then last.quantity else 0)
  }

  lemma QtyOfAppend(lines: seq<BillItem>, l: BillItem, id: Id)
    ensures QtyOf(lines + [l], id) == QtyOf(lines, id) + (if l.medicineId == id then l.quantity else 0)
  {
    assert (lines + [l])[..|lines|] == lines;
  }

  /** A medicine with no line has no quantity. */
  lemma {:induction false} QtyOfAbsent(lines: seq<BillItem>, id: Id)
    requires forall t :: 0 <= t < |lines| ==> lines[t].medicineId != id
    ensures QtyOf(lines, id) == 0
  {
    if lines != [] {
      QtyOfAbsent(lines[..|lines| - 1], id);
    }
  }

  /** In a cart with distinct lines, a medicine's quantity is that of its one line. */
  lemma {:induction false} QtyOfDistinct(lines: seq<BillItem>, k: nat)
    requires DistinctLines(lines) && k < |lines|
    ensures QtyOf(lines, lines[k].medicineId) == lines[k].quantity
  {
    var n := |lines| - 1;
    if k == n {
      QtyOfAbsent(lines[..n], lines[k].medicineId);
    } else {
      QtyOfDistinct(lines[..n], k);
    }
  }

  /** Overwriting a line with one for the same medicine changes only that medicine's quantity. */
  lemma {:induction false} QtyOfUpdate(lines: seq<BillItem>, k: nat, y: BillItem, id: Id)
    requires k < |lines| && y.medicineId == lines[k].medicineId
    ensures QtyOf(lines[k := y], id) == QtyOf(lines, id) + (if y.medicineId == id then y.quantity - lines[k].quantity else 0)
  {
    var n := |lines| - 1;
    assert lines[k := y][..n] == if k == n then lines[..n] else lines[..n][k := y];
    if k < n {
      QtyOfUpdate(lines[..n], k, y, id);
    }
  }

  /** `reduce((sum, item) => sum + item.price * item.quantity, 0)` over a line list. */
  function Subtotal(items: seq<BillItem>): (r: int)
    ensures items == [] ==> r == 0
    ensures (forall i :: 0 <= i < |items| ==> items[i].price >= 0 && items[i].quantity >= 0) ==> r >= 0
  {
    if forall i :: 0 <= i < |items| ==> items[i].price >= 0 && items[i].quantity >= 0 then
      SumNonNegative(items, LineAmount);
      Sum(items, LineAmount)
    else
      Sum(items, LineAmount)
  }

  /** Add `quantity` units of a medicine to the cart (`addItemToBill`). */
  function AddLine(meds: seq<Medicine>, items: seq<BillItem>, medicineId: Id, quantity: int, price: int): (r: CartResult)
    ensures r == Refused(MedicineNotFound) <==> FindMedicine(meds, medicineId).None?
    ensures r.Accepted? && DistinctLines(items) ==> DistinctLines(r.items)
  {
    var found := FindMedicine(meds, medicineId);
    if found.None? then Refused(MedicineNotFound)
    else if found.value.stock < quantity then Refused(NotEnoughStock)
    else
      var k := LineIndex(items, medicineId);
      if k != -1 then
        var newQuantity := items[k].quantity + quantity;
        if newQuantity > found.value.stock then Refused(NotEnoughStock)
        else Accepted(items[k := items[k].(quantity := newQuantity)])
      else
        Accepted(items + [BillItem(medicineId, quantity, price, found.value.name)])
  }

  /** When `addItemToBill` accepts: a known medicine, and neither the requested quantity
      nor the cart's quantity after the add exceeds its stock. */
  lemma AddLineAccepts(meds: seq<Medicine>, items: seq<BillItem>, id: Id, quantity: int, price: int)
    requires DistinctLines(items)
    ensures AddLine(meds, items, id, quantity, price).Accepted? <==>
      var found := FindMedicine(meds, id);
      found.Some? && quantity <= found.value.stock && QtyOf(items, id) + quantity <= found.value.stock
  {
    var k := LineIndex(items, id);
    if k == -1 { QtyOfAbsent(items, id); } else { QtyOfDistinct(items, k); }
  }

  /** What an accepted add does to quantities: the medicine's quantity grows by `quantity`
      and stays within stock, and no other medicine's quantity changes. */
  lemma AddLineQuantities(meds: seq<Medicine>, items: seq<BillItem>, id: Id, quantity: int, price: int)
    requires DistinctLines(items)
    requires AddLine(meds, items, id, quantity, price).Accepted?
    ensures QtyOf(AddLine(meds, items, id, quantity, price).items, id) == QtyOf(items, id) + quantity
    ensures QtyOf(items, id) + quantity <= FindMedicine(meds, id).value.stock
    ensures forall x :: x != id ==> QtyOf(AddLine(meds, items, id, quantity, price).items, x) == QtyOf(items, x)
  {
    var k := LineIndex(items, id);
    var m := FindMedicine(meds, id).value;
    if k == -1 {
      var l := BillItem(id, quantity, price, m.name);
      assert AddLine(meds, items, id, quantity, price).items == items + [l];
      QtyOfAbsent(items, id);
      forall x { QtyOfAppend(items, l, x); }
    } else {
      var y := items[k].(quantity := items[k].quantity + quantity);
      assert AddLine(meds, items, id, quantity, price).items == items[k := y];
      QtyOfDistinct(items, k);
      forall x { QtyOfUpdate(items, k, y, x); }
    }
  }

  /** Where an accepted add puts the line: every line other than the medicine's own keeps
      its place; a medicine already in the cart keeps its line, with the price and name
      taken when it was first added. */
  lemma AddLinePlacement(meds: seq<Medicine>, items: seq<BillItem>, id: Id, quantity: int, price: int)
    requires AddLine(meds, items, id, quantity, price).Accepted?
    ensures var r := AddLine(meds, items, id, quantity, price).items;
      && (forall j :: 0 <= j < |items| && j != LineIndex(items, id) ==> r[j] == items[j])
      && (LineIndex(items, id) != -1 ==>
            |r| == |items| && r[LineIndex(items, id)].price == items[LineIndex(items, id)].price
            && r[LineIndex(items, id)].medicineName == items[LineIndex(items, id)].medicineName)
  {
  }

  /** A medicine not yet in the cart gets one line at the end, at the given price and
      carrying the inventory name. */
  lemma AddLineNew(meds: seq<Medicine>, items: seq<BillItem>, id: Id, quantity: int, price: int)
    requires AddLine(meds, items, id, quantity, price).Accepted? && LineIndex(items, id) == -1
    ensures AddLine(meds, items, id, quantity, price).items ==
      items + [BillItem(id, quantity, price, FindMedicine(meds, id).value.name)]
  {
  }

  /** The unit price an add for `id` is charged at: the existing line's, else the given one. */
  function ChargedPrice(items: seq<BillItem>, id: Id, price: int): int
  {
    var k := LineIndex(items, id);
    if k == -1 then price else items[k].price
  }

  /** An accepted add raises the cart total by the charged unit price times `quantity`. */
  lemma AddLineSubtotal(meds: seq<Medicine>, items: seq<BillItem>, id: Id, quantity: int, price: int)
    requires AddLine(meds, items, id, quantity, price).Accepted?
    ensures Subtotal(AddLine(meds, items, id, quantity, price).items) ==
      Subtotal(items) + ChargedPrice(items, id, price) * quantity
  {
    var k := LineIndex(items, id);
    var m := FindMedicine(meds, id).value;
    if k == -1 {
      var l := BillItem(id, quantity, price, m.name);
      assert AddLine(meds, items, id, quantity, price).items == items + [l];
      SumAppend(items, l, LineAmount);
    } else {
      var y := items[k].(quantity := items[k].quantity + quantity);
      assert AddLine(meds, items, id, quantity, price).items == items[k := y];
      SumUpdate(items, k, y, LineAmount);
      assert LineAmount(y) - LineAmount(items[k]) == items[k].price * quantity;
    }
  }

  /** Adding the same medicine twice sums the quantities and checks the sum against stock. */
  lemma {:induction false} AddTwice(meds: seq<Medicine>, items: seq<BillItem>, id: Id, q1: int, q2: int, price: int)
    requires LineIndex(items, id) == -1
    requires AddLine(meds, items, id, q1, price).Accepted?
    ensures var first := AddLine(meds, items, id, q1, price).items;
      var second := AddLine(meds, first, id, q2, price);
      var stock := FindMedicine(meds, id).value.stock;
      && (second.Accepted? <==> q2 <= stock && q1 + q2 <= stock)
      && (second.Accepted? ==> second.items == items + [first[|items|].(quantity := q1 + q2)])
  {
    var first := AddLine(meds, items, id, q1, price).items;
    AddLineNew(meds, items, id, q1, price);
    assert first[|items|].medicineId == id;
    assert forall t :: 0 <= t < |items| ==> first[t] == items[t];
    assert LineIndex(first, id) == |items|;
  }

  function OtherThan(id: Id): BillItem -> bool { (l: BillItem) => l.medicineId != id }

  /** `items.filter(item => item.medicineId !== id)` (`removeItemFromBill`). */
  function RemoveLine(items: seq<BillItem>, id: Id): (r: seq<BillItem>)
    ensures forall j :: 0 <= j < |r| ==> r[j].medicineId != id
    ensures forall j :: 0 <= j < |items| && items[j].medicineId != id ==> items[j] in r
    ensures SubsequenceOf(r, items)
  {
    Filter(items, OtherThan(id))
  }

  /** Removing is idempotent, a no-op for an absent medicine, and otherwise cuts out exactly
      that medicine's line, keeping the others in order and lowering the total by its amount. */
  lemma RemoveLineEffect(items: seq<BillItem>, id: Id)
    requires DistinctLines(items)
    ensures RemoveLine(RemoveLine(items, id), id) == RemoveLine(items, id)
    ensures LineIndex(items, id) == -1 ==> RemoveLine(items, id) == items
    ensures var k := LineIndex(items, id);
      k != -1 ==> (RemoveLine(items, id) == items[..k] + items[k + 1..] &&
                   Subtotal(RemoveLine(items, id)) == Subtotal(items) - LineAmount(items[k]))
  {
    FilterIdempotent(items, OtherThan(id));
    var k := LineIndex(items, id);
    if k == -1 {
      FilterKeepsAll(items, OtherThan(id));
    } else {
      FilterDropsOne(items, k, OtherThan(id));
      SumRemoveAt(items, k, LineAmount);
    }
  }

  /** `items.map(item => item.medicineId === id ? { ...item, quantity } : item)`. */
  function WithQuantity(items: seq<BillItem>, id: Id, quantity: int): (r: seq<BillItem>)
    ensures |r| == |items|
    ensures forall j :: 0 <= j < |items| ==>
      r[j] == if items[j].medicineId == id then items[j].(quantity := quantity) else items[j]
  {
    if items == [] then [] else
      [if items[0].medicineId == id then items[0].(quantity := quantity) else items[0]]
      + WithQuantity(items[1..], id, quantity)
  }

  /** Set a line's quantity (`updateBillItemQuantity`): refused for an unknown medicine or a
      quantity above its stock; there is no lower bound. */
  function SetLineQuantity(meds: seq<Medicine>, items: seq<BillItem>, id: Id, quantity: int): (r: CartResult)
    ensures r.Accepted? <==> FindMedicine(meds, id).Some? && quantity <= FindMedicine(meds, id).value.stock
    ensures r == Refused(MedicineNotFound) <==> FindMedicine(meds, id).None?
    ensures r.Accepted? && DistinctLines(items) ==> DistinctLines(r.items)
  {
    var found := FindMedicine(meds, id);
    if found.None? then Refused(MedicineNotFound)
    else if found.value.stock < quantity then Refused(NotEnoughStock)
    else Accepted(WithQuantity(items, id, quantity))
  }

  /** An accepted quantity change sets that medicine's quantity, touches no other line,
      and leaves a cart without that medicine as it was. */
  lemma SetLineQuantityEffect(meds: seq<Medicine>, items: seq<BillItem>, id: Id, quantity: int)
    requires DistinctLines(items)
    requires SetLineQuantity(meds, items, id, quantity).Accepted?
    ensures var r := SetLineQuantity(meds, items, id, quantity).items;
      && (LineIndex(items, id) != -1 ==> QtyOf(r, id) == quantity)
      && (LineIndex(items, id) == -1 ==> r == items)
      && (forall j :: 0 <= j < |items| && items[j].medicineId != id ==> r[j] == items[j])
  {
    var r := SetLineQuantity(meds, items, id, quantity).items;
    var k := LineIndex(items, id);
    if k != -1 {
      assert DistinctLines(r);
      QtyOfDistinct(r, k);
    } else {
      assert r == items;
    }
  }

  /** The guards of `generateBill`: a customer name and at least one line. */
  predicate CanCommit(cb: CurrentBill)
  {
    cb.customerName != "" && |cb.items| != 0
  }

  /** The inventory after a sale: each medicine loses the quantity sold of it. */
  function AfterSale(meds: seq<Medicine>, items: seq<BillItem>): (r: seq<Medicine>)
    ensures |r| == |meds|
  {
    seq(|meds|, i requires 0 <= i < |meds| => meds[i].(stock := meds[i].stock - QtyOf(items, meds[i].id)))
  }

  /** After a sale each medicine in the cart has lost exactly its line's quantity (stock may
      go negative); a medicine not in the cart, and every other field, is unchanged. */
  lemma AfterSaleEffect(meds: seq<Medicine>, items: seq<BillItem>, i: nat)
    requires DistinctLines(items) && i < |meds|
    ensures var k := LineIndex(items, meds[i].id);
      && AfterSale(meds, items)[i] == meds[i].(stock := AfterSale(meds, items)[i].stock)
      && AfterSale(meds, items)[i].stock == meds[i].stock - (if k == -1 then 0 else items[k].quantity)
  {
    var k := LineIndex(items, meds[i].id);
    if k == -1 { QtyOfAbsent(items, meds[i].id); } else { QtyOfDistinct(items, k); }
  }

  function SameId(id: Id): Medicine -> bool { (m: Medicine) => m.id == id }

  /** `prev.map(item => item.id === medicine.id ? medicine : item)` (`updateMedicine`). */
  function ReplaceById(meds: seq<Medicine>, m: Medicine): (r: seq<Medicine>)
    ensures |r| == |meds|
    ensures forall i :: 0 <= i < |meds| ==> r[i].id == meds[i].id
    ensures forall i :: 0 <= i < |meds| ==> r[i] == if meds[i].id == m.id then m else meds[i]
  {
    Replace(meds, SameId(m.id), m)
  }

  /** Writing back a record already in a duplicate-free inventory changes nothing. */
  lemma ReplaceByIdSame(meds: seq<Medicine>, i: nat)
    requires DistinctIds(meds) && i < |meds|
    ensures ReplaceById(meds, meds[i]) == meds
  {
    var r := ReplaceById(meds, meds[i]);
    assert forall j :: 0 <= j < |meds| && j != i ==> meds[j].id != meds[i].id;
  }

  /** One step of the stock loop of `generateBill` whose medicine is not in the inventory
      sells nothing. */
  lemma SaleStepSkips(snapshot: seq<Medicine>, items: seq<BillItem>, i: nat)
    requires DistinctIds(snapshot) && DistinctLines(items) && i < |items|
    requires FindMedicine(snapshot, items[i].medicineId).None?
    ensures AfterSale(snapshot, items[..i + 1]) == AfterSale(snapshot, items[..i])
  {
    var line := items[i];
    assert items[..i + 1] == items[..i] + [line];
    forall x { QtyOfAppend(items[..i], line, x); }
  }

  /** One step of the stock loop of `generateBill` whose medicine `m` is in the inventory
      writes back `m` with the line's quantity taken off its stock. */
  lemma SaleStepSells(snapshot: seq<Medicine>, items: seq<BillItem>, i: nat, m: Medicine)
    requires DistinctIds(snapshot) && DistinctLines(items) && i < |items|
    requires FindMedicine(snapshot, items[i].medicineId) == Some(m)
    ensures AfterSale(snapshot, items[..i + 1]) ==
      ReplaceById(AfterSale(snapshot, items[..i]), m.(stock := m.stock - items[i].quantity))
  {
    var line := items[i];
    assert items[..i + 1] == items[..i] + [line];
    QtyOfAbsent(items[..i], line.medicineId);
    var before := AfterSale(snapshot, items[..i]);
    var after := AfterSale(snapshot, items[..i + 1]);
    var r := ReplaceById(before, m.(stock := m.stock - line.quantity));
    forall j | 0 <= j < |snapshot| ensures after[j] == r[j] {
      QtyOfAppend(items[..i], line, snapshot[j].id);
      if snapshot[j].id == line.medicineId {
        FindDistinct(snapshot, j);
      }
    }
  }

  /** One pass of the stock loop for `line`: the medicine is looked up in the inventory as
      it was before the loop and, when found, written back with `updateMedicine` holding
      that stock less the line's quantity. */
  function SellLine(snapshot: seq<Medicine>, meds: seq<Medicine>, line: BillItem): (r: seq<Medicine>)
    ensures |r| == |meds| && forall i :: 0 <= i < |meds| ==> r[i].id == meds[i].id
  {
    match FindMedicine(snapshot, line.medicineId)
    case None => meds
    case Some(m) => ReplaceById(meds, m.(stock := m.stock - line.quantity))
  }

  /** The stock loop of `generateBill` as written: one pass per line, in order. */
  function SellLines(snapshot: seq<Medicine>, items: seq<BillItem>): (r: seq<Medicine>)
    ensures |r| == |snapshot| && forall i :: 0 <= i < |snapshot| ==> r[i].id == snapshot[i].id
  {
    if items == [] then snapshot
    else SellLine(snapshot, SellLines(snapshot, items[..|items| - 1]), items[|items| - 1])
  }

  /** A pass of the loop on the sale so far is the sale with one more line. */
  lemma SaleStep(snapshot: seq<Medicine>, items: seq<BillItem>, i: nat)
    requires DistinctIds(snapshot) && DistinctLines(items) && i < |items|
    ensures SellLine(snapshot, AfterSale(snapshot, items[..i]), items[i]) == AfterSale(snapshot, items[..i + 1])
  {
    var before := AfterSale(snapshot, items[..i]);
    match FindMedicine(snapshot, items[i].medicineId)
    case None =>
      assert SellLine(snapshot, before, items[i]) == before;
      SaleStepSkips(snapshot, items, i);
    case Some(m) =>
      var sold := m.(stock := m.stock - items[i].quantity);
      assert SellLine(snapshot, before, items[i]) == ReplaceById(before, sold);
      SaleStepSells(snapshot, items, i, m);
  }

  /** With distinct ids and distinct lines, the loop's writes add up to the sale: each
      medicine loses exactly the quantity sold of it. */
  lemma {:induction false} SellLinesIsSale(snapshot: seq<Medicine>, items: seq<BillItem>)
    requires DistinctIds(snapshot) && DistinctLines(items)
    ensures SellLines(snapshot, items) == AfterSale(snapshot, items)
    decreases |items|
  {
    if items == [] {
      assert forall x :: QtyOf(items, x) == 0;
    } else {
      var n := |items| - 1;
      assert items[..n + 1] == items;
      assert DistinctLines(items[..n]) by {
        assert forall a :: 0 <= a < n ==> items[..n][a] == items[a];
      }
      SellLinesIsSale(snapshot, items[..n]);
      SaleStep(snapshot, items, n);
    }
  }

  function NotId(id: Id): Medicine -> bool { (m: Medicine) => m.id != id }

  function SameBillId(id: Id): Bill -> bool { (b: Bill) => b.id == id }

  function NotBillId(id: Id): Bill -> bool { (b: Bill) => b.id != id }

  predicate IsLowStock(m: Medicine) { m.stock <= LowStockThreshold }

  /** `getLowStockMedicines`: exactly the medicines with at most ten units, in inventory order. */
  function LowStockMedicines(meds: seq<Medicine>): (r: seq<Medicine>)
    ensures forall m :: m in r <==> m in meds && m.stock <= LowStockThreshold
    ensures SubsequenceOf(r, meds)
  {
    var r := Filter(meds, IsLowStock);
    assert forall m :: m in meds && m.stock <= LowStockThreshold ==> m in r;
    r
  }

  /** A calendar date, compared in calendar order. */
  datatype Date = Date(year: int, month: int, day: int)

  predicate OnOrBefore(a: Date, b: Date)
  {
    a.year < b.year || (a.year == b.year && (a.month < b.month || (a.month == b.month && a.day <= b.day)))
  }

  /** Expires on or before `cutoff`; a date that does not parse compares false (an invalid `Date`). */
  function ExpiresBy(cutoff: Date, parseDate: string -> Option<Date>): Medicine -> bool
  {
    (m: Medicine) => parseDate(m.expiryDate).Some? && OnOrBefore(parseDate(m.expiryDate).value, cutoff)
  }

  /** `getExpiringMedicines`, with the "three months from now" cutoff and the date parser as parameters. */
  function ExpiringMedicines(meds: seq<Medicine>, cutoff: Date, parseDate: string -> Option<Date>): (r: seq<Medicine>)
    ensures forall m :: m in r <==>
      m in meds && parseDate(m.expiryDate).Some? && OnOrBefore(parseDate(m.expiryDate).value, cutoff)
    ensures SubsequenceOf(r, meds)
  {
    var r := Filter(meds, ExpiresBy(cutoff, parseDate));
    assert forall m :: m in meds && ExpiresBy(cutoff, parseDate)(m) ==> m in r;
    r
  }

  class Store {
    var medicines: seq<Medicine>
    var bills: seq<Bill>
    var currentBill: CurrentBill

    /** Medicine ids are unique (fresh ids are assigned on add and never edited), and the
        cart holds at most one line per medicine. */
    ghost predicate Valid()
      reads this
    {
      DistinctIds(medicines) && DistinctLines(currentBill.items)
    }

    constructor (meds: seq<Medicine>, history: seq<Bill>)
      requires DistinctIds(meds)
      ensures Valid()
      ensures medicines == meds && bills == history && currentBill == EmptyBill
    {
      medicines := meds;
      bills := history;
      currentBill := EmptyBill;
    }

    /** `addMedicine`: the record is appended under a fresh id. */
    method AddMedicine(draft: Medicine, freshId: Id)
      requires Valid() && MedicineIndex(medicines, freshId) == -1
      modifies this
      ensures Valid()
      ensures medicines == old(medicines) + [draft.(id := freshId)]
      ensures bills == old(bills) && currentBill == old(currentBill)
    {
      medicines := medicines + [draft.(id := freshId)];
    }

    /** `updateMedicine`: every record with the same id is replaced; ids are unchanged. */
    method UpdateMedicine(m: Medicine)
      requires Valid()
      modifies this
      ensures Valid()
      ensures medicines == ReplaceById(old(medicines), m)
      ensures bills == old(bills) && currentBill == old(currentBill)
    {
      medicines := ReplaceById(medicines, m);
    }

    /** `deleteMedicine`: lines already in the cart are not touched. */
    method DeleteMedicine(id: Id)
      requires Valid()
      modifies this
      ensures Valid()
      ensures medicines == Filter(old(medicines), NotId(id))
      ensures forall m :: m in medicines <==> m in old(medicines) && m.id != id
      ensures bills == old(bills) && currentBill == old(currentBill)
    {
      var kept := Filter(medicines, NotId(id));
      assert forall m :: m in medicines && m.id != id ==> m in kept;
      FilterDistinct(medicines, NotId(id), MedicineKey);
      medicines := kept;
    }

    /** `addBill`: the bill is appended under a fresh id. */
    method AddBill(draft: Bill, freshId: Id)
      requires Valid()
      modifies this
      ensures Valid()
      ensures bills == old(bills) + [draft.(id := freshId)]
      ensures medicines == old(medicines) && currentBill == old(currentBill)
    {
      bills := bills + [draft.(id := freshId)];
    }

    /** `updateBill`: every bill with the same id is replaced. */
    method UpdateBill(b: Bill)
      requires Valid()
      modifies this
      ensures Valid()
      ensures bills == Replace(old(bills), SameBillId(b.id), b)
      ensures medicines == old(medicines) && currentBill == old(currentBill)
    {
      bills := Replace(bills, SameBillId(b.id), b);
    }

    /** `deleteBill`. */
    method DeleteBill(id: Id)
      requires Valid()
      modifies this
      ensures Valid()
      ensures bills == Filter(old(bills), NotBillId(id))
      ensures medicines == old(medicines) && currentBill == old(currentBill)
    {
      bills := Filter(bills, NotBillId(id));
    }

    /** `setCustomerName`: no validation. */
    method SetCustomerName(name: string)
      requires Valid()
      modifies this
      ensures Valid()
      ensures currentBill == old(currentBill).(customerName := name)
      ensures medicines == old(medicines) && bills == old(bills)
    {
      currentBill := currentBill.(customerName := name);
    }

    /** `addItemToBill`: a refused add leaves the cart as it was. */
    method AddItemToBill(medicineId: Id, quantity: int, price: int)
      requires Valid()
      modifies this
      ensures Valid()
      ensures currentBill.customerName == old(currentBill).customerName
      ensures currentBill.items ==
        match AddLine(old(medicines), old(currentBill).items, medicineId, quantity, price)
        case Accepted(items) => items
        case Refused(_) => old(currentBill).items
      ensures medicines == old(medicines) && bills == old(bills)
    {
      var r := AddLine(medicines, currentBill.items, medicineId, quantity, price);
      if r.Accepted? {
        currentBill := currentBill.(items := r.items);
      }
    }

    /** `removeItemFromBill`. */
    method RemoveItemFromBill(medicineId: Id)
      requires Valid()
      modifies this
      ensures Valid()
      ensures currentBill == old(currentBill).(items := RemoveLine(old(currentBill).items, medicineId))
      ensures medicines == old(medicines) && bills == old(bills)
    {
      var kept := RemoveLine(currentBill.items, medicineId);
      FilterDistinct(currentBill.items, OtherThan(medicineId), LineKey);
      currentBill := currentBill.(items := kept);
    }

    /** `updateBillItemQuantity`: a refused change leaves the cart as it was. */
    method UpdateBillItemQuantity(medicineId: Id, quantity: int)
      requires Valid()
      modifies this
      ensures Valid()
      ensures currentBill.customerName == old(currentBill).customerName
      ensures currentBill.items ==
        match SetLineQuantity(old(medicines), old(currentBill).items, medicineId, quantity)
        case Accepted(items) => items
        case Refused(_) => old(currentBill).items
      ensures medicines == old(medicines) && bills == old(bills)
    {
      var r := SetLineQuantity(medicines, currentBill.items, medicineId, quantity);
      if r.Accepted? {
        currentBill := currentBill.(items := r.items);
      }
    }

    /** `clearCurrentBill`. */
    method ClearCurrentBill()
      requires Valid()
      modifies this
      ensures Valid()
      ensures currentBill == EmptyBill
      ensures medicines == old(medicines) && bills == old(bills)
    {
      currentBill := EmptyBill;
    }

    /** The stock loop of `generateBill`: for each line, in order, the medicine found in the
        inventory as it was before the loop gets that stock minus the line's quantity and is
        written back with `updateMedicine`; a line whose medicine is gone is skipped. */
    method ApplySale(items: seq<BillItem>)
      requires Valid() && DistinctLines(items)
      modifies this
      ensures Valid()
      ensures medicines == AfterSale(old(medicines), items)
      ensures bills == old(bills) && currentBill == old(currentBill)
    {
      var snapshot := medicines;
      var i := 0;
      while i < |items|
        invariant 0 <= i <= |items|
        invariant medicines == SellLines(snapshot, items[..i])
        invariant bills == old(bills) && currentBill == old(currentBill)
      {
        assert items[..i + 1][..i] == items[..i];
        medicines := SellLine(snapshot, medicines, items[i]);
        i := i + 1;
      }
      assert items[..i] == items;
      SellLinesIsSale(snapshot, items);
      assert forall j :: 0 <= j < |medicines| ==> medicines[j].id == snapshot[j].id;
    }

    /** `generateBill`: without a customer name or without lines nothing changes; otherwise
        one unpaid bill holding the cart's lines and their total is appended, every medicine
        sold loses the quantity sold (no stock re-check), and the cart is cleared. */
    method GenerateBill(today: string, freshId: Id)
      requires Valid()
      modifies this
      ensures Valid()
      ensures !CanCommit(old(currentBill)) ==>
        medicines == old(medicines) && bills == old(bills) && currentBill == old(currentBill)
      ensures CanCommit(old(currentBill)) ==>
        && bills == old(bills) + [Bill(freshId, old(currentBill).customerName, today,
                                       old(currentBill).items, Subtotal(old(currentBill).items), false)]
        && medicines == AfterSale(old(medicines), old(currentBill).items)
        && currentBill == EmptyBill
    {
      if currentBill.customerName == "" {
        return;
      }
      if |currentBill.items| == 0 {
        return;
      }
      var items := currentBill.items;
      var totalAmount := Subtotal(items);
      AddBill(Bill(freshId, currentBill.customerName, today, items, totalAmount, false), freshId);
      ApplySale(items);
      ClearCurrentBill();
    }
  }
}