/** The billing page: the cart total, the bill search, the quantity field and the
    buttons that add a medicine, change a line's quantity and generate the bill. */
module Billing {
  import opened Seqs
  import opened Text
  import opened Types
  import opened AppContext

  /** `reduce((sum, item) => sum + item.price * item.quantity, sum)`: the running sum is
      carried from the left. */
  function TotalFrom(items: seq<BillItem>, sum: int): int
  {
    if items == [] then sum else TotalFrom(items[1..], sum + items[0].price * items[0].quantity)
  }

  /** The running sum ends at its start plus the cart's total. */
  lemma {:induction false} TotalFromSubtotal(items: seq<BillItem>, sum: int)
    ensures TotalFrom(items, sum) == sum + Subtotal(items)
  {
    if items != [] {
      TotalFromSubtotal(items[1..], sum + items[0].price * items[0].quantity);
    }
  }

  /** `calculateTotal`: what the page shows is the total `generateBill` stores for the
      cart; 0 for an empty cart, never negative for non-negative lines. */
  function CalculateTotal(cb: CurrentBill): (r: int)
    ensures r == Subtotal(cb.items)
    ensures cb.items == [] ==> r == 0
    ensures (forall i :: 0 <= i < |cb.items| ==> cb.items[i].price >= 0 && cb.items[i].quantity >= 0) ==> r >= 0
  {
    TotalFromSubtotal(cb.items, 0);
    if forall i :: 0 <= i < |cb.items| ==> cb.items[i].price >= 0 && cb.items[i].quantity >= 0 then
      SumNonNegative(cb.items, LineAmount);
      TotalFrom(cb.items, 0)
    else
      TotalFrom(cb.items, 0)
  }

  function NameMatches(term: string): Bill -> bool
  {
    (b: Bill) => Contains(Lower(b.customerName), Lower(term))
  }

  /** `filteredBills`: the bills whose customer name contains the search term, ignoring
      case, in history order; an empty term keeps every bill. */
  function FilteredBills(bills: seq<Bill>, term: string): (r: seq<Bill>)
    ensures forall b :: b in r <==> b in bills && Contains(Lower(b.customerName), Lower(term))
    ensures SubsequenceOf(r, bills)
    ensures term == "" ==> r == bills
  {
    var r := Filter(bills, NameMatches(term));
    assert forall b :: b in bills && NameMatches(term)(b) ==> b in r;
    if term == "" then
      assert forall i :: 0 <= i < |bills| ==> OccursAt(Lower(bills[i].customerName), Lower(term), 0);
      FilterKeepsAll(bills, NameMatches(term));
      r
    else
      r
  }

  /** The Generate Bill button is enabled exactly when `generateBill` would commit. */
  function GenerateEnabled(cb: CurrentBill): (r: bool)
    ensures r <==> CanCommit(cb)
  {
    !(|cb.items| == 0 || cb.customerName == "")
  }

  /** The quantity field as written: `parseInt(value) || 1`, with the parse result as a
      parameter (`None` for NaN). Only NaN and 0 fall back to 1. */
  function QuantityInput(parsed: Option<int>): (r: int)
    ensures r != 0
    ensures parsed.None? || parsed == Some(0) ==> r == 1
    ensures parsed.Some? && parsed.value != 0 ==> r == parsed.value
  {
    if parsed.None? || parsed.value == 0 then 1 else parsed.value
  }

  /** Every cart line has a positive quantity. */
  ghost predicate PositiveLines(items: seq<BillItem>)
  {
    forall i :: 0 <= i < |items| ==> items[i].quantity >= 1
  }

  /** Typing "-3" in the quantity field is kept as -3, the add is accepted against any
      medicine with stock, the cart then holds a line of -3 units with a negative total,
      and generating the bill would raise the medicine's stock. */
  lemma NegativeQuantityAccepted()
    ensures var meds := [Medicine("1", "Paracetamol", "Pain reliever and fever reducer", 599, 100,
                                  "2025-12-31", "Pain Relief", "MedPharm")];
      var q := QuantityInput(Some(-3));
      var added := AddLine(meds, [], "1", q, 599);
      && q == -3
      && added == Accepted([BillItem("1", -3, 599, "Paracetamol")])
      && !PositiveLines(added.items)
      && Subtotal(added.items) == -1797
      && AfterSale(meds, added.items)[0].stock == 103
  {
    var meds := [Medicine("1", "Paracetamol", "Pain reliever and fever reducer", 599, 100,
                          "2025-12-31", "Pain Relief", "MedPharm")];
    var items := [BillItem("1", -3, 599, "Paracetamol")];
    assert Subtotal(items) == -1797 by { assert items[1..] == []; }
    assert QtyOf(items, "1") == -3 by { assert items[..0] == []; }
  }

  /** The quantity field as the `min="1"` attribute intends it: anything below 1, and NaN,
      becomes 1. */
  function ClampedQuantityInput(parsed: Option<int>): (r: int)
    ensures r >= 1
    ensures parsed.Some? && parsed.value >= 1 ==> r == parsed.value
  {
    if parsed.None? || parsed.value < 1 then 1 else parsed.value
  }

  /** With the clamped field, adding keeps every cart line positive. */
  lemma ClampedAddKeepsLinesPositive(meds: seq<Medicine>, items: seq<BillItem>, id: Id, parsed: Option<int>, price: int)
    requires PositiveLines(items)
    requires AddLine(meds, items, id, ClampedQuantityInput(parsed), price).Accepted?
    ensures PositiveLines(AddLine(meds, items, id, ClampedQuantityInput(parsed), price).items)
  {
  }

  /** With every line positive, generating the bill never raises a medicine's stock. */
  lemma PositiveSaleNeverRestocks(meds: seq<Medicine>, items: seq<BillItem>, i: nat)
    requires DistinctLines(items) && PositiveLines(items) && i < |meds|
    ensures AfterSale(meds, items)[i].stock <= meds[i].stock
  {
    AfterSaleEffect(meds, items, i);
  }

  /** `handleAddItem`: nothing happens without a selection or for an id no longer in the
      inventory; otherwise the medicine is added at its current inventory price and the
      selection and quantity are reset to '' and 1. */
  method HandleAddItem(store: Store, selected: Id, quantity: int) returns (newSelected: Id, newQuantity: int)
    requires store.Valid()
    modifies store
    ensures store.Valid()
    ensures selected == "" || FindMedicine(old(store.medicines), selected).None? ==>
      newSelected == selected && newQuantity == quantity && store.currentBill == old(store.currentBill)
    ensures selected != "" && FindMedicine(old(store.medicines), selected).Some? ==>
      && newSelected == "" && newQuantity == 1
      && store.currentBill.items ==
        match AddLine(old(store.medicines), old(store.currentBill).items, selected, quantity,
                      FindMedicine(old(store.medicines), selected).value.price)
        case Accepted(items) => items
        case Refused(_) => old(store.currentBill).items
    ensures store.medicines == old(store.medicines) && store.bills == old(store.bills)
    ensures store.currentBill.customerName == old(store.currentBill).customerName
  {
    newSelected, newQuantity := selected, quantity;
    if selected == "" {
      return;
    }
    var medicine := FindMedicine(store.medicines, selected);
    if medicine.None? {
      return;
    }
    store.AddItemToBill(selected, quantity, medicine.value.price);
    newSelected, newQuantity := "", 1;
  }

  /** `handleQuantityChange`: a new quantity below 1 is ignored, so the minus button
      never takes a line below one unit; otherwise the change goes to
      `updateBillItemQuantity`. */
  method HandleQuantityChange(store: Store, medicineId: Id, newQuantity: int)
    requires store.Valid()
    modifies store
    ensures store.Valid()
    ensures newQuantity < 1 ==> store.currentBill == old(store.currentBill)
    ensures newQuantity >= 1 ==> (store.currentBill.items ==
      match SetLineQuantity(old(store.medicines), old(store.currentBill).items, medicineId, newQuantity)
      case Accepted(items) => items
      case Refused(_) => old(store.currentBill).items)
    ensures PositiveLines(old(store.currentBill).items) ==> PositiveLines(store.currentBill.items)
    ensures store.medicines == old(store.medicines) && store.bills == old(store.bills)
    ensures store.currentBill.customerName == old(store.currentBill).customerName
  {
    if newQuantity < 1 {
      return;
    }
    store.UpdateBillItemQuantity(medicineId, newQuantity);
  }
}
