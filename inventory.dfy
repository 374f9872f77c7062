/** The inventory page: the search over name, category and manufacturer, the
    low-stock highlight, and the edit dialog that works on a copy of one record. */
module Inventory {
  import opened Seqs
  import opened Text
  import opened Types
  import opened AppContext

  function Matches(term: string): Medicine -> bool
  {
    (m: Medicine) =>
      Contains(Lower(m.name), Lower(term)) || Contains(Lower(m.category), Lower(term))
      || Contains(Lower(m.manufacturer), Lower(term))
  }

  /** `filteredMedicines`: the medicines whose name, category or manufacturer contains the
      search term, ignoring case, in inventory order; an empty term keeps everything. */
  function FilteredMedicines(meds: seq<Medicine>, term: string): (r: seq<Medicine>)
    ensures forall m :: m in r <==> (m in meds &&
      (Contains(Lower(m.name), Lower(term)) || Contains(Lower(m.category), Lower(term))
       || Contains(Lower(m.manufacturer), Lower(term))))
    ensures SubsequenceOf(r, meds)
    ensures term == "" ==> r == meds
  {
    var r := Filter(meds, Matches(term));
    assert forall m :: m in meds && Matches(term)(m) ==> m in r;
    if term == "" then
      assert forall i :: 0 <= i < |meds| ==> OccursAt(Lower(meds[i].name), Lower(term), 0);
      FilterKeepsAll(meds, Matches(term));
      r
    else
      r
  }

  /** The stock cell is highlighted at ten units or fewer. */
  predicate Highlighted(m: Medicine) { m.stock <= 10 }

  /** The highlight marks exactly the medicines of the low-stock view. */
  lemma HighlightIsLowStock(meds: seq<Medicine>, i: nat)
    requires i < |meds|
    ensures Highlighted(meds[i]) <==> meds[i] in LowStockMedicines(meds)
  {
  }

  /** `handleEditClick`: editing starts from a copy of the record. */
  function EditClick(m: Medicine): Option<Medicine>
  {
    Some(m)
  }

  /** A value held by a record field: text, or a number for `price` and `stock`. */
  datatype FieldValue = Text(text: string) | Number(number: int)

  /** The record property a name stands for. */
  function FieldOf(m: Medicine, name: string): Option<FieldValue>
  {
    if name == "id" then Some(Text(m.id))
    else if name == "name" then Some(Text(m.name))
    else if name == "description" then Some(Text(m.description))
    else if name == "price" then Some(Number(m.price))
    else if name == "stock" then Some(Number(m.stock))
    else if name == "expiryDate" then Some(Text(m.expiryDate))
    else if name == "category" then Some(Text(m.category))
    else if name == "manufacturer" then Some(Text(m.manufacturer))
    else None
  }

  /** The names of the inputs of the edit dialog. */
  predicate IsEditInput(name: string)
  {
    name in {"name", "description", "price", "stock", "expiryDate", "category", "manufacturer"}
  }

  /** Every change in `edits` comes from an input of the dialog. */
  predicate FromDialog(edits: seq<(string, string, int)>)
  {
    forall k :: 0 <= k < |edits| ==> IsEditInput(edits[k].0)
  }

  /** `handleEditChange`: without a record being edited nothing happens; otherwise the
      property named by the input is set, to the parsed number for `price` and `stock`
      (`number`, the result of `parseFloat`) and to the text for the others. */
  function EditChange(editing: Option<Medicine>, name: string, value: string, number: int): (r: Option<Medicine>)
    ensures r.Some? <==> editing.Some?
    ensures r.Some? && IsEditInput(name) ==> r.value.id == editing.value.id
  {
    if editing.None? then None
    else
      var m := editing.value;
      Some(if name == "id" then m.(id := value)
           else if name == "name" then m.(name := value)
           else if name == "description" then m.(description := value)
           else if name == "price" then m.(price := number)
           else if name == "stock" then m.(stock := number)
           else if name == "expiryDate" then m.(expiryDate := value)
           else if name == "category" then m.(category := value)
           else if name == "manufacturer" then m.(manufacturer := value)
           else m)
  }

  /** A change sets only the property it names, as a number exactly for `price` and
      `stock`; an input of the dialog never changes the id. */
  lemma EditChangeFrame(m: Medicine, name: string, value: string, number: int, other: string)
    ensures var r := EditChange(Some(m), name, value, number).value;
      && (other != name ==> FieldOf(r, other) == FieldOf(m, other))
      && (FieldOf(m, name).Some? ==>
            FieldOf(r, name) == if name == "price" || name == "stock" then Some(Number(number)) else Some(Text(value)))
      && (FieldOf(m, name).None? ==> r == m)
      && (IsEditInput(name) ==> r.id == m.id)
  {
  }

  /** `handleEditSubmit`: the edited copy goes to `updateMedicine` and editing ends. */
  method EditSubmit(store: Store, editing: Option<Medicine>) returns (stillEditing: Option<Medicine>)
    requires store.Valid()
    modifies store
    ensures store.Valid()
    ensures stillEditing.None?
    ensures editing.Some? ==> store.medicines == ReplaceById(old(store.medicines), editing.value)
    ensures editing.None? ==> store.medicines == old(store.medicines)
    ensures store.bills == old(store.bills) && store.currentBill == old(store.currentBill)
  {
    if editing.Some? {
      store.UpdateMedicine(editing.value);
    }
    stillEditing := None;
  }

  /** Applying the dialog's inputs to a copy of a record and writing it back. */
  function ApplyEdits(editing: Option<Medicine>, edits: seq<(string, string, int)>): (r: Option<Medicine>)
    ensures r.Some? <==> editing.Some?
  {
    if edits == [] then editing
    else
      var e := edits[|edits| - 1];
      EditChange(ApplyEdits(editing, edits[..|edits| - 1]), e.0, e.1, e.2)
  }

  /** Any sequence of dialog inputs keeps the record's id. */
  lemma {:induction false} ApplyEditsKeepsId(m: Medicine, edits: seq<(string, string, int)>)
    requires FromDialog(edits)
    ensures ApplyEdits(Some(m), edits).Some? && ApplyEdits(Some(m), edits).value.id == m.id
  {
    if edits != [] {
      assert FromDialog(edits[..|edits| - 1]);
      ApplyEditsKeepsId(m, edits[..|edits| - 1]);
      var e := edits[|edits| - 1];
      EditChangeFrame(ApplyEdits(Some(m), edits[..|edits| - 1]).value, e.0, e.1, e.2, "id");
    }
  }

  /** Clicking edit on a record, changing it through the dialog and submitting replaces that
      record in place and nothing else; submitting without changes leaves the inventory as
      it was. */
  lemma EditRoundTrip(meds: seq<Medicine>, i: nat, edits: seq<(string, string, int)>, edited: Medicine)
    requires DistinctIds(meds) && i < |meds|
    requires FromDialog(edits)
    requires ApplyEdits(EditClick(meds[i]), edits) == Some(edited)
    ensures ReplaceById(meds, edited)[i] == edited
    ensures forall j :: 0 <= j < |meds| && j != i ==> ReplaceById(meds, edited)[j] == meds[j]
    ensures edits == [] ==> ReplaceById(meds, edited) == meds
  {
    ApplyEditsKeepsId(meds[i], edits);
    ReplaceByIdSame(meds, i);
  }
}
