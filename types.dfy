/** The records of the application: a medicine in the inventory, a line of a bill
    and a bill. Money is kept in integer minor units (paise). */
module Types {

  /** An opaque identifier; fresh ones are supplied by the caller. */
  type Id = string

  datatype Medicine = Medicine(
    id: Id,
    name: string,
    description: string,
    price: int,
    stock: int,
    expiryDate: string,
    category: string,
    manufacturer: string)

  /** One line of a bill: the price and the name are snapshots taken when the line was added. */
  datatype BillItem = BillItem(medicineId: Id, quantity: int, price: int, medicineName: string)

  datatype Bill = Bill(
    id: Id,
    customerName: string,
    date: string,
    items: seq<BillItem>,
    totalAmount: int,
    paid: bool)

  /** `item.price * item.quantity` */
  function LineAmount(l: BillItem): int { l.price * l.quantity }

  /** `medicine.price * medicine.stock` */
  function StockValue(m: Medicine): int { m.price * m.stock }

  function BillAmount(b: Bill): int { b.totalAmount }

  predicate IsPaid(b: Bill) { b.paid }

  predicate IsUnpaid(b: Bill) { !b.paid }
}
