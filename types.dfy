/**
 * The records the screens work on. The first group follows the application's own type
 * declarations (src/types/index.ts); `ProjectRow` and `ItemRow` are the shape in which the
 * dashboard and the payment screen receive projects from the store (a project with its
 * property's name, its line items and their paid amounts joined in). Money is an integer.
 */
module Types {
  import opened Wrappers

  datatype Base = Base(id: string, name: string, price: int, isActive: bool)

  datatype Service = Service(
    id: string, name: string, price: int, category: string,
    unit: Option<string>, multiplier: Option<int>)

  datatype UnitType = UnitType(
    id: string, code: string, basePrice: int, squareFeet: int,
    bedrooms: int, bathrooms: int, hasBalcony: bool, hasCurtains: bool)

  datatype Property = Property(
    id: string, name: string, address: string, units: seq<UnitType>,
    additionalInfo: Option<string>)

  /** The `type` tag of a line item: 'base' | 'service' | 'changeOrder'. */
  datatype ItemKind = BaseItem | ServiceItem | ChangeOrderItem

  datatype QuotationItem = QuotationItem(
    id: string, kind: ItemKind, name: string, price: int,
    quantity: Option<int>, multiplier: Option<int>,
    category: Option<string>, notes: Option<string>)

  datatype ProjectStatus = Draft | Sent | Approved | Invoiced | Paid | Cancelled

  datatype PaymentStatus = Pending | Partial | FullyPaid

  datatype Project = Project(
    id: string, propertyName: string, unitNumber: string, unitType: string,
    squareFeet: int, bedrooms: int, bathrooms: int,
    items: seq<QuotationItem>, changeOrders: int, changeOrderTotal: int, total: int,
    date: string, status: ProjectStatus,
    paymentStatus: Option<PaymentStatus>, paymentDate: Option<string>, notes: Option<string>)

  /** A stored line item as the store returns it. */
  datatype ItemRow = ItemRow(
    kind: ItemKind, name: string, price: int, multiplier: Option<int>, paidAmount: Option<int>)

  /** A stored project as the store returns it, with the joined property name and items. */
  datatype ProjectRow = ProjectRow(
    id: string, propertyName: Option<string>, unitNumber: string, total: int,
    status: ProjectStatus, paymentStatus: Option<PaymentStatus>, items: Option<seq<ItemRow>>)

  /**
   * `multiplier || 1`: a missing multiplier and a multiplier of 0 both count as 1.
   */
  function EffectiveMultiplier(m: Option<int>): (r: int)
    ensures r != 0
    ensures m.Some? && m.value != 0 ==> r == m.value
    ensures m.None? || m.value == 0 ==> r == 1
  {
    match m
    case Some(k) => if k == 0 then 1 else k
    case None => 1
  }

  /** What one line contributes to a total: `price * (multiplier || 1)`. */
  function LineAmount(price: int, multiplier: Option<int>): int {
    price * EffectiveMultiplier(multiplier)
  }
}
