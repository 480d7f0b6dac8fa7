/**
 * The quotation draft builder of the new-project screen (src/pages/Quotations.tsx): an ordered
 * list of service lines that the user appends to, removes from and fills from the service
 * catalog; a change-order count; the running total; and the project record handed to the
 * PDF renderer. The catalogs are parameters; `Date.now()` identifiers are passed in by the caller.
 */
module Quotations {
  import opened Wrappers
  import opened Types
  import opened Lists
  import opened Strings

  /** Price of one change order. */
  const ChangeOrderPrice := 10

  /** `changeOrders * 10`. */
  function ChangeOrderTotal(changeOrders: int): int {
    changeOrders * ChangeOrderPrice
  }

  function ItemAmount(item: QuotationItem): int {
    LineAmount(item.price, item.multiplier)
  }

  /** The `reduce` over the selected services. */
  function ServicesTotal(services: seq<QuotationItem>): int {
    Sum(services, ItemAmount)
  }

  /** `selectedBase?.price || 0`. */
  function BasePrice(base: Option<Base>): int {
    if base.Some? then base.value.price else 0
  }

  /** `calculateTotal`. */
  function Total(base: Option<Base>, services: seq<QuotationItem>, changeOrders: int): int {
    BasePrice(base) + ServicesTotal(services) + ChangeOrderTotal(changeOrders)
  }

  /** The line `addService` appends: a service with no name and price 0. */
  function EmptyService(id: string): QuotationItem {
    QuotationItem(id, ServiceItem, "", 0, None, None, None, None)
  }

  /** `removeService`: the list without the lines that carry `id`. */
  function WithoutItem(items: seq<QuotationItem>, id: string): seq<QuotationItem> {
    Filter(items, (s: QuotationItem) => s.id != id)
  }

  /**
   * The `map` of `updateService` once the catalog service is known: every line that carries
   * `id` takes the service's name, price and multiplier and keeps everything else.
   */
  function AssignService(items: seq<QuotationItem>, id: string, svc: Service): (r: seq<QuotationItem>)
    ensures |r| == |items|
    ensures forall i :: 0 <= i < |items| ==>
      r[i].id == items[i].id && r[i].kind == items[i].kind && r[i].quantity == items[i].quantity &&
      r[i].category == items[i].category && r[i].notes == items[i].notes
    ensures forall i :: 0 <= i < |items| && items[i].id == id ==>
      r[i].name == svc.name && r[i].price == svc.price && r[i].multiplier == svc.multiplier
    ensures forall i :: 0 <= i < |items| && items[i].id != id ==> r[i] == items[i]
  {
    seq(|items|, i requires 0 <= i < |items| =>
      if items[i].id == id then items[i].(name := svc.name, price := svc.price, multiplier := svc.multiplier)
      else items[i])
  }

  /** `updateService(id, serviceId)`: a catalog id that is not found leaves the list as it is. */
  function ChooseService(items: seq<QuotationItem>, id: string, serviceId: string, catalog: seq<Service>): (r: seq<QuotationItem>)
    ensures (forall i :: 0 <= i < |catalog| ==> catalog[i].id != serviceId) ==> r == items
    ensures forall i :: 0 <= i < |catalog| && catalog[i].id == serviceId &&
                        (forall j :: 0 <= j < i ==> catalog[j].id != serviceId) ==>
              r == AssignService(items, id, catalog[i])
  {
    match Find(catalog, (s: Service) => s.id == serviceId)
    case None => items
    case Some(svc) => AssignService(items, id, svc)
  }

  /** The line a selected base contributes to the emitted items. */
  function BaseLine(b: Base): QuotationItem {
    QuotationItem(b.id, BaseItem, b.name, b.price, None, None, None, None)
  }

  /** `quotationData.items`: the base line first, when a base is selected, then the services. */
  function EmittedItems(base: Option<Base>, services: seq<QuotationItem>): (r: seq<QuotationItem>)
    ensures base.None? ==> r == services
    ensures base.Some? ==> |r| == |services| + 1 && r[0] == BaseLine(base.value) && r[1..] == services
  {
    (if base.Some? then [BaseLine(base.value)] else []) + services
  }

  /** `parseInt(e.target.value) || 0`: the change-order count typed into the form. */
  function ChangeOrderInput(input: string): int {
    ParseInt(input).GetOr(0)
  }

  /** The catalog the screen reads its choices from. */
  datatype Catalog = Catalog(bases: seq<Base>, services: seq<Service>, properties: seq<Property>)

  function SelectedProperty(catalog: Catalog, propertyId: string): Option<Property> {
    Find(catalog.properties, (p: Property) => p.id == propertyId)
  }

  function SelectedBase(catalog: Catalog, baseId: string): Option<Base> {
    Find(catalog.bases, (b: Base) => b.id == baseId)
  }

  function SelectedUnitType(property: Option<Property>, code: string): Option<UnitType> {
    if property.None? then None else Find(property.value.units, (u: UnitType) => u.code == code)
  }

  /**
   * `quotationData`: the draft project record rendered to PDF. Its total is the sum of its own
   * lines plus the change orders, so the record is self-consistent.
   */
  function QuotationData(
    catalog: Catalog, propertyId: string, unitNumber: string, unitCode: string, baseId: string,
    services: seq<QuotationItem>, changeOrders: int, id: string, date: string): (r: Project)
    ensures r.items == EmittedItems(SelectedBase(catalog, baseId), services)
    ensures r.status == Draft && r.unitNumber == unitNumber && r.changeOrders == changeOrders
    ensures r.changeOrderTotal == ChangeOrderPrice * r.changeOrders
    ensures r.total == Sum(r.items, ItemAmount) + r.changeOrderTotal
    ensures r.total == Total(SelectedBase(catalog, baseId), services, changeOrders)
    ensures r.id == id && r.date == date
    ensures r.paymentStatus == None && r.paymentDate == None && r.notes == None
    ensures SelectedProperty(catalog, propertyId).None? ==> r.propertyName == ""
    ensures SelectedProperty(catalog, propertyId).Some? ==>
              r.propertyName == SelectedProperty(catalog, propertyId).value.name
    ensures var unit := SelectedUnitType(SelectedProperty(catalog, propertyId), unitCode);
            if unit.None? then r.unitType == "" && r.squareFeet == 0 && r.bedrooms == 0 && r.bathrooms == 0
            else r.unitType == unit.value.code && r.squareFeet == unit.value.squareFeet &&
                 r.bedrooms == unit.value.bedrooms && r.bathrooms == unit.value.bathrooms
  {
    var property := SelectedProperty(catalog, propertyId);
    var base := SelectedBase(catalog, baseId);
    var unit := SelectedUnitType(property, unitCode);
    TotalIsSumOfEmittedLines(base, services, changeOrders);
    Project(
      id,
      if property.Some? then property.value.name else "",
      unitNumber,
      if unit.Some? then unit.value.code else "",
      if unit.Some? then unit.value.squareFeet else 0,
      if unit.Some? then unit.value.bedrooms else 0,
      if unit.Some? then unit.value.bathrooms else 0,
      EmittedItems(base, services),
      changeOrders,
      ChangeOrderTotal(changeOrders),
      Total(base, services, changeOrders),
      date,
      Draft,
      None, None, None)
  }

  // ---------------------------------------------------------------- properties

  /** The total equals the sum of the emitted lines plus 10 per change order. */
  lemma TotalIsSumOfEmittedLines(base: Option<Base>, services: seq<QuotationItem>, changeOrders: int)
    ensures Total(base, services, changeOrders) ==
            Sum(EmittedItems(base, services), ItemAmount) + ChangeOrderPrice * changeOrders
  {
    var head: seq<QuotationItem> := if base.Some? then [BaseLine(base.value)] else [];
    SumConcat(head, services, ItemAmount);
    if base.Some? {
      assert Sum(head, ItemAmount) == ItemAmount(BaseLine(base.value)) + Sum(head[1..], ItemAmount);
      assert head[1..] == [];
    }
  }

  /** The worked example: base 500, services 100 X2 and 50, three change orders give 780. */
  lemma WorkedExample(b: Base, s1: QuotationItem, s2: QuotationItem)
    requires b.price == 500
    requires s1.price == 100 && s1.multiplier == Some(2)
    requires s2.price == 50 && s2.multiplier == None
    ensures Total(Some(b), [s1, s2], 3) == 780
  {
    assert [s1, s2][1..] == [s2];
    assert [s2][1..] == [];
    assert ItemAmount(s1) == 200 && ItemAmount(s2) == 50;
    assert ServicesTotal([s1, s2]) == ItemAmount(s1) + Sum([s2], ItemAmount);
    assert Sum([s2], ItemAmount) == ItemAmount(s2) + Sum([], ItemAmount);
  }

  /** `addService` adds one line worth nothing: the total is unchanged. */
  lemma {:induction false} AddServiceKeepsTotal(items: seq<QuotationItem>, id: string)
    ensures ServicesTotal(items + [EmptyService(id)]) == ServicesTotal(items)
  {
    SumConcat(items, [EmptyService(id)], ItemAmount);
    assert [EmptyService(id)][1..] == [];
  }

  /** `removeService` keeps exactly the lines with another id. */
  lemma RemoveKeepsExactlyOthers(items: seq<QuotationItem>, id: string)
    ensures forall x :: x in WithoutItem(items, id) <==> x in items && x.id != id
  {
    var r := WithoutItem(items, id);
    forall x | x in items && x.id != id ensures x in r {
      var i :| 0 <= i < |items| && items[i] == x;
    }
    forall x | x in r ensures x in items && x.id != id {
      var i :| 0 <= i < |r| && r[i] == x;
    }
  }

  /** `removeService` keeps the surviving lines in their original order. */
  lemma RemovePreservesOrder(a: seq<QuotationItem>, b: seq<QuotationItem>, id: string)
    ensures WithoutItem(a + b, id) == WithoutItem(a, id) + WithoutItem(b, id)
  {
    FilterConcat(a, b, (s: QuotationItem) => s.id != id);
  }

  /** Removing an id that no line carries leaves the list unchanged. */
  lemma RemoveUnknownIsNoOp(items: seq<QuotationItem>, id: string)
    requires forall i :: 0 <= i < |items| ==> items[i].id != id
    ensures WithoutItem(items, id) == items
  {
    FilterKeepsAll(items, (s: QuotationItem) => s.id != id);
  }

  /** Removing lines lowers the services total by exactly what those lines were worth. */
  lemma RemoveSubtractsRemovedLines(items: seq<QuotationItem>, id: string)
    ensures ServicesTotal(items) ==
            ServicesTotal(WithoutItem(items, id)) + ServicesTotal(Filter(items, (s: QuotationItem) => s.id == id))
  {
    SumSplitsByFilter(items, ItemAmount, (s: QuotationItem) => s.id != id, (s: QuotationItem) => s.id == id);
  }

  /** Assigning a second service to the same line replaces the first (the line keeps its id). */
  lemma ReassignLastWins(items: seq<QuotationItem>, id: string, a: Service, b: Service)
    ensures AssignService(AssignService(items, id, a), id, b) == AssignService(items, id, b)
  {
  }

  /**
   * Add an empty line under a fresh id and assign a service to it: the earlier lines are
   * untouched, the new line keeps its id, and the total grows by that service's line amount.
   */
  lemma {:induction false} AddThenAssign(items: seq<QuotationItem>, id: string, svc: Service)
    requires forall i :: 0 <= i < |items| ==> items[i].id != id
    ensures var r := AssignService(items + [EmptyService(id)], id, svc);
      r[..|items|] == items &&
      r[|items|] == QuotationItem(id, ServiceItem, svc.name, svc.price, None, svc.multiplier, None, None) &&
      ServicesTotal(r) == ServicesTotal(items) + LineAmount(svc.price, svc.multiplier)
  {
    var r := AssignService(items + [EmptyService(id)], id, svc);
    var last := QuotationItem(id, ServiceItem, svc.name, svc.price, None, svc.multiplier, None, None);
    assert r == items + [last];
    SumConcat(items, [last], ItemAmount);
    assert [last][1..] == [];
  }

  /** A change-order input without any digit counts as 0 change orders. */
  lemma NonNumericChangeOrdersAreZero(input: string)
    requires forall i :: 0 <= i < |input| ==> !IsDigit(input[i])
    ensures ChangeOrderInput(input) == 0
  {
    ParseIntWithoutDigits(input);
  }

  /** A count typed as digits is read as that count. */
  lemma TypedChangeOrdersAreRead(n: nat)
    ensures ChangeOrderInput(Decimal(n)) == n
    ensures ChangeOrderTotal(ChangeOrderInput(Decimal(n))) == 10 * n
  {
    ParseIntReadsDecimal(n, "");
    assert Decimal(n) + "" == Decimal(n);
  }

  // ---------------------------------------------------------------- the screen's state

  /** The builder's state fields and the operations that replace them. */
  class QuotationBuilder {
    const catalog: Catalog
    var propertyId: string
    var unitNumber: string
    var unitType: string
    var baseId: string
    var selectedServices: seq<QuotationItem>
    var changeOrders: int
    var notes: string

    constructor (catalog: Catalog)
      ensures this.catalog == catalog
      ensures propertyId == "" && unitNumber == "" && unitType == "" && baseId == ""
      ensures selectedServices == [] && changeOrders == 0 && notes == ""
    {
      this.catalog := catalog;
      propertyId, unitNumber, unitType, baseId := "", "", "", "";
      selectedServices, changeOrders, notes := [], 0, "";
    }

    /** The total shown on the screen. */
    function CalculateTotal(): int
      reads this
    {
      Total(SelectedBase(catalog, baseId), selectedServices, changeOrders)
    }

    /** `addService`, with the `Date.now()` identifier passed in. */
    method AddService(freshId: string)
      modifies this`selectedServices
      ensures selectedServices == old(selectedServices) + [EmptyService(freshId)]
      ensures CalculateTotal() == old(CalculateTotal())
    {
      AddServiceKeepsTotal(selectedServices, freshId);
      selectedServices := selectedServices + [EmptyService(freshId)];
    }

    /** `removeService`. */
    method RemoveService(id: string)
      modifies this`selectedServices
      ensures selectedServices == WithoutItem(old(selectedServices), id)
      ensures forall x :: x in selectedServices <==> x in old(selectedServices) && x.id != id
    {
      RemoveKeepsExactlyOthers(selectedServices, id);
      selectedServices := WithoutItem(selectedServices, id);
    }

    /** `updateService`, looking the service up in the catalog. */
    method UpdateService(id: string, serviceId: string)
      modifies this`selectedServices
      ensures selectedServices == ChooseService(old(selectedServices), id, serviceId, catalog.services)
      ensures |selectedServices| == |old(selectedServices)|
    {
      selectedServices := ChooseService(selectedServices, id, serviceId, catalog.services);
    }

    /** The change-order field's `onChange`. */
    method SetChangeOrders(input: string)
      modifies this`changeOrders
      ensures changeOrders == ChangeOrderInput(input)
    {
      changeOrders := ChangeOrderInput(input);
    }

    /** `quotationData`, with the `Date.now()` identifier and the date passed in. */
    function Data(id: string, date: string): (r: Project)
      reads this
      ensures r.total == CalculateTotal()
    {
      QuotationData(catalog, propertyId, unitNumber, unitType, baseId, selectedServices, changeOrders, id, date)
    }
  }
}
