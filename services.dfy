/**
 * The service catalogue editor (src/pages/Services.tsx): the record being edited or created,
 * the rule that derives a multiplier from the chosen unit label, and the way saving, creating
 * and cancelling reset the editor.
 */
module Services {
  import opened Wrappers
  import opened Strings

  datatype EditingService = EditingService(
    id: string, name: string, price: int, category: string,
    unit: Option<string>, multiplier: Option<int>)

  const Categories: seq<string> := ["Estructural", "Carpintería", "Plomería", "Acabados", "Eléctrico", "Limpieza"]

  const Units: seq<string> := ["Unidad", "X2", "X3", "X4", "Metro", "Pie"]

  /**
   * `unit.startsWith('X') ? Number(unit.slice(1)) : 1`; a label whose tail is not a number
   * gives `NaN`, here `None`, which the store receives as null.
   */
  function MultiplierForUnit(unit: string): Option<int> {
    if StartsWith(unit, "X") then NumberOf(unit[1..]) else Some(1)
  }

  /** "X" followed by a number multiplies by that number; any label not starting with "X" by 1. */
  lemma MultiplierRule(n: nat, unit: string)
    ensures MultiplierForUnit("X" + Decimal(n)) == Some(n)
    ensures !StartsWith(unit, "X") ==> MultiplierForUnit(unit) == Some(1)
  {
    var u := "X" + Decimal(n);
    assert StartsWith(u, "X");
    assert u[1..] == Decimal(n);
    NumberOfDecimal(n);
  }

  /** A label whose first character is not "X" does not start with "X". */
  lemma NotStartingWithX(unit: string)
    requires |unit| > 0 && unit[0] != 'X'
    ensures !StartsWith(unit, "X")
  {
    assert unit[..1][0] == unit[0];
  }

  lemma OneDigitMultiplier(n: nat)
    requires n < 10
    ensures MultiplierForUnit(['X', DecimalDigit(n)]) == Some(n)
  {
    assert Decimal(n) == [DecimalDigit(n)];
    assert "X" + Decimal(n) == ['X', DecimalDigit(n)];
    MultiplierRule(n, "");
  }

  /** The labels of the unit select: 'X2', 'X3', 'X4' give 2, 3, 4 and all the others 1. */
  lemma UnitOptionMultipliers()
    ensures MultiplierForUnit("X2") == Some(2)
    ensures MultiplierForUnit("X3") == Some(3)
    ensures MultiplierForUnit("X4") == Some(4)
    ensures MultiplierForUnit("Unidad") == Some(1) && MultiplierForUnit("Metro") == Some(1)
    ensures MultiplierForUnit("Pie") == Some(1)
  {
    OneDigitMultiplier(2);
    assert ['X', DecimalDigit(2)] == "X2";
    OneDigitMultiplier(3);
    assert ['X', DecimalDigit(3)] == "X3";
    OneDigitMultiplier(4);
    assert ['X', DecimalDigit(4)] == "X4";
    NotStartingWithX("Unidad");
    NotStartingWithX("Metro");
    NotStartingWithX("Pie");
  }

  /** The multiplier is the one the unit label calls for. */
  predicate Consistent(e: EditingService) {
    e.unit.Some? ==> e.multiplier == MultiplierForUnit(e.unit.value)
  }

  /**
   * The unit select's `onChange`, the same in the create row and the edit row:
   * `prev => prev ? { ...prev, unit, multiplier } : null`.
   */
  function WithUnit(prev: Option<EditingService>, u: string): (r: Option<EditingService>)
    ensures r.None? <==> prev.None?
    ensures r.Some? ==> r.value.unit == Some(u) && r.value.multiplier == MultiplierForUnit(u)
    ensures r.Some? ==> r.value.id == prev.value.id && r.value.name == prev.value.name &&
                        r.value.price == prev.value.price && r.value.category == prev.value.category
    ensures r.Some? ==> Consistent(r.value)
  {
    match prev
    case None => None
    case Some(e) => Some(e.(unit := Some(u), multiplier := MultiplierForUnit(u)))
  }

  /** The record `startCreating` opens. */
  function NewServiceDefaults(): (r: EditingService)
    ensures r.id == "new" && r.name == "" && r.price == 0
    ensures r.category == Categories[0] && r.unit == Some(Units[0]) && r.multiplier == Some(1)
    ensures Consistent(r)
  {
    NotStartingWithX("Unidad");
    EditingService("new", "", 0, Categories[0], Some("Unidad"), Some(1))
  }

  /** The columns `handleSave` updates and `handleCreate` inserts (the update's timestamp aside). */
  datatype ServiceFields = ServiceFields(
    name: string, price: int, category: string, unit: Option<string>, multiplier: Option<int>)

  datatype ServiceWrite = Update(id: string, fields: ServiceFields) | Insert(fields: ServiceFields)

  function FieldsOf(e: EditingService): ServiceFields {
    ServiceFields(e.name, e.price, e.category, e.unit, e.multiplier)
  }

  class ServiceEditor {
    var editing: Option<EditingService>
    var isCreating: bool
    var isSaving: bool

    constructor ()
      ensures editing.None? && !isCreating && !isSaving
    {
      editing := None;
      isCreating := false;
      isSaving := false;
    }

    /** `disabled={isCreating}` on the "new service" button. */
    predicate CanStartCreating()
      reads this
    {
      !isCreating
    }

    /** `handleEdit`: the pencil of a row opens that service for editing. */
    method HandleEdit(service: EditingService)
      modifies this`editing
      ensures editing == Some(service)
    {
      editing := Some(service);
    }

    /** `handleCancel`: nothing is edited and nothing is being created. */
    method HandleCancel()
      modifies this`editing, this`isCreating
      ensures editing.None? && !isCreating
      ensures CanStartCreating()
    {
      editing := None;
      isCreating := false;
    }

    /** `startCreating`: the create row opens on the defaults. */
    method StartCreating()
      modifies this`editing, this`isCreating
      ensures isCreating && editing == Some(NewServiceDefaults())
      ensures Consistent(editing.value)
      ensures !CanStartCreating()
    {
      isCreating := true;
      editing := Some(NewServiceDefaults());
    }

    /** Choosing a unit in either row. */
    method ChooseUnit(u: string)
      modifies this`editing
      ensures editing == WithUnit(old(editing), u)
    {
      editing := WithUnit(editing, u);
    }

    /**
     * `handleSave`: with nothing being edited, nothing happens; otherwise the update is sent
     * and, whatever its outcome, the editor ends closed and not saving. The creating flag is
     * left as it was.
     */
    method HandleSave() returns (request: Option<ServiceWrite>)
      modifies this
      ensures old(editing).None? ==> request.None? && unchanged(this)
      ensures old(editing).Some? ==>
                request == Some(Update(old(editing).value.id, FieldsOf(old(editing).value))) &&
                editing.None? && !isSaving && isCreating == old(isCreating)
      ensures CanStartCreating() == old(CanStartCreating())
    {
      if editing.None? {
        return None;
      }
      isSaving := true;
      request := Some(Update(editing.value.id, FieldsOf(editing.value)));
      isSaving := false;
      editing := None;
    }

    /**
     * `handleCreate`: with nothing being edited, nothing happens; otherwise the insert is sent
     * and, whatever its outcome, the editor ends closed, not creating and not saving.
     */
    method HandleCreate() returns (request: Option<ServiceWrite>)
      modifies this
      ensures old(editing).None? ==> request.None? && unchanged(this)
      ensures old(editing).Some? ==>
                request == Some(Insert(FieldsOf(old(editing).value))) &&
                editing.None? && !isCreating && !isSaving
      ensures old(editing).Some? ==> CanStartCreating()
    {
      if editing.None? {
        return None;
      }
      isSaving := true;
      request := Some(Insert(FieldsOf(editing.value)));
      isSaving := false;
      editing := None;
      isCreating := false;
    }
  }
}
