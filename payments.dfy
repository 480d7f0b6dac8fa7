/**
 * The payment screen (src/pages/Payments.tsx): the list of projects still to be paid narrowed
 * by a search text, the amount prefilled when a project is picked, and the form that records a
 * payment and resets itself once the store has accepted it.
 */
module Payments {
  import opened Wrappers
  import opened Types
  import opened Lists
  import opened Strings

  /**
   * The search text, lowered, occurs in the lowered unit number or in the lowered property
   * name; a project without a property can match only through its unit number.
   */
  predicate MatchesSearch(q: ProjectRow, search: string) {
    Includes(Lower(q.unitNumber), Lower(search)) ||
    (q.propertyName.Some? && Includes(Lower(q.propertyName.value), Lower(search)))
  }

  /** The test `filteredProjects` applies to each project. */
  function Listed(search: string): ProjectRow -> bool {
    (q: ProjectRow) => q.status != Paid && MatchesSearch(q, search)
  }

  /** `filteredProjects`: nothing before the projects arrive, then the listed ones in order. */
  function FilteredProjects(projects: Option<seq<ProjectRow>>, search: string): seq<ProjectRow> {
    if projects.None? then [] else Filter(projects.value, Listed(search))
  }

  /**
   * A project is listed exactly when it is one of the fetched projects, its status is not
   * 'paid' and the search matches its unit number or property name.
   */
  lemma FilteredProjectsSpec(projects: Option<seq<ProjectRow>>, search: string)
    ensures projects.None? ==> FilteredProjects(projects, search) == []
    ensures forall i :: 0 <= i < |FilteredProjects(projects, search)| ==>
              var q := FilteredProjects(projects, search)[i];
              q in projects.value && q.status != Paid &&
              (Includes(Lower(q.unitNumber), Lower(search)) ||
               (q.propertyName.Some? && Includes(Lower(q.propertyName.value), Lower(search))))
    ensures projects.Some? ==>
              forall i :: 0 <= i < |projects.value| && projects.value[i].status != Paid &&
                          MatchesSearch(projects.value[i], search) ==>
                            projects.value[i] in FilteredProjects(projects, search)
  {
  }

  /** The list keeps the relative order of the projects. */
  lemma FilteredProjectsOrder(a: seq<ProjectRow>, b: seq<ProjectRow>, search: string)
    ensures FilteredProjects(Some(a + b), search) == FilteredProjects(Some(a), search) + FilteredProjects(Some(b), search)
  {
    FilterConcat(a, b, Listed(search));
  }

  predicate NotPaid(q: ProjectRow) { q.status != Paid }

  /** An empty search lists every project that is not paid. */
  lemma EmptySearchListsAllUnpaid(ps: seq<ProjectRow>)
    ensures FilteredProjects(Some(ps), "") == Filter(ps, NotPaid)
  {
    assert Lower("") == "";
    forall i | 0 <= i < |ps| ensures Listed("")(ps[i]) == NotPaid(ps[i]) {
      IncludesEmpty(Lower(ps[i].unitNumber));
    }
    FilterEquivalent(ps, Listed(""), NotPaid);
  }

  /** The search ignores the case of ASCII letters. */
  lemma SearchIgnoresCase(projects: Option<seq<ProjectRow>>, search: string)
    ensures FilteredProjects(projects, search) == FilteredProjects(projects, Lower(search))
  {
    LowerIdempotent(search);
    if projects.Some? {
      FilterEquivalent(projects.value, Listed(search), Listed(Lower(search)));
    }
  }

  // ---------------------------------------------------------------- the prefilled amount

  /** `item.paid_amount || 0`. */
  function PaidOf(it: ItemRow): int {
    it.paidAmount.GetOr(0)
  }

  /**
   * `project.total - items?.reduce((sum, item) => sum + (item.paid_amount || 0), 0) || 0`:
   * what is still owed, the total less what the items record as paid; with no items the
   * subtraction gives NaN and the `|| 0` turns it into 0.
   */
  function Prefill(p: ProjectRow): (r: int)
    ensures p.items.None? ==> r == 0
    ensures p.items.Some? ==> r + Sum(p.items.value, PaidOf) == p.total
  {
    if p.items.None? then 0 else p.total - Sum(p.items.value, PaidOf)
  }

  /** Nothing recorded as paid: the whole total is prefilled. */
  lemma {:induction false} PrefillWhenNothingPaid(p: ProjectRow)
    requires p.items.Some?
    requires forall i :: 0 <= i < |p.items.value| ==> p.items.value[i].paidAmount.GetOr(0) == 0
    ensures Prefill(p) == p.total
  {
    NothingPaidSumsToZero(p.items.value);
  }

  lemma {:induction false} NothingPaidSumsToZero(items: seq<ItemRow>)
    requires forall i :: 0 <= i < |items| ==> items[i].paidAmount.GetOr(0) == 0
    ensures Sum(items, PaidOf) == 0
  {
    if items != [] {
      NothingPaidSumsToZero(items[1..]);
    }
  }

  /** Each further line's paid amount comes off the prefilled amount. */
  lemma PrefillAfterMoreItems(p: ProjectRow, more: seq<ItemRow>)
    requires p.items.Some?
    ensures Prefill(p.(items := Some(p.items.value + more))) == Prefill(p) - Sum(more, PaidOf)
  {
    SumConcat(p.items.value, more, PaidOf);
  }

  // ---------------------------------------------------------------- the form

  /** The options of the payment-method select. */
  datatype PaymentMethod = Cash | Check | Transfer | CreditCard

  /** The row `handlePayment` inserts into `payments`. */
  datatype PaymentInsert = PaymentInsert(
    projectId: string, amount: int, paymentMethod: PaymentMethod,
    referenceNumber: Option<string>, notes: Option<string>)

  /** `s || null`: an empty text is stored as null, any other text as itself. */
  function OrNull(s: string): (r: Option<string>)
    ensures r.None? <==> s == ""
    ensures r.Some? ==> r.value == s
  {
    if s == "" then None else Some(s)
  }

  /** The inserted row for a project and the form's fields. */
  function InsertFor(p: ProjectRow, amount: int, paymentMethod: PaymentMethod, reference: string, notes: string): (r: PaymentInsert)
    ensures r.projectId == p.id && r.amount == amount && r.paymentMethod == paymentMethod
    ensures r.referenceNumber.None? <==> reference == ""
    ensures r.notes.None? <==> notes == ""
    ensures r.referenceNumber.Some? ==> r.referenceNumber.value == reference
    ensures r.notes.Some? ==> r.notes.value == notes
  {
    PaymentInsert(p.id, amount, paymentMethod, OrNull(reference), OrNull(notes))
  }

  class PaymentForm {
    var search: string
    var selected: Option<ProjectRow>
    var amount: int
    var paymentMethod: PaymentMethod
    var reference: string
    var notes: string
    var isSaving: bool

    /** The initial state of the screen's `useState` hooks. */
    constructor ()
      ensures search == "" && selected.None? && amount == 0 && paymentMethod == Cash
      ensures reference == "" && notes == "" && !isSaving
    {
      search := "";
      selected := None;
      amount := 0;
      paymentMethod := Cash;
      reference := "";
      notes := "";
      isSaving := false;
    }

    /** The projects the list shows: exactly the fetched unpaid ones that match the current search. */
    function Shown(projects: Option<seq<ProjectRow>>): (r: seq<ProjectRow>)
      reads this
      ensures forall q :: q in r <==> projects.Some? && q in projects.value && Listed(search)(q)
    {
      FilteredProjects(projects, search)
    }

    /** Clicking a project selects it and prefills what it still owes. */
    method Select(p: ProjectRow)
      modifies this`selected, this`amount
      ensures selected == Some(p) && amount == Prefill(p)
    {
      selected := Some(p);
      amount := Prefill(p);
    }

    /** `!selectedProject || !paymentAmount` fails: a project is selected and the amount is not 0. */
    predicate CanSubmit()
      reads this
    {
      selected.Some? && amount != 0
    }

    /**
     * `disabled={isSaving || !paymentAmount}`: with a project selected, the button is enabled
     * exactly when `handlePayment` would pass its guard and no payment is being saved.
     */
    function ButtonEnabled(): (r: bool)
      reads this
      ensures r && selected.Some? <==> CanSubmit() && !isSaving
    {
      !isSaving && amount != 0
    }

    /**
     * `handlePayment`, with the insert's outcome as a parameter: without a project or with a
     * zero amount nothing happens; otherwise the row is sent, a success resets the form, a
     * failure keeps it, and saving ends either way.
     */
    method HandlePayment(insertSucceeds: bool) returns (request: Option<PaymentInsert>)
      modifies this
      ensures !old(CanSubmit()) ==> request.None? && unchanged(this)
      ensures old(CanSubmit()) ==>
                request == Some(InsertFor(old(selected).value, old(amount), old(paymentMethod), old(reference), old(notes)))
      ensures old(CanSubmit()) && insertSucceeds ==>
                selected.None? && amount == 0 && paymentMethod == Cash && reference == "" && notes == ""
      ensures old(CanSubmit()) && !insertSucceeds ==>
                selected == old(selected) && amount == old(amount) && paymentMethod == old(paymentMethod) &&
                reference == old(reference) && notes == old(notes)
      ensures old(CanSubmit()) ==> !isSaving
      ensures old(CanSubmit()) && insertSucceeds ==> !ButtonEnabled()
      ensures search == old(search)
    {
      if selected.None? || amount == 0 {
        return None;
      }
      isSaving := true;
      request := Some(InsertFor(selected.value, amount, paymentMethod, reference, notes));
      if insertSucceeds {
        selected := None;
        amount := 0;
        paymentMethod := Cash;
        reference := "";
        notes := "";
      }
      isSaving := false;
    }
  }
}
