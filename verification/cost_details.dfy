/**
 * The cost-details page: two forms (a quick entry and a detailed trip
 * entry) whose "add" buttons append a validated copy of the form to a
 * ledger and clear the form, and the total-spent figure folded over the
 * ledger.
 */
module CostDetails {
  import opened Common
  import opened Sums

  /** The quick-entry form: a date, a cost type, an amount and free notes. */
  datatype QuickForm = QuickForm(date: string, kind: string, amount: Input, notes: string)

  /** The detailed-entry form of one trip. */
  datatype DetailedForm = DetailedForm(
    tripName: string, start: string, end: string,
    distance: Input, fuelCost: Input, maintenance: Input, others: Input)

  /**
   * One ledger entry: a copy of the form it was added from, its id, and for
   * a detailed entry the total computed when it was added. The category
   * label is the constructor (see `Category`).
   */
  datatype CostEntry =
    | QuickCost(id: int, quick: QuickForm)
    | DetailedCost(id: int, detailed: DetailedForm, total: real)

  /** The `category` label the page stores on an entry. */
  function Category(e: CostEntry): (r: string)
    ensures r == "Quick" <==> e.QuickCost?
    ensures r == "Detailed" <==> e.DetailedCost?
  {
    match e
    case QuickCost(_, _) => "Quick"
    case DetailedCost(_, _, _) => "Detailed"
  }

  /** The quick form as the page opens it and resets it to. */
  function BlankQuick(): QuickForm {
    QuickForm("", "", Blank, "")
  }

  /** The detailed form as the page opens it and resets it to. */
  function BlankDetailed(): DetailedForm {
    DetailedForm("", "", "", Blank, Blank, Blank, Blank)
  }

  /** A change event on the quick form. */
  datatype QuickEdit =
    | SetDate(date: string)
    | SetKind(kind: string)
    | SetAmount(amount: Input)
    | SetNotes(notes: string)

  /** A change event on the detailed form. */
  datatype DetailedEdit =
    | SetTripName(tripName: string)
    | SetStart(start: string)
    | SetEnd(end: string)
    | SetDistance(distance: Input)
    | SetFuelCost(fuelCost: Input)
    | SetMaintenance(maintenance: Input)
    | SetOthers(others: Input)

  /** `{ ...quickEntry, [name]: value }` */
  function ApplyQuickEdit(f: QuickForm, edit: QuickEdit): (r: QuickForm)
    ensures edit.SetDate? ==> r.date == edit.date
    ensures edit.SetKind? ==> r.kind == edit.kind
    ensures edit.SetAmount? ==> r.amount == edit.amount
    ensures edit.SetNotes? ==> r.notes == edit.notes
    ensures !edit.SetDate? ==> r.date == f.date
    ensures !edit.SetKind? ==> r.kind == f.kind
    ensures !edit.SetAmount? ==> r.amount == f.amount
    ensures !edit.SetNotes? ==> r.notes == f.notes
  {
    match edit
    case SetDate(x) => f.(date := x)
    case SetKind(x) => f.(kind := x)
    case SetAmount(x) => f.(amount := x)
    case SetNotes(x) => f.(notes := x)
  }

  /** `{ ...detailedEntry, [name]: value }` */
  function ApplyDetailedEdit(f: DetailedForm, edit: DetailedEdit): (r: DetailedForm)
    ensures edit.SetTripName? ==> r.tripName == edit.tripName
    ensures edit.SetStart? ==> r.start == edit.start
    ensures edit.SetEnd? ==> r.end == edit.end
    ensures edit.SetDistance? ==> r.distance == edit.distance
    ensures edit.SetFuelCost? ==> r.fuelCost == edit.fuelCost
    ensures edit.SetMaintenance? ==> r.maintenance == edit.maintenance
    ensures edit.SetOthers? ==> r.others == edit.others
    ensures !edit.SetTripName? ==> r.tripName == f.tripName
    ensures !edit.SetStart? ==> r.start == f.start
    ensures !edit.SetEnd? ==> r.end == f.end
    ensures !edit.SetDistance? ==> r.distance == f.distance
    ensures !edit.SetFuelCost? ==> r.fuelCost == f.fuelCost
    ensures !edit.SetMaintenance? ==> r.maintenance == f.maintenance
    ensures !edit.SetOthers? ==> r.others == f.others
  {
    match edit
    case SetTripName(x) => f.(tripName := x)
    case SetStart(x) => f.(start := x)
    case SetEnd(x) => f.(end := x)
    case SetDistance(x) => f.(distance := x)
    case SetFuelCost(x) => f.(fuelCost := x)
    case SetMaintenance(x) => f.(maintenance := x)
    case SetOthers(x) => f.(others := x)
  }

  /** A quick entry may be added when its type and its amount are both filled in ("0" is filled in). */
  predicate QuickAddable(f: QuickForm) {
    f.kind != "" && Filled(f.amount)
  }

  /** The detailed total: fuel cost plus maintenance plus other costs, blanks reading as 0. */
  function DetailedTotal(f: DetailedForm): (r: real)
    ensures f.fuelCost == Blank && f.maintenance == Blank && f.others == Blank ==> r == 0.0
    ensures (Num(f.fuelCost) >= 0.0 && Num(f.maintenance) >= 0.0 && Num(f.others) >= 0.0) ==>
      r >= Num(f.fuelCost) && r >= Num(f.maintenance) && r >= Num(f.others)
  {
    Num(f.fuelCost) + Num(f.maintenance) + Num(f.others)
  }

  /** A detailed entry may be added when it has a trip name and a non-zero total. */
  predicate DetailedAddable(f: DetailedForm) {
    f.tripName != "" && DetailedTotal(f) != 0.0
  }

  /**
   * One entry's term of `totalSpent`, following the source's chain of
   * falsy fallbacks: the entry's amount when that reads as a non-zero
   * number, else its stored total when that is non-zero, else 0. A
   * detailed entry carries no amount at all (reading it gives no number),
   * and a quick entry carries no total.
   */
  function Spent(e: CostEntry): real {
    var amount: Option<real> := if e.QuickCost? then Some(Num(e.quick.amount)) else None;
    var total: Option<real> := if e.DetailedCost? then Some(e.total) else None;
    if amount.Some? && amount.value != 0.0 then amount.value
    else if total.Some? && total.value != 0.0 then total.value
    else 0.0
  }

  /** `totalSpent`: the ledger's terms summed. */
  function TotalSpent(entries: seq<CostEntry>): real {
    SumOf(entries, Spent)
  }

  /**
   * What the fallback chain comes to: a quick entry spends its amount and
   * a detailed entry its total.
   */
  lemma SpentIsAmountOrTotal(e: CostEntry)
    ensures e.QuickCost? ==> Spent(e) == Num(e.quick.amount)
    ensures e.DetailedCost? ==> Spent(e) == e.total
  {
  }

  /**
   * Every entry in the ledger was validated and, when detailed, carries the
   * total of its own form: what the add handlers guarantee of what they append.
   */
  ghost predicate WellFormedEntry(e: CostEntry) {
    match e
    case QuickCost(_, f) => QuickAddable(f)
    case DetailedCost(_, f, t) => DetailedAddable(f) && t == DetailedTotal(f)
  }

  ghost predicate WellFormedLedger(entries: seq<CostEntry>) {
    forall i :: 0 <= i < |entries| ==> WellFormedEntry(entries[i])
  }

  /** In a well-formed ledger every detailed entry adds a non-zero amount to the total spent. */
  lemma DetailedEntrySpendsItsTotal(entries: seq<CostEntry>, i: int)
    requires WellFormedLedger(entries)
    requires 0 <= i < |entries| && entries[i].DetailedCost?
    ensures Spent(entries[i]) == DetailedTotal(entries[i].detailed) != 0.0
  {
    assert WellFormedEntry(entries[i]);
  }

  /** Adding an entry to the ledger raises the total spent by exactly that entry's term. */
  lemma TotalSpentAppend(entries: seq<CostEntry>, e: CostEntry)
    ensures TotalSpent(entries + [e]) == TotalSpent(entries) + Spent(e)
  {
    SumOfAppend(entries, e, Spent);
  }

  /** The events the page reacts to. */
  datatype PageEvent =
    | QuickChange(qedit: QuickEdit)
    | DetailedChange(dedit: DetailedEdit)
    | QuickAdd(qid: int)
    | DetailedAdd(did: int)

  /** The page's state as a value: the quick form, the detailed form and the ledger. */
  datatype PageState = PageState(quick: QuickForm, detailed: DetailedForm, entries: seq<CostEntry>)

  /** One event applied to the state, exactly as the page's methods do it. */
  function Step(s: PageState, ev: PageEvent): (r: PageState)
    ensures |r.entries| == |s.entries| || |r.entries| == |s.entries| + 1
    ensures r.entries[..|s.entries|] == s.entries
  {
    match ev
    case QuickChange(edit) => s.(quick := ApplyQuickEdit(s.quick, edit))
    case DetailedChange(edit) => s.(detailed := ApplyDetailedEdit(s.detailed, edit))
    case QuickAdd(id) =>
      if QuickAddable(s.quick) then PageState(BlankQuick(), s.detailed, s.entries + [QuickCost(id, s.quick)])
      else s
    case DetailedAdd(id) =>
      if DetailedAddable(s.detailed)
      then PageState(s.quick, BlankDetailed(), s.entries + [DetailedCost(id, s.detailed, DetailedTotal(s.detailed))])
      else s
  }

  /** Whether an event, applied to a state, appends an entry. */
  predicate Appends(s: PageState, ev: PageEvent) {
    (ev.QuickAdd? && QuickAddable(s.quick)) || (ev.DetailedAdd? && DetailedAddable(s.detailed))
  }

  /** The state after a run of events. */
  function Run(s: PageState, evs: seq<PageEvent>): PageState
    decreases |evs|
  {
    if evs == [] then s else Run(Step(s, evs[0]), evs[1..])
  }

  /** How many of a run's events append an entry. */
  function Appended(s: PageState, evs: seq<PageEvent>): nat
    decreases |evs|
  {
    if evs == [] then 0
    else (if Appends(s, evs[0]) then 1 else 0) + Appended(Step(s, evs[0]), evs[1..])
  }

  /**
   * No run of events removes or changes an entry already in the ledger,
   * and the ledger grows by exactly one entry per add that passed its guard.
   */
  lemma {:induction false} LedgerOnlyGrows(s: PageState, evs: seq<PageEvent>)
    ensures |Run(s, evs).entries| == |s.entries| + Appended(s, evs)
    ensures Run(s, evs).entries[..|s.entries|] == s.entries
    decreases |evs|
  {
    if evs != [] {
      var t := Step(s, evs[0]);
      assert |t.entries| == |s.entries| + (if Appends(s, evs[0]) then 1 else 0);
      LedgerOnlyGrows(t, evs[1..]);
      var u := Run(t, evs[1..]).entries;
      assert u[..|s.entries|] == u[..|t.entries|][..|s.entries|];
    }
  }

  /** The state of the page: the two forms and the ledger. */
  class CostDetailsPage {
    var quickEntry: QuickForm
    var detailedEntry: DetailedForm
    var entries: seq<CostEntry>

    /** Every entry of the ledger is well formed. */
    ghost predicate Valid()
      reads this
    {
      WellFormedLedger(entries)
    }

    /** Both forms blank, the ledger empty. */
    constructor ()
      ensures quickEntry == BlankQuick() && detailedEntry == BlankDetailed() && entries == []
      ensures Valid()
    {
      quickEntry := BlankQuick();
      detailedEntry := BlankDetailed();
      entries := [];
    }

    /** The page's state as a value. */
    function State(): PageState
      reads this
    {
      PageState(quickEntry, detailedEntry, entries)
    }

    /** The total-spent figure of the page. */
    function Total(): real
      reads this
    {
      TotalSpent(entries)
    }

    /** `handleQuickChange`: one field of the quick form; nothing else changes. */
    method HandleQuickChange(edit: QuickEdit)
      modifies this
      ensures State() == Step(old(State()), QuickChange(edit))
      ensures quickEntry == ApplyQuickEdit(old(quickEntry), edit)
      ensures detailedEntry == old(detailedEntry) && entries == old(entries)
    {
      quickEntry := ApplyQuickEdit(quickEntry, edit);
    }

    /** `handleDetailedChange`: one field of the detailed form; nothing else changes. */
    method HandleDetailedChange(edit: DetailedEdit)
      modifies this
      ensures State() == Step(old(State()), DetailedChange(edit))
      ensures detailedEntry == ApplyDetailedEdit(old(detailedEntry), edit)
      ensures quickEntry == old(quickEntry) && entries == old(entries)
    {
      detailedEntry := ApplyDetailedEdit(detailedEntry, edit);
    }

    /**
     * `handleQuickAdd`: when the quick form is addable, append it as a
     * "Quick" entry with the given id and clear the form, raising the total
     * by its amount; otherwise change nothing.
     */
    method HandleQuickAdd(id: int)
      requires Valid()
      modifies this
      ensures Valid()
      ensures State() == Step(old(State()), QuickAdd(id))
      ensures detailedEntry == old(detailedEntry)
      ensures !QuickAddable(old(quickEntry)) ==>
        quickEntry == old(quickEntry) && entries == old(entries)
      ensures QuickAddable(old(quickEntry)) ==>
        entries == old(entries) + [QuickCost(id, old(quickEntry))] && quickEntry == BlankQuick()
      ensures Total() == old(Total()) + (if QuickAddable(old(quickEntry)) then Num(old(quickEntry).amount) else 0.0)
    {
      if !QuickAddable(quickEntry) {
        return;
      }
      var e := QuickCost(id, quickEntry);
      TotalSpentAppend(entries, e);
      SpentIsAmountOrTotal(e);
      entries := entries + [e];
      quickEntry := BlankQuick();
    }

    /**
     * `handleDetailedAdd`: compute the form's total; when the form has a
     * trip name and the total is non-zero, append it as a "Detailed" entry
     * with that total and the given id and clear the form, raising the
     * total spent by that total; otherwise change nothing.
     */
    method HandleDetailedAdd(id: int)
      requires Valid()
      modifies this
      ensures Valid()
      ensures State() == Step(old(State()), DetailedAdd(id))
      ensures quickEntry == old(quickEntry)
      ensures !DetailedAddable(old(detailedEntry)) ==>
        detailedEntry == old(detailedEntry) && entries == old(entries)
      ensures DetailedAddable(old(detailedEntry)) ==>
        entries == old(entries) + [DetailedCost(id, old(detailedEntry), DetailedTotal(old(detailedEntry)))]
        && detailedEntry == BlankDetailed()
      ensures Total() == old(Total()) + (if DetailedAddable(old(detailedEntry)) then DetailedTotal(old(detailedEntry)) else 0.0)
    {
      var total := Num(detailedEntry.fuelCost) + Num(detailedEntry.maintenance) + Num(detailedEntry.others);
      if detailedEntry.tripName == "" || total == 0.0 {
        return;
      }
      var e := DetailedCost(id, detailedEntry, total);
      TotalSpentAppend(entries, e);
      SpentIsAmountOrTotal(e);
      entries := entries + [e];
      detailedEntry := BlankDetailed();
    }
  }
}
