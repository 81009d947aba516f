/**
 * The server's expense records and the four request handlers over them:
 * list the requester's records, create one from a request body, merge a
 * patch into one the requester owns, and delete one the requester owns.
 * The database is a map from record id to record.
 */
module Expenses {
  import opened Common

  /** Record ids and user ids. */
  type Id = int

  /** A stored expense record; `date` is a timestamp in milliseconds. */
  datatype Expense = Expense(
    id: Id, user: Id, vehicle: Option<Id>, title: string, amount: real, date: int,
    distance: real, extraExpenses: real, otherExpenses: real)

  /**
   * The body of a create request. An absent field is `None`; `amount` is
   * also `None` when it is null.
   */
  datatype ExpenseBody = ExpenseBody(
    title: Option<string>, amount: Option<real>, vehicle: Option<Id>, date: Option<int>,
    distance: Option<real>, extraExpenses: Option<real>, otherExpenses: Option<real>)

  /**
   * The body of an update request: the fields it carries. Any stored field
   * but the id may be carried, the owner included.
   */
  datatype ExpensePatch = ExpensePatch(
    user: Option<Id>, vehicle: Option<Option<Id>>, title: Option<string>, amount: Option<real>,
    date: Option<int>, distance: Option<real>, extraExpenses: Option<real>, otherExpenses: Option<real>)

  /** What a handler sends back. */
  datatype Body = Message(text: string) | One(record: Expense) | Listing(records: map<Id, Expense>)

  datatype Response = Response(status: int, body: Body)

  const OK := 200
  const CREATED := 201
  const BAD_REQUEST := 400
  const NOT_FOUND := 404
  const SERVER_ERROR := 500

  const MISSING_FIELDS := "Title (Platform) and amount (Fare) are required"
  const NOT_FOUND_OR_UNAUTHORIZED := "Expense not found or unauthorized"
  const UPDATE_FAILED := "Failed to update expense"
  const DELETED := "Expense deleted"

  /** JavaScript truthiness of an optional text field: absent and empty are falsy. */
  predicate Truthy(s: Option<string>) {
    s.Some? && s.value != ""
  }

  /** A create request passes when its title is truthy and its amount is present (0 included). */
  predicate ValidBody(b: ExpenseBody) {
    Truthy(b.title) && b.amount.Some?
  }

  /** `x || 0` on an optional number: absent and 0 both give 0. */
  function OrZero(x: Option<real>): (r: real)
    ensures x.None? ==> r == 0.0
    ensures x.Some? ==> r == x.value
  {
    if x.Some? && x.value != 0.0 then x.value else 0.0
  }

  /** `date || Date.now()`: the given timestamp when truthy, else the current time. */
  function DateOr(date: Option<int>, now: int): (r: int)
    ensures date.Some? && date.value != 0 ==> r == date.value
    ensures date.None? || date.value == 0 ==> r == now
  {
    if date.Some? && date.value != 0 then date.value else now
  }

  /**
   * The record a valid create request makes: the body's title, amount and
   * vehicle, the date or now, the requester as owner, and the three extra
   * figures or 0.
   */
  function CreateRecord(id: Id, requester: Id, b: ExpenseBody, now: int): (e: Expense)
    requires ValidBody(b)
    ensures e.id == id && e.user == requester
    ensures e.title == b.title.value && e.title != "" && e.amount == b.amount.value
    ensures e.vehicle == b.vehicle
    ensures e.date == DateOr(b.date, now)
    ensures b.date.Some? && b.date.value != 0 ==> e.date == b.date.value
    ensures b.date.None? || b.date.value == 0 ==> e.date == now
    ensures e.distance == b.distance.GetOr(0.0)
    ensures e.extraExpenses == b.extraExpenses.GetOr(0.0)
    ensures e.otherExpenses == b.otherExpenses.GetOr(0.0)
  {
    Expense(id, requester, b.vehicle, b.title.value, b.amount.value, DateOr(b.date, now),
            OrZero(b.distance), OrZero(b.extraExpenses), OrZero(b.otherExpenses))
  }

  /** `Object.assign(expense, patch)`: every field the patch carries overwrites, the rest stay. */
  function Merge(e: Expense, p: ExpensePatch): (r: Expense)
    ensures r.id == e.id
    ensures r.user == p.user.GetOr(e.user)
    ensures r.vehicle == p.vehicle.GetOr(e.vehicle)
    ensures r.title == p.title.GetOr(e.title)
    ensures r.amount == p.amount.GetOr(e.amount)
    ensures r.date == p.date.GetOr(e.date)
    ensures r.distance == p.distance.GetOr(e.distance)
    ensures r.extraExpenses == p.extraExpenses.GetOr(e.extraExpenses)
    ensures r.otherExpenses == p.otherExpenses.GetOr(e.otherExpenses)
  {
    var e1 := if p.user.Some? then e.(user := p.user.value) else e;
    var e2 := if p.vehicle.Some? then e1.(vehicle := p.vehicle.value) else e1;
    var e3 := if p.title.Some? then e2.(title := p.title.value) else e2;
    var e4 := if p.amount.Some? then e3.(amount := p.amount.value) else e3;
    var e5 := if p.date.Some? then e4.(date := p.date.value) else e4;
    var e6 := if p.distance.Some? then e5.(distance := p.distance.value) else e5;
    var e7 := if p.extraExpenses.Some? then e6.(extraExpenses := p.extraExpenses.value) else e6;
    if p.otherExpenses.Some? then e7.(otherExpenses := p.otherExpenses.value) else e7
  }

  /** The patch that carries nothing. */
  function EmptyPatch(): ExpensePatch {
    ExpensePatch(None, None, None, None, None, None, None, None)
  }

  /** A patch carrying nothing changes nothing. */
  lemma MergeEmpty(e: Expense)
    ensures Merge(e, EmptyPatch()) == e
  {
  }

  /** Sending the same update twice has the effect of sending it once. */
  lemma MergeIdempotent(e: Expense, p: ExpensePatch)
    ensures Merge(Merge(e, p), p) == Merge(e, p)
  {
  }

  /** The saved document must still have a title (the schema requires one; the empty text fails). */
  predicate Saveable(e: Expense) {
    e.title != ""
  }

  /** The records owned by `user`: `find({ user })`. */
  function OwnedBy(records: map<Id, Expense>, user: Id): (r: map<Id, Expense>)
    ensures forall k :: k in r <==> k in records && records[k].user == user
    ensures forall k :: k in r ==> r[k] == records[k]
  {
    map k | k in records && records[k].user == user :: records[k]
  }

  /** Whether `requester` may change record `id`: it exists and they own it. */
  predicate MayChange(records: map<Id, Expense>, requester: Id, id: Id) {
    id in records && records[id].user == requester
  }

  /**
   * Removing one of a user's records leaves every other user's listing as
   * it was, and takes exactly that record out of the owner's listing.
   */
  lemma DeleteOnlyTouchesOwner(records: map<Id, Expense>, owner: Id, id: Id, other: Id)
    requires MayChange(records, owner, id) && other != owner
    ensures OwnedBy(records - {id}, other) == OwnedBy(records, other)
    ensures OwnedBy(records - {id}, owner) == OwnedBy(records, owner) - {id}
  {
  }

  /**
   * An update that carries no owner keeps the record in its owner's listing
   * and leaves every other user's listing as it was.
   */
  lemma UpdateWithoutOwnerKeepsListings(records: map<Id, Expense>, owner: Id, id: Id, p: ExpensePatch, other: Id)
    requires MayChange(records, owner, id) && p.user.None?
    ensures OwnedBy(records[id := Merge(records[id], p)], other)
         == if other == owner then OwnedBy(records, owner)[id := Merge(records[id], p)]
            else OwnedBy(records, other)
  {
    var after := records[id := Merge(records[id], p)];
    if other == owner {
      assert OwnedBy(after, other).Keys == OwnedBy(records, owner).Keys;
    } else {
      assert OwnedBy(after, other).Keys == OwnedBy(records, other).Keys;
    }
  }

  /**
   * The owner field is part of what an update may carry, so an owner can
   * hand a record over to another user: it then leaves the owner's listing
   * and enters the other's.
   */
  lemma UpdateCanTransferOwnership(records: map<Id, Expense>, owner: Id, id: Id, p: ExpensePatch)
    requires MayChange(records, owner, id) && p.user.Some? && p.user.value != owner
    ensures id !in OwnedBy(records[id := Merge(records[id], p)], owner)
    ensures id in OwnedBy(records[id := Merge(records[id], p)], p.user.value)
  {
  }

  /** The record store and its handlers. */
  class ExpenseStore {
    var records: map<Id, Expense>

    /** Every record is stored under its own id. */
    ghost predicate Valid()
      reads this
    {
      forall k :: k in records ==> records[k].id == k
    }

    constructor ()
      ensures records == map[] && Valid()
    {
      records := map[];
    }

    /** `getExpenses`: 200 with exactly the requester's records. */
    method GetExpenses(requester: Id) returns (res: Response)
      ensures res.status == OK && res.body.Listing?
      ensures forall k :: k in res.body.records <==> k in records && records[k].user == requester
      ensures forall k :: k in res.body.records ==> res.body.records[k] == records[k]
    {
      res := Response(OK, Listing(OwnedBy(records, requester)));
    }

    /**
     * `addExpense`: 400 and nothing stored when the title is falsy or the
     * amount missing; otherwise the new record under the fresh id, owned by
     * the requester, and 201 with it.
     */
    method AddExpense(requester: Id, b: ExpenseBody, newId: Id, now: int) returns (res: Response)
      requires Valid() && newId !in records
      modifies this
      ensures Valid()
      ensures !ValidBody(b) ==> res == Response(BAD_REQUEST, Message(MISSING_FIELDS)) && records == old(records)
      ensures ValidBody(b) ==>
        records == old(records)[newId := CreateRecord(newId, requester, b, now)]
        && res == Response(CREATED, One(records[newId]))
      ensures res.status == CREATED ==> res.body.One? && res.body.record.id == newId && res.body.record.user == requester
    {
      if !Truthy(b.title) || b.amount.None? {
        return Response(BAD_REQUEST, Message(MISSING_FIELDS));
      }
      var e := CreateRecord(newId, requester, b, now);
      records := records[newId := e];
      res := Response(CREATED, One(e));
    }

    /**
     * `updateExpense`: 404 and nothing changed unless the record exists and
     * the requester owns it; 500 and nothing changed when the merged record
     * would have no title; otherwise the merged record replaces it, and 200
     * with it. No other record changes.
     */
    method UpdateExpense(requester: Id, id: Id, p: ExpensePatch) returns (res: Response)
      requires Valid()
      modifies this
      ensures Valid()
      ensures !MayChange(old(records), requester, id) ==>
        res == Response(NOT_FOUND, Message(NOT_FOUND_OR_UNAUTHORIZED)) && records == old(records)
      ensures MayChange(old(records), requester, id) && !Saveable(Merge(old(records)[id], p)) ==>
        res == Response(SERVER_ERROR, Message(UPDATE_FAILED)) && records == old(records)
      ensures MayChange(old(records), requester, id) && Saveable(Merge(old(records)[id], p)) ==>
        records == old(records)[id := Merge(old(records)[id], p)] && res == Response(OK, One(records[id]))
      ensures res.status == OK ==> res.body.One? && res.body.record.id == id
      ensures forall k :: k in old(records) && k != id ==> k in records && records[k] == old(records)[k]
      ensures records.Keys == old(records).Keys
    {
      if id !in records || records[id].user != requester {
        return Response(NOT_FOUND, Message(NOT_FOUND_OR_UNAUTHORIZED));
      }
      var merged := Merge(records[id], p);
      if merged.title == "" {
        return Response(SERVER_ERROR, Message(UPDATE_FAILED));
      }
      records := records[id := merged];
      res := Response(OK, One(merged));
    }

    /**
     * `deleteExpense`: 404 and nothing changed unless the record exists and
     * the requester owns it; otherwise that record, and no other, is removed,
     * and 200 with a confirmation.
     */
    method DeleteExpense(requester: Id, id: Id) returns (res: Response)
      requires Valid()
      modifies this
      ensures Valid()
      ensures !MayChange(old(records), requester, id) ==>
        res == Response(NOT_FOUND, Message(NOT_FOUND_OR_UNAUTHORIZED)) && records == old(records)
      ensures MayChange(old(records), requester, id) ==>
        records == old(records) - {id} && res == Response(OK, Message(DELETED))
      ensures forall k :: k in old(records) && k != id ==> k in records && records[k] == old(records)[k]
    {
      if id !in records || records[id].user != requester {
        return Response(NOT_FOUND, Message(NOT_FOUND_OR_UNAUTHORIZED));
      }
      records := records - {id};
      res := Response(OK, Message(DELETED));
    }
  }
}
