/**
 * The client's shared data: the signed-in user's profile and expense list,
 * a loading flag and the last error, and the four actions that send a
 * request and then bring the local state in line with the server's reply.
 * A reply is given to each action as an input.
 */
module AppData {
  import opened Common
  import IdLists
  import Expenses

  /** The signed-in user's profile as the server returns it. */
  datatype Profile = Profile(name: string, email: string)

  /**
   * The outcome of a request: the reply's data, or a failure with the
   * message the client reports (the server's message, else the transport's).
   */
  datatype Reply<T> = Success(data: T) | Failure(message: string)

  const INVALID_EXPENSE := "Expense must have a title and amount."
  const PROFILE_FAILED := "Failed to update profile: "
  const ADD_FAILED := "Failed to add expense: "
  const UPDATE_FAILED := "Failed to update expense: "
  const DELETE_FAILED := "Failed to delete expense: "

  /** The key the expense list is matched by: the record's `_id`. */
  function RecordId(e: Expenses.Expense): Expenses.Id {
    e.id
  }

  /** The update that puts the server's record in place of a matching one. */
  function ReplaceWith(x: Expenses.Expense): Expenses.Expense -> Expenses.Expense {
    _ => x
  }

  /**
   * Adding a record whose id the list did not hold and then deleting that
   * id gives back the list as it was.
   */
  lemma AddThenDeleteRestores(s: seq<Expenses.Expense>, x: Expenses.Expense)
    requires forall i :: 0 <= i < |s| ==> s[i].id != x.id
    ensures IdLists.RemoveWhere(s + [x], RecordId, x.id) == s
  {
    IdLists.RemoveWhereAppend(s, x, RecordId, x.id);
    IdLists.RemoveWhereAbsent(s, RecordId, x.id);
  }

  /**
   * Replacing by id and then deleting by that id is the same as deleting:
   * an update never makes a record survive its deletion.
   */
  lemma {:induction false} DeleteAfterReplace(s: seq<Expenses.Expense>, id: Expenses.Id, x: Expenses.Expense)
    requires x.id == id
    ensures IdLists.RemoveWhere(IdLists.MapWhere(s, RecordId, id, ReplaceWith(x)), RecordId, id)
         == IdLists.RemoveWhere(s, RecordId, id)
  {
    if s != [] {
      var m := IdLists.MapWhere(s, RecordId, id, ReplaceWith(x));
      assert m[1..] == IdLists.MapWhere(s[1..], RecordId, id, ReplaceWith(x));
      DeleteAfterReplace(s[1..], id, x);
    }
  }

  /** The client's data and its actions. */
  class AppData {
    var profile: Option<Profile>
    var expenses: seq<Expenses.Expense>
    var loading: bool
    var error: Option<string>

    /** No profile, no expenses, loading, no error. */
    constructor ()
      ensures profile == None && expenses == [] && loading && error == None
    {
      profile, expenses, loading, error := None, [], true, None;
    }

    /**
     * `updateProfile`: on success the profile becomes the server's and is
     * returned; on failure the profile stays, the error is set and nothing
     * is returned. The expense list is untouched.
     */
    method UpdateProfile(reply: Reply<Profile>) returns (r: Option<Profile>)
      modifies this
      ensures expenses == old(expenses) && loading == old(loading)
      ensures reply.Success? ==> profile == Some(reply.data) && r == Some(reply.data) && error == old(error)
      ensures reply.Failure? ==>
        profile == old(profile) && r == None && error == Some(PROFILE_FAILED + reply.message)
    {
      match reply
      case Success(p) =>
        profile := Some(p);
        r := Some(p);
      case Failure(m) =>
        error := Some(PROFILE_FAILED + m);
        r := None;
    }

    /**
     * `addExpense`: an expense without a truthy title or without an amount
     * (0 is an amount) is refused before any request, with the error set;
     * otherwise the server's record is appended on success, and on failure
     * the error is set. Only a success returns a record or changes the list.
     */
    method AddExpense(newExpense: Expenses.ExpenseBody, reply: Reply<Expenses.Expense>)
      returns (r: Option<Expenses.Expense>)
      modifies this
      ensures profile == old(profile) && loading == old(loading)
      ensures !Expenses.ValidBody(newExpense) ==>
        r == None && expenses == old(expenses) && error == Some(INVALID_EXPENSE)
      ensures Expenses.ValidBody(newExpense) && reply.Success? ==>
        r == Some(reply.data) && expenses == old(expenses) + [reply.data] && error == old(error)
      ensures Expenses.ValidBody(newExpense) && reply.Failure? ==>
        r == None && expenses == old(expenses) && error == Some(ADD_FAILED + reply.message)
    {
      if !Expenses.Truthy(newExpense.title) || newExpense.amount.None? {
        error := Some(INVALID_EXPENSE);
        return None;
      }
      match reply
      case Success(x) =>
        expenses := expenses + [x];
        r := Some(x);
      case Failure(m) =>
        error := Some(ADD_FAILED + m);
        r := None;
    }

    /**
     * `updateExpense`: on success every entry whose `_id` is `id` becomes
     * the server's record, the others and the length stay; on failure the
     * list stays and the error is set.
     */
    method UpdateExpense(id: Expenses.Id, reply: Reply<Expenses.Expense>) returns (r: Option<Expenses.Expense>)
      modifies this
      ensures profile == old(profile) && loading == old(loading)
      ensures reply.Success? ==>
        r == Some(reply.data) && error == old(error)
        && expenses == IdLists.MapWhere(old(expenses), RecordId, id, ReplaceWith(reply.data))
        && |expenses| == |old(expenses)|
        && forall i :: 0 <= i < |expenses| ==>
             expenses[i] == if old(expenses)[i].id == id then reply.data else old(expenses)[i]
      ensures reply.Failure? ==>
        r == None && expenses == old(expenses) && error == Some(UPDATE_FAILED + reply.message)
    {
      match reply
      case Success(x) =>
        expenses := IdLists.MapWhere(expenses, RecordId, id, ReplaceWith(x));
        r := Some(x);
      case Failure(m) =>
        error := Some(UPDATE_FAILED + m);
        r := None;
    }

    /**
     * `deleteExpense`: on success every entry whose `_id` is `id` goes, the
     * rest keep their order, and the answer is true; on failure the list
     * stays, the error is set and the answer is false.
     */
    method DeleteExpense(id: Expenses.Id, reply: Reply<()>) returns (ok: bool)
      modifies this
      ensures profile == old(profile) && loading == old(loading)
      ensures ok <==> reply.Success?
      ensures reply.Success? ==>
        expenses == IdLists.RemoveWhere(old(expenses), RecordId, id)
        && |expenses| == |old(expenses)| - IdLists.CountKey(old(expenses), RecordId, id)
        && (forall i :: 0 <= i < |expenses| ==> expenses[i].id != id)
        && error == old(error)
      ensures reply.Failure? ==> expenses == old(expenses) && error == Some(DELETE_FAILED + reply.message)
    {
      match reply
      case Success(_) =>
        IdLists.RemoveWhereCount(expenses, RecordId, id);
        expenses := IdLists.RemoveWhere(expenses, RecordId, id);
        ok := true;
      case Failure(m) =>
        error := Some(DELETE_FAILED + m);
        ok := false;
    }
  }
}
