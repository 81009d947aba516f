/**
 * The "add ride / expense" dialog: either one ride form or a growing list of
 * ride rows, edited field by field, and submitted as a list of rides to the
 * caller's save callback followed by its close callback.
 *
 * The rows of the multi-row form are objects: the source copies the list
 * shallowly and then assigns into the row object at the edited index, so a
 * row is updated in place and shared between the old and the new list.
 */
module AddExpenseModal {
  import opened Common

  /** What a ride form holds: the platform, the fare and the date. */
  datatype Ride = Ride(platform: string, fare: Input, date: string)

  /** The form the dialog opens with and appends. */
  function BlankRide(): Ride {
    Ride("", Blank, "")
  }

  /** A change event: the edited input's name and its new value. */
  datatype RideEdit =
    | SetPlatform(platform: string)
    | SetFare(fare: Input)
    | SetDate(date: string)

  /** `{ ...ride, [name]: value }`: the named field takes the value, the others keep theirs. */
  function ApplyRideEdit(r: Ride, edit: RideEdit): (s: Ride)
    ensures edit.SetPlatform? ==> s.platform == edit.platform
    ensures edit.SetFare? ==> s.fare == edit.fare
    ensures edit.SetDate? ==> s.date == edit.date
    ensures !edit.SetPlatform? ==> s.platform == r.platform
    ensures !edit.SetFare? ==> s.fare == r.fare
    ensures !edit.SetDate? ==> s.date == r.date
  {
    match edit
    case SetPlatform(x) => r.(platform := x)
    case SetFare(x) => r.(fare := x)
    case SetDate(x) => r.(date := x)
  }

  /** The two modes of the dialog. */
  datatype EntryType = Single | Multiple

  /** A call the dialog makes into its owner. */
  datatype Callback = OnSave(rides: seq<Ride>) | OnClose

  /** One row of the multi-row form, a mutable object. */
  class RideRow {
    var platform: string
    var fare: Input
    var date: string

    /** The row's current contents. */
    function Value(): Ride
      reads this
    {
      Ride(platform, fare, date)
    }

    /** A fresh blank row. */
    constructor ()
      ensures Value() == BlankRide()
    {
      platform, fare, date := "", Blank, "";
    }

    /** `row[name] = value`, in place. */
    method Set(edit: RideEdit)
      modifies this
      ensures Value() == ApplyRideEdit(old(Value()), edit)
    {
      match edit
      case SetPlatform(x) => platform := x;
      case SetFare(x) => fare := x;
      case SetDate(x) => date := x;
    }
  }

  /** The contents of a list of rows, in order. */
  function RowValues(rows: seq<RideRow>): (r: seq<Ride>)
    reads rows
    ensures |r| == |rows|
    ensures forall i :: 0 <= i < |rows| ==> r[i] == rows[i].Value()
  {
    if rows == [] then [] else [rows[0].Value()] + RowValues(rows[1..])
  }

  /** The dialog's state: its mode, the single form and the rows of the multi-row form. */
  class ExpenseModal {
    var entryType: EntryType
    var rideData: Ride
    var multipleData: seq<RideRow>

    /** No row object appears twice in the list, so editing one row edits only that row. */
    ghost predicate Valid()
      reads this
    {
      forall i, j :: 0 <= i < j < |multipleData| ==> multipleData[i] != multipleData[j]
    }

    /** The contents of the multi-row form. */
    function Rows(): seq<Ride>
      reads this, multipleData
    {
      RowValues(multipleData)
    }

    /** The dialog opens in single mode, with a blank form and one blank row. */
    constructor ()
      ensures Valid()
      ensures entryType == Single && rideData == BlankRide() && Rows() == [BlankRide()]
      ensures fresh(multipleData[0])
    {
      entryType := Single;
      rideData := BlankRide();
      var row := new RideRow();
      multipleData := [row];
    }

    /** The mode buttons. */
    method SetEntryType(t: EntryType)
      modifies this
      ensures entryType == t
      ensures rideData == old(rideData) && multipleData == old(multipleData)
    {
      entryType := t;
    }

    /**
     * `handleChange`: in single mode the field of the single form; in
     * multiple mode the field of row `index`, in place, every other row
     * and the row count unchanged. The rows list keeps the same row objects.
     */
    method HandleChange(edit: RideEdit, index: nat)
      requires Valid()
      requires entryType == Multiple ==> index < |multipleData|
      modifies this, multipleData
      ensures Valid()
      ensures entryType == old(entryType) && multipleData == old(multipleData)
      ensures entryType == Single ==>
        rideData == ApplyRideEdit(old(rideData), edit) && Rows() == old(Rows())
      ensures entryType == Multiple ==>
        rideData == old(rideData)
        && |Rows()| == |old(Rows())|
        && Rows()[index] == ApplyRideEdit(old(Rows())[index], edit)
        && forall i :: 0 <= i < |Rows()| && i != index ==> Rows()[i] == old(Rows())[i]
    {
      if entryType == Single {
        rideData := ApplyRideEdit(rideData, edit);
      } else {
        var temp := multipleData;
        temp[index].Set(edit);
        multipleData := temp;
      }
    }

    /** `addMoreRows`: one fresh blank row at the end; the existing rows are untouched. */
    method AddMoreRows()
      requires Valid()
      modifies this
      ensures Valid()
      ensures entryType == old(entryType) && rideData == old(rideData)
      ensures |multipleData| == |old(multipleData)| + 1
      ensures multipleData[..|old(multipleData)|] == old(multipleData)
      ensures fresh(multipleData[|old(multipleData)|])
      ensures Rows() == old(Rows()) + [BlankRide()]
    {
      var row := new RideRow();
      multipleData := multipleData + [row];
    }

    /**
     * `handleSubmit`: the calls made into the owner, in order: save the
     * one single-mode ride, or every row in order, then close.
     */
    method HandleSubmit() returns (calls: seq<Callback>)
      ensures |calls| == 2 && calls[0].OnSave? && calls[1] == OnClose
      ensures entryType == Single ==> calls[0].rides == [rideData]
      ensures entryType == Multiple ==>
        |calls[0].rides| == |multipleData|
        && forall i :: 0 <= i < |multipleData| ==> calls[0].rides[i] == multipleData[i].Value()
    {
      var saved: seq<Ride>;
      if entryType == Single {
        saved := [rideData];
      } else {
        saved := Rows();
      }
      calls := [OnSave(saved), OnClose];
    }
  }
}
