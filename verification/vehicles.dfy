/**
 * The vehicle management page: a list of vehicle rows that the user edits
 * field by field, extends with blank rows and prunes by id.
 */
module Vehicles {
  import opened Common
  import IdLists

  /** One row of the page; `mileage` is in distance units per litre. */
  datatype Vehicle = Vehicle(id: int, name: string, kind: string, mileage: Input, fuelType: string)

  /** The row the page starts with and appends: every field blank. */
  function BlankVehicle(id: int): Vehicle {
    Vehicle(id, "", "", Blank, "")
  }

  /** A change event: the name of the edited input and its new value. */
  datatype VehicleEdit =
    | SetName(name: string)
    | SetKind(kind: string)
    | SetMileage(mileage: Input)
    | SetFuelType(fuelType: string)

  /** `{ ...v, [name]: value }`: the named field takes the value, every other field keeps its own. */
  function ApplyEdit(v: Vehicle, edit: VehicleEdit): (r: Vehicle)
    ensures r.id == v.id
    ensures edit.SetName? ==> r.name == edit.name
    ensures edit.SetKind? ==> r.kind == edit.kind
    ensures edit.SetMileage? ==> r.mileage == edit.mileage
    ensures edit.SetFuelType? ==> r.fuelType == edit.fuelType
    ensures !edit.SetName? ==> r.name == v.name
    ensures !edit.SetKind? ==> r.kind == v.kind
    ensures !edit.SetMileage? ==> r.mileage == v.mileage
    ensures !edit.SetFuelType? ==> r.fuelType == v.fuelType
  {
    match edit
    case SetName(x) => v.(name := x)
    case SetKind(x) => v.(kind := x)
    case SetMileage(x) => v.(mileage := x)
    case SetFuelType(x) => v.(fuelType := x)
  }

  /** The key the page's handlers select rows by. */
  function VehicleId(v: Vehicle): int {
    v.id
  }

  /** The state of the page: its list of vehicle rows. */
  class VehiclesPage {
    var vehicles: seq<Vehicle>

    /** The page opens with exactly one blank row. */
    constructor (id: int)
      ensures vehicles == [BlankVehicle(id)]
    {
      vehicles := [BlankVehicle(id)];
    }

    /** `handleChange`: edit one field of every row with the id; nothing else changes. */
    method HandleChange(id: int, edit: VehicleEdit)
      modifies this
      ensures |vehicles| == |old(vehicles)|
      ensures forall i :: 0 <= i < |vehicles| ==>
        vehicles[i] == if old(vehicles)[i].id == id then ApplyEdit(old(vehicles)[i], edit) else old(vehicles)[i]
      ensures (forall i :: 0 <= i < |old(vehicles)| ==> old(vehicles)[i].id != id) ==> vehicles == old(vehicles)
    {
      vehicles := IdLists.MapWhere(vehicles, VehicleId, id, v => ApplyEdit(v, edit));
    }

    /** `addVehicle`: one blank row at the end; the existing rows are untouched. */
    method AddVehicle(id: int)
      modifies this
      ensures vehicles == old(vehicles) + [BlankVehicle(id)]
    {
      vehicles := vehicles + [BlankVehicle(id)];
    }

    /** `removeVehicle`: every row with the id goes, the rest keep their order. */
    method RemoveVehicle(id: int)
      modifies this
      ensures vehicles == IdLists.RemoveWhere(old(vehicles), VehicleId, id)
      ensures |vehicles| == |old(vehicles)| - IdLists.CountKey(old(vehicles), VehicleId, id)
      ensures forall i :: 0 <= i < |vehicles| ==> vehicles[i].id != id && vehicles[i] in old(vehicles)
      ensures forall i :: 0 <= i < |old(vehicles)| && old(vehicles)[i].id != id ==> old(vehicles)[i] in vehicles
      ensures (forall i :: 0 <= i < |old(vehicles)| ==> old(vehicles)[i].id != id) ==> vehicles == old(vehicles)
    {
      IdLists.RemoveWhereCount(vehicles, VehicleId, id);
      if forall i :: 0 <= i < |vehicles| ==> vehicles[i].id != id {
        IdLists.RemoveWhereAbsent(vehicles, VehicleId, id);
      }
      vehicles := IdLists.RemoveWhere(vehicles, VehicleId, id);
    }
  }
}
