/**
 * The cost management page: a fuel-purchase ledger and a list of trip
 * expense rows, and the summary the page derives from them (total fuel
 * bought, its cost, fuel used by the trips, fuel remaining, and the total
 * expense after deducting the fuel each trip burned at the ledger's average
 * price).
 */
module Costs {
  import opened Common
  import opened Sums
  import IdLists
  import Vehicles

  // ---------------------------------------------------------------------
  // Rows
  // ---------------------------------------------------------------------

  /** One fuel purchase: the kind of fuel, the litres bought and the price paid per litre. */
  datatype FuelEntry = FuelEntry(id: int, kind: string, litres: Input, pricePerLitre: Input)

  /** A change event on a fuel row. */
  datatype FuelEdit =
    | SetKind(kind: string)
    | SetLitres(litres: Input)
    | SetPricePerLitre(pricePerLitre: Input)

  /**
   * One trip row. `vehicle` names the vehicle driven (matched by name),
   * `distance` is in the vehicle's distance unit, `amount` and `others` are
   * money.
   */
  datatype ExpenseEntry = ExpenseEntry(
    id: int, date: string, vehicle: string, tripName: string,
    distance: Input, amount: Input, others: Input, platform: string)

  /** A change event on a trip row. */
  datatype ExpenseEdit =
    | SetDate(date: string)
    | SetVehicle(vehicle: string)
    | SetTripName(tripName: string)
    | SetDistance(distance: Input)
    | SetAmount(amount: Input)
    | SetOthers(others: Input)
    | SetPlatform(platform: string)

  /** The fuel row the page starts with and appends. */
  function BlankFuel(id: int): FuelEntry {
    FuelEntry(id, "", Blank, Blank)
  }

  /** The trip row the page starts with and appends, dated `today`. */
  function BlankExpense(id: int, today: string): ExpenseEntry {
    ExpenseEntry(id, today, "", "", Blank, Blank, Blank, "")
  }

  /** `{ ...f, [name]: value }` on a fuel row. */
  function ApplyFuelEdit(f: FuelEntry, edit: FuelEdit): (r: FuelEntry)
    ensures r.id == f.id
    ensures edit.SetKind? ==> r.kind == edit.kind
    ensures edit.SetLitres? ==> r.litres == edit.litres
    ensures edit.SetPricePerLitre? ==> r.pricePerLitre == edit.pricePerLitre
    ensures !edit.SetKind? ==> r.kind == f.kind
    ensures !edit.SetLitres? ==> r.litres == f.litres
    ensures !edit.SetPricePerLitre? ==> r.pricePerLitre == f.pricePerLitre
  {
    match edit
    case SetKind(x) => f.(kind := x)
    case SetLitres(x) => f.(litres := x)
    case SetPricePerLitre(x) => f.(pricePerLitre := x)
  }

  /** `{ ...exp, [name]: value }` on a trip row. */
  function ApplyExpenseEdit(e: ExpenseEntry, edit: ExpenseEdit): (r: ExpenseEntry)
    ensures r.id == e.id
    ensures edit.SetDate? ==> r.date == edit.date
    ensures edit.SetVehicle? ==> r.vehicle == edit.vehicle
    ensures edit.SetTripName? ==> r.tripName == edit.tripName
    ensures edit.SetDistance? ==> r.distance == edit.distance
    ensures edit.SetAmount? ==> r.amount == edit.amount
    ensures edit.SetOthers? ==> r.others == edit.others
    ensures edit.SetPlatform? ==> r.platform == edit.platform
    ensures !edit.SetDate? ==> r.date == e.date
    ensures !edit.SetVehicle? ==> r.vehicle == e.vehicle
    ensures !edit.SetTripName? ==> r.tripName == e.tripName
    ensures !edit.SetDistance? ==> r.distance == e.distance
    ensures !edit.SetAmount? ==> r.amount == e.amount
    ensures !edit.SetOthers? ==> r.others == e.others
    ensures !edit.SetPlatform? ==> r.platform == e.platform
  {
    match edit
    case SetDate(x) => e.(date := x)
    case SetVehicle(x) => e.(vehicle := x)
    case SetTripName(x) => e.(tripName := x)
    case SetDistance(x) => e.(distance := x)
    case SetAmount(x) => e.(amount := x)
    case SetOthers(x) => e.(others := x)
    case SetPlatform(x) => e.(platform := x)
  }

  function FuelId(f: FuelEntry): int {
    f.id
  }

  function ExpenseId(e: ExpenseEntry): int {
    e.id
  }

  // ---------------------------------------------------------------------
  // Calculations
  // ---------------------------------------------------------------------

  /** Litres bought by one purchase, a blank field reading as 0. */
  function Litres(f: FuelEntry): real {
    Num(f.litres)
  }

  /** What one purchase cost: litres times price per litre, blanks reading as 0. */
  function PurchaseCost(f: FuelEntry): real {
    Num(f.litres) * Num(f.pricePerLitre)
  }

  /** `totalFuel`: all litres bought. */
  function TotalFuel(fuel: seq<FuelEntry>): real {
    SumOf(fuel, Litres)
  }

  /** `fuelCost`: all money spent on fuel. */
  function FuelCost(fuel: seq<FuelEntry>): real {
    SumOf(fuel, PurchaseCost)
  }

  /**
   * `avgFuelPrice`: the fuel cost divided by the litres bought, the divisor
   * being 1 when no litres were bought (`totalFuel || 1`), so that it never
   * divides by zero. Times the litres bought it gives back the fuel cost.
   */
  function AvgFuelPrice(fuel: seq<FuelEntry>): (r: real)
    ensures TotalFuel(fuel) == 0.0 ==> r == FuelCost(fuel)
  {
    FuelCost(fuel) / (if TotalFuel(fuel) == 0.0 then 1.0 else TotalFuel(fuel))
  }

  /** The average price times the litres bought gives back what the fuel cost. */
  lemma AvgFuelPriceRecoversCost(fuel: seq<FuelEntry>)
    requires TotalFuel(fuel) != 0.0
    ensures AvgFuelPrice(fuel) * TotalFuel(fuel) == FuelCost(fuel)
  {
  }

  /** `vehicles.find(v => v.name === name)` */
  function FindVehicle(vehicles: seq<Vehicles.Vehicle>, name: string): (r: Option<Vehicles.Vehicle>)
    ensures r.Some? ==> r.value.name == name
    ensures r.None? <==> forall i :: 0 <= i < |vehicles| ==> vehicles[i].name != name
  {
    if vehicles == [] then None
    else if vehicles[0].name == name then Some(vehicles[0])
    else FindVehicle(vehicles[1..], name)
  }

  /** The vehicle found is the first one with the name, whatever comes after it. */
  lemma {:induction false} FindVehicleIsFirst(vehicles: seq<Vehicles.Vehicle>, name: string, i: int)
    requires 0 <= i < |vehicles| && vehicles[i].name == name
    requires forall j :: 0 <= j < i ==> vehicles[j].name != name
    ensures FindVehicle(vehicles, name) == Some(vehicles[i])
  {
    if i > 0 {
      FindVehicleIsFirst(vehicles[1..], name, i - 1);
    }
  }

  /**
   * Whether a trip's fuel use can be estimated: a vehicle of that name
   * exists, the trip's distance is filled in, and that vehicle's mileage is
   * filled in and not zero.
   */
  predicate Estimable(e: ExpenseEntry, vehicles: seq<Vehicles.Vehicle>) {
    var v := FindVehicle(vehicles, e.vehicle);
    v.Some? && Filled(e.distance) && Filled(v.value.mileage) && Num(v.value.mileage) != 0.0
  }

  /**
   * Litres one trip burned: distance over the mileage of the first vehicle
   * with the trip's vehicle name, or 0 when that cannot be estimated. The
   * estimate times the mileage gives back the distance.
   */
  function TripFuelUsed(e: ExpenseEntry, vehicles: seq<Vehicles.Vehicle>): (r: real)
    ensures !Estimable(e, vehicles) ==> r == 0.0
  {
    var v := FindVehicle(vehicles, e.vehicle);
    if v.Some? && Filled(e.distance) && Filled(v.value.mileage) && Num(v.value.mileage) != 0.0
    then Num(e.distance) / Num(v.value.mileage)
    else 0.0
  }

  /** Dividing by a non-zero number and multiplying back gives the number. */
  lemma DivideThenMultiply(r: real, d: real, m: real)
    requires m != 0.0 && r == d / m
    ensures r * m == d
  {
  }

  /** An estimated trip's fuel times its vehicle's mileage gives back the distance. */
  lemma TripFuelUsedRecoversDistance(e: ExpenseEntry, vehicles: seq<Vehicles.Vehicle>)
    requires Estimable(e, vehicles)
    ensures TripFuelUsed(e, vehicles) * Num(FindVehicle(vehicles, e.vehicle).value.mileage) == Num(e.distance)
  {
    var d, m := Num(e.distance), Num(FindVehicle(vehicles, e.vehicle).value.mileage);
    DivideThenMultiply(TripFuelUsed(e, vehicles), d, m);
  }

  /** A trip whose vehicle name matches no vehicle burns nothing. */
  lemma UnknownVehicleBurnsNothing(e: ExpenseEntry, vehicles: seq<Vehicles.Vehicle>)
    requires forall i :: 0 <= i < |vehicles| ==> vehicles[i].name != e.vehicle
    ensures TripFuelUsed(e, vehicles) == 0.0
  {
  }

  /**
   * The same estimate as the source writes it, where the mileage guard is
   * only the truthiness of the mileage text: a mileage typed as "0" passes
   * it. `None` stands for the division by zero that then happens.
   */
  function TripFuelUsedAsWritten(e: ExpenseEntry, vehicles: seq<Vehicles.Vehicle>): Option<real>
  {
    var v := FindVehicle(vehicles, e.vehicle);
    if v.Some? && Filled(e.distance) && Filled(v.value.mileage) then
      if Num(v.value.mileage) == 0.0 then None
      else Some(Num(e.distance) / Num(v.value.mileage))
    else Some(0.0)
  }

  /** The per-trip fuel use against a fixed vehicle list, as a column to sum. */
  function FuelUsedColumn(vehicles: seq<Vehicles.Vehicle>): ExpenseEntry -> real {
    e => TripFuelUsed(e, vehicles)
  }

  /** `totalFuelUsed`: litres burned by all trips. */
  function TotalFuelUsed(expenses: seq<ExpenseEntry>, vehicles: seq<Vehicles.Vehicle>): real {
    SumOf(expenses, FuelUsedColumn(vehicles))
  }

  /** One trip's term of `totalExpense`: amount plus others, less its fuel at price `avg`. */
  function TripExpense(e: ExpenseEntry, vehicles: seq<Vehicles.Vehicle>, avg: real): real {
    Num(e.amount) + Num(e.others) - TripFuelUsed(e, vehicles) * avg
  }

  /** The per-trip terms of `totalExpense` at fuel price `avg`, as a column to sum. */
  function TripExpenseColumn(vehicles: seq<Vehicles.Vehicle>, avg: real): ExpenseEntry -> real {
    e => TripExpense(e, vehicles, avg)
  }

  /** The trips' terms of `totalExpense` summed at fuel price `avg`. */
  function TripExpenses(expenses: seq<ExpenseEntry>, vehicles: seq<Vehicles.Vehicle>, avg: real): real {
    SumOf(expenses, TripExpenseColumn(vehicles, avg))
  }

  /**
   * `totalExpense` (after fuel deduction). The source recomputes the same
   * average price inside every step of its fold; here it is computed once.
   */
  function TotalExpense(fuel: seq<FuelEntry>, expenses: seq<ExpenseEntry>, vehicles: seq<Vehicles.Vehicle>): real {
    TripExpenses(expenses, vehicles, AvgFuelPrice(fuel))
  }

  function Amount(e: ExpenseEntry): real {
    Num(e.amount)
  }

  function Others(e: ExpenseEntry): real {
    Num(e.others)
  }

  function AmountPlusOthers(e: ExpenseEntry): real {
    Num(e.amount) + Num(e.others)
  }

  /** The figures of the page's summary section. */
  datatype Summary = Summary(
    totalRides: nat, totalFuel: real, fuelCost: real, remainingFuel: real, totalExpense: real)

  /** The summary section: rides counted, fuel bought and its cost, fuel left, expense after fuel. */
  function Summarize(fuel: seq<FuelEntry>, expenses: seq<ExpenseEntry>, vehicles: seq<Vehicles.Vehicle>): (r: Summary)
    ensures r.totalRides == |expenses|
    ensures r.remainingFuel == r.totalFuel - TotalFuelUsed(expenses, vehicles)
  {
    Summary(|expenses|, TotalFuel(fuel), FuelCost(fuel),
            TotalFuel(fuel) - TotalFuelUsed(expenses, vehicles),
            TotalExpense(fuel, expenses, vehicles))
  }

  // ---------------------------------------------------------------------
  // Properties of the calculations
  // ---------------------------------------------------------------------

  /** Reordering the fuel ledger changes none of its totals. */
  lemma FuelTotalsOrderFree(a: seq<FuelEntry>, b: seq<FuelEntry>)
    requires multiset(a) == multiset(b)
    ensures TotalFuel(a) == TotalFuel(b)
    ensures FuelCost(a) == FuelCost(b)
    ensures AvgFuelPrice(a) == AvgFuelPrice(b)
  {
    SumOfPermutation(a, b, Litres);
    SumOfPermutation(a, b, PurchaseCost);
  }

  /**
   * With no negative litres, a ledger with no litres bought costs nothing
   * and its average price is 0: the `|| 1` divisor never shows.
   */
  lemma ZeroVolumeMeansZeroPrice(fuel: seq<FuelEntry>)
    requires forall i :: 0 <= i < |fuel| ==> Num(fuel[i].litres) >= 0.0
    requires TotalFuel(fuel) == 0.0
    ensures FuelCost(fuel) == 0.0
    ensures AvgFuelPrice(fuel) == 0.0
  {
    SumOfNonNegative(fuel, Litres);
    forall i | 0 <= i < |fuel| ensures PurchaseCost(fuel[i]) == 0.0 * Litres(fuel[i]) {
      assert Litres(fuel[i]) == 0.0;
    }
    SumOfScaled(fuel, Litres, PurchaseCost, 0.0);
  }

  /** When every purchase was made at the same price, the average price is that price. */
  lemma UniformPriceIsAverage(fuel: seq<FuelEntry>, price: real)
    requires forall i :: 0 <= i < |fuel| ==> Num(fuel[i].pricePerLitre) == price
    requires TotalFuel(fuel) != 0.0
    ensures AvgFuelPrice(fuel) == price
  {
    forall i | 0 <= i < |fuel| ensures PurchaseCost(fuel[i]) == price * Litres(fuel[i]) {
    }
    SumOfScaled(fuel, Litres, PurchaseCost, price);
    assert FuelCost(fuel) == price * TotalFuel(fuel);
  }

  /** Every trip's term is its amount plus other costs, less its fuel at price `avg`. */
  lemma TripTermsPointwise(expenses: seq<ExpenseEntry>, vehicles: seq<Vehicles.Vehicle>, avg: real)
    ensures forall i :: 0 <= i < |expenses| ==>
      TripExpenseColumn(vehicles, avg)(expenses[i])
      == AmountPlusOthers(expenses[i]) - avg * FuelUsedColumn(vehicles)(expenses[i])
  {
  }

  /**
   * At any fuel price, the trips' terms sum to their amounts plus their
   * other costs, less the fuel they burned at that price.
   */
  lemma TripExpensesDecompose(expenses: seq<ExpenseEntry>, vehicles: seq<Vehicles.Vehicle>, avg: real)
    ensures TripExpenses(expenses, vehicles, avg)
         == SumOf(expenses, Amount) + SumOf(expenses, Others) - avg * TotalFuelUsed(expenses, vehicles)
  {
    var plus, used, term := SumOf(expenses, AmountPlusOthers), SumOf(expenses, FuelUsedColumn(vehicles)),
                            SumOf(expenses, TripExpenseColumn(vehicles, avg));
    assert term == plus - avg * used by {
      TripTermsPointwise(expenses, vehicles, avg);
      SumOfDeduct(expenses, AmountPlusOthers, FuelUsedColumn(vehicles), TripExpenseColumn(vehicles, avg), avg);
    }
    assert plus == SumOf(expenses, Amount) + SumOf(expenses, Others) by {
      SumOfAdd(expenses, Amount, Others, AmountPlusOthers);
    }
    assert TripExpenses(expenses, vehicles, avg) == term;
    assert TotalFuelUsed(expenses, vehicles) == used;
  }

  /**
   * The total expense is the trips' amounts plus their other costs, less
   * the fuel they burned at the ledger's average price.
   */
  lemma TotalExpenseDecomposes(fuel: seq<FuelEntry>, expenses: seq<ExpenseEntry>, vehicles: seq<Vehicles.Vehicle>)
    ensures TotalExpense(fuel, expenses, vehicles)
         == SumOf(expenses, Amount) + SumOf(expenses, Others)
            - AvgFuelPrice(fuel) * TotalFuelUsed(expenses, vehicles)
  {
    TripExpensesDecompose(expenses, vehicles, AvgFuelPrice(fuel));
  }

  /**
   * When no trip's fuel can be estimated (no vehicle list, say), no fuel is
   * burned: the remaining fuel is all the fuel bought, and the total
   * expense is the amounts plus the other costs.
   */
  lemma NothingEstimableKeepsFuel(fuel: seq<FuelEntry>, expenses: seq<ExpenseEntry>, vehicles: seq<Vehicles.Vehicle>)
    requires forall i :: 0 <= i < |expenses| ==> !Estimable(expenses[i], vehicles)
    ensures TotalFuelUsed(expenses, vehicles) == 0.0
    ensures Summarize(fuel, expenses, vehicles).remainingFuel == Summarize(fuel, expenses, vehicles).totalFuel
    ensures Summarize(fuel, expenses, vehicles).totalExpense == SumOf(expenses, Amount) + SumOf(expenses, Others)
  {
    forall i | 0 <= i < |expenses| ensures FuelUsedColumn(vehicles)(expenses[i]) == 0.0 {
      assert !Estimable(expenses[i], vehicles);
    }
    SumOfNonNegative(expenses, FuelUsedColumn(vehicles));
    TotalExpenseDecomposes(fuel, expenses, vehicles);
  }

  /** With no vehicle list, every trip burns nothing and the fuel bought all remains. */
  lemma NoVehiclesKeepFuel(fuel: seq<FuelEntry>, expenses: seq<ExpenseEntry>)
    ensures Summarize(fuel, expenses, []).remainingFuel == TotalFuel(fuel)
    ensures Summarize(fuel, expenses, []).totalExpense == SumOf(expenses, Amount) + SumOf(expenses, Others)
  {
    forall i | 0 <= i < |expenses| ensures !Estimable(expenses[i], []) {
      assert FindVehicle([], expenses[i].vehicle) == None;
    }
    NothingEstimableKeepsFuel(fuel, expenses, []);
  }

  /** Every vehicle found has one of the list's mileages, so a bound on all of them bounds it. */
  lemma {:induction false} FoundMileageNonNegative(vehicles: seq<Vehicles.Vehicle>, name: string)
    requires forall j :: 0 <= j < |vehicles| ==> Num(vehicles[j].mileage) >= 0.0
    ensures FindVehicle(vehicles, name).Some? ==> Num(FindVehicle(vehicles, name).value.mileage) >= 0.0
  {
    if vehicles != [] && vehicles[0].name != name {
      FoundMileageNonNegative(vehicles[1..], name);
    }
  }

  /** A non-negative number over a positive one is non-negative. */
  lemma DivideNonNegative(r: real, d: real, m: real)
    requires d >= 0.0 && m > 0.0 && r == d / m
    ensures r >= 0.0
  {
  }

  /**
   * With no negative distance and no negative mileage, trips only burn
   * fuel: the fuel used is non-negative and the remaining fuel never
   * exceeds the fuel bought.
   */
  lemma RemainingFuelAtMostBought(fuel: seq<FuelEntry>, expenses: seq<ExpenseEntry>, vehicles: seq<Vehicles.Vehicle>)
    requires forall i :: 0 <= i < |expenses| ==> Num(expenses[i].distance) >= 0.0
    requires forall j :: 0 <= j < |vehicles| ==> Num(vehicles[j].mileage) >= 0.0
    ensures TotalFuelUsed(expenses, vehicles) >= 0.0
    ensures Summarize(fuel, expenses, vehicles).remainingFuel <= Summarize(fuel, expenses, vehicles).totalFuel
  {
    forall i | 0 <= i < |expenses| ensures FuelUsedColumn(vehicles)(expenses[i]) >= 0.0 {
      var e := expenses[i];
      if Estimable(e, vehicles) {
        FoundMileageNonNegative(vehicles, e.vehicle);
        DivideNonNegative(TripFuelUsed(e, vehicles), Num(e.distance),
                          Num(FindVehicle(vehicles, e.vehicle).value.mileage));
      }
    }
    SumOfNonNegative(expenses, FuelUsedColumn(vehicles));
  }

  /** Reordering the trip rows changes no figure of the summary. */
  lemma TripsOrderFree(fuel: seq<FuelEntry>, a: seq<ExpenseEntry>, b: seq<ExpenseEntry>, vehicles: seq<Vehicles.Vehicle>)
    requires multiset(a) == multiset(b)
    ensures Summarize(fuel, a, vehicles) == Summarize(fuel, b, vehicles)
  {
    assert |a| == |multiset(a)| == |multiset(b)| == |b|;
    SumOfPermutation(a, b, FuelUsedColumn(vehicles));
    SumOfPermutation(a, b, TripExpenseColumn(vehicles, AvgFuelPrice(fuel)));
  }

  /** A trip whose fuel cannot be estimated contributes exactly its amount and other costs. */
  lemma UnestimableTripCostsItsAmount(e: ExpenseEntry, vehicles: seq<Vehicles.Vehicle>, avg: real)
    requires !Estimable(e, vehicles)
    ensures TripExpense(e, vehicles, avg) == Num(e.amount) + Num(e.others)
  {
  }

  /** Appending a blank fuel row leaves every fuel figure as it was. */
  lemma BlankFuelKeepsTotals(fuel: seq<FuelEntry>, id: int)
    ensures TotalFuel(fuel + [BlankFuel(id)]) == TotalFuel(fuel)
    ensures FuelCost(fuel + [BlankFuel(id)]) == FuelCost(fuel)
    ensures AvgFuelPrice(fuel + [BlankFuel(id)]) == AvgFuelPrice(fuel)
  {
    SumOfAppend(fuel, BlankFuel(id), Litres);
    SumOfAppend(fuel, BlankFuel(id), PurchaseCost);
  }

  /**
   * Appending a blank trip row adds one ride and changes neither the fuel
   * used nor the total expense.
   */
  lemma BlankExpenseKeepsTotals(fuel: seq<FuelEntry>, expenses: seq<ExpenseEntry>,
                                vehicles: seq<Vehicles.Vehicle>, id: int, today: string)
    ensures Summarize(fuel, expenses + [BlankExpense(id, today)], vehicles).totalRides
         == Summarize(fuel, expenses, vehicles).totalRides + 1
    ensures TotalFuelUsed(expenses + [BlankExpense(id, today)], vehicles) == TotalFuelUsed(expenses, vehicles)
    ensures TotalExpense(fuel, expenses + [BlankExpense(id, today)], vehicles) == TotalExpense(fuel, expenses, vehicles)
  {
    var b := BlankExpense(id, today);
    var avg := AvgFuelPrice(fuel);
    SumOfAppend(expenses, b, FuelUsedColumn(vehicles));
    SumOfAppend(expenses, b, TripExpenseColumn(vehicles, avg));
  }

  /**
   * Where the source's estimate is defined it agrees with the guarded one;
   * it is undefined exactly when the vehicle's mileage was typed as zero.
   */
  lemma GuardedEstimateAgrees(e: ExpenseEntry, vehicles: seq<Vehicles.Vehicle>)
    ensures TripFuelUsedAsWritten(e, vehicles).Some? ==> TripFuelUsedAsWritten(e, vehicles).value == TripFuelUsed(e, vehicles)
    ensures TripFuelUsedAsWritten(e, vehicles).None? <==>
      (FindVehicle(vehicles, e.vehicle).Some? && Filled(e.distance)
       && FindVehicle(vehicles, e.vehicle).value.mileage == Typed(0.0))
  {
  }

  /** A car whose mileage was typed as "0" makes the source divide by zero for any trip in it. */
  lemma ZeroMileageDividesByZero()
    ensures TripFuelUsedAsWritten(
              ExpenseEntry(1, "2024-01-01", "Swift", "", Typed(12.0), Typed(300.0), Blank, ""),
              [Vehicles.Vehicle(7, "Swift", "Car", Typed(0.0), "Petrol")]).None?
    ensures TripFuelUsed(
              ExpenseEntry(1, "2024-01-01", "Swift", "", Typed(12.0), Typed(300.0), Blank, ""),
              [Vehicles.Vehicle(7, "Swift", "Car", Typed(0.0), "Petrol")]) == 0.0
  {
  }

  /**
   * A worked example: a car doing 20 per litre, 10 litres bought at 100,
   * one 100-long trip earning 500 with 50 of other costs. The trip burns 5
   * litres, worth 500 at the average price of 100, so 5 litres remain and
   * the total expense after fuel is 500 + 50 - 500.
   */
  lemma WorkedExample()
    ensures Summarize(
              [FuelEntry(1, "Petrol", Typed(10.0), Typed(100.0))],
              [ExpenseEntry(2, "2024-01-01", "Swift", "A", Typed(100.0), Typed(500.0), Typed(50.0), "Uber")],
              [Vehicles.Vehicle(3, "Swift", "Car", Typed(20.0), "Petrol")])
         == Summary(1, 10.0, 1000.0, 5.0, 50.0)
  {
    var fuel := [FuelEntry(1, "Petrol", Typed(10.0), Typed(100.0))];
    var trip := ExpenseEntry(2, "2024-01-01", "Swift", "A", Typed(100.0), Typed(500.0), Typed(50.0), "Uber");
    var vehicles := [Vehicles.Vehicle(3, "Swift", "Car", Typed(20.0), "Petrol")];
    SumOfAppend([], fuel[0], Litres);
    SumOfAppend([], fuel[0], PurchaseCost);
    assert fuel == [] + [fuel[0]];
    assert [trip] == [] + [trip];
    SumOfAppend([], trip, FuelUsedColumn(vehicles));
    SumOfAppend([], trip, TripExpenseColumn(vehicles, 100.0));
    assert AvgFuelPrice(fuel) == 100.0;
    assert FindVehicle(vehicles, "Swift") == Some(vehicles[0]);
    assert TripFuelUsed(trip, vehicles) == 5.0;
  }

  /**
   * A trip in a vehicle that is not on the list: no fuel is burned, nothing
   * is deducted, and the total expense is its amount plus its other costs.
   */
  lemma UnlistedVehicleExample()
    ensures Summarize(
              [FuelEntry(1, "Petrol", Typed(10.0), Typed(100.0))],
              [ExpenseEntry(2, "2024-01-01", "Bike", "B", Typed(50.0), Typed(300.0), Typed(20.0), "Ola")],
              [Vehicles.Vehicle(3, "Swift", "Car", Typed(20.0), "Petrol")])
         == Summary(1, 10.0, 1000.0, 10.0, 320.0)
  {
    var fuel := [FuelEntry(1, "Petrol", Typed(10.0), Typed(100.0))];
    var trip := ExpenseEntry(2, "2024-01-01", "Bike", "B", Typed(50.0), Typed(300.0), Typed(20.0), "Ola");
    var vehicles := [Vehicles.Vehicle(3, "Swift", "Car", Typed(20.0), "Petrol")];
    SumOfAppend([], fuel[0], Litres);
    SumOfAppend([], fuel[0], PurchaseCost);
    assert fuel == [] + [fuel[0]];
    assert [trip] == [] + [trip];
    SumOfAppend([], trip, FuelUsedColumn(vehicles));
    SumOfAppend([], trip, TripExpenseColumn(vehicles, 100.0));
    assert AvgFuelPrice(fuel) == 100.0;
    assert FindVehicle(vehicles, "Bike") == None;
  }

  // ---------------------------------------------------------------------
  // Page state
  // ---------------------------------------------------------------------

  /** The state of the page; `vehicles` is the list the page is given. */
  class CostsPage {
    const vehicles: seq<Vehicles.Vehicle>
    var fuelEntries: seq<FuelEntry>
    var expenseEntries: seq<ExpenseEntry>

    /** The page opens with one blank fuel row and one blank trip row dated today. */
    constructor (vehicles: seq<Vehicles.Vehicle>, fuelId: int, expenseId: int, today: string)
      ensures this.vehicles == vehicles
      ensures fuelEntries == [BlankFuel(fuelId)]
      ensures expenseEntries == [BlankExpense(expenseId, today)]
    {
      this.vehicles := vehicles;
      fuelEntries := [BlankFuel(fuelId)];
      expenseEntries := [BlankExpense(expenseId, today)];
    }

    /** The summary section as the page shows it for its current state. */
    function Summary(): Summary
      reads this
    {
      Summarize(fuelEntries, expenseEntries, vehicles)
    }

    /** `handleFuelChange`: edit one field of every fuel row with the id; nothing else changes. */
    method HandleFuelChange(id: int, edit: FuelEdit)
      modifies this
      ensures expenseEntries == old(expenseEntries)
      ensures |fuelEntries| == |old(fuelEntries)|
      ensures forall i :: 0 <= i < |fuelEntries| ==>
        fuelEntries[i] == if old(fuelEntries)[i].id == id then ApplyFuelEdit(old(fuelEntries)[i], edit) else old(fuelEntries)[i]
    {
      fuelEntries := IdLists.MapWhere(fuelEntries, FuelId, id, f => ApplyFuelEdit(f, edit));
    }

    /** `addFuelEntry`: one blank fuel row at the end; the fuel totals do not move. */
    method AddFuelEntry(id: int)
      modifies this
      ensures fuelEntries == old(fuelEntries) + [BlankFuel(id)]
      ensures expenseEntries == old(expenseEntries)
      ensures Summary().totalFuel == old(Summary().totalFuel)
      ensures Summary().fuelCost == old(Summary().fuelCost)
    {
      BlankFuelKeepsTotals(fuelEntries, id);
      fuelEntries := fuelEntries + [BlankFuel(id)];
    }

    /** `removeFuelEntry`: every fuel row with the id goes, the rest keep their order. */
    method RemoveFuelEntry(id: int)
      modifies this
      ensures fuelEntries == IdLists.RemoveWhere(old(fuelEntries), FuelId, id)
      ensures expenseEntries == old(expenseEntries)
    {
      fuelEntries := IdLists.RemoveWhere(fuelEntries, FuelId, id);
    }

    /** `handleExpenseChange`: edit one field of every trip row with the id; nothing else changes. */
    method HandleExpenseChange(id: int, edit: ExpenseEdit)
      modifies this
      ensures fuelEntries == old(fuelEntries)
      ensures |expenseEntries| == |old(expenseEntries)|
      ensures forall i :: 0 <= i < |expenseEntries| ==>
        expenseEntries[i] == if old(expenseEntries)[i].id == id then ApplyExpenseEdit(old(expenseEntries)[i], edit) else old(expenseEntries)[i]
    {
      expenseEntries := IdLists.MapWhere(expenseEntries, ExpenseId, id, e => ApplyExpenseEdit(e, edit));
    }

    /** `addExpenseEntry`: one blank trip row dated today at the end; one more ride, same totals. */
    method AddExpenseEntry(id: int, today: string)
      modifies this
      ensures expenseEntries == old(expenseEntries) + [BlankExpense(id, today)]
      ensures fuelEntries == old(fuelEntries)
      ensures Summary().totalRides == old(Summary().totalRides) + 1
      ensures Summary().totalExpense == old(Summary().totalExpense)
      ensures Summary().remainingFuel == old(Summary().remainingFuel)
    {
      BlankExpenseKeepsTotals(fuelEntries, expenseEntries, vehicles, id, today);
      expenseEntries := expenseEntries + [BlankExpense(id, today)];
    }

    /** `removeExpenseEntry`: every trip row with the id goes, the rest keep their order. */
    method RemoveExpenseEntry(id: int)
      modifies this
      ensures expenseEntries == IdLists.RemoveWhere(old(expenseEntries), ExpenseId, id)
      ensures fuelEntries == old(fuelEntries)
    {
      expenseEntries := IdLists.RemoveWhere(expenseEntries, ExpenseId, id);
    }
  }
}
