/** Model of the rental pricing evaluator (carrental.cpp).

    The C++ program has an abstract base `Vehicle` (make, model, year) with three
    concrete variants, `Car`, `SUV` and `Truck`, each adding one field and fixing
    its own rental cost. `main` builds at most one vehicle from a category string
    and prints one block per variant slot, "null" for every slot the vehicle does
    not occupy. Vehicles are never changed after construction, so they are
    values; the `double` arithmetic is exact `real` arithmetic here. */
module CarRental {

  datatype Option<+T> = None | Some(value: T)

  /** The variant of a vehicle with its variant-specific field. */
  datatype Kind =
    | Car(numDoors: int)
    | SUV(allWheelDrive: bool)
    | Truck(cargoCapacity: real)   // in tons

  datatype Vehicle = Vehicle(make: string, model: string, year: int, kind: Kind) {

    /** `calculateRentalCost`: a flat rate for cars and SUVs, a base rate plus a
        rate per ton of cargo capacity for trucks. */
    function RentalCost(): (r: real)
      ensures kind.Truck? ==> TruckCapacityForCost(r) == kind.cargoCapacity
      ensures kind.Truck? ==> (r >= 100.0 <==> kind.cargoCapacity >= 0.0)
    {
      match kind
      case Car(_) => 50.0
      case SUV(_) => 70.0
      case Truck(cargoCapacity) => 100.0 + 15.0 * cargoCapacity
    }
  }

  /** The inverse of the truck rate: the cargo capacity a truck cost stands for. */
  function TruckCapacityForCost(cost: real): (capacity: real) {
    (cost - 100.0) / 15.0
  }

  /** The category string that selects each variant, which is also the title of
      its display slot. */
  function CategoryName(k: Kind): (name: string)
    ensures name == "Car" <==> k.Car?
    ensures name == "SUV" <==> k.SUV?
    ensures name == "Truck" <==> k.Truck?
  {
    match k
    case Car(_) => "Car"
    case SUV(_) => "SUV"
    case Truck(_) => "Truck"
  }

  /** Car and SUV costs are flat: 50 and 70 for every make, model, year, door
      count and drive. */
  lemma FlatRates(v: Vehicle)
    ensures v.kind.Car? ==> v.RentalCost() == 50.0
    ensures v.kind.SUV? ==> v.RentalCost() == 70.0
  {
  }

  /** Truck cost is 100 plus 15 per ton; a 2.5-ton truck costs 137.5. */
  lemma TruckRate(v: Vehicle)
    requires v.kind.Truck?
    ensures v.RentalCost() == 100.0 + 15.0 * v.kind.cargoCapacity
    ensures v.kind.cargoCapacity == 2.5 ==> v.RentalCost() == 137.5
  {
  }

  /** The cost depends on the variant and its own field only. */
  lemma CostDependsOnlyOnKind(v: Vehicle, w: Vehicle)
    requires v.kind == w.kind
    ensures v.RentalCost() == w.RentalCost()
  {
  }

  /** Heavier trucks cost more. */
  lemma TruckCostMonotone(v: Vehicle, w: Vehicle)
    requires v.kind.Truck? && w.kind.Truck?
    ensures v.kind.cargoCapacity < w.kind.cargoCapacity <==> v.RentalCost() < w.RentalCost()
  {
  }

  /** The selection in `main` (the category-specific console read becomes the
      parameter of the matching variant; the others are ignored): exactly "Car",
      "SUV" or "Truck" builds that variant, anything else builds nothing. */
  function SelectVehicle(category: string, make: string, model: string, year: int,
                         numDoors: int, allWheelDrive: bool, cargoCapacity: real): (r: Option<Vehicle>)
    ensures r.Some? <==> category == "Car" || category == "SUV" || category == "Truck"
    ensures r.Some? ==> CategoryName(r.value.kind) == category
    ensures r.Some? ==> r.value.make == make && r.value.model == model && r.value.year == year
    ensures r.Some? && r.value.kind.Car? ==> r.value.kind.numDoors == numDoors
    ensures r.Some? && r.value.kind.SUV? ==> r.value.kind.allWheelDrive == allWheelDrive
    ensures r.Some? && r.value.kind.Truck? ==> r.value.kind.cargoCapacity == cargoCapacity
  {
    if category == "Car" then Some(Vehicle(make, model, year, Car(numDoors)))
    else if category == "SUV" then Some(Vehicle(make, model, year, SUV(allWheelDrive)))
    else if category == "Truck" then Some(Vehicle(make, model, year, Truck(cargoCapacity)))
    else None
  }

  /** What a non-null slot prints: the vehicle's make, model, year and own field,
      and its rental cost. */
  datatype Block = Block(vehicle: Vehicle, rentalCost: real)

  /** One display slot: its title and either a block or "null". */
  datatype Slot = Slot(title: string, block: Option<Block>)

  /** The printed block of the vehicle, if the vehicle is present (the result of
      `dynamic_cast` to the slot's variant was not null). */
  function BlockIf(present: bool, v: Option<Vehicle>): (b: Option<Block>)
    requires present ==> v.Some?
  {
    if present then Some(Block(v.value, v.value.RentalCost())) else None
  }

  /** The three display slots in their printed order, Car, SUV, Truck: exactly the
      slot titled with the vehicle's category holds its block, and every other
      slot (all three when there is no vehicle) is null. */
  function Display(v: Option<Vehicle>): (slots: seq<Slot>)
    ensures |slots| == 3
    ensures slots[0].title == "Car" && slots[1].title == "SUV" && slots[2].title == "Truck"
    ensures forall i :: 0 <= i < |slots| ==>
      (slots[i].block.Some? <==> v.Some? && CategoryName(v.value.kind) == slots[i].title)
    ensures forall i :: 0 <= i < |slots| && slots[i].block.Some? ==>
      slots[i].block.value == Block(v.value, v.value.RentalCost())
  {
    [ Slot("Car", BlockIf(v.Some? && v.value.kind.Car?, v)),
      Slot("SUV", BlockIf(v.Some? && v.value.kind.SUV?, v)),
      Slot("Truck", BlockIf(v.Some? && v.value.kind.Truck?, v)) ]
  }

  /** The number of slots that are not null. */
  function NonNullCount(slots: seq<Slot>): (n: nat) {
    if slots == [] then 0
    else (if slots[0].block.Some? then 1 else 0) + NonNullCount(slots[1..])
  }

  /** At most one vehicle exists, so at most one slot is reported: exactly one
      when a vehicle was built, none otherwise. */
  lemma {:induction false} ExactlyOneSlot(v: Option<Vehicle>)
    ensures NonNullCount(Display(v)) == if v.Some? then 1 else 0
  {
    var slots := Display(v);
    assert NonNullCount(slots[2..]) == (if slots[2].block.Some? then 1 else 0) + NonNullCount(slots[3..]);
    assert NonNullCount(slots[1..]) == (if slots[1].block.Some? then 1 else 0) + NonNullCount(slots[2..]);
    assert slots[1..][1..] == slots[2..];
  }

  /** The whole output: an unknown category prints three null slots; a known one
      prints the built vehicle in its own slot with its rental cost. */
  lemma RentalReport(category: string, make: string, model: string, year: int,
                     numDoors: int, allWheelDrive: bool, cargoCapacity: real)
    ensures var v := SelectVehicle(category, make, model, year, numDoors, allWheelDrive, cargoCapacity);
      forall i :: 0 <= i < |Display(v)| ==>
        (Display(v)[i].block.Some? <==> Display(v)[i].title == category)
  {
  }
}
