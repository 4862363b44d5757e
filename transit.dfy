/** The Transit entity: one ride, from draft through driver assignment to
    completion or cancellation, with its distance and its price. */
module Transit {
  import opened Wrappers
  import Money
  import Distance

  datatype Status =
    | Draft
    | Cancelled
    | WaitingForDriverAssignment
    | DriverAssignmentFailed
    | TransitToPassenger
    | InTransit
    | Completed

  /** The string constants the entity stores (the misspelling "assigment" is the code's). */
  function StatusName(s: Status): string {
    match s
    case Draft => "draft"
    case Cancelled => "cancelled"
    case WaitingForDriverAssignment => "waiting-for-driver-assigment"
    case DriverAssignmentFailed => "driver-assigment-failed"
    case TransitToPassenger => "transit-to-passenger"
    case InTransit => "in-transit"
    case Completed => "completed"
  }

  /** The status a string names, if it names one of the seven. */
  function ParseStatus(name: string): (r: Option<Status>)
    ensures r.Some? ==> StatusName(r.value) == name
    ensures r.None? <==> forall s :: StatusName(s) != name
  {
    if name == "draft" then Some(Draft)
    else if name == "cancelled" then Some(Cancelled)
    else if name == "waiting-for-driver-assigment" then Some(WaitingForDriverAssignment)
    else if name == "driver-assigment-failed" then Some(DriverAssignmentFailed)
    else if name == "transit-to-passenger" then Some(TransitToPassenger)
    else if name == "in-transit" then Some(InTransit)
    else if name == "completed" then Some(Completed)
    else None
  }

  /** Every status's name reads back as that status, so the names are distinct. */
  lemma ParseStatusName(s: Status)
    ensures ParseStatus(StatusName(s)) == Some(s)
  {
  }

  /** Collaborators that are not modelled: drivers, clients and addresses are
      referred to by identity only. */
  type DriverRef = nat
  type ClientRef = nat
  datatype Address = Address(ref: nat)

  /** The tariff in force at the transit's time: what it charges for a number
      of kilometres. How a tariff is chosen and computes is not modelled. */
  datatype Tariff = Tariff(calculateCost: real -> Money.Money)

  /** A pickup address may move at most this far (km). */
  const MaxPickupShiftKm: real := 0.25
  /** A pickup change is refused once the counter is above this. */
  const PickupChangeCounterLimit: int := 2
  /** More pending proposals than this count as awaiting responses. */
  const AwaitedResponsesLimit: int := 4
  /** Seconds after publication after which assignment takes too long. */
  const AssignmentTimeoutSeconds: int := 300

  predicate Cancellable(s: Status) {
    s == Draft || s == WaitingForDriverAssignment || s == TransitToPassenger
  }

  class Transit {
    var status: Status
    var from: Address
    var to: Address
    var pickupAddressChangeCounter: int
    var driver: Option<DriverRef>
    var proposedDrivers: seq<DriverRef>
    var awaitingDriversResponses: int
    var tariff: Tariff
    var km: real
    var price: Option<Money.Money>
    var estimatedPrice: Option<Money.Money>
    var driversFee: Option<Money.Money>
    var dateTime: int
    var published: Option<int>
    var client: ClientRef
    var carType: string

    /** The counters the entity keeps: at most three pickup changes succeed,
        and responses are never awaited from a negative number of drivers. */
    ghost predicate Valid()
      reads this
    {
      0 <= pickupAddressChangeCounter <= PickupChangeCounterLimit + 1 && 0 <= awaitingDriversResponses
    }

    /** A new transit is a draft, for the given distance, with nothing priced,
        no driver and both counters at zero. The tariff stands for the one in
        force at `dateTime`. */
    constructor(client: ClientRef, from: Address, to: Address, carClass: string, dateTime: int,
                distance: Distance.Distance, tariff: Tariff)
      ensures Valid()
      ensures status == Draft
      ensures this.client == client && this.from == from && this.to == to && carType == carClass
      ensures this.dateTime == dateTime && this.tariff == tariff && km == distance.km
      ensures pickupAddressChangeCounter == 0 && awaitingDriversResponses == 0
      ensures driver == None && proposedDrivers == [] && published == None
      ensures price == None && estimatedPrice == None && driversFee == None
    {
      this.client := client;
      this.from := from;
      this.to := to;
      carType := carClass;
      status := Draft;
      this.tariff := tariff;
      this.dateTime := dateTime;
      km := distance.km;
      proposedDrivers := [];
      pickupAddressChangeCounter := 0;
      driver := None;
      awaitingDriversResponses := 0;
      price := None;
      estimatedPrice := None;
      driversFee := None;
      published := None;
    }

    /** What the tariff charges for the current distance. */
    function Cost(): Money.Money
      reads this
    {
      tariff.calculateCost(km)
    }

    /** `calculateCost`: the tariff's price for the distance, recorded as the price. */
    method CalculateCost() returns (money: Money.Money)
      modifies this`price
      ensures money == Cost() && price == Some(money)
    {
      money := tariff.calculateCost(km);
      price := Some(money);
    }

    /** `estimateCost`: refused for a completed transit; otherwise records the
        tariff's price as the estimate and clears the price. */
    method EstimateCost() returns (r: Result<Money.Money>)
      modifies this`price, this`estimatedPrice
      ensures r.Ok? <==> status != Completed
      ensures r.Ok? ==> r.value == Cost() && estimatedPrice == Some(r.value) && price == None
      ensures r.Err? ==> r.error.Runtime? && price == old(price) && estimatedPrice == old(estimatedPrice)
    {
      if status == Completed {
        return Err(Runtime("Estimating cost for completed transit is forbidden, id = "));
      }
      var estimated := CalculateCost();
      estimatedPrice := Some(estimated);
      price := None;
      r := Ok(estimated);
    }

    /** `calculateFinalCosts`: only for a completed transit, whose price
        becomes the tariff's price. */
    method CalculateFinalCosts() returns (r: Result<Money.Money>)
      modifies this`price
      ensures r.Ok? <==> status == Completed
      ensures r.Ok? ==> r.value == Cost() && price == Some(r.value)
      ensures r.Err? ==> r.error.Runtime? && price == old(price)
    {
      if status != Completed {
        return Err(Runtime("Cannot calculate final cost if the transit is not completed"));
      }
      var money := CalculateCost();
      r := Ok(money);
    }

    /** `proposeDriver`: one more proposed driver, one more awaited response. */
    method ProposeDriver(d: DriverRef)
      requires Valid()
      modifies this`proposedDrivers, this`awaitingDriversResponses
      ensures Valid()
      ensures proposedDrivers == old(proposedDrivers) + [d]
      ensures awaitingDriversResponses == old(awaitingDriversResponses) + 1
      ensures IsAwaitingForDriversResponses() <==> old(awaitingDriversResponses) >= AwaitedResponsesLimit
    {
      proposedDrivers := proposedDrivers + [d];
      awaitingDriversResponses := awaitingDriversResponses + 1;
    }

    /** `driverAssignmentFailed`: marks the failure, drops the driver and the
        distance, re-estimates for zero kilometres and stops awaiting responses. */
    method DriverAssignmentFailed()
      requires Valid()
      modifies this`status, this`driver, this`km, this`price, this`estimatedPrice, this`awaitingDriversResponses
      ensures Valid()
      ensures status == Status.DriverAssignmentFailed && driver == None && km == 0.0
      ensures price == None && estimatedPrice == Some(tariff.calculateCost(0.0))
      ensures awaitingDriversResponses == 0
    {
      status := Status.DriverAssignmentFailed;
      driver := None;
      km := Distance.ToKmAsFloat(Distance.Zero());
      var _ := EstimateCost();
      awaitingDriversResponses := 0;
    }

    /** `publish`: the transit now waits for a driver, since `published`. */
    method Publish(at: int)
      modifies this`status, this`published
      ensures status == WaitingForDriverAssignment && published == Some(at)
    {
      status := WaitingForDriverAssignment;
      published := Some(at);
    }

    /** `cancel`: allowed from draft, waiting for a driver, or on the way to
        the passenger; then the transit is cancelled, without driver or
        distance, estimated at zero kilometres and awaiting nobody. Refused
        from any other status, with nothing changed. */
    method Cancel() returns (r: Result<()>)
      requires Valid()
      modifies this`status, this`driver, this`km, this`price, this`estimatedPrice, this`awaitingDriversResponses
      ensures Valid()
      ensures r.Ok? <==> Cancellable(old(status))
      ensures r.Ok? ==> status == Cancelled && driver == None && km == 0.0 && awaitingDriversResponses == 0
      ensures r.Ok? ==> price == None && estimatedPrice == Some(tariff.calculateCost(0.0))
      ensures r.Err? ==> r.error.InvalidArgument?
      ensures r.Err? ==> status == old(status) && driver == old(driver) && km == old(km)
      ensures r.Err? ==> price == old(price) && estimatedPrice == old(estimatedPrice)
      ensures r.Err? ==> awaitingDriversResponses == old(awaitingDriversResponses)
    {
      if !Cancellable(status) {
        return Err(InvalidArgument("Transit cannot be cancelled, id = "));
      }
      status := Cancelled;
      driver := None;
      km := Distance.ToKmAsFloat(Distance.Zero());
      var _ := EstimateCost();
      awaitingDriversResponses := 0;
      r := Ok(());
    }

    /** `changeDestination`: refused only for a completed transit; otherwise
        the new address and distance, re-estimated. */
    method ChangeDestination(newAddress: Address, newDistance: Distance.Distance) returns (r: Result<()>)
      modifies this`to, this`km, this`price, this`estimatedPrice
      ensures r.Ok? <==> status != Completed
      ensures r.Ok? ==> to == newAddress && km == newDistance.km
      ensures r.Ok? ==> price == None && estimatedPrice == Some(Cost())
      ensures r.Err? ==> r.error.InvalidArgument?
      ensures r.Err? ==> to == old(to) && km == old(km) && price == old(price) && estimatedPrice == old(estimatedPrice)
    {
      if status == Completed {
        return Err(InvalidArgument("Address 'to' cannot be changed, id = "));
      }
      to := newAddress;
      km := Distance.ToKmAsFloat(newDistance);
      var _ := EstimateCost();
      r := Ok(());
    }

    /** `changePickupAddress`: only for a draft, only to a place at most a
        quarter kilometre away, and only while the counter is at most two;
        each success re-estimates and counts one change. */
    method ChangePickupAddress(newAddress: Address, newDistance: Distance.Distance, distanceInKMeters: real)
      returns (r: Result<()>)
      requires Valid()
      modifies this`from, this`km, this`price, this`estimatedPrice, this`pickupAddressChangeCounter
      ensures Valid()
      ensures r.Ok? <==>
        status == Draft && distanceInKMeters <= MaxPickupShiftKm && old(pickupAddressChangeCounter) <= PickupChangeCounterLimit
      ensures r.Ok? ==> from == newAddress && km == newDistance.km
      ensures r.Ok? ==> price == None && estimatedPrice == Some(Cost())
      ensures r.Ok? ==> pickupAddressChangeCounter == old(pickupAddressChangeCounter) + 1
      ensures r.Err? ==> r.error.InvalidArgument?
      ensures r.Err? ==> from == old(from) && km == old(km) && price == old(price) && estimatedPrice == old(estimatedPrice)
      ensures r.Err? ==> pickupAddressChangeCounter == old(pickupAddressChangeCounter)
    {
      // The code also refuses a transit waiting for a driver; a draft never is one.
      if status != Draft || status == WaitingForDriverAssignment
        || distanceInKMeters > MaxPickupShiftKm
        || pickupAddressChangeCounter > PickupChangeCounterLimit
      {
        return Err(InvalidArgument("Address 'from' cannot be changed, id = "));
      }
      from := newAddress;
      km := Distance.ToKmAsFloat(newDistance);
      var _ := EstimateCost();
      pickupAddressChangeCounter := pickupAddressChangeCounter + 1;
      r := Ok(());
    }

    /** `setStatus`: takes exactly the seven status names; any other string
        is refused and the status stays as it was. */
    method SetStatus(name: string) returns (r: Result<()>)
      modifies this`status
      ensures r.Ok? <==> exists s :: StatusName(s) == name
      ensures r.Ok? ==> StatusName(status) == name
      ensures r.Err? ==> r == Err(InvalidArgument("Invalid driver status value")) && status == old(status)
    {
      var parsed := ParseStatus(name);
      if parsed.None? {
        return Err(InvalidArgument("Invalid driver status value"));
      }
      status := parsed.value;
      r := Ok(());
    }

    /** `setKm`: the distance always changes; the re-estimate that follows is
        refused for a completed transit, leaving both prices as they were. */
    method SetKm(distance: Distance.Distance) returns (r: Result<Money.Money>)
      modifies this`km, this`price, this`estimatedPrice
      ensures km == distance.km
      ensures r.Ok? <==> status != Completed
      ensures r.Ok? ==> price == None && estimatedPrice == Some(Cost()) && r.value == Cost()
      ensures r.Err? ==> r.error.Runtime? && price == old(price) && estimatedPrice == old(estimatedPrice)
    {
      km := Distance.ToKmAsFloat(distance);
      r := EstimateCost();
    }

    /** More than four proposals are awaiting an answer. */
    predicate IsAwaitingForDriversResponses()
      reads this
    {
      awaitingDriversResponses > AwaitedResponsesLimit
    }

    /** Published more than five minutes before `now`, or cancelled. */
    predicate IsWaitingForDriverAssignmentTooLong(now: int)
      reads this
      requires published.Some?
    {
      published.value + AssignmentTimeoutSeconds < now || status == Cancelled
    }
  }

  /** Once assignment takes too long it stays so as time goes on. */
  lemma TooLongStaysTooLong(t: Transit, now: int, later: int)
    requires t.published.Some? && now <= later
    requires t.IsWaitingForDriverAssignmentTooLong(now)
    ensures t.IsWaitingForDriverAssignmentTooLong(later)
  {
  }

  /** Within five minutes of publication only a cancelled transit waits too long. */
  lemma TooLongWithinTimeout(t: Transit, now: int)
    requires t.published.Some? && now <= t.published.value + AssignmentTimeoutSeconds
    ensures t.IsWaitingForDriverAssignmentTooLong(now) <==> t.status == Cancelled
  {
  }

  /** A draft transit accepts three pickup changes and refuses the fourth. */
  method ThreePickupChangesAtMost(t: Transit, a: Address, d: Distance.Distance)
    requires t.Valid() && t.status == Draft && t.pickupAddressChangeCounter == 0
    modifies t
    ensures t.Valid()
    ensures t.pickupAddressChangeCounter == 3
  {
    var r1 := t.ChangePickupAddress(a, d, 0.0);
    var r2 := t.ChangePickupAddress(a, d, 0.0);
    var r3 := t.ChangePickupAddress(a, d, 0.0);
    assert r1.Ok? && r2.Ok? && r3.Ok?;
    var r4 := t.ChangePickupAddress(a, d, 0.0);
    assert r4.Err?;
  }
}
