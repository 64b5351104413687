/** The booking page: a five-step flow (vehicle selection, personal details, booking details,
    payment, confirmation) driven by one integer `step`, plus the state the steps share. */
module BookingsPage {
  import opened Wrappers
  import opened Records

  const FirstStep := 1
  const LastStep := 5

  /** What the vehicle-selection step records for the booking (all fields start empty). */
  datatype BookingDetails = BookingDetails(
    pickupDate: string,
    pickupTime: string,
    dropoffDate: string,
    dropoffTime: string,
    pickupLocation: string,
    dropoffLocation: string)

  const EmptyBookingDetails := BookingDetails("", "", "", "", "", "")

  /** The renter's details collected by the personal-details step (all fields start empty). */
  datatype PersonalInfo = PersonalInfo(
    firstName: string,
    middleName: string,
    lastName: string,
    dob: string,
    mobileNumber: string,
    email: string,
    address1: string,
    address2: string,
    city: string,
    state: string,
    postalCode: string,
    proofOfAddress: string,
    documentNumber: string)

  const EmptyPersonalInfo := PersonalInfo("", "", "", "", "", "", "", "", "", "", "", "", "")

  /** `Math.min(prev + 1, 5)`. */
  function NextStepOf(step: int): (r: int)
    ensures r <= LastStep && r <= step + 1
    ensures r == step + 1 || r == LastStep
  {
    if step + 1 < LastStep then step + 1 else LastStep
  }

  /** `Math.max(prev - 1, 1)`. */
  function PrevStepOf(step: int): (r: int)
    ensures r >= FirstStep && r >= step - 1
    ensures r == step - 1 || r == FirstStep
  {
    if step - 1 > FirstStep then step - 1 else FirstStep
  }

  datatype StepCommand = Next | Prev

  /** The step after applying `cmds` in order, starting from `step`. */
  function Run(step: int, cmds: seq<StepCommand>): int
    decreases |cmds|
  {
    if cmds == [] then step
    else
      var s := if cmds[0] == Next then NextStepOf(step) else PrevStepOf(step);
      Run(s, cmds[1..])
  }

  /** Any sequence of `nextStep`/`prevStep` calls keeps the step in 1..5. */
  lemma {:induction false} RunStaysInRange(step: int, cmds: seq<StepCommand>)
    requires FirstStep <= step <= LastStep
    ensures FirstStep <= Run(step, cmds) <= LastStep
    decreases |cmds|
  {
    if cmds != [] {
      var s := if cmds[0] == Next then NextStepOf(step) else PrevStepOf(step);
      RunStaysInRange(s, cmds[1..]);
    }
  }

  /** `nextStep` at the last step and `prevStep` at the first leave the step where it is. */
  lemma BoundariesAreFixed()
    ensures NextStepOf(LastStep) == LastStep
    ensures PrevStepOf(FirstStep) == FirstStep
  {
  }

  /** Going forward and back (or back and forward) away from the boundary is the identity. */
  lemma NextThenPrev(step: int)
    requires FirstStep <= step <= LastStep
    ensures step < LastStep ==> PrevStepOf(NextStepOf(step)) == step
    ensures step > FirstStep ==> NextStepOf(PrevStepOf(step)) == step
  {
  }

  /** What the page shows. */
  datatype Screen =
    | Spinner
    | CarNotFound
    | SelectVehicleScreen
    | PersonalDetailsScreen
    | BookingDetailsScreen
    | PaymentScreen
    | ConfirmationScreen

  /** The `switch (step)`: steps 1..5 each have their own screen, any other value falls back to
      the first. */
  function StepScreen(step: int): (v: Screen)
    ensures v != Spinner && v != CarNotFound
    ensures step == 1 ==> v == SelectVehicleScreen
    ensures step == 2 ==> v == PersonalDetailsScreen
    ensures step == 3 ==> v == BookingDetailsScreen
    ensures step == 4 ==> v == PaymentScreen
    ensures step == 5 ==> v == ConfirmationScreen
    ensures (step < FirstStep || step > LastStep) ==> v == SelectVehicleScreen
  {
    match step
    case 1 => SelectVehicleScreen
    case 2 => PersonalDetailsScreen
    case 3 => BookingDetailsScreen
    case 4 => PaymentScreen
    case 5 => ConfirmationScreen
    case _ => SelectVehicleScreen
  }

  /** The five steps show five different screens. */
  lemma StepScreensDistinct(i: int, j: int)
    requires FirstStep <= i <= LastStep && FirstStep <= j <= LastStep
    ensures StepScreen(i) == StepScreen(j) <==> i == j
  {
  }

  /** `renderStep`: the spinner wins over everything, then a missing car, then the step. */
  function RenderStep(loading: bool, car: Option<Car>, step: int): (v: Screen)
    ensures loading <==> v == Spinner
    ensures v == CarNotFound <==> !loading && car.None?
    ensures !loading && car.Some? ==> v == StepScreen(step)
  {
    if loading then Spinner
    else if car.None? then CarNotFound
    else StepScreen(step)
  }

  /** The state of one booking page. */
  class BookingPage {
    var step: int
    var loading: bool
    var car: Option<Car>
    var location: string
    var bookingDetails: BookingDetails
    var personalInfo: PersonalInfo

    ghost predicate Valid()
      reads this
    {
      FirstStep <= step <= LastStep
    }

    constructor ()
      ensures Valid() && step == FirstStep && loading && car == None && location == ""
      ensures bookingDetails == EmptyBookingDetails && personalInfo == EmptyPersonalInfo
    {
      step := FirstStep;
      loading := true;
      car := None;
      location := "";
      bookingDetails := EmptyBookingDetails;
      personalInfo := EmptyPersonalInfo;
    }

    /** The end of `fetchCarDetails`: `found` is the car document, or None when it does not exist
        or the read failed. Loading ends either way. */
    method CarFetched(found: Option<Car>)
      modifies this`car, this`location, this`loading
      ensures !loading
      ensures found.Some? ==> car == found && location == OrElse(found.value.location, "")
      ensures found.None? ==> car == old(car) && location == old(location)
    {
      if found.Some? {
        car := found;
        location := OrElse(found.value.location, "");
      }
      loading := false;
    }

    method NextStep()
      requires Valid()
      modifies this`step
      ensures Valid() && step == NextStepOf(old(step))
    {
      step := NextStepOf(step);
    }

    method PrevStep()
      requires Valid()
      modifies this`step
      ensures Valid() && step == PrevStepOf(old(step))
    {
      step := PrevStepOf(step);
    }

    /** What the page currently shows. */
    function Render(): (v: Screen)
      reads this
      ensures loading <==> v == Spinner
      ensures v == CarNotFound <==> !loading && car.None?
      ensures !loading && car.Some? && step == FirstStep ==> v == SelectVehicleScreen
      ensures !loading && car.Some? && step == LastStep ==> v == ConfirmationScreen
      ensures !loading && car.Some? ==> v == StepScreen(step)
    {
      RenderStep(loading, car, step)
    }
  }
}
