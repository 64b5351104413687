/** The vehicle-selection step: six inputs, a completeness check, and a check that both dates fall
    inside the car's availability window. Nothing here compares the request with other bookings,
    compares the times with the window, or compares pickup with dropoff. */
module SelectVehicle {
  import opened Wrappers
  import opened Records
  import opened BookingsPage

  const FillAllFieldsError := "Please fill all fields before proceeding."
  const OutsideAvailabilityError := "Selected dates are outside the car's availability range."

  /** Pickup and dropoff points offered in each city. */
  const LocationMappings: map<string, seq<string>> := map[
    "Hyderabad" := [
      "Ameerpet", "Miyapur", "Gachibowli", "LB Nagar", "Uppal", "Tarnaka", "Madhapur",
      "Secunderabad", "Paradise", "Malakpet", "Nampally", "Khairatabad", "Kukatpally", "JNTU"],
    "Chennai" := [
      "Tambaram", "Meenambakkam", "Pallavaram", "Chrompet", "Anna Nagar", "Guduvanchery",
      "T. Nagar", "Guindy", "Velachery", "Adyar", "Perambur"]
  ]

  /** The location options for a car: its city's points when the city is known, none otherwise. */
  function LocationOptions(car: Car): (r: seq<string>)
    ensures car.location.Some? && car.location.value in LocationMappings ==>
      r == LocationMappings[car.location.value]
    ensures car.location.None? || car.location.value !in LocationMappings ==> r == []
  {
    if car.location.Some? && car.location.value != "" && car.location.value in LocationMappings
    then LocationMappings[car.location.value]
    else []
  }

  /** Only Hyderabad and Chennai cars get any options: 14 and 11 points. */
  lemma LocationOptionsByCity(car: Car)
    ensures LocationOptions(car) != [] <==> car.location == Some("Hyderabad") || car.location == Some("Chennai")
    ensures car.location == Some("Hyderabad") ==> |LocationOptions(car)| == 14
    ensures car.location == Some("Chennai") ==> |LocationOptions(car)| == 11
  {
  }

  /** `isWithinAvailability`: `date` is the parsed input (None for an invalid date, which fails
      every comparison). Both ends of the window are inclusive; a missing bound rejects. */
  function IsWithinAvailability(car: Car, date: Option<int>): (r: bool)
    ensures car.availableFrom.None? || car.availableTill.None? || date.None? ==> !r
    ensures car.availableFrom.Some? && car.availableTill.Some? && date.Some? ==>
      (r <==> car.availableFrom.value <= date.value <= car.availableTill.value)
  {
    if car.availableFrom.None? || car.availableTill.None? then false
    else
      var from := car.availableFrom.value;
      var till := car.availableTill.value;
      date.Some? && date.value >= from && date.value <= till
  }

  /** The six inputs in the order the completeness check reads them. */
  function Inputs(d: BookingDetails): seq<string> {
    [d.pickupDate, d.dropoffDate, d.pickupTime, d.dropoffTime, d.pickupLocation, d.dropoffLocation]
  }

  predicate IsComplete(d: BookingDetails) {
    forall i :: 0 <= i < |Inputs(d)| ==> Inputs(d)[i] != ""
  }

  datatype ContinueOutcome = Incomplete | OutsideAvailability | Accepted(details: BookingDetails)

  /** What `handleContinue` decides for the current inputs, `parseDate` standing for `new Date(..)`. */
  function Continue(form: BookingDetails, car: Car, parseDate: string -> Option<int>): (r: ContinueOutcome)
    ensures r.Incomplete? <==> !IsComplete(form)
    ensures r.OutsideAvailability? <==>
      IsComplete(form) &&
      !(IsWithinAvailability(car, parseDate(form.pickupDate)) && IsWithinAvailability(car, parseDate(form.dropoffDate)))
    ensures r.Accepted? ==> r.details == form
  {
    if form.pickupDate == "" || form.dropoffDate == "" || form.pickupTime == "" ||
       form.dropoffTime == "" || form.pickupLocation == "" || form.dropoffLocation == ""
    then
      assert Inputs(form)[0] == "" || Inputs(form)[1] == "" || Inputs(form)[2] == "" ||
             Inputs(form)[3] == "" || Inputs(form)[4] == "" || Inputs(form)[5] == "";
      Incomplete
    else if !IsWithinAvailability(car, parseDate(form.pickupDate)) || !IsWithinAvailability(car, parseDate(form.dropoffDate))
    then OutsideAvailability
    else Accepted(form)
  }

  /** The times take part only in the completeness check: any two non-empty times give the same
      decision. */
  lemma TimesAreNotChecked(form: BookingDetails, pickupTime: string, dropoffTime: string,
                           car: Car, parseDate: string -> Option<int>)
    requires pickupTime != "" && dropoffTime != ""
    requires form.pickupTime != "" && form.dropoffTime != ""
    ensures Continue(form.(pickupTime := pickupTime, dropoffTime := dropoffTime), car, parseDate).Accepted?
        == Continue(form, car, parseDate).Accepted?
  {
    var form' := form.(pickupTime := pickupTime, dropoffTime := dropoffTime);
    forall i | 0 <= i < 6
      ensures (Inputs(form')[i] == "") == (Inputs(form)[i] == "")
    {
    }
    assert IsComplete(form') == IsComplete(form);
  }

  /** A dropoff date before the pickup date is accepted as long as both lie in the window. */
  lemma DropoffBeforePickupIsAccepted(form: BookingDetails, car: Car, parseDate: string -> Option<int>)
    requires IsComplete(form)
    requires car.availableFrom.Some? && car.availableTill.Some?
    requires parseDate(form.pickupDate).Some? && parseDate(form.dropoffDate).Some?
    requires car.availableFrom.value <= parseDate(form.dropoffDate).value
    requires parseDate(form.dropoffDate).value < parseDate(form.pickupDate).value
    requires parseDate(form.pickupDate).value <= car.availableTill.value
    ensures Continue(form, car, parseDate) == Accepted(form)
  {
  }

  /** The vehicle-selection component's own state. */
  class SelectVehicleForm {
    var form: BookingDetails
    var error: string
    var locationOptions: seq<string>

    constructor ()
      ensures form == EmptyBookingDetails && error == "" && locationOptions == []
    {
      form := EmptyBookingDetails;
      error := "";
      locationOptions := [];
    }

    /** The effect that runs when the car changes. */
    method CarChanged(car: Car)
      modifies this`locationOptions
      ensures locationOptions == LocationOptions(car)
    {
      locationOptions := LocationOptions(car);
    }

    /** `handleContinue`: on a rejection only the error changes; on acceptance the error is
        cleared, the page records exactly the six inputs and moves one step on. */
    method HandleContinue(car: Car, parseDate: string -> Option<int>, page: BookingPage)
      requires page.Valid()
      modifies this`error, page`bookingDetails, page`step
      ensures page.Valid()
      ensures match Continue(form, car, parseDate)
        case Incomplete =>
          error == FillAllFieldsError && page.bookingDetails == old(page.bookingDetails) && page.step == old(page.step)
        case OutsideAvailability =>
          error == OutsideAvailabilityError && page.bookingDetails == old(page.bookingDetails) && page.step == old(page.step)
        case Accepted(d) =>
          error == "" && page.bookingDetails == d && page.step == NextStepOf(old(page.step))
    {
      match Continue(form, car, parseDate) {
        case Incomplete =>
          error := FillAllFieldsError;
        case OutsideAvailability =>
          error := OutsideAvailabilityError;
        case Accepted(d) =>
          error := "";
          page.bookingDetails := d;
          page.NextStep();
      }
    }
  }
}
