/** The listing details page: a price for the chosen period (hour, day, week, month) and the
    car's age. */
module ListingDetailsPage {
  import opened Wrappers
  import opened Records

  datatype PriceOption = PerHour | PerDay | PerWeek | PerMonth

  /** The options in the order the drop-down lists them. */
  const PriceOptionOrder: seq<PriceOption> := [PerHour, PerDay, PerWeek, PerMonth]

  const DefaultOption := PerHour

  /** The key of an option in the `priceOptions` table. */
  function Label(o: PriceOption): string {
    match o
    case PerHour => "Per Hour"
    case PerDay => "Per Day"
    case PerWeek => "Per Week"
    case PerMonth => "Per Month"
  }

  /** The number of hours an option stands for. */
  function Multiplier(o: PriceOption): (m: nat)
    ensures 1 <= m <= 24 * 30
    ensures m == 1 <==> o == PerHour
    ensures o != PerHour ==> m % 24 == 0
  {
    match o
    case PerHour => 1
    case PerDay => 24
    case PerWeek => 24 * 7
    case PerMonth => 24 * 30
  }

  /** `priceOptions[key]`: None for a key the table does not hold. */
  function OptionNamed(key: string): (r: Option<PriceOption>)
    ensures r.Some? ==> Label(r.value) == key
  {
    if key == "Per Hour" then Some(PerHour)
    else if key == "Per Day" then Some(PerDay)
    else if key == "Per Week" then Some(PerWeek)
    else if key == "Per Month" then Some(PerMonth)
    else None
  }

  /** The labels name the options one to one. */
  lemma LabelRoundTrip(o: PriceOption)
    ensures OptionNamed(Label(o)) == Some(o)
  {
  }

  /** The drop-down offers every option once, under four different labels. */
  lemma DropDownListsEachOptionOnce()
    ensures forall o: PriceOption :: o in PriceOptionOrder
    ensures forall i, j :: 0 <= i < j < |PriceOptionOrder| ==> Label(PriceOptionOrder[i]) != Label(PriceOptionOrder[j])
  {
    forall o: PriceOption ensures o in PriceOptionOrder {
      match o
      case PerHour => assert PriceOptionOrder[0] == o;
      case PerDay => assert PriceOptionOrder[1] == o;
      case PerWeek => assert PriceOptionOrder[2] == o;
      case PerMonth => assert PriceOptionOrder[3] == o;
    }
  }

  /** A day is 24 hours, a week 7 days and a month 30 days. */
  lemma MultiplierRelations()
    ensures Multiplier(PerHour) == 1
    ensures Multiplier(PerDay) == 24 * Multiplier(PerHour)
    ensures Multiplier(PerWeek) == 7 * Multiplier(PerDay)
    ensures Multiplier(PerMonth) == 30 * Multiplier(PerDay)
  {
  }

  /** `pricePerHour * priceOptions[selectedOption]`, one option at a time. */
  function CalculatedPrice(listing: Car, selected: PriceOption): (price: int)
    ensures price == listing.pricePerHour * Multiplier(selected)
    ensures selected == PerHour ==> price == listing.pricePerHour
    ensures selected != PerHour ==> price % 24 == 0
    ensures listing.pricePerHour >= 0 ==> price >= listing.pricePerHour
  {
    var p := listing.pricePerHour;
    match selected
    case PerHour => assert Multiplier(selected) == 1; p
    case PerDay => assert Multiplier(selected) == 24; 24 * p
    case PerWeek => assert Multiplier(selected) == 24 * 7; 24 * (7 * p)
    case PerMonth => assert Multiplier(selected) == 24 * 30; 24 * (30 * p)
  }

  /** A longer period never costs less, for a non-negative hourly price. */
  lemma PriceMonotone(listing: Car)
    requires listing.pricePerHour >= 0
    ensures CalculatedPrice(listing, PerHour) <= CalculatedPrice(listing, PerDay)
    ensures CalculatedPrice(listing, PerDay) <= CalculatedPrice(listing, PerWeek)
    ensures CalculatedPrice(listing, PerWeek) <= CalculatedPrice(listing, PerMonth)
  {
  }

  /** The price effect: it recomputes the price once a listing is loaded, and leaves the previous
      price (initially 0) otherwise. */
  function PriceAfterEffect(listing: Option<Car>, selected: PriceOption, previous: int): (p: int)
    ensures listing.None? ==> p == previous
    ensures listing.Some? && selected == DefaultOption ==> p == listing.value.pricePerHour
    ensures listing.Some? ==> p == listing.value.pricePerHour * Multiplier(selected)
  {
    if listing.Some? then CalculatedPrice(listing.value, selected) else previous
  }

  /** `new Date().getFullYear() - listing.year`; the current year is a parameter. */
  function CarAge(currentYear: int, listing: Car): (age: int)
    ensures age + listing.year == currentYear
  {
    currentYear - listing.year
  }

  datatype DetailsView = Loading | NotFound | Details(listing: Car, carAge: int, price: int)

  /** The page: "Loading..." wins over "Listing not found.", then the details. */
  function Render(loading: bool, listing: Option<Car>, currentYear: int, price: int): (v: DetailsView)
    ensures loading <==> v == Loading
    ensures v == NotFound <==> !loading && listing.None?
    ensures v.Details? ==> v.listing == listing.value && v.carAge == currentYear - listing.value.year && v.price == price
  {
    if loading then Loading
    else if listing.None? then NotFound
    else Details(listing.value, CarAge(currentYear, listing.value), price)
  }
}
