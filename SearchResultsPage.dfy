/** The search results: the cars of the searched city whose availability window covers the
    requested span, in the order the store returned them. */
module SearchResultsPage {
  import opened Wrappers
  import opened Records

  /** The store query `where("location", "==", searchLocation)`. */
  function QueryByLocation(cars: seq<Car>, searchLocation: string): (r: seq<Car>)
    ensures forall c :: c in r <==> c in cars && c.location == Some(searchLocation)
  {
    if cars == [] then []
    else
      var rest := QueryByLocation(cars[1..], searchLocation);
      if cars[0].location == Some(searchLocation) then [cars[0]] + rest else rest
  }

  /** The filter's test: `availableFrom <= pickupDate && availableTill >= dropoffDate`. A missing
      bound, or an unparsable requested date (None), fails the comparison. */
  predicate CoversSpan(car: Car, pickup: Option<int>, dropoff: Option<int>) {
    && car.availableFrom.Some? && pickup.Some? && car.availableFrom.value <= pickup.value
    && car.availableTill.Some? && dropoff.Some? && car.availableTill.value >= dropoff.value
  }

  /** The `filter` over the fetched listings. */
  function FilterAvailable(listings: seq<Car>, pickup: Option<int>, dropoff: Option<int>): (r: seq<Car>)
    ensures |r| <= |listings|
    ensures forall c :: c in r <==> c in listings && CoversSpan(c, pickup, dropoff)
  {
    if listings == [] then []
    else
      var rest := FilterAvailable(listings[1..], pickup, dropoff);
      if CoversSpan(listings[0], pickup, dropoff) then [listings[0]] + rest else rest
  }

  /** `sub` is `s` with some elements left out and the rest in their original order. */
  predicate IsSubsequence<T(==)>(sub: seq<T>, s: seq<T>)
    decreases |s|
  {
    if sub == [] then true
    else if s == [] then false
    else if sub[0] == s[0] then IsSubsequence(sub[1..], s[1..])
    else IsSubsequence(sub, s[1..])
  }

  /** The filter keeps relative order. */
  lemma {:induction false} FilterIsSubsequence(listings: seq<Car>, pickup: Option<int>, dropoff: Option<int>)
    ensures IsSubsequence(FilterAvailable(listings, pickup, dropoff), listings)
  {
    if listings != [] {
      FilterIsSubsequence(listings[1..], pickup, dropoff);
      var rest := FilterAvailable(listings[1..], pickup, dropoff);
      if !CoversSpan(listings[0], pickup, dropoff) && rest != [] {
        // listings[0] is not kept, so it differs from the head of what was kept after it.
        assert rest[0] in rest && rest[0] != listings[0];
      }
    }
  }

  /** Filtering what the filter kept changes nothing. */
  lemma {:induction false} FilterIdempotent(listings: seq<Car>, pickup: Option<int>, dropoff: Option<int>)
    ensures FilterAvailable(FilterAvailable(listings, pickup, dropoff), pickup, dropoff)
         == FilterAvailable(listings, pickup, dropoff)
  {
    if listings != [] {
      FilterIdempotent(listings[1..], pickup, dropoff);
      var rest := FilterAvailable(listings[1..], pickup, dropoff);
      if CoversSpan(listings[0], pickup, dropoff) {
        assert ([listings[0]] + rest)[1..] == rest;
      }
    }
  }

  /** An invalid requested date ("Invalid Date") keeps nothing. */
  lemma {:induction false} InvalidDateKeepsNothing(listings: seq<Car>, dropoff: Option<int>)
    ensures FilterAvailable(listings, None, dropoff) == []
  {
    if listings != [] {
      InvalidDateKeepsNothing(listings[1..], dropoff);
    }
  }

  /** `fetchListings`: the location query followed by the availability filter. */
  function SearchListings(cars: seq<Car>, searchLocation: string, pickup: Option<int>, dropoff: Option<int>): (r: seq<Car>)
    ensures forall c :: c in r <==>
      c in cars && c.location == Some(searchLocation) && CoversSpan(c, pickup, dropoff)
  {
    FilterAvailable(QueryByLocation(cars, searchLocation), pickup, dropoff)
  }

  datatype SearchView = LoadingListings | ErrorMessage(message: string) | NoCarsAvailable | Results(listings: seq<Car>)

  /** The results pane: loading, then an error, then the empty message, then the cards. */
  function View(loading: bool, error: Option<string>, listings: seq<Car>): (v: SearchView)
    ensures loading <==> v == LoadingListings
    ensures v.ErrorMessage? <==> !loading && error.Some? && error.value != ""
    ensures v.ErrorMessage? ==> v.message == error.value
    ensures !loading && !(error.Some? && error.value != "") ==> (v == NoCarsAvailable <==> listings == [])
    ensures v.Results? ==> v.listings == listings && listings != []
    ensures !loading && !(error.Some? && error.value != "") && listings != [] ==> v == Results(listings)
  {
    if loading then LoadingListings
    else if error.Some? && error.value != "" then ErrorMessage(error.value)
    else if |listings| == 0 then NoCarsAvailable
    else Results(listings)
  }
}
