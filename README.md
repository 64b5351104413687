# Car rental platform: booking flow, reviews, listings and admin dashboard

A model, in Dafny, of the front-end logic of an online car rental site whose data lives in
Firestore: a renter searches the cars of a city for a date span, opens a listing, books it through
a five-step flow, and reviews it. An owner edits listings, and an admin sees a dashboard of users
and listings.

One Dafny module per source file:

- `BookingsPage` is the booking flow. It holds the step counter, kept within 1..5 by `nextStep`
  and `prevStep`. It also dispatches the step to its screen. Its `BookingPage` class holds the
  state the steps share: the car, the booking details and the personal details.
- `SelectVehicle` is the first step. It checks that all six inputs are filled in, then that both
  dates fall inside the car's availability window. It also supplies the pickup and dropoff points
  of the car's city.
- `PersonalDetails` is the second step. It has eleven required fields, a per-field change handler,
  a state selector that clears the city, the city options and the document-number placeholder.
- `OverallRatingStats` computes the review summary: total, mean and a five-bucket histogram. The
  histogram is built by an in-place loop over an array.
- `ReviewSection` covers three reviews per page and the "already reviewed" flag. It also covers
  the submit guard (only a renter who booked the car and has not reviewed it) and the state of an
  edit in progress.
- `SearchResultsPage` is the location query followed by the availability filter.
- `ListingDetailsPage` holds the price multipliers for an hour, a day, a week and a month, the
  displayed price and the car's age.
- `EditListingsPage` is the listing editor. The form is a record of JavaScript values. Editing the
  year recomputes the car's age. Saving converts fields to numbers and dates.
- `AdminDashboard` has the admin gate and the greeting name. It also builds the
  registrations-per-day chart (sort, then count per day in key order), and takes the last
  min(5, n) users and listings of the fetched lists, last first.

Three shared modules:

- `Wrappers`: `Option`, and JavaScript's `||` on strings.
- `JsArray`: `slice`, with negative bounds, and `reverse`.
- `Records`: the car, review and user documents.

Values the program gets from outside are parameters of the operations. These are the results of
store reads, the outcome of store writes (`writeSucceeds`) and the current year. Date parsing and
formatting are parameters too: `parseDate` for `new Date(string)`, where None is an Invalid Date;
`isoMinute` for the ISO minute text; and `dayKey` for the locale date. Timestamps are whole
milliseconds.

Nothing in the code checks a booking against other bookings, and nothing orders pickup before
dropoff or the start of a listing's availability before its end.
`SelectVehicle.DropoffBeforePickupIsAccepted` and `EditListingsPage.ReversedWindowIsWritten` show
this.

## Model

| member | source | states |
|---|---|---|
| `BookingsPage.NextStepOf` | src/pages/BookingsPage.jsx:70 | the next step is one more than the current one, and never more than 5 |
| `BookingsPage.PrevStepOf` | src/pages/BookingsPage.jsx:71 | the previous step is one less than the current one, and never less than 1 |
| `BookingsPage.RunStaysInRange` | src/pages/BookingsPage.jsx:70-71 | any sequence of `nextStep`/`prevStep` calls from a step in 1..5 stays in 1..5 |
| `BookingsPage.BoundariesAreFixed` | src/pages/BookingsPage.jsx:70-71 | `nextStep` at 5 and `prevStep` at 1 leave the step unchanged |
| `BookingsPage.NextThenPrev` | src/pages/BookingsPage.jsx:70-71 | below 5, forward then back returns to the same step; above 1, back then forward does too |
| `BookingsPage.StepScreen` | src/pages/BookingsPage.jsx:86-99 | steps 1..5 show vehicle selection, personal details, booking details, payment and confirmation, in that order; a value outside 1..5 falls back to vehicle selection, the step-1 screen |
| `BookingsPage.StepScreensDistinct` | src/pages/BookingsPage.jsx:86-99 | steps 1..5 show five different screens |
| `BookingsPage.RenderStep` | src/pages/BookingsPage.jsx:73-100 | the spinner shows exactly while loading; "not found" shows exactly when loading is over and there is no car; otherwise the step's screen shows |
| `BookingsPage.BookingPage.constructor` | src/pages/BookingsPage.jsx:15-45 | the page starts at step 1, loading, with no car, an empty location and empty booking and personal details |
| `BookingsPage.BookingPage.CarFetched` | src/pages/BookingsPage.jsx:47-65 | loading always ends; a found car is stored along with its location, or "" for none; a missing car leaves car and location unchanged |
| `BookingsPage.BookingPage.NextStep` | src/pages/BookingsPage.jsx:70 | the step becomes `NextStepOf` the old step and stays within 1..5 |
| `BookingsPage.BookingPage.PrevStep` | src/pages/BookingsPage.jsx:71 | the step becomes `PrevStepOf` the old step and stays within 1..5 |
| `BookingsPage.BookingPage.Render` | src/pages/BookingsPage.jsx:73-100 | the page shows the spinner exactly while loading and "not found" exactly when loading is over without a car; with a car, the page shows the step's own screen, so step 1 shows vehicle selection and step 5 the confirmation |
| `SelectVehicle.LocationOptions` | src/components/SelectVehicle.jsx:21-39 | the options are the city's points when the car's city is in the table, and empty otherwise |
| `SelectVehicle.LocationOptionsByCity` | src/components/SelectVehicle.jsx:21-30 | only Hyderabad cars (14 points) and Chennai cars (11 points) get any options |
| `SelectVehicle.IsWithinAvailability` | src/components/SelectVehicle.jsx:42-48 | false when either bound is missing or the date is invalid; otherwise true exactly when from <= date <= till, both ends inclusive |
| `SelectVehicle.Continue` | src/components/SelectVehicle.jsx:51-65 | "incomplete" exactly when some of the six inputs is empty; "outside" exactly when all are filled but either date is out of the window; acceptance records the six inputs unchanged |
| `SelectVehicle.TimesAreNotChecked` | src/components/SelectVehicle.jsx:51-65 | replacing the non-empty times by any other non-empty times never changes whether the request is accepted |
| `SelectVehicle.DropoffBeforePickupIsAccepted` | src/components/SelectVehicle.jsx:51-65 | any complete form whose dropoff date is earlier than its pickup date is accepted, with exactly its inputs, when both dates fall in the window |
| `SelectVehicle.SelectVehicleForm.constructor` | src/components/SelectVehicle.jsx:7-14 | all six inputs and the error start empty, with no location options |
| `SelectVehicle.SelectVehicleForm.CarChanged` | src/components/SelectVehicle.jsx:33-39 | the location options become `LocationOptions` of the car |
| `SelectVehicle.SelectVehicleForm.HandleContinue` | src/components/SelectVehicle.jsx:51-65 | an incomplete form or an out-of-window date sets its own error and leaves the booking details and the step unchanged; acceptance clears the error, records exactly the inputs and advances the step once |
| `OverallRatingStats.CountRating` | src/components/OverallRatingStats.jsx:11-15 | a star's count is at most the number of reviews, and 0 exactly when no review carries that star |
| `OverallRatingStats.OverallRating` | src/components/OverallRatingStats.jsx:18 | the mean is 0 with no reviews; otherwise the mean times the number of reviews is the rating sum |
| `OverallRatingStats.Distribution` | src/components/OverallRatingStats.jsx:9-15 | the in-place histogram has 5 entries, and entry i counts the reviews rated exactly i+1 |
| `OverallRatingStats.ComputeStats` | src/components/OverallRatingStats.jsx:6-22 | the total is the number of reviews, the mean is sum/total (0 for none) and the distribution is the per-star count |
| `OverallRatingStats.Percentage` | src/components/OverallRatingStats.jsx:39-40 | a bar is 0 when there are no reviews; otherwise it times the total is 100 times the count, i.e. count/total*100; it lies in 0..100 when the count is at most the total, and is 100 when every review has that star |
| `OverallRatingStats.AppendOne` | src/components/OverallRatingStats.jsx:8-15 | one more review adds its rating to the sum and adds one to its own star's count only |
| `OverallRatingStats.OutOfRangeRatingIsInNoBucket` | src/components/OverallRatingStats.jsx:8-15 | a rating outside 1..5 leaves every bucket unchanged but still adds to the total and the sum |
| `OverallRatingStats.BucketTotalBound` | src/components/OverallRatingStats.jsx:11-15 | the buckets hold at most all the reviews, and exactly all of them when every rating is in 1..5 |
| `OverallRatingStats.RatingSumBounds` | src/components/OverallRatingStats.jsx:8 | with ratings in 1..5 the sum lies between the total and five times the total |
| `OverallRatingStats.OverallRatingBounds` | src/components/OverallRatingStats.jsx:7-18 | with ratings in 1..5 and at least one review, the mean lies in 1..5 |
| `ReviewSection.DisplayedReviews` | src/components/ReviewSection.jsx:141-142 | a page shows at most 3 reviews: the reviews from (p-1)*3 to (p-1)*3+3, cut at the end of the list |
| `ReviewSection.TotalPages` | src/components/ReviewSection.jsx:143 | the page count is the fewest pages of 3 that hold all the reviews, i.e. ceil(n/3) |
| `ReviewSection.PagesThroughIsPrefix` | src/components/ReviewSection.jsx:141-143 | pages 1..m laid end to end are the first 3m reviews, or all of them |
| `ReviewSection.PagesCoverAllReviews` | src/components/ReviewSection.jsx:141-143 | pages 1..totalPages laid end to end are exactly the review list |
| `ReviewSection.PageOfReview` | src/components/ReviewSection.jsx:141-143 | review k sits on page k/3+1 at position k%3; that page is one of the page buttons, and no other page's range contains k |
| `ReviewSection.AlreadyReviewed` | src/components/ReviewSection.jsx:68-73 | true exactly when some fetched review has the user's uid |
| `ReviewSection.FormShownIffSubmitAllowed` | src/components/ReviewSection.jsx:149 | the rating form is on screen exactly when the submit guard (lines 85-88) would let a submission through |
| `ReviewSection.AuthorName` | src/components/ReviewSection.jsx:93 | the author is the display name when there is a non-empty one, and "Anonymous" otherwise; never empty |
| `ReviewSection.EditControlsShown` | src/components/ReviewSection.jsx:205-223 | Edit/Delete appear exactly on the current user's own reviews, except the one being edited |
| `ReviewSection.ReviewSectionState.constructor` | src/components/ReviewSection.jsx:20-31 | rating 0, empty text, page 1, no reviews, not booked, not reviewed, no edit open |
| `ReviewSection.ReviewSectionState.BookingStatusFetched` | src/components/ReviewSection.jsx:33-51 | without a user or a car id nothing changes; otherwise `hasBooked` becomes the query's answer |
| `ReviewSection.ReviewSectionState.ReviewsFetched` | src/components/ReviewSection.jsx:53-77 | with a car id the list becomes the fetched reviews; with a user too, `hasReviewed` becomes `AlreadyReviewed` of them |
| `ReviewSection.ReviewSectionState.Displayed` | src/components/ReviewSection.jsx:141-142 | the current page shows at most 3 reviews, the ones from (p-1)*3 to (p-1)*3+3 cut at the end of the list |
| `ReviewSection.ReviewSectionState.SelectPage` | src/components/ReviewSection.jsx:313 | a page button makes that page current |
| `ReviewSection.ReviewSectionState.HandleSubmit` | src/components/ReviewSection.jsx:83-107 | when the guard rejects, nothing is sent and nothing changes; otherwise the car id, uid, author name, rating and comment are sent, and only a successful write resets the rating to 0 and the text to "" |
| `ReviewSection.ReviewSectionState.HandleEdit` | src/components/ReviewSection.jsx:109-113 | the edit id, comment and rating become the given values |
| `ReviewSection.ReviewSectionState.HandleSaveEdit` | src/components/ReviewSection.jsx:115-129 | the draft comment and rating are written to that review; a successful write resets the editor to none, "" and 0, and a failed one leaves it as it was |
| `ReviewSection.ReviewSectionState.CancelEdit` | src/components/ReviewSection.jsx:277 | Cancel closes the editor |
| `SearchResultsPage.QueryByLocation` | src/pages/SearchResultsPage.jsx:34-36 | a car is returned exactly when it is in the collection and its location equals the searched one |
| `SearchResultsPage.FilterAvailable` | src/pages/SearchResultsPage.jsx:38-44 | a listing is kept exactly when both bounds are present and from <= pickup and till >= dropoff; the result is no longer than the input |
| `SearchResultsPage.FilterIsSubsequence` | src/pages/SearchResultsPage.jsx:38-44 | the kept listings are a subsequence of the fetched ones, so their order is preserved |
| `SearchResultsPage.FilterIdempotent` | src/pages/SearchResultsPage.jsx:38-44 | filtering the filtered list again changes nothing |
| `SearchResultsPage.InvalidDateKeepsNothing` | src/pages/SearchResultsPage.jsx:25-43 | an unparsable pickup date keeps no listing at all |
| `SearchResultsPage.SearchListings` | src/pages/SearchResultsPage.jsx:33-46 | a car is shown exactly when it is in the searched city and its window covers the requested span |
| `SearchResultsPage.View` | src/pages/SearchResultsPage.jsx:72-80 | "loading" shows exactly while loading; the error message itself shows exactly when loading is over and there is a non-empty error; after that, "no cars" shows exactly for an empty list and the cards of exactly the listings for a non-empty one |
| `ListingDetailsPage.OptionNamed` | src/pages/ListingDetailsPage.jsx:9-14 | looking up a key finds only the option carrying that label |
| `ListingDetailsPage.LabelRoundTrip` | src/pages/ListingDetailsPage.jsx:9-14 | every option's label looks up that same option |
| `ListingDetailsPage.DropDownListsEachOptionOnce` | src/pages/ListingDetailsPage.jsx:104 | the drop-down lists every option, under four different labels |
| `ListingDetailsPage.Multiplier` | src/pages/ListingDetailsPage.jsx:9-14 | every multiplier lies in 1..720, only the hour's is 1, and every other is a whole number of days |
| `ListingDetailsPage.CalculatedPrice` | src/pages/ListingDetailsPage.jsx:45 | the price is the hourly price times the option's multiplier: the hourly option costs the hourly price, every other option a multiple of 24, and no option less than the hourly price when that is non-negative |
| `ListingDetailsPage.MultiplierRelations` | src/pages/ListingDetailsPage.jsx:9-14 | an hour is 1, a day 24 hours, a week 7 days and a month 30 days |
| `ListingDetailsPage.PriceMonotone` | src/pages/ListingDetailsPage.jsx:9-14 | for a non-negative hourly price, hour <= day <= week <= month |
| `ListingDetailsPage.PriceAfterEffect` | src/pages/ListingDetailsPage.jsx:43-47 | with a listing the price is the hourly price times the multiplier, which under the default option is the hourly price itself; without one the price keeps its previous value |
| `ListingDetailsPage.CarAge` | src/pages/ListingDetailsPage.jsx:53 | the car's age plus its year is the current year |
| `ListingDetailsPage.Render` | src/pages/ListingDetailsPage.jsx:49-53 | "Loading..." shows exactly while loading; "not found" shows exactly after loading without a listing; otherwise the details show, with age currentYear - year |
| `PersonalDetails.Set` | src/components/PersonalDetails.jsx:37-42 | the named field takes the new value and every other field keeps its own |
| `PersonalDetails.MissingRequired` | src/components/PersonalDetails.jsx:50-63 | true exactly when some required field is empty, the required fields being all except middle name and second address line |
| `PersonalDetails.OptionalFieldsDoNotMatter` | src/components/PersonalDetails.jsx:51-63 | changing the middle name or second address line never changes the verdict |
| `PersonalDetails.WithState` | src/components/PersonalDetails.jsx:32-35 | the state takes the new value, the city becomes "", and no other field changes |
| `PersonalDetails.CityOptions` | src/components/PersonalDetails.jsx:177-184 | the city options are the state's list when its entry is an array, and empty otherwise |
| `PersonalDetails.DocumentNumberPlaceholder` | src/components/PersonalDetails.jsx:219-227 | there is no document-number input until a proof is chosen; it is "Passport Number*" for a passport and "Aadhar Number*" for anything else |
| `PersonalDetails.PersonalDetailsForm.constructor` | src/components/PersonalDetails.jsx:7 | the error starts empty |
| `PersonalDetails.PersonalDetailsForm.HandleChange` | src/components/PersonalDetails.jsx:37-42 | the page's personal details become `Set` of the old ones |
| `PersonalDetails.PersonalDetailsForm.HandleStateChange` | src/components/PersonalDetails.jsx:32-35 | the page's personal details become `WithState` of the old ones |
| `PersonalDetails.PersonalDetailsForm.HandleContinue` | src/components/PersonalDetails.jsx:50-69 | a missing required field sets the error and keeps the step; otherwise the error is cleared and the step advances |
| `EditListingsPage.ParseFormatRoundTrip` | src/pages/EditListingsPage.jsx:62 | `Number()` of a whole number as a number input writes it gives back that number |
| `EditListingsPage.ToNumber` | src/pages/EditListingsPage.jsx:77-80 | `Number()` yields a number or NaN: a number stays itself, "" becomes 0, an integer string becomes its value, any other string becomes NaN; a date becomes its milliseconds, a stored timestamp of whole seconds the number its `valueOf()` text reads as; undefined, NaN, an invalid date and the server-time placeholder become NaN |
| `EditListingsPage.YearsSince` | src/pages/EditListingsPage.jsx:37 | currentYear - year is a number exactly when the year converts to one, and then it is the difference |
| `EditListingsPage.IsoField` | src/pages/EditListingsPage.jsx:38-39 | a missing bound stays undefined, a timestamp becomes its ISO minute text, and any other value fails |
| `EditListingsPage.LoadedFormData` | src/pages/EditListingsPage.jsx:33-40 | loading succeeds exactly when both bounds are timestamps or missing; then the car's age is currentYear - year, each bound is its ISO minute text (or stays undefined), and every other field is the document's own |
| `EditListingsPage.ChangedFormData` | src/pages/EditListingsPage.jsx:56-66 | the named field takes the typed text; a year edit sets the car's age from it; every other field, and the age unless year or age was edited, is unchanged |
| `EditListingsPage.YearEditSetsAge` | src/pages/EditListingsPage.jsx:61-63 | typing year y sets the car's age to currentYear - y |
| `EditListingsPage.ToDate` | src/pages/EditListingsPage.jsx:81-82 | `new Date(v)` is a date or an invalid date: a parsable string becomes its parsed date, an unparsable one and undefined an invalid date, a number the date at that many milliseconds, and a date itself |
| `EditListingsPage.UpdatePayload` | src/pages/EditListingsPage.jsx:75-84 | the written document has the form's fields plus the converted ones; year, capacity, price and age are `Number()` of the form's values; each bound is `new Date` of the form's bound; `updatedAt` is the server time; everything else passes through unchanged |
| `EditListingsPage.ReversedWindowIsWritten` | src/pages/EditListingsPage.jsx:75-84 | an availability end before its start is written as entered |
| `EditListingsPage.UtcTextShiftsBounds` | src/pages/EditListingsPage.jsx:38-39 | as written: in a browser whose zone is `offset` ahead of UTC, opening a listing and saving it untouched writes each whole-minute bound `offset` earlier than it was stored |
| `EditListingsPage.LocalTextKeepsBounds` | src/pages/EditListingsPage.jsx:38-39 | corrected: loading the bounds as local minute text makes an untouched save write both stored bounds back unchanged |
| `EditListingsPage.EditListingForm.constructor` | src/pages/EditListingsPage.jsx:10-24 | the form starts as the blank listing, loading, with no error |
| `EditListingsPage.EditListingForm.ListingFetched` | src/pages/EditListingsPage.jsx:27-53 | loading always ends; a found document becomes the form, or raises an error when a bound is not a timestamp; a missing one sets "Listing not found."; a failed read records its message |
| `EditListingsPage.EditListingForm.HandleChange` | src/pages/EditListingsPage.jsx:56-66 | the form becomes `ChangedFormData` of the old form |
| `EditListingsPage.EditListingForm.HandleUpdate` | src/pages/EditListingsPage.jsx:69-92 | the document written is `UpdatePayload` of the form; the error is cleared, and set to "Failed to update listing." when the write fails |
| `AdminDashboard.GreetingName` | src/pages/AdminDashboard.jsx:35 | the display name if non-empty, else the username if non-empty, else "Admin" when both are missing or empty; never empty |
| `AdminDashboard.CheckAdminStatus` | src/pages/AdminDashboard.jsx:26-40 | admin exactly when a signed-in user's document has role "admin"; with a document the name is `GreetingName`; without a user or a document the state stays not-admin with no name |
| `AdminDashboard.KeptUsers` | src/pages/AdminDashboard.jsx:85-86 | the users kept are those with a creation time whose seconds are not 0, each as often as it occurs in the list, and no other |
| `AdminDashboard.RegistrationTimes` | src/pages/AdminDashboard.jsx:84-86 | one time per kept user, in order: the j-th time is seconds*1000 of the j-th kept user |
| `AdminDashboard.SortAscending` | src/pages/AdminDashboard.jsx:87 | the result is in ascending order and holds the same times |
| `AdminDashboard.UserRegistrations` | src/pages/AdminDashboard.jsx:84-87 | the registrations are sorted and are exactly the kept times |
| `AdminDashboard.DistinctInOrderKeys` | src/pages/AdminDashboard.jsx:90-98 | the days in order of first appearance have no repeats and are the same set of days as the list |
| `AdminDashboard.OccurrencesPositive` | src/pages/AdminDashboard.jsx:90-93 | a day's count is positive exactly when the day occurs |
| `AdminDashboard.CountsSumToTotal` | src/pages/AdminDashboard.jsx:90-93 | the per-day counts add up to the number of registrations |
| `AdminDashboard.CountByDay` | src/pages/AdminDashboard.jsx:90-93 | the in-place `reduce` holds a count for exactly the days that occur, each equal to that day's occurrences, with keys in order of first appearance |
| `AdminDashboard.RegistrationDays` | src/pages/AdminDashboard.jsx:89 | the i-th day is the day key of the i-th registration |
| `AdminDashboard.Points` | src/pages/AdminDashboard.jsx:95-98 | one chart point per key, carrying that key's count |
| `AdminDashboard.ChartData` | src/pages/AdminDashboard.jsx:89-98 | one bar per distinct day of the sorted registrations, in first-appearance order, each carrying that day's count |
| `AdminDashboard.ChartCountsProperties` | src/pages/AdminDashboard.jsx:90-98 | no day has two bars, every bar is at least 1, and the bars add up to the number of registrations |
| `AdminDashboard.ChartTotalIsKeptUsers` | src/pages/AdminDashboard.jsx:84-98 | the chart's bars add up to the number of users with a registration time |
| `AdminDashboard.Recent` | src/pages/AdminDashboard.jsx:169 | `slice(-5).reverse()` holds the last min(5, n) items of the fetched list, last first: item i is the i-th from the end |
| `AdminDashboard.Render` | src/pages/AdminDashboard.jsx:76-98 | a non-admin always gets "Access Denied", before loading is looked at; an admin gets "Loading..." exactly while loading; the dashboard shows the name, both totals, the chart by day and the last min(5, n) items of the fetched users and listings, last first |
| `JsArray.Slice` | src/components/ReviewSection.jsx:142 | `slice(start, end)` is never longer than the array or than end - start; for 0 <= start <= end it is the part from start to end, cut at the end of the array |
| `JsArray.Reverse` | src/pages/AdminDashboard.jsx:169 | `reverse()` keeps the length and puts the i-th item from the end at position i |
| `Wrappers.OrElse` | src/pages/BookingsPage.jsx:57 | `s \|\| fallback` on a string is s when it is present and non-empty, and the fallback otherwise (also used at ReviewSection.jsx:93 and AdminDashboard.jsx:35) |

## Findings

`LocalTimeBrowser` ties the two date parameters together for a browser whose local time is
`offset` milliseconds ahead of UTC. In such a browser, `toISOString()` writes the UTC minute,
while the `datetime-local` inputs (EditListingsPage.jsx:190, 196) and `new Date` read zone-less
minute text as local time. The rest of the model takes the formatter as a parameter (`LoadedFormData`,
`EditListingForm.ListingFetched`). The corrected loading passes `LocalIsoMinute` there.

| source | as written | input that shows it | evidently intended | confidence | as-written member | corrected member |
|---|---|---|---|---|---|---|
| src/pages/EditListingsPage.jsx:38-39 | each bound is loaded as `toDate().toISOString().slice(0, 16)`, the UTC minute, and saved with `new Date(text)`, which reads that text as local time | a listing available from 2024-01-01T10:00Z, opened and saved untouched in a browser at UTC+05:30, is stored as available from 2024-01-01T04:30Z | an untouched save writes the bounds back unchanged, so the loaded text is the local minute | not executed; high | `EditListingsPage.UtcTextShiftsBounds` | `EditListingsPage.LocalTextKeepsBounds` |

## Left out

- Store and authentication calls (`getDoc`, `getDocs`, `addDoc`, `updateDoc`, `deleteDoc`, `onAuthStateChanged`, `signOut`) are foreign I/O. What a read returns and whether a write succeeds are parameters.
- React effect scheduling, `useMemo`, `Promise.all` and the order in which asynchronous results arrive are not modelled. Each result is applied by its own method call.
- Date parsing and locale formatting are parameters: `parseDate`, `isoMinute`, `dayKey` and the current year. The formatted availability text on the vehicle card is not modelled.
- Floating-point display (`toFixed(1)`, progress bars) is not modelled. The mean and the percentages are exact reals.
- Prices, years, capacities and ratings are whole numbers.
- `EditListingsPage.ToNumber`: `Number()` is modelled for the empty string and for optionally signed decimal integers. Decimal fractions, exponents, surrounding whitespace and hex notation become NaN in the model, where JavaScript gives numbers. A stored timestamp with a fractional second converts to a fraction in JavaScript; the model's numbers are whole, and it gives NaN there.
- `EditListingsPage.LoadedFormData`: a bound that is neither missing nor a timestamp makes the load fail with an abstract error message. In JavaScript it is a `TypeError`, caught and shown by its own message.
- `AdminDashboard.Recent`: the lists come from unordered collection reads and are never sorted by creation time, so the "recent" tables show the last five documents in the order the store returns them. The model states that order and promises nothing about creation times.
- `AdminDashboard.CountByDay`: the object's keys are modelled in insertion order. JavaScript puts integer-like keys first, which locale date strings do not produce.
- `SelectVehicle.IsWithinAvailability`, `SearchResultsPage.FilterAvailable` and `SearchResultsPage.SearchListings`: a car's bounds are modelled as a timestamp or missing. A bound that is present but not a timestamp has no `toDate`, so the source throws. In the vehicle selection nothing then happens; in the search the whole result is replaced by the error message. These throwing paths are not modelled.
- The searched location is modelled as a string. An absent `location` URL parameter (null) is not modelled.
- `ReviewSection.ReviewSectionState`: the signed-in user is a constant fixed when the state is created. The source reads `auth.currentUser` on every render and re-runs its effects when it changes, so a user restored after the section mounts is not modelled.
- `SelectVehicle.LocationOptions`: the city table is a map. The source looks the city up in a plain object, which also finds inherited names such as "constructor" or "toString"; the render then fails on them. That edge is not modelled.
- `ReviewSection`: `handleDelete` (a `window.confirm` followed by a delete) is not modelled. Nor are the hover stars and the star, comment and edit-star setters, which are plain field writes. The alerts and the refetch after a submit or an edit are not modelled either; the refetch is a later `ReviewsFetched` call.
- `EditListingsPage`: `handleRemove` (a `window.confirm` followed by a delete) and the navigation after a save are not modelled.
- `SelectVehicle`: the six input setters are plain field writes and are not modelled.
- `PersonalDetails`: the fetch of the states and cities files is not modelled. The cities table is a parameter. The Back button is `BookingPage.PrevStep`.
- The browser-side `required` attributes on inputs are not modelled. Only the checks in the handlers are.
- `AdminDashboard`: logout and the fetching of the user and listing collections are not modelled. The users, the cars and the loading flag are inputs.
- The Express e-mail route, the SDK set-up, the profile page, the admin tables and the presentational pages are not part of this model.
- No booking-overlap, double-booking or pickup-before-dropoff check is modelled, because the code has none.
