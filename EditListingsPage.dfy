/** The listing editor: the form is the listing document loaded as a record of JavaScript values;
    editing the year recomputes the car's age; saving converts the numeric fields to numbers and
    the availability strings to dates, and checks nothing about their order. */
module EditListingsPage {
  import opened Wrappers

  /** A JavaScript value held in one field of the form or of the stored document. */
  datatype Value =
    | Undefined
    | Str(s: string)
    | Num(n: int)
    | NaN
    | Timestamp(ms: int)   // a stored Firestore timestamp
    | Date(ms: int)        // a valid JavaScript Date
    | InvalidDate
    | ServerTimestamp      // the store's "now" placeholder

  type FormData = map<string, Value>

  const ListingNotFoundError := "Listing not found."
  const UpdateFailedError := "Failed to update listing."
  const NotATimestampError := "availableFrom/availableTill is not a timestamp"

  /** `record[key]`: undefined for a key the record lacks. */
  function Get(r: FormData, key: string): Value {
    if key in r then r[key] else Undefined
  }

  /** The form before a listing is loaded. */
  const InitialFormData: FormData := map[
    "brand" := Str(""), "model" := Str(""), "year" := Str(""), "carAge" := Num(0),
    "pricePerHour" := Str(""), "fuelType" := Str("Petrol"), "capacity" := Str(""),
    "transmission" := Str("Automatic"), "location" := Str(""),
    "availableFrom" := Str(""), "availableTill" := Str("")]

  predicate IsDigit(c: char) {
    '0' <= c <= '9'
  }

  predicate AllDigits(s: string) {
    forall i :: 0 <= i < |s| ==> IsDigit(s[i])
  }

  /** The value of a string of decimal digits, read left to right. */
  function DigitsValue(s: string): nat
    requires AllDigits(s)
    decreases |s|
  {
    if s == [] then 0 else DigitsValue(s[..|s| - 1]) * 10 + (s[|s| - 1] as int - '0' as int)
  }

  /** A string of digits with an optional sign, as a whole number. */
  function ParseInteger(s: string): Option<int> {
    if |s| > 0 && AllDigits(s) then Some(DigitsValue(s))
    else if |s| > 1 && (s[0] == '-' || s[0] == '+') && AllDigits(s[1..]) then
      Some(if s[0] == '-' then -(DigitsValue(s[1..]) as int) else DigitsValue(s[1..]))
    else None
  }

  function DigitChar(d: nat): char
    requires d < 10
  {
    ('0' as int + d) as char
  }

  /** The decimal digits of n. */
  function FormatNat(n: nat): string
    decreases n
  {
    if n < 10 then [DigitChar(n)] else FormatNat(n / 10) + [DigitChar(n % 10)]
  }

  /** How a whole number is written in a number input. */
  function FormatInt(n: int): string {
    if n < 0 then "-" + FormatNat(-n) else FormatNat(n)
  }

  lemma {:induction false} FormatNatDigits(n: nat)
    ensures |FormatNat(n)| > 0 && AllDigits(FormatNat(n)) && DigitsValue(FormatNat(n)) == n
    decreases n
  {
    if n >= 10 {
      FormatNatDigits(n / 10);
      var s := FormatNat(n / 10);
      var t := s + [DigitChar(n % 10)];
      assert t[..|t| - 1] == s;
      assert AllDigits(t) by {
        forall i | 0 <= i < |t| ensures IsDigit(t[i]) {
          if i < |s| { assert t[i] == s[i]; }
        }
      }
    }
  }

  /** Reading back a written whole number gives the number. */
  lemma ParseFormatRoundTrip(n: int)
    ensures FormatInt(n) != "" && ParseInteger(FormatInt(n)) == Some(n)
  {
    if n < 0 {
      FormatNatDigits(-n);
      var s := FormatInt(n);
      assert s[0] == '-' && s[1..] == FormatNat(-n);
      assert !AllDigits(s) by { assert !IsDigit(s[0]); }
    } else {
      FormatNatDigits(n);
    }
  }

  /** A stored timestamp's `valueOf()` is the text `<seconds>.<nanoseconds>`, whose seconds are
      counted from 0001-01-01T00:00:00Z: this many seconds before the Unix epoch. */
  const TimestampSecondsShift := 62135596800

  /** `Number(v)`: the empty string is 0, an integer string its value, a date its milliseconds,
      a stored timestamp the number its `valueOf()` text reads as, other values NaN. */
  function ToNumber(v: Value): (r: Value)
    ensures r.Num? || r.NaN?
    ensures v.Num? ==> r == v
    ensures v == Str("") ==> r == Num(0)
    ensures v.Str? && v.s != "" && ParseInteger(v.s).Some? ==> r == Num(ParseInteger(v.s).value)
    ensures v.Str? && v.s != "" && ParseInteger(v.s).None? ==> r == NaN
    ensures v.Date? ==> r == Num(v.ms)
    ensures v.Timestamp? && v.ms % 1000 == 0 ==> r == Num(v.ms / 1000 + TimestampSecondsShift)
    ensures v.Timestamp? && v.ms % 1000 != 0 ==> r == NaN
    ensures v == Undefined || v == NaN || v == InvalidDate || v == ServerTimestamp ==> r == NaN
  {
    match v
    case Num(n) => Num(n)
    case Str(s) =>
      if s == "" then Num(0)
      else if ParseInteger(s).Some? then Num(ParseInteger(s).value)
      else NaN
    case Date(t) => Num(t)
    case Timestamp(t) => if t % 1000 == 0 then Num(t / 1000 + TimestampSecondsShift) else NaN
    case _ => NaN
  }

  /** `currentYear - year` with JavaScript's `-`, which first converts `year` to a number. */
  function YearsSince(currentYear: int, year: Value): (r: Value)
    ensures r.Num? <==> ToNumber(year).Num?
    ensures r.Num? ==> r.n == currentYear - ToNumber(year).n
  {
    match ToNumber(year)
    case Num(n) => Num(currentYear - n)
    case _ => NaN
  }

  /** `value?.toDate().toISOString().slice(0, 16)`: undefined stays undefined, a stored timestamp
      becomes its minute-precision ISO text (`isoMinute`), anything else has no `toDate` (None). */
  function IsoField(v: Value, isoMinute: int -> string): (r: Option<Value>)
    ensures v == Undefined ==> r == Some(Undefined)
    ensures v.Timestamp? ==> r == Some(Str(isoMinute(v.ms)))
    ensures r.None? <==> v != Undefined && !v.Timestamp?
  {
    match v
    case Undefined => Some(Undefined)
    case Timestamp(t) => Some(Str(isoMinute(t)))
    case _ => None
  }

  /** The form made from a loaded document: the document with the car's age and the two
      availability bounds turned into input text. None when a bound is not a timestamp. */
  function LoadedFormData(data: FormData, currentYear: int, isoMinute: int -> string): (r: Option<FormData>)
    ensures r.Some? <==> IsoField(Get(data, "availableFrom"), isoMinute).Some? &&
                         IsoField(Get(data, "availableTill"), isoMinute).Some?
    ensures r.Some? ==> Get(r.value, "carAge") == YearsSince(currentYear, Get(data, "year"))
    ensures r.Some? ==> Get(r.value, "availableFrom") == IsoField(Get(data, "availableFrom"), isoMinute).value
    ensures r.Some? ==> Get(r.value, "availableTill") == IsoField(Get(data, "availableTill"), isoMinute).value
    ensures r.Some? ==> forall k :: k != "carAge" && k != "availableFrom" && k != "availableTill" ==>
      Get(r.value, k) == Get(data, k)
  {
    var from := IsoField(Get(data, "availableFrom"), isoMinute);
    var till := IsoField(Get(data, "availableTill"), isoMinute);
    if from.None? || till.None? then None
    else Some(data["carAge" := YearsSince(currentYear, Get(data, "year"))]
                  ["availableFrom" := from.value]["availableTill" := till.value])
  }

  /** `{ ...formData, [name]: value }`, and a new car age when the year is the field. */
  function ChangedFormData(f: FormData, name: string, value: string, currentYear: int): (r: FormData)
    ensures Get(r, name) == Str(value)
    ensures name == "year" ==> Get(r, "carAge") == YearsSince(currentYear, Str(value))
    ensures forall k :: k != name && k != "carAge" ==> Get(r, k) == Get(f, k)
    ensures name != "year" && name != "carAge" ==> Get(r, "carAge") == Get(f, "carAge")
  {
    var updated := f[name := Str(value)];
    if name == "year" then updated["carAge" := YearsSince(currentYear, Str(value))] else updated
  }

  /** Typing year y makes the car's age `currentYear - y`. */
  lemma YearEditSetsAge(f: FormData, y: int, currentYear: int)
    ensures Get(ChangedFormData(f, "year", FormatInt(y), currentYear), "carAge") == Num(currentYear - y)
  {
    ParseFormatRoundTrip(y);
  }

  /** `new Date(v)`: `parseDate` reads a date string (None for an unreadable one); a number is a
      time in milliseconds; anything else is an invalid date. */
  function ToDate(v: Value, parseDate: string -> Option<int>): (r: Value)
    ensures r.Date? || r == InvalidDate
    ensures v.Str? && parseDate(v.s).Some? ==> r == Date(parseDate(v.s).value)
    ensures v.Str? && parseDate(v.s).None? ==> r == InvalidDate
    ensures v.Num? ==> r == Date(v.n)
    ensures v.Date? ==> r == v
    ensures v == Undefined ==> r == InvalidDate
  {
    match v
    case Str(s) => if parseDate(s).Some? then Date(parseDate(s).value) else InvalidDate
    case Num(n) => Date(n)
    case Date(t) => Date(t)
    case _ => InvalidDate
  }

  /** The fields `handleUpdate` overrides. */
  predicate IsConverted(k: string) {
    k == "year" || k == "capacity" || k == "pricePerHour" || k == "carAge" ||
    k == "availableFrom" || k == "availableTill" || k == "updatedAt"
  }

  const ConvertedFields: set<string> :=
    {"year", "capacity", "pricePerHour", "carAge", "availableFrom", "availableTill", "updatedAt"}

  /** The value `handleUpdate` writes for field `k`: numbers through `Number()`, dates through
      `new Date()`, the server's time for `updatedAt`, the form's own value otherwise. */
  function WrittenValue(f: FormData, parseDate: string -> Option<int>, k: string): Value {
    if k == "year" || k == "capacity" || k == "pricePerHour" || k == "carAge" then ToNumber(Get(f, k))
    else if k == "availableFrom" || k == "availableTill" then ToDate(Get(f, k), parseDate)
    else if k == "updatedAt" then ServerTimestamp
    else Get(f, k)
  }

  /** The document `handleUpdate` writes. */
  function UpdatePayload(f: FormData, parseDate: string -> Option<int>): (r: FormData)
    ensures forall k :: k in r <==> k in f || IsConverted(k)
    ensures forall k :: !IsConverted(k) ==> Get(r, k) == Get(f, k)
    ensures Get(r, "year") == ToNumber(Get(f, "year")) && Get(r, "capacity") == ToNumber(Get(f, "capacity"))
    ensures Get(r, "pricePerHour") == ToNumber(Get(f, "pricePerHour")) && Get(r, "carAge") == ToNumber(Get(f, "carAge"))
    ensures Get(r, "availableFrom") == ToDate(Get(f, "availableFrom"), parseDate)
    ensures Get(r, "availableTill") == ToDate(Get(f, "availableTill"), parseDate)
    ensures Get(r, "updatedAt") == ServerTimestamp
  {
    map k | k in f.Keys + ConvertedFields :: WrittenValue(f, parseDate, k)
  }

  /** A window that ends before it starts is written as it is: nothing checks the order. */
  lemma ReversedWindowIsWritten(f: FormData, parseDate: string -> Option<int>, from: string, till: string)
    requires Get(f, "availableFrom") == Str(from) && Get(f, "availableTill") == Str(till)
    requires parseDate(from).Some? && parseDate(till).Some? && parseDate(till).value < parseDate(from).value
    ensures Get(UpdatePayload(f, parseDate), "availableFrom") == Date(parseDate(from).value)
    ensures Get(UpdatePayload(f, parseDate), "availableTill") == Date(parseDate(till).value)
  {
  }

  const MillisPerMinute := 60000

  /** The date parameters of a browser whose local time runs `offset` milliseconds ahead of UTC:
      `isoMinute` writes the UTC wall-clock minute of an instant (`toISOString()`), and
      `parseDate` reads that zone-less minute text as local time. */
  ghost predicate LocalTimeBrowser(isoMinute: int -> string, parseDate: string -> Option<int>, offset: int) {
    forall t :: parseDate(isoMinute(t)) == Some(t - t % MillisPerMinute - offset)
  }

  /** In such a browser, the text written for a whole-minute instant reads back `offset` earlier. */
  lemma ReadBackMinute(isoMinute: int -> string, parseDate: string -> Option<int>, offset: int, t: int)
    requires LocalTimeBrowser(isoMinute, parseDate, offset) && t % MillisPerMinute == 0
    ensures parseDate(isoMinute(t)) == Some(t - offset)
  {
    assert parseDate(isoMinute(t)) == Some(t - t % MillisPerMinute - offset);
  }

  /** A stored bound, loaded through `format` and saved untouched, is written as the date its
      text reads back as. */
  lemma SavedBound(data: FormData, currentYear: int, format: int -> string,
                   parseDate: string -> Option<int>, key: string, t: int, m: int)
    requires key == "availableFrom" || key == "availableTill"
    requires IsoField(Get(data, "availableFrom"), format).Some?
    requires IsoField(Get(data, "availableTill"), format).Some?
    requires Get(data, key) == Timestamp(t) && parseDate(format(t)) == Some(m)
    ensures LoadedFormData(data, currentYear, format).Some?
    ensures Get(UpdatePayload(LoadedFormData(data, currentYear, format).value, parseDate), key) == Date(m)
  {
    var f := LoadedFormData(data, currentYear, format).value;
    assert Get(f, key) == Str(format(t));
  }

  /** As written: opening a listing and saving it untouched moves both bounds back by the
      browser's zone offset, since the loaded text is UTC and the saved text is read as local. */
  lemma UtcTextShiftsBounds(data: FormData, currentYear: int, isoMinute: int -> string,
                            parseDate: string -> Option<int>, offset: int, from: int, till: int)
    requires LocalTimeBrowser(isoMinute, parseDate, offset)
    requires Get(data, "availableFrom") == Timestamp(from) && from % MillisPerMinute == 0
    requires Get(data, "availableTill") == Timestamp(till) && till % MillisPerMinute == 0
    ensures LoadedFormData(data, currentYear, isoMinute).Some?
    ensures var saved := UpdatePayload(LoadedFormData(data, currentYear, isoMinute).value, parseDate);
      Get(saved, "availableFrom") == Date(from - offset) && Get(saved, "availableTill") == Date(till - offset)
  {
    ShiftedBound(data, currentYear, isoMinute, parseDate, offset, "availableFrom", from);
    ShiftedBound(data, currentYear, isoMinute, parseDate, offset, "availableTill", till);
  }

  /** One bound of `UtcTextShiftsBounds`. */
  lemma ShiftedBound(data: FormData, currentYear: int, isoMinute: int -> string,
                     parseDate: string -> Option<int>, offset: int, key: string, t: int)
    requires LocalTimeBrowser(isoMinute, parseDate, offset)
    requires key == "availableFrom" || key == "availableTill"
    requires Get(data, "availableFrom").Timestamp? && Get(data, "availableTill").Timestamp?
    requires Get(data, key) == Timestamp(t) && t % MillisPerMinute == 0
    ensures LoadedFormData(data, currentYear, isoMinute).Some?
    ensures Get(UpdatePayload(LoadedFormData(data, currentYear, isoMinute).value, parseDate), key) == Date(t - offset)
  {
    ReadBackMinute(isoMinute, parseDate, offset, t);
    SavedBound(data, currentYear, isoMinute, parseDate, key, t, t - offset);
  }

  /** Minute text of the local wall clock: what a `datetime-local` input expects. */
  function LocalIsoMinute(isoMinute: int -> string, offset: int): (local: int -> string)
    ensures forall t :: local(t) == isoMinute(t + offset)
  {
    t => isoMinute(t + offset)
  }

  /** Corrected: loading the bounds as local minute text makes an untouched save write the
      stored instants back unchanged. */
  lemma LocalTextKeepsBounds(data: FormData, currentYear: int, isoMinute: int -> string,
                             parseDate: string -> Option<int>, offset: int, from: int, till: int)
    requires LocalTimeBrowser(isoMinute, parseDate, offset) && offset % MillisPerMinute == 0
    requires Get(data, "availableFrom") == Timestamp(from) && from % MillisPerMinute == 0
    requires Get(data, "availableTill") == Timestamp(till) && till % MillisPerMinute == 0
    ensures LoadedFormData(data, currentYear, LocalIsoMinute(isoMinute, offset)).Some?
    ensures var saved := UpdatePayload(LoadedFormData(data, currentYear, LocalIsoMinute(isoMinute, offset)).value, parseDate);
      Get(saved, "availableFrom") == Date(from) && Get(saved, "availableTill") == Date(till)
  {
    var local := LocalIsoMinute(isoMinute, offset);
    ReadBackLocalMinute(isoMinute, parseDate, offset, from);
    ReadBackLocalMinute(isoMinute, parseDate, offset, till);
    SavedBound(data, currentYear, local, parseDate, "availableFrom", from, from);
    SavedBound(data, currentYear, local, parseDate, "availableTill", till, till);
  }

  /** Local minute text of a whole-minute instant reads back as that instant. */
  lemma ReadBackLocalMinute(isoMinute: int -> string, parseDate: string -> Option<int>, offset: int, t: int)
    requires LocalTimeBrowser(isoMinute, parseDate, offset) && offset % MillisPerMinute == 0
    requires t % MillisPerMinute == 0
    ensures parseDate(LocalIsoMinute(isoMinute, offset)(t)) == Some(t)
  {
    ShiftedMinute(t, offset);
    ReadBackMinute(isoMinute, parseDate, offset, t + offset);
  }

  /** A whole-minute instant moved by a whole-minute offset is still a whole minute. */
  lemma ShiftedMinute(t: int, offset: int)
    requires t % MillisPerMinute == 0 && offset % MillisPerMinute == 0
    ensures (t + offset) % MillisPerMinute == 0
  {
    assert t + offset == MillisPerMinute * (t / MillisPerMinute + offset / MillisPerMinute);
  }

  /** What the read of the listing document returned. */
  datatype Fetched = Found(data: FormData) | Missing | FetchFailed(message: string)

  /** The editor's state. */
  class EditListingForm {
    var formData: FormData
    var loading: bool
    var error: Option<string>

    constructor ()
      ensures formData == InitialFormData && loading && error == None
    {
      formData := InitialFormData;
      loading := true;
      error := None;
    }

    /** `fetchListing`: load the document into the form, or record why not; loading ends. */
    method ListingFetched(result: Fetched, currentYear: int, isoMinute: int -> string)
      modifies this`formData, this`error, this`loading
      ensures !loading
      ensures result.Found? && LoadedFormData(result.data, currentYear, isoMinute).Some? ==>
        formData == LoadedFormData(result.data, currentYear, isoMinute).value && error == old(error)
      ensures result.Found? && LoadedFormData(result.data, currentYear, isoMinute).None? ==>
        formData == old(formData) && error == Some(NotATimestampError)
      ensures result.Missing? ==> formData == old(formData) && error == Some(ListingNotFoundError)
      ensures result.FetchFailed? ==> formData == old(formData) && error == Some(result.message)
    {
      match result {
        case Found(data) =>
          var loaded := LoadedFormData(data, currentYear, isoMinute);
          if loaded.Some? {
            formData := loaded.value;
          } else {
            error := Some(NotATimestampError);
          }
        case Missing =>
          error := Some(ListingNotFoundError);
        case FetchFailed(message) =>
          error := Some(message);
      }
      loading := false;
    }

    /** `handleChange`: copy the record with the new value, then fix up the car's age in the
        copy when the year changed. */
    method HandleChange(name: string, value: string, currentYear: int)
      modifies this`formData
      ensures formData == ChangedFormData(old(formData), name, value, currentYear)
    {
      var updated := formData[name := Str(value)];
      if name == "year" {
        updated := updated["carAge" := YearsSince(currentYear, Str(value))];
      }
      formData := updated;
    }

    /** `handleUpdate`: `payload` is the document written; `writeSucceeds` is the outcome. */
    method HandleUpdate(parseDate: string -> Option<int>, writeSucceeds: bool) returns (payload: FormData)
      modifies this`error
      ensures payload == UpdatePayload(formData, parseDate)
      ensures error == if writeSucceeds then None else Some(UpdateFailedError)
    {
      error := None;
      payload := UpdatePayload(formData, parseDate);
      if !writeSucceeds {
        error := Some(UpdateFailedError);
      }
    }
  }
}
