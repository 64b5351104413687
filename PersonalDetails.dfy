/** The personal-details step: eleven required fields (middle name and second address line are
    optional), a per-field change handler, a state selector that clears the city, and the city
    and document-number helpers. The record itself lives in the booking page. */
module PersonalDetails {
  import opened Wrappers
  import opened BookingsPage

  const RequiredFieldsError := "Please fill all required fields."

  datatype Field =
    | FirstName | MiddleName | LastName | Dob | MobileNumber | Email
    | Address1 | Address2 | City | State | PostalCode | ProofOfAddress | DocumentNumber

  function Get(info: PersonalInfo, f: Field): string {
    match f
    case FirstName => info.firstName
    case MiddleName => info.middleName
    case LastName => info.lastName
    case Dob => info.dob
    case MobileNumber => info.mobileNumber
    case Email => info.email
    case Address1 => info.address1
    case Address2 => info.address2
    case City => info.city
    case State => info.state
    case PostalCode => info.postalCode
    case ProofOfAddress => info.proofOfAddress
    case DocumentNumber => info.documentNumber
  }

  /** `{ ...personalInfo, [field]: value }`: that field changes and no other. */
  function Set(info: PersonalInfo, f: Field, value: string): (r: PersonalInfo)
    ensures forall g :: Get(r, g) == if g == f then value else Get(info, g)
  {
    match f
    case FirstName => info.(firstName := value)
    case MiddleName => info.(middleName := value)
    case LastName => info.(lastName := value)
    case Dob => info.(dob := value)
    case MobileNumber => info.(mobileNumber := value)
    case Email => info.(email := value)
    case Address1 => info.(address1 := value)
    case Address2 => info.(address2 := value)
    case City => info.(city := value)
    case State => info.(state := value)
    case PostalCode => info.(postalCode := value)
    case ProofOfAddress => info.(proofOfAddress := value)
    case DocumentNumber => info.(documentNumber := value)
  }

  predicate IsRequired(f: Field) {
    f != MiddleName && f != Address2
  }

  /** The test at the top of `handleContinue`: some required field is empty. */
  function MissingRequired(info: PersonalInfo): (missing: bool)
    ensures missing <==> exists f :: IsRequired(f) && Get(info, f) == ""
  {
    var missing :=
      info.firstName == "" || info.lastName == "" || info.dob == "" ||
      info.mobileNumber == "" || info.email == "" || info.address1 == "" ||
      info.city == "" || info.state == "" || info.postalCode == "" ||
      info.proofOfAddress == "" || info.documentNumber == "";
    if missing then SomeRequiredFieldEmpty(info); missing else NoRequiredFieldEmpty(info); missing
  }

  /** When one of the eleven checks fails, that field is an empty required field. */
  lemma SomeRequiredFieldEmpty(info: PersonalInfo)
    requires info.firstName == "" || info.lastName == "" || info.dob == "" ||
             info.mobileNumber == "" || info.email == "" || info.address1 == "" ||
             info.city == "" || info.state == "" || info.postalCode == "" ||
             info.proofOfAddress == "" || info.documentNumber == ""
    ensures exists f :: IsRequired(f) && Get(info, f) == ""
  {
    var f :=
      if info.firstName == "" then FirstName
      else if info.lastName == "" then LastName
      else if info.dob == "" then Dob
      else if info.mobileNumber == "" then MobileNumber
      else if info.email == "" then Email
      else if info.address1 == "" then Address1
      else if info.city == "" then City
      else if info.state == "" then State
      else if info.postalCode == "" then PostalCode
      else if info.proofOfAddress == "" then ProofOfAddress
      else DocumentNumber;
    assert IsRequired(f) && Get(info, f) == "";
  }

  /** When the eleven checks all pass, no required field is empty. */
  lemma NoRequiredFieldEmpty(info: PersonalInfo)
    requires info.firstName != "" && info.lastName != "" && info.dob != ""
    requires info.mobileNumber != "" && info.email != "" && info.address1 != ""
    requires info.city != "" && info.state != "" && info.postalCode != ""
    requires info.proofOfAddress != "" && info.documentNumber != ""
    ensures forall f :: IsRequired(f) ==> Get(info, f) != ""
  {
    forall f | IsRequired(f) ensures Get(info, f) != "" {
      match f
      case FirstName =>
      case LastName =>
      case Dob =>
      case MobileNumber =>
      case Email =>
      case Address1 =>
      case City =>
      case State =>
      case PostalCode =>
      case ProofOfAddress =>
      case DocumentNumber =>
    }
  }

  /** What the optional fields hold never changes the verdict. */
  lemma OptionalFieldsDoNotMatter(info: PersonalInfo, f: Field, value: string)
    requires !IsRequired(f)
    ensures MissingRequired(Set(info, f, value)) == MissingRequired(info)
  {
  }

  /** `handleStateChange`: a new state, an empty city, and nothing else changes. */
  function WithState(info: PersonalInfo, state: string): (r: PersonalInfo)
    ensures Get(r, State) == state && Get(r, City) == ""
    ensures forall g :: g != State && g != City ==> Get(r, g) == Get(info, g)
  {
    info.(state := state, city := "")
  }

  /** An entry of the cities file: a list of city names, or anything else. */
  datatype CitiesEntry = CityList(names: seq<string>) | NotAList

  /** The city drop-down: the state's list when its entry is an array, no options otherwise. */
  function CityOptions(cities: map<string, CitiesEntry>, state: string): (r: seq<string>)
    ensures state in cities && cities[state].CityList? ==> r == cities[state].names
    ensures state !in cities || cities[state].NotAList? ==> r == []
  {
    if state in cities && cities[state].CityList? then cities[state].names else []
  }

  /** The document-number input: absent until a proof of address is chosen, its placeholder
      naming a passport or else an Aadhaar number. */
  function DocumentNumberPlaceholder(proofOfAddress: string): (r: Option<string>)
    ensures proofOfAddress == "" <==> r.None?
    ensures proofOfAddress == "Passport" ==> r == Some("Passport Number*")
    ensures proofOfAddress != "" && proofOfAddress != "Passport" ==> r == Some("Aadhar Number*")
  {
    if proofOfAddress == "" then None
    else if proofOfAddress == "Passport" then Some("Passport Number*")
    else Some("Aadhar Number*")
  }

  /** The component's own state: the error message. */
  class PersonalDetailsForm {
    var error: string

    constructor ()
      ensures error == ""
    {
      error := "";
    }

    /** `handleChange(e, field)`. */
    method HandleChange(page: BookingPage, f: Field, value: string)
      modifies page`personalInfo
      ensures page.personalInfo == Set(old(page.personalInfo), f, value)
    {
      page.personalInfo := Set(page.personalInfo, f, value);
    }

    /** `handleStateChange`. */
    method HandleStateChange(page: BookingPage, state: string)
      modifies page`personalInfo
      ensures page.personalInfo == WithState(old(page.personalInfo), state)
    {
      page.personalInfo := WithState(page.personalInfo, state);
    }

    /** `handleContinue`: a missing required field sets the error and stays on this step;
        otherwise the error is cleared and the flow moves on. */
    method HandleContinue(page: BookingPage)
      requires page.Valid()
      modifies this`error, page`step
      ensures page.Valid()
      ensures MissingRequired(page.personalInfo) ==> error == RequiredFieldsError && page.step == old(page.step)
      ensures !MissingRequired(page.personalInfo) ==> error == "" && page.step == NextStepOf(old(page.step))
    {
      if MissingRequired(page.personalInfo) {
        error := RequiredFieldsError;
        return;
      }
      error := "";
      page.NextStep();
    }
  }
}
