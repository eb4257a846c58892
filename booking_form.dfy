/**
 * The booking form (src/components/Form.jsx): its six text fields, the
 * validator that turns them into a map of error messages, and the submit
 * step that resets the form and the booking list when there are no errors.
 */
module BookingForm {
  import opened Wrappers
  import opened JsText
  import opened BookingList

  /** The `name` attribute of each input, which `handleChange` uses as key. */
  datatype Field =
    | FirstName | LastName | DepartureAirportId | ArrivalAirportId | DepartureDate | ReturnDate

  datatype FormData = FormData(
    firstName: string,
    lastName: string,
    departureAirportId: string,
    arrivalAirportId: string,
    departureDate: string,
    returnDate: string)

  const EmptyForm := FormData("", "", "", "", "", "")

  function Get(d: FormData, f: Field): string
  {
    match f
    case FirstName => d.firstName
    case LastName => d.lastName
    case DepartureAirportId => d.departureAirportId
    case ArrivalAirportId => d.arrivalAirportId
    case DepartureDate => d.departureDate
    case ReturnDate => d.returnDate
  }

  /** `{...formData, [name]: value}`: the named field is replaced, the others are kept. */
  function WithField(d: FormData, f: Field, v: string): (r: FormData)
    ensures Get(r, f) == v
    ensures forall g :: g != f ==> Get(r, g) == Get(d, g)
  {
    match f
    case FirstName => d.(firstName := v)
    case LastName => d.(lastName := v)
    case DepartureAirportId => d.(departureAirportId := v)
    case ArrivalAirportId => d.(arrivalAirportId := v)
    case DepartureDate => d.(departureDate := v)
    case ReturnDate => d.(returnDate := v)
  }

  /** The validator's result: error messages keyed by the name of the check that failed. */
  type Errors = map<string, string>

  const FirstNameKey := "firstName"
  const LastNameKey := "lastName"
  const DepartureKey := "departure"
  const DatesKey := "dates"

  const EnterFirstName := "Please enter first name"
  const FirstNameDigits := "First name cannot contain numbers"
  const EnterLastName := "Please enter last name"
  const LastNameDigits := "Last name cannot contain numbers"
  const SameDestination := "Cannot fly to the same destination"
  const SelectAirports := "Please select departure and arrival airport"
  const DepartureAfterReturn := "The departure date cannot be after the return date"
  const SelectDates := "Please select dates"

  predicate NameOk(s: string)
  {
    !IsBlank(s) && !ContainsDigit(s)
  }

  predicate AirportsOk(departure: string, arrival: string)
  {
    departure != arrival && departure != "" && arrival != ""
  }

  /** The departure date is not after the return date (as strings) and neither is blank. */
  predicate DatesOk(departure: string, back: string)
  {
    !StringLess(back, departure) && !IsBlank(departure) && !IsBlank(back)
  }

  predicate FormValid(d: FormData)
  {
    NameOk(d.firstName) && NameOk(d.lastName)
    && AirportsOk(d.departureAirportId, d.arrivalAirportId)
    && DatesOk(d.departureDate, d.returnDate)
  }

  /** One `if (cond) errorsList[key] = message`: a later check overwrites an earlier message. */
  function SetIf(errs: Errors, cond: bool, key: string, message: string): Errors
  {
    if cond then errs[key := message] else errs
  }

  /**
   * Two checks on one key, the second overwriting the first: `first` and
   * `second` are the outcomes of the two conditions.
   */
  function CheckPair(errs: Errors, key: string, first: bool, firstMessage: string,
                     second: bool, secondMessage: string): (r: Errors)
    requires key !in errs
    ensures r == if first || second then errs[key := if second then secondMessage else firstMessage] else errs
  {
    SetIf(SetIf(errs, first, key, firstMessage), second, key, secondMessage)
  }

  /** `validateForm`: the eight checks in source order. */
  function ValidateForm(d: FormData): (errs: Errors)
    ensures errs.Keys <= {FirstNameKey, LastNameKey, DepartureKey, DatesKey}
    ensures FirstNameKey in errs <==> !NameOk(d.firstName)
    ensures ContainsDigit(d.firstName) ==> errs[FirstNameKey] == FirstNameDigits
    ensures IsBlank(d.firstName) && !ContainsDigit(d.firstName) ==> errs[FirstNameKey] == EnterFirstName
    ensures LastNameKey in errs <==> !NameOk(d.lastName)
    ensures ContainsDigit(d.lastName) ==> errs[LastNameKey] == LastNameDigits
    ensures IsBlank(d.lastName) && !ContainsDigit(d.lastName) ==> errs[LastNameKey] == EnterLastName
    ensures DepartureKey in errs <==> !AirportsOk(d.departureAirportId, d.arrivalAirportId)
    ensures d.departureAirportId == "" || d.arrivalAirportId == "" ==> errs[DepartureKey] == SelectAirports
    ensures d.departureAirportId != "" && d.arrivalAirportId != "" && d.departureAirportId == d.arrivalAirportId
            ==> errs[DepartureKey] == SameDestination
    ensures DatesKey in errs <==> !DatesOk(d.departureDate, d.returnDate)
    ensures IsBlank(d.departureDate) || IsBlank(d.returnDate) ==> errs[DatesKey] == SelectDates
    ensures !IsBlank(d.departureDate) && !IsBlank(d.returnDate) && StringLess(d.returnDate, d.departureDate)
            ==> errs[DatesKey] == DepartureAfterReturn
  {
    var first := CheckPair(map[], FirstNameKey,
      IsBlank(d.firstName), EnterFirstName, ContainsDigit(d.firstName), FirstNameDigits);
    var last := CheckPair(first, LastNameKey,
      IsBlank(d.lastName), EnterLastName, ContainsDigit(d.lastName), LastNameDigits);
    var airports := CheckPair(last, DepartureKey,
      d.departureAirportId == d.arrivalAirportId, SameDestination,
      d.departureAirportId == "" || d.arrivalAirportId == "", SelectAirports);
    var errs := CheckPair(airports, DatesKey,
      StringLess(d.returnDate, d.departureDate), DepartureAfterReturn,
      IsBlank(d.departureDate) || IsBlank(d.returnDate), SelectDates);
    errs
  }

  /** `Object.keys(errorHolder).length === 0` holds exactly when every check passed. */
  lemma NoErrorsIffValid(d: FormData)
    ensures |ValidateForm(d)| == 0 <==> FormValid(d)
  {
  }

  /** A blank name always gets the "please enter" message: a blank string has no digit to overwrite it. */
  lemma BlankNameMessages(d: FormData)
    ensures IsBlank(d.firstName) ==> ValidateForm(d)[FirstNameKey] == EnterFirstName
    ensures IsBlank(d.lastName) ==> ValidateForm(d)[LastNameKey] == EnterLastName
  {
  }

  /** The form component's own state. */
  class Form {
    var formData: FormData
    var errors: Errors
    var thanksM: bool

    constructor ()
      ensures formData == EmptyForm && errors == map[] && !thanksM
    {
      formData := EmptyForm;
      errors := map[];
      thanksM := false;
    }

    /** `handleChange` for the input named `f` now holding `v`. */
    method HandleChange(f: Field, v: string)
      modifies this
      ensures formData == WithField(old(formData), f, v)
      ensures errors == old(errors) && thanksM == old(thanksM)
    {
      formData := WithField(formData, f, v);
    }

    /**
     * `handleSubmit`: validates, and when nothing failed converts both dates
     * to ISO strings. `datesConvert` says whether that conversion succeeds;
     * when it throws, only the (empty) errors have been stored. Otherwise
     * it returns the data it posts, rewinds the list's cursor, raises the
     * reset signal, clears the form and shows the thank-you message.
     */
    method HandleSubmit(list: Lists, datesConvert: bool) returns (posted: Option<FormData>)
      modifies this, list
      ensures errors == ValidateForm(old(formData))
      ensures posted == (if FormValid(old(formData)) && datesConvert then Some(old(formData)) else None)
      ensures posted.Some? ==>
                formData == EmptyForm && thanksM
                && list.State() == old(list.State()).(pageNum := 0, sFetch := true)
      ensures posted.None? ==>
                formData == old(formData) && thanksM == old(thanksM)
                && list.State() == old(list.State())
    {
      var errorHolder := ValidateForm(formData);
      errors := errorHolder;
      posted := None;
      NoErrorsIffValid(formData);
      if |errorHolder| == 0 && datesConvert {
        posted := Some(formData);
        list.ChangePageNum(0);
        list.ChangeSFetch(true);
        formData := EmptyForm;
        thanksM := true;
      }
    }
  }
}
