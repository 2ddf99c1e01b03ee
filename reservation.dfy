/**
 * The reservation screen: a four-field customer form, its validator, the
 * confirmed reservation it produces, and the hand-off of that reservation and
 * its seat total to the cart.
 */
module Reservation {
  import opened Wrappers
  import opened JsText

  /** The price of one seat: the initial and only value of `seatPrice`. */
  const SeatPrice: int := 20

  /** The form, and a confirmed reservation. Every field is text as typed. */
  datatype CustomerDetails = CustomerDetails(
    customerName: string,
    phoneNumber: string,
    emailAddress: string,
    peopleNumber: string)

  /** The names `handleInputChange` is called with. */
  datatype Field = CustomerName | PhoneNumber | EmailAddress | PeopleNumber

  /** The empty form. */
  const EmptyForm: CustomerDetails := CustomerDetails("", "", "", "")

  /** `details[field]`. */
  function Get(details: CustomerDetails, field: Field): string {
    match field
    case CustomerName => details.customerName
    case PhoneNumber => details.phoneNumber
    case EmailAddress => details.emailAddress
    case PeopleNumber => details.peopleNumber
  }

  /** `{ ...details, [field]: value }`: that field becomes `value`, every other field stays. */
  function With(details: CustomerDetails, field: Field, value: string): (r: CustomerDetails)
    ensures forall f :: Get(r, f) == if f == field then value else Get(details, f)
  {
    match field
    case CustomerName => details.(customerName := value)
    case PhoneNumber => details.(phoneNumber := value)
    case EmailAddress => details.(emailAddress := value)
    case PeopleNumber => details.(peopleNumber := value)
  }

  /** The phone test `/^\d{10}$/`: exactly ten ASCII digits. */
  predicate ValidPhone(s: string) {
    |s| == 10 && forall i :: 0 <= i < |s| ==> IsDigit(s[i])
  }

  /** The phone check is the ten-digit case of a digit string; a phone it accepts is not blank and needs no trimming. */
  lemma ValidPhoneDigits(s: string)
    ensures ValidPhone(s) <==> |s| == 10 && IsDigitString(s)
    ensures ValidPhone(s) ==> Trim(s) == s && !AllSpace(s)
  {
    if ValidPhone(s) {
      TrimDigitString(s);
      TrimEmptyIffAllSpace(s);
    }
  }

  /** No character of `s` is a space or an '@'. */
  predicate NoSpaceOrAt(s: string) {
    forall i :: 0 <= i < |s| ==> !IsJsSpace(s[i]) && s[i] != '@'
  }

  /** `[^\s@]+`: a non-empty run with no space and no '@'. */
  predicate Part(s: string) {
    |s| > 0 && NoSpaceOrAt(s)
  }

  /** The language of `/^[^\s@]+@[^\s@]+\.[^\s@]+$/`, written as a concatenation. */
  ghost predicate EmailPattern(s: string) {
    exists a, b, c :: Part(a) && Part(b) && Part(c) && s == a + "@" + b + "." + c
  }

  /**
   * The email test as a check on the text: something before the '@' with no
   * space or '@', and after it text with no space or '@' holding a '.' that is
   * neither its first nor its last character.
   */
  predicate ValidEmail(s: string) {
    exists i | 0 < i < |s| :: SplitsAt(s, i)
  }

  /** `s` has its '@' at `i`, a valid part before it and a valid domain after it. */
  predicate SplitsAt(s: string, i: int)
    requires 0 < i < |s|
  {
    s[i] == '@' && Part(s[..i]) && Domain(s[i + 1..])
  }

  /** The part after the '@'. */
  predicate Domain(d: string) {
    Part(d) && exists k | 0 < k < |d| - 1 :: DotAt(d, k)
  }

  /** `d` has a '.' at `k`. */
  predicate DotAt(d: string, k: int)
    requires 0 <= k < |d|
  {
    d[k] == '.'
  }

  /** Any slice of a run with no space or '@' has none either. */
  lemma NoSpaceOrAtSlice(s: string, lo: int, hi: int)
    requires NoSpaceOrAt(s) && 0 <= lo <= hi <= |s|
    ensures NoSpaceOrAt(s[lo..hi])
  {
    forall j | 0 <= j < hi - lo
      ensures !IsJsSpace(s[lo..hi][j]) && s[lo..hi][j] != '@'
    {
      assert s[lo..hi][j] == s[lo + j];
    }
  }

  /** Joining runs with no space or '@' by a '.' gives such a run. */
  lemma NoSpaceOrAtJoin(b: string, c: string)
    requires NoSpaceOrAt(b) && NoSpaceOrAt(c)
    ensures NoSpaceOrAt(b + "." + c)
  {
    var d := b + "." + c;
    forall j | 0 <= j < |d|
      ensures !IsJsSpace(d[j]) && d[j] != '@'
    {
      if j < |b| {
        assert d[j] == b[j];
      } else if j > |b| {
        assert d[j] == c[j - |b| - 1];
      }
    }
  }

  /** `s` cut at `i` and, after that, at `k`, put back together. */
  lemma Reassemble(s: string, i: int, k: int)
    requires 0 <= i < |s| && 0 <= k < |s| - i - 1
    ensures s == s[..i] + [s[i]] + s[i + 1..][..k] + [s[i + 1..][k]] + s[i + 1..][k + 1..]
  {
    var d := s[i + 1..];
    assert d == d[..k] + [d[k]] + d[k + 1..];
    assert s == s[..i] + [s[i]] + d;
  }

  /** What the check on the text accepts, the pattern matches. */
  lemma ValidEmailMatchesPattern(s: string)
    requires ValidEmail(s)
    ensures EmailPattern(s)
  {
    var i :| 0 < i < |s| && SplitsAt(s, i);
    var d := s[i + 1..];
    var k :| 0 < k < |d| - 1 && DotAt(d, k);
    NoSpaceOrAtSlice(d, 0, k);
    NoSpaceOrAtSlice(d, k + 1, |d|);
    var a, b, c := s[..i], d[0..k], d[k + 1..|d|];
    Reassemble(s, i, k);
    assert Part(a) && Part(b) && Part(c) && s == a + "@" + b + "." + c;
  }

  /** What the pattern matches, the check on the text accepts. */
  lemma PatternPassesValidEmail(s: string)
    requires EmailPattern(s)
    ensures ValidEmail(s)
  {
    var a, b, c :| Part(a) && Part(b) && Part(c) && s == a + "@" + b + "." + c;
    var i := |a|;
    var d := b + "." + c;
    assert s == a + "@" + d;
    assert s[..i] == a && s[i] == '@' && s[i + 1..] == d;
    NoSpaceOrAtJoin(b, c);
    assert DotAt(d, |b|);
    assert Domain(d);
    assert SplitsAt(s, i);
  }

  /** The check on the text accepts exactly the strings the pattern matches. */
  lemma ValidEmailIffPattern(s: string)
    ensures ValidEmail(s) <==> EmailPattern(s)
  {
    if ValidEmail(s) {
      ValidEmailMatchesPattern(s);
    }
    if EmailPattern(s) {
      PatternPassesValidEmail(s);
    }
  }

  /** An email the check accepts starts and ends with a non-space, so it is not blank and needs no trimming. */
  lemma ValidEmailUnpadded(s: string)
    ensures ValidEmail(s) ==> Trim(s) == s && !AllSpace(s)
  {
    if ValidEmail(s) {
      var i :| 0 < i < |s| && SplitsAt(s, i);
      var a, d := s[..i], s[i + 1..];
      assert s[0] == a[0];
      assert s[|s| - 1] == d[|d| - 1];
      TrimUnpadded(s);
      TrimEmptyIffAllSpace(s);
    }
  }

  /** The first check that fails. */
  datatype Reason =
    | MissingField    // "Please fill in all fields."
    | BadPhone        // "Phone number must be exactly 10 digits."
    | BadEmail        // "Please enter a valid email address."

  /** A field counts as filled when something other than spaces is left after trimming. */
  predicate Filled(s: string) {
    Trim(s) != ""
  }

  /** Some field holds spaces only. */
  ghost predicate AnyBlank(d: CustomerDetails) {
    AllSpace(d.customerName) || AllSpace(d.phoneNumber) || AllSpace(d.emailAddress) || AllSpace(d.peopleNumber)
  }

  /** `AnyBlank` is the test on every value of the form: `Object.values(details).some(...)`. */
  lemma AnyBlankIffSomeField(d: CustomerDetails)
    ensures AnyBlank(d) <==> exists f :: AllSpace(Get(d, f))
  {
    if AnyBlank(d) {
      if AllSpace(d.customerName) {
        assert AllSpace(Get(d, CustomerName));
      } else if AllSpace(d.phoneNumber) {
        assert AllSpace(Get(d, PhoneNumber));
      } else if AllSpace(d.emailAddress) {
        assert AllSpace(Get(d, EmailAddress));
      } else {
        assert AllSpace(Get(d, PeopleNumber));
      }
    }
  }

  /**
   * `validateInputs`: every field filled, then the phone, then the email; the
   * first check that fails decides, and `None` means all three passed.
   */
  function ValidateInputs(details: CustomerDetails): Option<Reason> {
    if !(Filled(details.customerName) && Filled(details.phoneNumber)
         && Filled(details.emailAddress) && Filled(details.peopleNumber)) then
      Some(MissingField)
    else if !ValidPhone(details.phoneNumber) then Some(BadPhone)
    else if !ValidEmail(details.emailAddress) then Some(BadEmail)
    else None
  }

  /** The details pass every check. */
  predicate Accepted(details: CustomerDetails) {
    ValidateInputs(details) == None
  }

  /** Each verdict of `ValidateInputs` holds exactly when the checks before it pass and its own fails. */
  lemma ValidateInputsVerdicts(details: CustomerDetails)
    ensures ValidateInputs(details) == Some(MissingField) <==> AnyBlank(details)
    ensures ValidateInputs(details) == Some(BadPhone) <==>
              !AnyBlank(details) && !ValidPhone(details.phoneNumber)
    ensures ValidateInputs(details) == Some(BadEmail) <==>
              !AnyBlank(details) && ValidPhone(details.phoneNumber) && !ValidEmail(details.emailAddress)
    ensures ValidateInputs(details) == None <==>
              !AnyBlank(details) && ValidPhone(details.phoneNumber) && ValidEmail(details.emailAddress)
  {
    TrimEmptyIffAllSpace(details.customerName);
    TrimEmptyIffAllSpace(details.phoneNumber);
    TrimEmptyIffAllSpace(details.emailAddress);
    TrimEmptyIffAllSpace(details.peopleNumber);
  }

  /** What `seatPrice * peopleNumber` yields; `None` where the coercion lies outside the model. */
  function TotalPrice(seatPrice: int, peopleNumber: string): (r: Option<int>)
    ensures IsDigitString(peopleNumber) ==> r == Some(seatPrice * DigitsValue(peopleNumber))
    ensures IsDigitString(Trim(peopleNumber)) ==> r == Some(seatPrice * DigitsValue(Trim(peopleNumber)))
    ensures r.Some? <==> ToNumber(peopleNumber).Some?
  {
    match ToNumber(peopleNumber)
    case Some(n) => Some(seatPrice * n)
    case None => None
  }

  /** What "Continue to payment" forwards to the cart. */
  datatype CartParams = CartParams(
    peopleNumber: string,
    totalReservationPrice: Option<int>,
    customerDetails: CustomerDetails,
    seatPrice: int)

  /** The outcome of "Continue to payment". */
  datatype Handoff = NoReservation | ToCart(params: CartParams)

  class ReservationScreen {
    var openTableModal: bool
    var customerDetailsModal: bool
    const seatPrice: int
    var customerDetails: CustomerDetails
    var reservationInfo: Option<CustomerDetails>
    var showMakeReservationButton: bool

    /**
     * What every handler keeps: a confirmed reservation passed validation, and
     * the "Make Reservation" button shows exactly while there is none.
     */
    ghost predicate Valid()
      reads this
    {
      && seatPrice == SeatPrice
      && (reservationInfo.Some? ==> Accepted(reservationInfo.value))
      && (showMakeReservationButton <==> reservationInfo.None?)
    }

    /** Mounting: modals closed, empty form, no reservation, seat price 20. */
    constructor ()
      ensures Valid()
      ensures !openTableModal && !customerDetailsModal
      ensures customerDetails == EmptyForm && reservationInfo.None? && showMakeReservationButton
      ensures seatPrice == 20
    {
      openTableModal := false;
      customerDetailsModal := false;
      seatPrice := SeatPrice;
      customerDetails := EmptyForm;
      reservationInfo := None;
      showMakeReservationButton := true;
    }

    /** `toggleModal`: the "Make Reservation" button and the modal's dismissal. */
    method ToggleModal()
      requires Valid()
      modifies this
      ensures Valid()
      ensures openTableModal == !old(openTableModal)
      ensures customerDetails == old(customerDetails) && reservationInfo == old(reservationInfo)
      ensures showMakeReservationButton == old(showMakeReservationButton)
      ensures customerDetailsModal == old(customerDetailsModal)
    {
      openTableModal := !openTableModal;
    }

    /** `toggleChangeDetailsModal`: the form is refilled from the reservation, if any, and the modal opens. */
    method ToggleChangeDetailsModal()
      requires Valid()
      modifies this
      ensures Valid()
      ensures openTableModal
      ensures customerDetails == old(reservationInfo).GetOr(old(customerDetails))
      ensures reservationInfo == old(reservationInfo) && showMakeReservationButton == old(showMakeReservationButton)
      ensures customerDetailsModal == old(customerDetailsModal)
    {
      if reservationInfo.Some? {
        customerDetails := reservationInfo.value;
      }
      openTableModal := true;
    }

    /** `handleInputChange`: one field of the form takes the typed text. */
    method HandleInputChange(name: Field, value: string)
      requires Valid()
      modifies this
      ensures Valid()
      ensures customerDetails == With(old(customerDetails), name, value)
      ensures reservationInfo == old(reservationInfo) && showMakeReservationButton == old(showMakeReservationButton)
      ensures openTableModal == old(openTableModal) && customerDetailsModal == old(customerDetailsModal)
    {
      customerDetails := With(customerDetails, name, value);
    }

    /**
     * `toggleFinish` followed by the success alert's one "OK": valid details
     * become the reservation, the form is cleared, the modal is toggled shut
     * and the "Make Reservation" button is hidden. Invalid details change nothing.
     */
    method ToggleFinish() returns (rejected: Option<Reason>)
      requires Valid()
      modifies this
      ensures Valid()
      ensures rejected == ValidateInputs(old(customerDetails))
      ensures rejected.Some? ==> unchanged(this)
      ensures rejected.None? ==>
                && reservationInfo == Some(old(customerDetails))
                && customerDetails == EmptyForm
                && !customerDetailsModal
                && openTableModal == !old(openTableModal)
                && !showMakeReservationButton
    {
      rejected := ValidateInputs(customerDetails);
      if rejected.None? {
        reservationInfo := Some(customerDetails);
        customerDetails := EmptyForm;
        customerDetailsModal := false;
        openTableModal := !openTableModal;
        showMakeReservationButton := false;
      }
    }

    /**
     * `handleAddToCart`: without a reservation nothing is forwarded; with one,
     * the cart receives its party size, the seat total, the details and the seat price.
     */
    method HandleAddToCart() returns (r: Handoff)
      requires Valid()
      ensures r.NoReservation? <==> reservationInfo.None?
      ensures r.ToCart? ==>
                && r.params.customerDetails == reservationInfo.value
                && r.params.peopleNumber == reservationInfo.value.peopleNumber
                && r.params.seatPrice == 20
                && r.params.totalReservationPrice == TotalPrice(20, reservationInfo.value.peopleNumber)
                && !AllSpace(r.params.peopleNumber)
                && ValidPhone(r.params.customerDetails.phoneNumber)
                && ValidEmail(r.params.customerDetails.emailAddress)
    {
      match reservationInfo
      case None =>
        r := NoReservation;
      case Some(info) =>
        ValidateInputsVerdicts(info);
        r := ToCart(CartParams(info.peopleNumber, TotalPrice(seatPrice, info.peopleNumber), info, seatPrice));
    }
  }

  /** The examples the phone check is known by. */
  lemma PhoneExamples()
    ensures ValidPhone("1234567890")
    ensures !ValidPhone("123456789") && !ValidPhone("12345678901")
    ensures !ValidPhone("123-456-7890")
  {
    assert !IsDigit("123-456-7890"[3]);
  }

  /** "a@b.com" is accepted. */
  lemma EmailAccepted()
    ensures EmailPattern("a@b.com")
  {
    var s := "a@b.com";
    assert s == "a" + "@" + "b" + "." + "com";
    assert Part("a") && Part("b") && Part("com");
  }

  /** "a@b" and "a.com" are rejected. */
  lemma EmailRejected()
    ensures !EmailPattern("a@b") && !EmailPattern("a.com")
  {
    ValidEmailIffPattern("a@b");
    ValidEmailIffPattern("a.com");
  }

  /** Four people at the seat price of 20 come to 80. */
  lemma FourPeopleExample()
    ensures TotalPrice(SeatPrice, "4") == Some(80)
  {
    assert IsDigitString("4");
    assert DigitsValue("4") == 10 * DigitsValue("") + DigitValue('4');
  }
}
