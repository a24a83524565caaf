/** The booking form for visitors without an account
    (Frontend/src/components/DirectAppointmentForm.jsx): three steps
    (personal details, appointment, review), the checks guarding each step,
    the request it sends and the payment step that follows. The component's
    state variables are the fields of `DirectForm`; each handler updates
    them in the order the source calls its setters, so the last write
    wins. */
module DirectAppointmentForm {
  import opened Common
  import opened UserSchema
  import opened AppointmentController
  import opened AppointmentForm

  /** `validateStep1`: the toast of the first failing check, None when the
      step is complete. */
  function Step1Problem(p: Personal): (r: Option<string>)
    ensures r.None? <==> AllPresent(PersonalFields(p)) && IsAadhaar(p.nic)
  {
    if !AllPresent(PersonalFields(p)) then Some("Please fill all personal information fields")
    else if !IsAadhaar(p.nic) then Some("Please enter a valid 12-digit Aadhaar number")
    else None
  }

  /** `validateStep2`: a date, a department, and a doctor unless the
      department is "Other". */
  function Step2Problem(appointmentDate: string, department: string, doctorFirstName: string, doctorLastName: string)
    : (r: Option<string>)
    ensures r.None? <==>
      appointmentDate != "" && department != ""
      && (department == "Other" || (doctorFirstName != "" && doctorLastName != ""))
  {
    if appointmentDate == "" then Some("Please select an appointment date")
    else if department == "" then Some("Please select a department")
    else if department != "Other" && (doctorFirstName == "" || doctorLastName == "") then Some("Please select a doctor")
    else None
  }

  /** The body posted to the direct booking route. */
  function DirectPayload(p: Personal, hasVisited: bool, appointmentDate: string, department: string,
                         doctorFirstName: string, doctorLastName: string): BookingRequest
  {
    BookingRequest(p.firstName, p.lastName, p.email, p.phone, p.nic, p.dob, p.gender,
                   appointmentDate, department, doctorFirstName, doctorLastName, hasVisited, p.address)
  }

  /** A form whose two steps validate passes the backend's field, doctor
      and Aadhaar guards of the direct booking: "Other" is accepted without
      a lookup, any other department goes to the doctor lookup. */
  lemma ValidStepsPassBackendGuards(p: Personal, hasVisited: bool, appointmentDate: string, department: string,
                                    doctorFirstName: string, doctorLastName: string, users: seq<User>)
    requires Step1Problem(p).None?
    requires Step2Problem(appointmentDate, department, doctorFirstName, doctorLastName).None?
    ensures var req := DirectPayload(p, hasVisited, appointmentDate, department, doctorFirstName, doctorLastName);
      ScreenDirect(req, users) ==
        (if department == "Other" then Cleared(None) else LookUpDoctor(users, doctorFirstName, doctorLastName, department))
  {
    var req := DirectPayload(p, hasVisited, appointmentDate, department, doctorFirstName, doctorLastName);
    assert PersonalFields(p)[0] != "" && PersonalFields(p)[1] != "" && PersonalFields(p)[2] != "";
    assert PersonalFields(p)[3] != "" && PersonalFields(p)[4] != "" && PersonalFields(p)[5] != "";
    assert PersonalFields(p)[6] != "" && PersonalFields(p)[7] != "";
    assert AllPresent(DirectFields(req));
  }

  /** The component's state. */
  class DirectForm {
    var personal: Personal
    var hasVisited: bool
    var appointmentDate: string
    var department: string
    var doctorFirstName: string
    var doctorLastName: string
    var step: int
    var submitSuccess: bool
    var showPayment: bool
    var appointmentId: Option<string>
    var paymentSuccessHandled: bool

    /** The steps are 1, 2 and 3. */
    ghost predicate Valid()
      reads this
    {
      1 <= step <= 3
    }

    /** The first render: everything empty, at step 1. */
    constructor ()
      ensures Valid() && Cleared() && step == 1
      ensures !showPayment && appointmentId.None?
    {
      personal := EmptyPersonal;
      hasVisited := false;
      appointmentDate := "";
      department := "";
      doctorFirstName := "";
      doctorLastName := "";
      step := 1;
      submitSuccess := false;
      showPayment := false;
      appointmentId := None;
      paymentSuccessHandled := false;
    }

    /** Every field `resetForm` sets, at its reset value. */
    ghost predicate Cleared()
      reads this
    {
      && personal == EmptyPersonal && !hasVisited
      && appointmentDate == "" && department == "" && doctorFirstName == "" && doctorLastName == ""
      && step == 1 && !submitSuccess && !paymentSuccessHandled
    }

    function Step1(): Option<string>
      reads this
    {
      Step1Problem(personal)
    }

    function Step2(): Option<string>
      reads this
    {
      Step2Problem(appointmentDate, department, doctorFirstName, doctorLastName)
    }

    /** `resetForm`: empties every field, back to step 1, both flags down;
        the payment step and its id are left as they are. */
    method ResetForm()
      modifies this
      ensures Valid() && Cleared()
      ensures showPayment == old(showPayment) && appointmentId == old(appointmentId)
    {
      personal := EmptyPersonal;
      hasVisited := false;
      appointmentDate := "";
      department := "";
      doctorFirstName := "";
      doctorLastName := "";
      step := 1;
      submitSuccess := false;
      paymentSuccessHandled := false;
    }

    /** `nextStep`: 1 to 2 when the first step validates, 2 to 3 when the
        second does; otherwise, and always at step 3, nothing changes. The
        toast of the failing check is returned. */
    method NextStep() returns (notice: Option<string>)
      requires Valid()
      modifies this`step
      ensures Valid()
      ensures old(step) == 1 ==> notice == Step1() && step == (if Step1().None? then 2 else 1)
      ensures old(step) == 2 ==> notice == Step2() && step == (if Step2().None? then 3 else 2)
      ensures old(step) == 3 ==> notice.None? && step == 3
    {
      notice := None;
      if step == 1 {
        notice := Step1();
        if notice.None? {
          step := 2;
        }
      } else if step == 2 {
        notice := Step2();
        if notice.None? {
          step := 3;
        }
      }
    }

    /** `prevStep`, whose buttons exist only on steps 2 and 3. */
    method PrevStep()
      requires Valid() && step >= 2
      modifies this`step
      ensures Valid() && step == old(step) - 1
    {
      step := step - 1;
    }

    /** `handleSubmit`: before step 3 it only tries to advance; at step 3
        it sends the form when both steps validate, and nothing otherwise. */
    method HandleSubmit() returns (sent: Option<BookingRequest>)
      requires Valid()
      modifies this`step
      ensures Valid()
      ensures old(step) != 3 ==> sent.None?
      ensures old(step) == 1 ==> step == (if Step1().None? then 2 else 1)
      ensures old(step) == 2 ==> step == (if Step2().None? then 3 else 2)
      ensures old(step) == 3 ==> step == 3
      ensures old(step) == 3 ==>
        (sent.Some? <==> Step1().None? && Step2().None?)
      ensures sent.Some? ==>
        sent.value == DirectPayload(personal, hasVisited, appointmentDate, department, doctorFirstName, doctorLastName)
    {
      if step != 3 {
        var _ := NextStep();
        return None;
      }
      if Step1().Some? || Step2().Some? {
        return None;
      }
      sent := Some(DirectPayload(personal, hasVisited, appointmentDate, department, doctorFirstName, doctorLastName));
    }

    /** The reply of a successful booking: the payment step opens with the
        appointment number (or id); without either the form reports
        success. */
    method Booked(appointmentNumber: string, id: string)
      modifies this`appointmentId, this`showPayment, this`submitSuccess
      ensures PaymentId(appointmentNumber, id).Some? ==>
        appointmentId == PaymentId(appointmentNumber, id) && showPayment && submitSuccess == old(submitSuccess)
      ensures PaymentId(appointmentNumber, id).None? ==>
        submitSuccess && appointmentId == old(appointmentId) && showPayment == old(showPayment)
    {
      var payment := PaymentId(appointmentNumber, id);
      if payment.Some? {
        appointmentId := payment;
        showPayment := true;
      } else {
        submitSuccess := true;
      }
    }

    /** `handlePaymentSuccess`: ignored once handled; otherwise the flag is
        raised and the form reset, and since `resetForm` lowers the flag
        again after it, the flag ends down. */
    method HandlePaymentSuccess() returns (acted: bool)
      modifies this
      ensures acted <==> !old(paymentSuccessHandled)
      ensures !acted ==> unchanged(this)
      ensures acted ==> Valid() && Cleared() && !paymentSuccessHandled
      ensures acted ==> showPayment == old(showPayment) && appointmentId == old(appointmentId)
    {
      if paymentSuccessHandled {
        return false;
      }
      paymentSuccessHandled := true;
      ResetForm();
      return true;
    }

    /** `handlePaymentClose`: ignored once handled; otherwise the payment
        step closes and the form is reset. */
    method HandlePaymentClose() returns (acted: bool)
      modifies this
      ensures acted <==> !old(paymentSuccessHandled)
      ensures !acted ==> unchanged(this)
      ensures acted ==> Valid() && Cleared() && !showPayment && appointmentId == old(appointmentId)
    {
      if paymentSuccessHandled {
        return false;
      }
      showPayment := false;
      ResetForm();
      return true;
    }

    /** The department drop-down: a new department clears the doctor. */
    method ChangeDepartment(value: string)
      modifies this`department, this`doctorFirstName, this`doctorLastName
      ensures department == value && doctorFirstName == "" && doctorLastName == ""
    {
      department := value;
      doctorFirstName := "";
      doctorLastName := "";
    }

    /** `handleDoctorSelect`: an empty choice clears both names. */
    method SelectDoctor(choice: DoctorChoice)
      modifies this`doctorFirstName, this`doctorLastName
      ensures choice.Unchosen? ==> doctorFirstName == "" && doctorLastName == ""
      ensures choice.Chosen? ==> doctorFirstName == choice.firstName && doctorLastName == choice.lastName
    {
      match choice
      case Unchosen =>
        doctorFirstName := "";
        doctorLastName := "";
      case Chosen(first, last) =>
        doctorFirstName := first;
        doctorLastName := last;
    }
  }

  /** Filling in a complete form and pressing the button three times
      sends exactly once, on the third press. */
  method CompleteFormSends(p: Personal, appointmentDate: string, department: string)
    returns (first: Option<BookingRequest>, second: Option<BookingRequest>, third: Option<BookingRequest>)
    requires Step1Problem(p).None? && appointmentDate != "" && department == "Other"
    ensures first.None? && second.None?
    ensures third == Some(DirectPayload(p, false, appointmentDate, department, "", ""))
  {
    var form := new DirectForm();
    form.personal := p;
    form.appointmentDate := appointmentDate;
    form.department := department;
    first := form.HandleSubmit();
    second := form.HandleSubmit();
    third := form.HandleSubmit();
  }
}
