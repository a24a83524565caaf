/** The `Appointment` collection (Backend/models/appointmentSchema.js): the
    status enums and their defaults, the stored record, the Mongoose
    validation of a new appointment (the doctor is required unless the
    department is "Other"), the validators that run on an update, and the
    retry loop that draws a fresh "STH" appointment number. */
module AppointmentSchema {
  import opened Common
  import opened ErrorMiddleware
  import opened UserSchema
  import opened Validation

  datatype Status = Pending | Rejected | Cancelled | Accepted | Completed

  function StatusName(s: Status): string {
    match s
    case Pending => "Pending"
    case Rejected => "Rejected"
    case Cancelled => "Cancelled"
    case Accepted => "Accepted"
    case Completed => "Completed"
  }

  function ParseStatus(s: string): (r: Option<Status>)
    ensures r.Some? ==> StatusName(r.value) == s
  {
    if s == "Pending" then Some(Pending)
    else if s == "Rejected" then Some(Rejected)
    else if s == "Cancelled" then Some(Cancelled)
    else if s == "Accepted" then Some(Accepted)
    else if s == "Completed" then Some(Completed)
    else None
  }

  lemma StatusRoundTrip(st: Status, s: string)
    ensures ParseStatus(StatusName(st)) == Some(st)
    ensures ParseStatus(s).Some? <==> s in {"Pending", "Rejected", "Cancelled", "Accepted", "Completed"}
  {
  }

  datatype PaymentStatus = Unpaid | Paid | PaymentFailed

  function PaymentStatusName(p: PaymentStatus): string {
    match p
    case Unpaid => "PENDING"
    case Paid => "PAID"
    case PaymentFailed => "FAILED"
  }

  function ParsePaymentStatus(s: string): (r: Option<PaymentStatus>)
    ensures r.Some? ==> PaymentStatusName(r.value) == s
  {
    if s == "PENDING" then Some(Unpaid)
    else if s == "PAID" then Some(Paid)
    else if s == "FAILED" then Some(PaymentFailed)
    else None
  }

  lemma PaymentStatusRoundTrip(p: PaymentStatus, s: string)
    ensures ParsePaymentStatus(PaymentStatusName(p)) == Some(p)
    ensures ParsePaymentStatus(s).Some? <==> s in {"PENDING", "PAID", "FAILED"}
  {
  }

  /** `doctor: {firstName, lastName}`; "" for a name that is absent. */
  datatype DoctorName = DoctorName(firstName: string, lastName: string)

  /** A stored appointment. */
  datatype Appointment = Appointment(
    id: Id,
    appointmentNumber: string,
    firstName: string,
    lastName: string,
    email: string,
    phone: string,
    nic: string,
    dob: string,
    gender: Gender,
    appointmentDate: string,
    department: string,
    doctor: DoctorName,
    hasVisited: bool,
    doctorId: Option<Id>,
    patientId: Id,
    address: string,
    status: Status,
    paymentStatus: PaymentStatus)

  // ---------------------------------------------------------------------
  // Appointment numbers
  // ---------------------------------------------------------------------

  /** `/^STH\d{6}$/`. */
  predicate IsAppointmentNumber(s: string) {
    |s| == 9 && s[..3] == "STH" && AllDigits(s[3..])
  }

  /** `STH${n}` for a draw `n` in [100000, 999999]. */
  function FormatAppointmentNumber(n: nat): (s: string)
    requires 100000 <= n <= 999999
    ensures IsAppointmentNumber(s)
    ensures DigitsValue(s[3..]) == n
  {
    assert Pow10(5) == 100000 && Pow10(6) == 1000000 by {
      assert Pow10(1) == 10 && Pow10(2) == 100 && Pow10(3) == 1000 && Pow10(4) == 10000;
    }
    NatToStringLength(n, 6);
    NatToStringRoundTrip(n);
    var s := "STH" + NatToString(n);
    assert s[3..] == NatToString(n);
    s
  }

  /** Distinct draws give distinct numbers, so a number names its draw. */
  lemma FormatAppointmentNumberInjective(m: nat, n: nat)
    requires 100000 <= m <= 999999 && 100000 <= n <= 999999
    ensures FormatAppointmentNumber(m) == FormatAppointmentNumber(n) <==> m == n
  {
  }

  /** The appointment numbers in use. */
  function NumbersOf(appointments: seq<Appointment>): set<string> {
    set a | a in appointments :: a.appointmentNumber
  }

  predicate NumberTaken(appointments: seq<Appointment>, number: string) {
    number in NumbersOf(appointments)
  }

  /** `Appointment.findOne({ appointmentNumber })`. */
  function FindByNumber(appointments: seq<Appointment>, number: string): (r: Option<nat>)
    ensures r.Some? ==> r.value < |appointments| && appointments[r.value].appointmentNumber == number
    ensures r.None? <==> !NumberTaken(appointments, number)
  {
    if appointments == [] then None
    else if appointments[0].appointmentNumber == number then Some(0)
    else match FindByNumber(appointments[1..], number)
      case Some(k) => Some(k + 1)
      case None => assert forall i :: 1 <= i < |appointments| ==> appointments[i] == appointments[1..][i - 1]; None
  }

  /** `generateAppointmentNumber`: draws numbers until one is unused. The
      random draws are the input `draws`; `used` says how many were
      consumed. With a free number among the draws the result is the first
      such, and every earlier draw was taken; when every draw collides the
      source would keep drawing, and the result is None. */
  method GenerateAppointmentNumber(appointments: seq<Appointment>, draws: seq<nat>)
    returns (number: Option<string>, used: nat)
    requires forall i :: 0 <= i < |draws| ==> 100000 <= draws[i] <= 999999
    ensures used <= |draws|
    ensures number.Some? ==>
      (1 <= used && number.value == FormatAppointmentNumber(draws[used - 1])
       && !NumberTaken(appointments, number.value))
    ensures number.None? ==> used == |draws|
    ensures AllTaken(appointments, draws, if number.Some? then used - 1 else used)
  {
    var isUnique := false;
    var appointmentNumber := "";
    used := 0;
    while !isUnique && used < |draws|
      invariant used <= |draws|
      invariant isUnique ==>
        (1 <= used && appointmentNumber == FormatAppointmentNumber(draws[used - 1])
         && !NumberTaken(appointments, appointmentNumber))
      invariant AllTaken(appointments, draws, if isUnique then used - 1 else used)
    {
      appointmentNumber := FormatAppointmentNumber(draws[used]);
      var existing := FindByNumber(appointments, appointmentNumber);
      if existing.None? {
        isUnique := true;
      } else {
        AllTakenStep(appointments, draws, used);
      }
      used := used + 1;
    }
    number := if isUnique then Some(appointmentNumber) else None;
  }

  lemma AllTakenStep(appointments: seq<Appointment>, draws: seq<nat>, n: nat)
    requires forall i :: 0 <= i < |draws| ==> 100000 <= draws[i] <= 999999
    requires n < |draws| && AllTaken(appointments, draws, n)
    requires NumberTaken(appointments, FormatAppointmentNumber(draws[n]))
    ensures AllTaken(appointments, draws, n + 1)
  {
  }

  /** The first `n` draws all name numbers already in use. */
  predicate AllTaken(appointments: seq<Appointment>, draws: seq<nat>, n: int)
    requires forall i :: 0 <= i < |draws| ==> 100000 <= draws[i] <= 999999
  {
    forall k :: 0 <= k < n && k < |draws| ==> NumberTaken(appointments, FormatAppointmentNumber(draws[k]))
  }

  // ---------------------------------------------------------------------
  // Validation of a new appointment
  // ---------------------------------------------------------------------

  /** The document handed to `Appointment.create`; enum fields are still
      strings, "" stands for a field left out. The payment status is not
      part of it: it always starts at its default. */
  datatype AppointmentDraft = AppointmentDraft(
    appointmentNumber: string,
    firstName: string,
    lastName: string,
    email: string,
    phone: string,
    nic: string,
    dob: string,
    gender: string,
    appointmentDate: string,
    department: string,
    doctor: DoctorName,
    hasVisited: bool,
    doctorId: Option<Id>,
    patientId: Option<Id>,
    address: string,
    status: string)

  function RequiredMessage(path: string): string {
    "Path `" + path + "` is required."
  }

  /** The doctor's name and id are required unless the department is
      "Other". */
  predicate DoctorRequired(department: string) {
    department != "Other"
  }

  /** The number of validated paths of the appointment schema. */
  const AppointmentPathCount: nat := 16

  /** The `k`-th path of the schema in declaration order, with its
      validators on the draft `d`. */
  function AppointmentCheck(d: AppointmentDraft, isEmail: string -> bool, isDate: string -> bool, k: int): PathCheck {
    if k == 0 then
      PathCheck("appointmentNumber",
        [Validator(d.appointmentNumber != "", "Appointment number is required"),
         Validator(IsAppointmentNumber(d.appointmentNumber),
                   "Appointment number must be in format STH followed by 6 digits")])
    else if k == 1 then
      PathCheck("firstName",
        [Validator(d.firstName != "", "First name is required"),
         Validator(Utf16Length(d.firstName) >= 3, "First name must be at least 3 characters")])
    else if k == 2 then
      PathCheck("lastName",
        [Validator(d.lastName != "", "Last name is required"),
         Validator(Utf16Length(d.lastName) >= 3, "Last name must be at least 3 characters")])
    else if k == 3 then
      PathCheck("email",
        [Validator(d.email != "", "Email is required"),
         Validator(isEmail(d.email), "Please enter a valid email")])
    else if k == 4 then
      PathCheck("phone",
        [Validator(d.phone != "", "Phone number is required"),
         Validator(Utf16Length(d.phone) >= 10, "Phone number must be at least 10 digits"),
         Validator(Utf16Length(d.phone) <= 10, "Phone number must be at most 10 digits")])
    else if k == 5 then
      PathCheck("nic",
        [Validator(d.nic != "", "Aadhaar is required"),
         Validator(IsAadhaar(d.nic), "Aadhaar must contain exactly 12 digits")])
    else if k == 6 then
      PathCheck("dob",
        [Validator(d.dob != "", "Date of birth is required"),
         Validator(isDate(d.dob), DateCastMessage(d.dob, "dob"))])
    else if k == 7 then
      PathCheck("gender",
        [Validator(d.gender != "", "Gender is required"),
         Validator(ParseGender(d.gender).Some?, EnumMessage(d.gender, "gender"))])
    else if k == 8 then
      PathCheck("appointment_date", [Validator(d.appointmentDate != "", "Appointment date is required")])
    else if k == 9 then
      PathCheck("department", [Validator(d.department != "", "Department is required")])
    else if k == 10 then
      PathCheck("doctor.firstName",
        [Validator(!DoctorRequired(d.department) || d.doctor.firstName != "",
                   RequiredMessage("doctor.firstName"))])
    else if k == 11 then
      PathCheck("doctor.lastName",
        [Validator(!DoctorRequired(d.department) || d.doctor.lastName != "",
                   RequiredMessage("doctor.lastName"))])
    else if k == 12 then
      PathCheck("doctorId",
        [Validator(!DoctorRequired(d.department) || d.doctorId.Some?, RequiredMessage("doctorId"))])
    else if k == 13 then
      PathCheck("patientId", [Validator(d.patientId.Some?, "Patient ID is required")])
    else if k == 14 then
      PathCheck("address", [Validator(d.address != "", "Address is required")])
    else
      PathCheck("status",
        [Validator(d.status != "", RequiredMessage("status")),
         Validator(ParseStatus(d.status).Some?, EnumMessage(d.status, "status"))])
  }

  /** The paths of the schema in declaration order. */
  function AppointmentChecks(d: AppointmentDraft, isEmail: string -> bool, isDate: string -> bool): (cs: seq<PathCheck>)
    ensures |cs| == AppointmentPathCount
    ensures forall k :: 0 <= k < |cs| ==> cs[k] == AppointmentCheck(d, isEmail, isDate, k)
  {
    seq(AppointmentPathCount, k => AppointmentCheck(d, isEmail, isDate, k))
  }

  /** The errors of validating a new appointment. */
  function AppointmentErrors(d: AppointmentDraft, isEmail: string -> bool, isDate: string -> bool): (r: seq<FieldError>)
    ensures |r| <= AppointmentPathCount
  {
    Validate(AppointmentChecks(d, isEmail, isDate))
  }

  /** The schema's rules, stated field by field. */
  predicate AppointmentSchemaHolds(d: AppointmentDraft, isEmail: string -> bool, isDate: string -> bool) {
    && IsAppointmentNumber(d.appointmentNumber)
    && Utf16Length(d.firstName) >= 3 && Utf16Length(d.lastName) >= 3
    && d.email != "" && isEmail(d.email)
    && Utf16Length(d.phone) == 10
    && IsAadhaar(d.nic)
    && d.dob != "" && isDate(d.dob)
    && ParseGender(d.gender).Some?
    && d.appointmentDate != "" && d.department != ""
    && (d.department != "Other" ==>
          d.doctor.firstName != "" && d.doctor.lastName != "" && d.doctorId.Some?)
    && d.patientId.Some?
    && d.address != ""
    && ParseStatus(d.status).Some?
  }

  /** Paths 0 to 3 pass exactly when the number and the name and email
      rules hold. */
  lemma NumberNamePathsIff(d: AppointmentDraft, isEmail: string -> bool, isDate: string -> bool)
    ensures (forall k :: 0 <= k < 4 ==> PathPasses(AppointmentCheck(d, isEmail, isDate, k))) <==>
      (IsAppointmentNumber(d.appointmentNumber) && Utf16Length(d.firstName) >= 3 && Utf16Length(d.lastName) >= 3
       && d.email != "" && isEmail(d.email))
  {
    PathPassesSmall(AppointmentCheck(d, isEmail, isDate, 0));
    PathPassesSmall(AppointmentCheck(d, isEmail, isDate, 1));
    PathPassesSmall(AppointmentCheck(d, isEmail, isDate, 2));
    PathPassesSmall(AppointmentCheck(d, isEmail, isDate, 3));
  }

  /** Paths 4 to 7 pass exactly when the phone, Aadhaar, birth date and
      gender rules hold. */
  lemma ContactPathsIff(d: AppointmentDraft, isEmail: string -> bool, isDate: string -> bool)
    ensures (forall k :: 4 <= k < 8 ==> PathPasses(AppointmentCheck(d, isEmail, isDate, k))) <==>
      (Utf16Length(d.phone) == 10 && IsAadhaar(d.nic) && d.dob != "" && isDate(d.dob) && ParseGender(d.gender).Some?)
  {
    GenderRoundTrip(Male, d.gender);
    PathPassesSmall(AppointmentCheck(d, isEmail, isDate, 4));
    PathPassesSmall(AppointmentCheck(d, isEmail, isDate, 5));
    PathPassesSmall(AppointmentCheck(d, isEmail, isDate, 6));
    PathPassesSmall(AppointmentCheck(d, isEmail, isDate, 7));
  }

  /** Paths 0 to 7 pass exactly when the identity and contact rules
      hold. */
  lemma FirstPathsIff(d: AppointmentDraft, isEmail: string -> bool, isDate: string -> bool)
    ensures (forall k :: 0 <= k < 8 ==> PathPasses(AppointmentCheck(d, isEmail, isDate, k))) <==>
      (IsAppointmentNumber(d.appointmentNumber) && Utf16Length(d.firstName) >= 3 && Utf16Length(d.lastName) >= 3
       && d.email != "" && isEmail(d.email) && Utf16Length(d.phone) == 10 && IsAadhaar(d.nic) && d.dob != "" && isDate(d.dob)
       && ParseGender(d.gender).Some?)
  {
    NumberNamePathsIff(d, isEmail, isDate);
    ContactPathsIff(d, isEmail, isDate);
  }

  /** Paths 8 to 11 pass exactly when the date, the department and the
      doctor's name rules hold. */
  lemma VisitPathsIff(d: AppointmentDraft, isEmail: string -> bool, isDate: string -> bool)
    ensures (forall k :: 8 <= k < 12 ==> PathPasses(AppointmentCheck(d, isEmail, isDate, k))) <==>
      (d.appointmentDate != "" && d.department != ""
       && (d.department != "Other" ==> d.doctor.firstName != "" && d.doctor.lastName != ""))
  {
    PathPassesSmall(AppointmentCheck(d, isEmail, isDate, 8));
    PathPassesSmall(AppointmentCheck(d, isEmail, isDate, 9));
    PathPassesSmall(AppointmentCheck(d, isEmail, isDate, 10));
    PathPassesSmall(AppointmentCheck(d, isEmail, isDate, 11));
  }

  /** Paths 12 to 15 pass exactly when the doctor's id, the patient, the
      address and the status rules hold. */
  lemma RecordPathsIff(d: AppointmentDraft, isEmail: string -> bool, isDate: string -> bool)
    ensures (forall k :: 12 <= k < 16 ==> PathPasses(AppointmentCheck(d, isEmail, isDate, k))) <==>
      ((d.department != "Other" ==> d.doctorId.Some?) && d.patientId.Some? && d.address != ""
       && ParseStatus(d.status).Some?)
  {
    StatusRoundTrip(Pending, d.status);
    PathPassesSmall(AppointmentCheck(d, isEmail, isDate, 12));
    PathPassesSmall(AppointmentCheck(d, isEmail, isDate, 13));
    PathPassesSmall(AppointmentCheck(d, isEmail, isDate, 14));
    PathPassesSmall(AppointmentCheck(d, isEmail, isDate, 15));
  }

  /** Paths 8 to 15 pass exactly when the visit and record rules hold. */
  lemma LastPathsIff(d: AppointmentDraft, isEmail: string -> bool, isDate: string -> bool)
    ensures (forall k :: 8 <= k < 16 ==> PathPasses(AppointmentCheck(d, isEmail, isDate, k))) <==>
      (d.appointmentDate != "" && d.department != ""
       && (d.department != "Other" ==>
             d.doctor.firstName != "" && d.doctor.lastName != "" && d.doctorId.Some?)
       && d.patientId.Some? && d.address != ""
       && ParseStatus(d.status).Some?)
  {
    VisitPathsIff(d, isEmail, isDate);
    RecordPathsIff(d, isEmail, isDate);
  }

  /** Validation passes exactly when the schema's rules hold; in particular
      the doctor is required exactly when the department is not "Other". */
  lemma AppointmentErrorsIff(d: AppointmentDraft, isEmail: string -> bool, isDate: string -> bool)
    ensures AppointmentErrors(d, isEmail, isDate) == [] <==> AppointmentSchemaHolds(d, isEmail, isDate)
  {
    var cs := AppointmentChecks(d, isEmail, isDate);
    ValidateIff(cs);
    FirstPathsIff(d, isEmail, isDate);
    LastPathsIff(d, isEmail, isDate);
    assert AllPass(cs) <==> forall k :: 0 <= k < 16 ==> PathPasses(AppointmentCheck(d, isEmail, isDate, k));
  }

  /** The stored appointment built from a draft that passed validation:
      `hasVisited` as given, the payment status at its default PENDING. */
  function AppointmentFromDraft(d: AppointmentDraft, id: Id, isEmail: string -> bool, isDate: string -> bool): (a: Appointment)
    requires AppointmentSchemaHolds(d, isEmail, isDate)
    ensures a.id == id && a.appointmentNumber == d.appointmentNumber
    ensures StatusName(a.status) == d.status && a.paymentStatus == Unpaid
    ensures Some(a.patientId) == d.patientId && a.doctorId == d.doctorId && a.doctor == d.doctor
    ensures AppointmentValid(a, isEmail, isDate)
  {
    GenderRoundTrip(Male, d.gender);
    StatusRoundTrip(Pending, d.status);
    AppointmentValidIff(Appointment(id, d.appointmentNumber, d.firstName, d.lastName, d.email, d.phone,
                                    d.nic, d.dob, ParseGender(d.gender).value, d.appointmentDate,
                                    d.department, d.doctor, d.hasVisited, d.doctorId, d.patientId.value,
                                    d.address, ParseStatus(d.status).value, Unpaid), isEmail, isDate);
    Appointment(id, d.appointmentNumber, d.firstName, d.lastName, d.email, d.phone, d.nic, d.dob,
                ParseGender(d.gender).value, d.appointmentDate, d.department, d.doctor, d.hasVisited,
                d.doctorId, d.patientId.value, d.address, ParseStatus(d.status).value, Unpaid)
  }

  function AppointmentDraftOf(a: Appointment): AppointmentDraft {
    AppointmentDraft(a.appointmentNumber, a.firstName, a.lastName, a.email, a.phone, a.nic, a.dob,
                     GenderName(a.gender), a.appointmentDate, a.department, a.doctor, a.hasVisited,
                     a.doctorId, Some(a.patientId), a.address, StatusName(a.status))
  }

  /** The schema's rules on a stored appointment, whose gender and status
      are enum members by construction. */
  predicate AppointmentValid(a: Appointment, isEmail: string -> bool, isDate: string -> bool) {
    && IsAppointmentNumber(a.appointmentNumber)
    && Utf16Length(a.firstName) >= 3 && Utf16Length(a.lastName) >= 3
    && a.email != "" && isEmail(a.email)
    && Utf16Length(a.phone) == 10
    && IsAadhaar(a.nic)
    && a.dob != "" && isDate(a.dob) && a.appointmentDate != "" && a.department != ""
    && (a.department != "Other" ==>
          a.doctor.firstName != "" && a.doctor.lastName != "" && a.doctorId.Some?)
    && a.address != ""
  }

  /** A stored appointment is valid exactly when it would pass validation
      again. */
  lemma AppointmentValidIff(a: Appointment, isEmail: string -> bool, isDate: string -> bool)
    ensures AppointmentValid(a, isEmail, isDate) <==> AppointmentSchemaHolds(AppointmentDraftOf(a), isEmail, isDate)
  {
    GenderRoundTrip(a.gender, "");
    StatusRoundTrip(a.status, "");
  }

  // ---------------------------------------------------------------------
  // Validators of an update (`runValidators: true`)
  // ---------------------------------------------------------------------

  /** The fields of an update body that the model follows; None for a field
      the body does not carry. */
  datatype AppointmentPatch = AppointmentPatch(
    status: Option<string>,
    paymentStatus: Option<string>,
    hasVisited: Option<bool>)

  /** Update validators run only on the paths the update sets. */
  function PatchErrors(p: AppointmentPatch): (r: seq<FieldError>)
    ensures r == [] <==>
      (p.status.Some? ==> ParseStatus(p.status.value).Some?)
      && (p.paymentStatus.Some? ==> ParsePaymentStatus(p.paymentStatus.value).Some?)
  {
    (match p.status
     case None => []
     case Some(s) => Then(Check("status", s != "", RequiredMessage("status")),
                          Check("status", ParseStatus(s).Some?, EnumMessage(s, "status"))))
    + (match p.paymentStatus
       case None => []
       case Some(s) => Check("paymentStatus", ParsePaymentStatus(s).Some?, EnumMessage(s, "paymentStatus")))
  }

  /** The record after a validated update: exactly the carried fields
      change. */
  function ApplyPatch(a: Appointment, p: AppointmentPatch): (b: Appointment)
    requires PatchErrors(p) == []
    ensures p.status.Some? ==> StatusName(b.status) == p.status.value
    ensures p.status.None? ==> b.status == a.status
    ensures p.paymentStatus.Some? ==> PaymentStatusName(b.paymentStatus) == p.paymentStatus.value
    ensures p.paymentStatus.None? ==> b.paymentStatus == a.paymentStatus
    ensures p.hasVisited.Some? ==> b.hasVisited == p.hasVisited.value
    ensures p.hasVisited.None? ==> b.hasVisited == a.hasVisited
    ensures b.(status := a.status, paymentStatus := a.paymentStatus, hasVisited := a.hasVisited) == a
  {
    a.(status := if p.status.Some? then ParseStatus(p.status.value).value else a.status,
       paymentStatus := if p.paymentStatus.Some? then ParsePaymentStatus(p.paymentStatus.value).value
                        else a.paymentStatus,
       hasVisited := if p.hasVisited.Some? then p.hasVisited.value else a.hasVisited)
  }

  /** A validated update keeps a stored appointment valid. */
  lemma ApplyPatchKeepsValid(a: Appointment, p: AppointmentPatch, isEmail: string -> bool, isDate: string -> bool)
    requires PatchErrors(p) == [] && AppointmentValid(a, isEmail, isDate)
    ensures AppointmentValid(ApplyPatch(a, p), isEmail, isDate)
  {
    var b := ApplyPatch(a, p);
    StatusRoundTrip(b.status, "");
  }
}
