/** The appointment handlers (Backend/controller/appointmentController.js).
    Each handler is a chain of guards ending in at most a few reads and
    writes of the database. The random draws of the number generator, the
    mailer and the clock are parameters; the caller `req.user` is the user
    the route's guard let through. */
module AppointmentController {
  import opened Common
  import opened ErrorMiddleware
  import opened UserSchema
  import opened AppointmentSchema
  import opened Store

  /** The booking fields of a request body; "" for a field left out or
      empty (both are falsy). An absent `hasVisited` is false. */
  datatype BookingRequest = BookingRequest(
    firstName: string,
    lastName: string,
    email: string,
    phone: string,
    nic: string,
    dob: string,
    gender: string,
    appointmentDate: string,
    department: string,
    doctorFirstName: string,
    doctorLastName: string,
    hasVisited: bool,
    address: string)

  /** The twelve fields the booking handlers require, in the order they
      are tested. */
  function BookingFields(r: BookingRequest): seq<string> {
    [r.firstName, r.lastName, r.email, r.phone, r.nic, r.dob, r.gender, r.appointmentDate,
     r.department, r.doctorFirstName, r.doctorLastName, r.address]
  }

  /** The ten fields the direct booking requires: no doctor names. */
  function DirectFields(r: BookingRequest): seq<string> {
    [r.firstName, r.lastName, r.email, r.phone, r.nic, r.dob, r.gender, r.appointmentDate,
     r.department, r.address]
  }

  /** The `User.find` query of the doctor lookup. */
  predicate IsDoctorNamed(u: User, firstName: string, lastName: string, department: string) {
    u.firstName == firstName && u.lastName == lastName && u.role == Doctor
    && u.doctorDepartment == Some(department)
  }

  function MatchingDoctors(users: seq<User>, firstName: string, lastName: string, department: string)
    : (found: seq<User>)
    ensures forall u :: u in found <==> u in users && IsDoctorNamed(u, firstName, lastName, department)
    ensures |found| <= |users|
  {
    Filter(users, (u: User) => IsDoctorNamed(u, firstName, lastName, department))
  }

  const MultipleDoctors: string :=
    "Multiple doctors found with the same name in the specified department. Please Contact Through Email or Phone !!"

  /** The outcome of a handler's guards: go on with the doctor's id (none
      for the "Other" department of a direct booking), or answer. */
  datatype Screening = Cleared(doctorId: Option<Id>) | Refused(reply: Reply)

  /** The doctor lookup shared by the booking handlers: exactly one match. */
  function LookUpDoctor(users: seq<User>, firstName: string, lastName: string, department: string)
    : (s: Screening)
    ensures s.Cleared? ==> s.doctorId.Some?
  {
    var found := MatchingDoctors(users, firstName, lastName, department);
    if |found| == 0 then Refused(Reject("Doctor Not Found", 404))
    else if |found| > 1 then Refused(Reject(MultipleDoctors, 400))
    else Cleared(Some(found[0].id))
  }

  /** A cleared lookup names the one doctor the query matches. */
  lemma LookUpDoctorUnique(users: seq<User>, firstName: string, lastName: string, department: string)
    ensures var s := LookUpDoctor(users, firstName, lastName, department);
      s.Cleared? <==> |MatchingDoctors(users, firstName, lastName, department)| == 1
    ensures var s := LookUpDoctor(users, firstName, lastName, department);
      s.Cleared? ==>
        && s.doctorId.Some?
        && (exists u :: u in users && IsDoctorNamed(u, firstName, lastName, department) && u.id == s.doctorId.value)
        && (forall u :: u in users && IsDoctorNamed(u, firstName, lastName, department) ==>
              u.id == s.doctorId.value)
  {
    var found := MatchingDoctors(users, firstName, lastName, department);
    if |found| == 1 {
      assert found[0] in found;
      forall u | u in users && IsDoctorNamed(u, firstName, lastName, department)
        ensures u.id == found[0].id
      {
        assert u in found;
      }
    }
  }

  /** Lines 29-59 of `bookAppointment`: the guards before anything is
      written. */
  function ScreenBooking(req: BookingRequest, users: seq<User>): (s: Screening)
    ensures s.Cleared? ==> s.doctorId.Some?
  {
    if !AllPresent(BookingFields(req)) then Refused(Reject("Please fill all fields", 400))
    else if !IsAadhaar(req.nic) then Refused(Reject("Please provide a valid 12-digit Aadhaar number", 400))
    else LookUpDoctor(users, req.doctorFirstName, req.doctorLastName, req.department)
  }

  /** The guards of a booking reject in a fixed order: a missing field, a
      bad Aadhaar, no matching doctor, several matching doctors; a booking
      goes on exactly when none of them fires. */
  lemma BookingRejectionOrder(req: BookingRequest, users: seq<User>)
    ensures !AllPresent(BookingFields(req)) ==>
      ScreenBooking(req, users) == Refused(Failure(400, "Please fill all fields"))
    ensures AllPresent(BookingFields(req)) && !IsAadhaar(req.nic) ==>
      ScreenBooking(req, users) == Refused(Failure(400, "Please provide a valid 12-digit Aadhaar number"))
    ensures (AllPresent(BookingFields(req)) && IsAadhaar(req.nic)
             && |MatchingDoctors(users, req.doctorFirstName, req.doctorLastName, req.department)| == 0) ==>
      ScreenBooking(req, users) == Refused(Failure(404, "Doctor Not Found"))
    ensures (AllPresent(BookingFields(req)) && IsAadhaar(req.nic)
             && |MatchingDoctors(users, req.doctorFirstName, req.doctorLastName, req.department)| > 1) ==>
      ScreenBooking(req, users) == Refused(Failure(400, MultipleDoctors))
    ensures ScreenBooking(req, users).Cleared? <==>
      AllPresent(BookingFields(req)) && IsAadhaar(req.nic)
      && |MatchingDoctors(users, req.doctorFirstName, req.doctorLastName, req.department)| == 1
    ensures ScreenBooking(req, users).Cleared? ==> ScreenBooking(req, users).doctorId.Some?
  {
    LookUpDoctorUnique(users, req.doctorFirstName, req.doctorLastName, req.department);
  }

  /** The document `bookAppointment` and `bookMultipleAppointments` hand to
      `Appointment.create`: the status is left to its default. */
  function BookingDraft(req: BookingRequest, number: string, doctorId: Id, patientId: Id)
    : AppointmentDraft
  {
    AppointmentDraft(number, req.firstName, req.lastName, req.email, req.phone, req.nic, req.dob,
                     req.gender, req.appointmentDate, req.department,
                     DoctorName(req.doctorFirstName, req.doctorLastName), req.hasVisited,
                     Some(doctorId), Some(patientId), req.address, StatusName(Pending))
  }

  /** An appointment carries a request's details, is the patient's and
      waits for review. */
  predicate BookedFrom(a: Appointment, req: BookingRequest, patientId: Id) {
    && a.firstName == req.firstName && a.lastName == req.lastName && a.email == req.email
    && a.phone == req.phone && a.nic == req.nic && a.dob == req.dob
    && a.appointmentDate == req.appointmentDate && a.department == req.department
    && a.doctor == DoctorName(req.doctorFirstName, req.doctorLastName)
    && a.hasVisited == req.hasVisited && a.address == req.address
    && a.patientId == patientId && a.status == Pending && a.paymentStatus == Unpaid
  }

  lemma BookingDraftFacts(req: BookingRequest, number: string, doctorId: Id, patientId: Id, id: Id,
                          isEmail: string -> bool, isDate: string -> bool)
    requires AppointmentSchemaHolds(BookingDraft(req, number, doctorId, patientId), isEmail, isDate)
    ensures var a := AppointmentFromDraft(BookingDraft(req, number, doctorId, patientId), id, isEmail, isDate);
      BookedFrom(a, req, patientId) && a.doctorId == Some(doctorId)
  {
    var a := AppointmentFromDraft(BookingDraft(req, number, doctorId, patientId), id, isEmail, isDate);
    GenderRoundTrip(a.gender, req.gender);
    StatusRoundTrip(a.status, "");
  }

  const ConfirmationSubject: string := "Appointment Confirmation - Satya Trauma & Maternity Center"

  /** The confirmation of a booking: to the patient's email, naming the
      appointment and its doctor. */
  function ConfirmationMail(a: Appointment): Mail {
    Mail(a.email, ConfirmationSubject, a.id, a.doctor.firstName + " " + a.doctor.lastName)
  }

  /** The confirmations attempted for the appointments `booked`, in order. */
  function Confirmations(booked: seq<Appointment>, mailer: Mail -> bool): seq<MailAttempt> {
    if booked == [] then []
    else Confirmations(booked[..|booked| - 1], mailer)
         + [MailAttempt(ConfirmationMail(booked[|booked| - 1]), mailer(ConfirmationMail(booked[|booked| - 1])))]
  }

  /** One attempt per appointment, each the appointment's own
      confirmation. */
  lemma {:induction false} ConfirmationsAt(booked: seq<Appointment>, mailer: Mail -> bool)
    ensures |Confirmations(booked, mailer)| == |booked|
    ensures forall k :: 0 <= k < |booked| ==>
      Confirmations(booked, mailer)[k] == MailAttempt(ConfirmationMail(booked[k]), mailer(ConfirmationMail(booked[k])))
  {
    if booked != [] {
      ConfirmationsAt(booked[..|booked| - 1], mailer);
    }
  }

  lemma ConfirmationsAppend(booked: seq<Appointment>, a: Appointment, mailer: Mail -> bool)
    ensures Confirmations(booked + [a], mailer)
         == Confirmations(booked, mailer) + [MailAttempt(ConfirmationMail(a), mailer(ConfirmationMail(a)))]
  {
    assert (booked + [a])[..|booked|] == booked;
  }

  predicate DrawsInRange(draws: seq<nat>) {
    forall i :: 0 <= i < |draws| ==> 100000 <= draws[i] <= 999999
  }

  /** `Appointment.create(draft)` and, when it succeeds, the confirmation
      email, whose failure is swallowed. A draft the schema refuses writes
      nothing and returns the schema's errors. */
  method SubmitDraft(db: Db, draft: AppointmentDraft, to: string, subject: string, doctorName: string,
                     mailer: Mail -> bool)
    returns (created: Option<Appointment>, errors: seq<FieldError>)
    requires db.Valid() && !NumberTaken(db.appointments, draft.appointmentNumber)
    modifies db
    ensures db.Valid() && db.users == old(db.users) && db.payments == old(db.payments)
    ensures created.None? <==> !AppointmentSchemaHolds(draft, db.isEmail, db.isDate)
    ensures created.None? ==> errors == AppointmentErrors(draft, db.isEmail, db.isDate) && errors != []
    ensures created.None? ==>
      db.appointments == old(db.appointments) && db.outbox == old(db.outbox) && db.nextId == old(db.nextId)
    ensures created.Some? ==>
      && AppointmentSchemaHolds(draft, db.isEmail, db.isDate)
      && created.value == AppointmentFromDraft(draft, old(db.nextId), db.isEmail, db.isDate)
      && db.appointments == old(db.appointments) + [created.value]
      && var mail := Mail(to, subject, created.value.id, doctorName);
         db.outbox == old(db.outbox) + [MailAttempt(mail, mailer(mail))]
  {
    errors := AppointmentErrors(draft, db.isEmail, db.isDate);
    AppointmentErrorsIff(draft, db.isEmail, db.isDate);
    if errors != [] {
      return None, errors;
    }
    var a := db.CreateAppointment(draft);
    db.Send(Mail(to, subject, a.id, doctorName), mailer);
    created := Some(a);
  }

  /** What became of a booking whose guards passed: booked, refused by the
      schema with the `ValidationError` Mongoose throws, or left waiting on
      the number generator. */
  datatype Filing = Booked(appointment: Appointment) | Invalid(errors: seq<FieldError>) | Stalled

  /** The outcome of filing `req` for the patient `caller` with the doctor
      `doctorId`, between the state before and after: the generator stalls
      exactly when every draw hit a taken number; a booking appends exactly
      one appointment with the request's details, a fresh id and the first
      free number drawn, and attempts its confirmation; a draft the schema
      refuses yields the schema's errors; anything but a booking leaves the
      appointments and the outbox alone. */
  twostate predicate Filed(db: Db, caller: User, req: BookingRequest, doctorId: Id, draws: seq<nat>,
                           mailer: Mail -> bool, filing: Filing, used: nat)
    requires DrawsInRange(draws)
    reads db
  {
    && used <= |draws|
    && (filing.Stalled? <==> used == |draws| && AllTaken(old(db.appointments), draws, used))
    && (filing.Booked? ==>
          && var a := filing.appointment;
             && db.appointments == old(db.appointments) + [a]
             && BookedFrom(a, req, caller.id) && a.doctorId == Some(doctorId) && a.id == old(db.nextId)
             && 1 <= used && a.appointmentNumber == FormatAppointmentNumber(draws[used - 1])
             && !NumberTaken(old(db.appointments), a.appointmentNumber)
             && db.outbox == old(db.outbox) + [MailAttempt(ConfirmationMail(a), mailer(ConfirmationMail(a)))])
    && (filing.Invalid? ==>
          && 1 <= used
          && var draft := BookingDraft(req, FormatAppointmentNumber(draws[used - 1]), doctorId, caller.id);
             && filing.errors == AppointmentErrors(draft, db.isEmail, db.isDate) && filing.errors != [])
    && (!filing.Booked? ==> db.appointments == old(db.appointments) && db.outbox == old(db.outbox))
  }

  /** Creating the appointment for a free `number` and confirming it: the
      appointment is appended with the request's details, or the schema's
      errors come back with nothing written. */
  method SubmitBooking(db: Db, caller: User, req: BookingRequest, number: string, doctorId: Id,
                       mailer: Mail -> bool)
    returns (filing: Filing)
    requires db.Valid() && !NumberTaken(db.appointments, number)
    modifies db
    ensures db.Valid() && db.users == old(db.users) && db.payments == old(db.payments)
    ensures !filing.Stalled?
    ensures filing.Booked? ==>
      && var a := filing.appointment;
         && db.appointments == old(db.appointments) + [a]
         && BookedFrom(a, req, caller.id) && a.doctorId == Some(doctorId) && a.id == old(db.nextId)
         && a.appointmentNumber == number
         && db.outbox == old(db.outbox) + [MailAttempt(ConfirmationMail(a), mailer(ConfirmationMail(a)))]
    ensures filing.Invalid? ==>
      && filing.errors == AppointmentErrors(BookingDraft(req, number, doctorId, caller.id), db.isEmail, db.isDate)
      && filing.errors != []
    ensures !filing.Booked? ==> db.appointments == old(db.appointments) && db.outbox == old(db.outbox)
  {
    var draft := BookingDraft(req, number, doctorId, caller.id);
    var created, errors := SubmitDraft(db, draft, req.email, ConfirmationSubject,
                                       req.doctorFirstName + " " + req.doctorLastName, mailer);
    if created.None? {
      filing := Invalid(errors);
    } else {
      BookingDraftFacts(req, number, doctorId, caller.id, old(db.nextId), db.isEmail, db.isDate);
      assert db.outbox == old(db.outbox)
        + [MailAttempt(ConfirmationMail(created.value), mailer(ConfirmationMail(created.value)))];
      filing := Booked(created.value);
    }
  }

  /** The end of both booking handlers once the guards passed: draw a free
      number, create the appointment, then send the confirmation. */
  method FileBooking(db: Db, caller: User, req: BookingRequest, doctorId: Id, draws: seq<nat>,
                     mailer: Mail -> bool)
    returns (filing: Filing, used: nat)
    requires db.Valid() && DrawsInRange(draws)
    modifies db
    ensures db.Valid() && db.users == old(db.users) && db.payments == old(db.payments)
    ensures Filed(db, caller, req, doctorId, draws, mailer, filing, used)
  {
    var number;
    number, used := GenerateAppointmentNumber(db.appointments, draws);
    if number.None? {
      return Stalled, used;
    }
    filing := SubmitBooking(db, caller, req, number.value, doctorId, mailer);
  }

  // ---------------------------------------------------------------------
  // bookAppointment
  // ---------------------------------------------------------------------

  /** The reply of `bookAppointment` once the guards passed. */
  function BookingReply(filing: Filing): Reply {
    match filing
    case Booked(_) => Success(201, "Appointment booked successfully")
    case Invalid(errs) => Normalize(ValidationFailure("Appointment", errs))
    case Stalled => Unanswered
  }

  /** A booking is a 201 exactly when an appointment was created; a draft
      the schema refuses is a 500, not a 400, and shows the schema's
      messages. */
  lemma BookingReplyStatus(filing: Filing)
    ensures BookingReply(filing).Success? <==> filing.Booked?
    ensures filing.Booked? ==> BookingReply(filing) == Success(201, "Appointment booked successfully")
    ensures filing.Invalid? ==> BookingReply(filing).Failure? && BookingReply(filing).status == 500
    ensures filing.Invalid? && filing.errors != [] && filing.errors[0].message != "" ==>
      BookingReply(filing).message == Join(FieldMessages(filing.errors), " ")
    ensures BookingReply(filing).Unanswered? <==> filing.Stalled?
  {
    if filing.Invalid? {
      ValidationFailureIs500("Appointment", filing.errors);
    }
  }

  /** `bookAppointment` for the patient `caller`. A refusal by the guards
      writes nothing and draws nothing; otherwise the booking is filed with
      the one doctor the lookup matched, and the reply follows the filing. */
  method BookAppointment(db: Db, caller: User, req: BookingRequest, draws: seq<nat>, mailer: Mail -> bool)
    returns (reply: Reply, used: nat, ghost filing: Filing)
    requires db.Valid() && DrawsInRange(draws)
    modifies db
    ensures db.Valid() && db.users == old(db.users) && db.payments == old(db.payments)
    ensures ScreenBooking(req, old(db.users)).Refused? ==>
      && reply == ScreenBooking(req, old(db.users)).reply && used == 0
      && db.appointments == old(db.appointments) && db.outbox == old(db.outbox)
    ensures ScreenBooking(req, old(db.users)).Cleared? ==>
      && Filed(db, caller, req, ScreenBooking(req, old(db.users)).doctorId.value, draws, mailer, filing, used)
      && reply == BookingReply(filing)
  {
    used := 0;
    filing := Stalled;
    var screening := ScreenBooking(req, db.users);
    if screening.Refused? {
      reply := screening.reply;
      return;
    }
    var f;
    f, used := FileBooking(db, caller, req, screening.doctorId.value, draws, mailer);
    filing := f;
    reply := match f
      case Booked(_) => Success(201, "Appointment booked successfully")
      case Invalid(errs) => Normalize(ValidationFailure("Appointment", errs))
      case Stalled => Unanswered;
  }

  // ---------------------------------------------------------------------
  // bookMultipleAppointments
  // ---------------------------------------------------------------------

  /** The `appointments` field of the body: not an array (or absent), or
      the list of bookings. */
  datatype BatchBody = NotAList | Items(items: seq<BookingRequest>)

  /** The guards of one item of a batch: the same tests as a single
      booking, reported as a line of the `errors` list. */
  datatype ItemScreening = ItemCleared(doctorId: Id) | ItemRefused(error: string)

  function ScreenItem(req: BookingRequest, users: seq<User>): (r: ItemScreening)
    ensures r.ItemCleared? ==> AllPresent(BookingFields(req)) && IsAadhaar(req.nic)
    ensures r.ItemCleared? ==> exists u :: u in users && u.id == r.doctorId && u.role == Doctor
    ensures !AllPresent(BookingFields(req)) ==>
      r == ItemRefused("Appointment for " + req.appointmentDate + " is missing required fields")
  {
    if !AllPresent(BookingFields(req)) then
      ItemRefused("Appointment for " + req.appointmentDate + " is missing required fields")
    else if !IsAadhaar(req.nic) then
      ItemRefused("Invalid Aadhaar number for appointment on " + req.appointmentDate)
    else
      var found := MatchingDoctors(users, req.doctorFirstName, req.doctorLastName, req.department);
      if |found| == 0 then ItemRefused("Doctor not found for appointment on " + req.appointmentDate)
      else if |found| > 1 then ItemRefused("Multiple doctors found with the same name in " + req.department)
      else ItemCleared(found[0].id)
  }

  /** An item of a batch goes through exactly when the same request would
      pass the guards of a single booking, and with the same doctor. */
  lemma ScreenItemAgreesWithBooking(req: BookingRequest, users: seq<User>)
    ensures ScreenItem(req, users).ItemCleared? <==> ScreenBooking(req, users).Cleared?
    ensures ScreenItem(req, users).ItemCleared? ==>
      ScreenBooking(req, users).doctorId == Some(ScreenItem(req, users).doctorId)
  {
  }

  const BatchItemFailure: string := "Failed to book appointment: "

  /** What became of one item of a batch: booked, reported by a line of
      the `errors` list, or left waiting on the number generator. */
  datatype ItemOutcome = ItemBooked(appointment: Appointment) | ItemFailed(line: string) | ItemStalled

  /** The `catch` of an item: a schema refusal is reported with the
      summary message of the `ValidationError`. */
  function ItemOutcomeOf(filing: Filing): ItemOutcome {
    match filing
    case Booked(a) => ItemBooked(a)
    case Invalid(errs) => ItemFailed(BatchItemFailure + ValidationFailure("Appointment", errs).message)
    case Stalled => ItemStalled
  }

  /** The outcome of one item of a batch: a refused item is reported with
      the guard's line and draws nothing; a cleared one is filed as a
      single booking would be, and its outcome follows the filing. */
  twostate predicate ItemFiled(db: Db, caller: User, req: BookingRequest, draws: seq<nat>,
                               mailer: Mail -> bool, outcome: ItemOutcome, used: nat, filing: Filing)
    requires DrawsInRange(draws)
    reads db
  {
    match ScreenItem(req, old(db.users))
    case ItemRefused(error) =>
      && outcome == ItemFailed(error) && used == 0
      && db.appointments == old(db.appointments) && db.outbox == old(db.outbox)
    case ItemCleared(doctorId) =>
      Filed(db, caller, req, doctorId, draws, mailer, filing, used) && outcome == ItemOutcomeOf(filing)
  }

  /** One pass of the loop of `bookMultipleAppointments`: the item's
      guards, then the same filing as a single booking. A refused item
      writes nothing and draws nothing. */
  method BookItem(db: Db, caller: User, req: BookingRequest, draws: seq<nat>, mailer: Mail -> bool)
    returns (outcome: ItemOutcome, used: nat, ghost filing: Filing)
    requires db.Valid() && DrawsInRange(draws)
    modifies db
    ensures db.Valid() && db.users == old(db.users) && db.payments == old(db.payments) && used <= |draws|
    ensures ItemFiled(db, caller, req, draws, mailer, outcome, used, filing)
    ensures outcome.ItemBooked? ==>
      && db.appointments == old(db.appointments) + [outcome.appointment]
      && BookedFrom(outcome.appointment, req, caller.id)
      && db.outbox == old(db.outbox)
           + [MailAttempt(ConfirmationMail(outcome.appointment), mailer(ConfirmationMail(outcome.appointment)))]
    ensures !outcome.ItemBooked? ==> db.appointments == old(db.appointments) && db.outbox == old(db.outbox)
  {
    used := 0;
    filing := Stalled;
    var screening := ScreenItem(req, db.users);
    if screening.ItemRefused? {
      outcome := ItemFailed(screening.error);
      return;
    }
    var f;
    f, used := FileBooking(db, caller, req, screening.doctorId, draws, mailer);
    filing := f;
    outcome := match f
      case Booked(a) => ItemBooked(a)
      case Invalid(errs) => ItemFailed(BatchItemFailure + ValidationFailure("Appointment", errs).message)
      case Stalled => ItemStalled;
  }

  /** `BookItem` as the loop of the batch relies on it: only what the item
      did to the appointments and the outbox. */
  method BookItemEffect(db: Db, caller: User, req: BookingRequest, draws: seq<nat>, mailer: Mail -> bool)
    returns (outcome: ItemOutcome, used: nat)
    requires db.Valid() && DrawsInRange(draws)
    modifies db
    ensures db.Valid() && db.users == old(db.users) && db.payments == old(db.payments) && used <= |draws|
    ensures outcome.ItemBooked? ==>
      && db.appointments == old(db.appointments) + [outcome.appointment]
      && BookedFrom(outcome.appointment, req, caller.id)
      && db.outbox == old(db.outbox)
           + [MailAttempt(ConfirmationMail(outcome.appointment), mailer(ConfirmationMail(outcome.appointment)))]
    ensures !outcome.ItemBooked? ==> db.appointments == old(db.appointments) && db.outbox == old(db.outbox)
  {
    var o, n, _ := BookItem(db, caller, req, draws, mailer);
    outcome, used := o, n;
  }

  /** The 201 message of a batch. */
  function BatchMessage(booked: nat): string {
    if booked > 0 then "Successfully booked " + NatToString(booked) + " appointments"
    else "No appointments were booked"
  }

  /** The JSON `errors` field: left out when no item failed. */
  function ErrorsField(errors: seq<string>): (r: Option<seq<string>>)
    ensures r.None? <==> errors == []
    ensures r.Some? ==> r.value == errors
  {
    if errors == [] then None else Some(errors)
  }

  /** `booked[k]` was filed from the item `sources[k]`, one of the first
      `bound` items: the appointments follow their items' order, and each
      carries its item's details with `patientId` as patient. */
  predicate BatchTrace(items: seq<BookingRequest>, bound: nat, booked: seq<Appointment>, sources: seq<nat>,
                       patientId: Id)
  {
    && |sources| == |booked|
    && (forall k :: 0 <= k < |booked| ==>
          sources[k] < bound && bound <= |items| && BookedFrom(booked[k], items[sources[k]], patientId))
    && (forall k, l :: 0 <= k < l < |booked| ==> sources[k] < sources[l])
  }

  /** Booking the item `i` extends the trace. */
  lemma BatchTraceBooked(items: seq<BookingRequest>, i: nat, booked: seq<Appointment>, sources: seq<nat>,
                         patientId: Id, a: Appointment)
    requires BatchTrace(items, i, booked, sources, patientId)
    requires i < |items| && BookedFrom(a, items[i], patientId)
    ensures BatchTrace(items, i + 1, booked + [a], sources + [i], patientId)
  {
    var b, t := booked + [a], sources + [i];
    forall k | 0 <= k < |b|
      ensures t[k] < i + 1 && BookedFrom(b[k], items[t[k]], patientId)
    {
      if k < |booked| {
        assert b[k] == booked[k] && t[k] == sources[k];
      }
    }
  }

  /** A trace up to `i` is a trace up to any later bound. */
  lemma BatchTraceWiden(items: seq<BookingRequest>, i: nat, j: nat, booked: seq<Appointment>,
                        sources: seq<nat>, patientId: Id)
    requires BatchTrace(items, i, booked, sources, patientId) && i <= j <= |items|
    ensures BatchTrace(items, j, booked, sources, patientId)
  {
  }

  /** The loop of `bookMultipleAppointments` over `items`, in order, until
      the generator stalls: every item passed is booked or reported by one
      line, the bookings are appended in item order and each has its
      confirmation attempted. */
  method BookItems(db: Db, caller: User, items: seq<BookingRequest>, draws: seq<nat>, mailer: Mail -> bool)
    returns (booked: seq<Appointment>, lines: seq<string>, stalled: bool, used: nat, ghost sources: seq<nat>)
    requires db.Valid() && DrawsInRange(draws)
    modifies db
    ensures db.Valid() && used <= |draws|
    ensures db.users == old(db.users) && db.payments == old(db.payments)
    ensures db.appointments == old(db.appointments) + booked
    ensures db.outbox == old(db.outbox) + Confirmations(booked, mailer)
    ensures BatchTrace(items, |items|, booked, sources, caller.id)
    ensures !stalled ==> |booked| + |lines| == |items|
  {
    booked, lines, stalled, used, sources := [], [], false, 0, [];
    var i := 0;
    while i < |items|
      invariant 0 <= i <= |items| && used <= |draws|
      invariant db.Valid() && db.users == old(db.users) && db.payments == old(db.payments)
      invariant db.appointments == old(db.appointments) + booked
      invariant db.outbox == old(db.outbox) + Confirmations(booked, mailer)
      invariant |booked| + |lines| == i
      invariant BatchTrace(items, i, booked, sources, caller.id)
    {
      var outcome, n := BookItemEffect(db, caller, items[i], draws[used..], mailer);
      used := used + n;
      match outcome {
        case ItemStalled =>
          stalled := true;
          break;
        case ItemFailed(line) =>
          lines := lines + [line];
        case ItemBooked(a) =>
          ConfirmationsAppend(booked, a, mailer);
          AppendLast(old(db.appointments), booked, a);
          AppendLast(old(db.outbox), Confirmations(booked, mailer),
                     MailAttempt(ConfirmationMail(a), mailer(ConfirmationMail(a))));
          BatchTraceBooked(items, i, booked, sources, caller.id, a);
          booked := booked + [a];
          sources := sources + [i];
      }
      i := i + 1;
    }
    BatchTraceWiden(items, i, |items|, booked, sources, caller.id);
  }

  /** `bookMultipleAppointments`: a body without a non-empty array is a
      400 and writes nothing. Otherwise every item is either booked or
      reported, in order; the booked appointments are appended in the order
      of their items (`sources[k]` is the item of `booked[k]`), each carries
      its item's details and the caller as patient, and each has its
      confirmation attempted. A failing item does not stop the others, and
      the reply is a 201 even when nothing was booked. */
  method BookMultipleAppointments(db: Db, caller: User, body: BatchBody, draws: seq<nat>,
                                  mailer: Mail -> bool)
    returns (reply: Reply, booked: seq<Appointment>, errors: Option<seq<string>>, used: nat,
             ghost sources: seq<nat>)
    requires db.Valid() && DrawsInRange(draws)
    modifies db
    ensures db.Valid() && used <= |draws|
    ensures db.users == old(db.users) && db.payments == old(db.payments)
    ensures (body.NotAList? || body.items == []) ==>
      reply == Failure(400, "Please provide valid appointments array") && booked == []
    ensures db.appointments == old(db.appointments) + booked
    ensures db.outbox == old(db.outbox) + Confirmations(booked, mailer)
    ensures body.Items? ==> BatchTrace(body.items, |body.items|, booked, sources, caller.id)
    ensures reply.Success? ==>
      && body.Items? && body.items != []
      && reply == Success(201, BatchMessage(|booked|))
      && (errors.None? ==> |booked| == |body.items|)
      && (errors.Some? ==> errors.value != [] && |errors.value| + |booked| == |body.items|)
    ensures reply.Success? || reply.Unanswered? || reply == Failure(400, "Please provide valid appointments array")
  {
    if body.NotAList? || body.items == [] {
      reply := Reject("Please provide valid appointments array", 400);
      return reply, [], None, 0, [];
    }
    var lines, stalled;
    booked, lines, stalled, used, sources := BookItems(db, caller, body.items, draws, mailer);
    if stalled {
      reply, errors := Unanswered, None;
    } else {
      reply, errors := Success(201, BatchMessage(|booked|)), ErrorsField(lines);
    }
  }

  // ---------------------------------------------------------------------
  // updateAppointmentStatus (admin)
  // ---------------------------------------------------------------------

  const ApprovedSubject: string := "Appointment Approved - Satya Trauma & Maternity Center"
  const NotApprovedSubject: string := "Appointment Not Approved - Satya Trauma & Maternity Center"

  /** The notification of an admin's update of `before` into `after`: only
      a change of status to Accepted (approval) or Rejected (rejection). */
  function StatusMail(before: Appointment, after: Appointment): Option<Mail> {
    if before.status == after.status then None
    else if after.status == Accepted then
      Some(Mail(after.email, ApprovedSubject, after.id, after.doctor.firstName + " " + after.doctor.lastName))
    else if after.status == Rejected then
      Some(Mail(after.email, NotApprovedSubject, after.id, after.doctor.firstName + " " + after.doctor.lastName))
    else None
  }

  /** The mails attempted for an optional notification. */
  function Attempts(mail: Option<Mail>, mailer: Mail -> bool): (r: seq<MailAttempt>)
    ensures |r| <= 1
    ensures mail.None? <==> r == []
  {
    match mail
    case None => []
    case Some(m) => [MailAttempt(m, mailer(m))]
  }

  /** An update notifies exactly when the body's status differs from the
      stored one and is Accepted or Rejected, with the approval or the
      rejection subject; the body's other fields never cause a mail. */
  lemma StatusMailIff(a: Appointment, p: AppointmentPatch)
    requires PatchErrors(p) == []
    ensures var m := StatusMail(a, ApplyPatch(a, p));
      m.Some? <==> p.status.Some? && p.status.value != StatusName(a.status)
                   && (p.status.value == "Accepted" || p.status.value == "Rejected")
    ensures var m := StatusMail(a, ApplyPatch(a, p));
      m.Some? ==>
        && m.value.subject == (if p.status.value == "Accepted" then ApprovedSubject else NotApprovedSubject)
        && m.value.to == a.email && m.value.appointmentId == a.id
  {
    var b := ApplyPatch(a, p);
    if p.status.Some? {
      StatusRoundTrip(b.status, p.status.value);
      StatusRoundTrip(a.status, "");
      assert StatusName(b.status) == p.status.value;
      if p.status.value != StatusName(a.status) {
        assert b.status != a.status;
      }
    }
  }

  /** `updateAppointmentStatus`: an id that is not an ObjectId is the cast
      error's 400 and an unknown one a 404; a body the update
      validators refuse is the `ValidationError` as a 500 and changes
      nothing; otherwise the body's fields are applied whatever the current
      status, and the notification, if any, is attempted without changing
      the 200. */
  method UpdateAppointmentStatus(db: Db, id: RouteId, patch: AppointmentPatch, mailer: Mail -> bool)
    returns (reply: Reply)
    requires db.Valid()
    modifies db
    ensures db.Valid() && db.users == old(db.users) && db.payments == old(db.payments)
    ensures id.ObjectId? && AppointmentAt(old(db.appointments), id.id).None? ==>
      reply == Failure(404, "Appointment Not Found")
      && db.appointments == old(db.appointments) && db.outbox == old(db.outbox)
    ensures id.ObjectId? && AppointmentAt(old(db.appointments), id.id).Some? && PatchErrors(patch) != [] ==>
      reply == Normalize(ValidationFailure("Appointment", PatchErrors(patch)))
      && db.appointments == old(db.appointments) && db.outbox == old(db.outbox)
    ensures id.ObjectId? && AppointmentAt(old(db.appointments), id.id).Some? && PatchErrors(patch) == [] ==>
      && var k := AppointmentAt(old(db.appointments), id.id).value;
         var before := old(db.appointments)[k];
         && reply == Success(200, "Appointment Status Updated Successfully")
         && db.appointments == old(db.appointments)[k := ApplyPatch(before, patch)]
         && db.outbox == old(db.outbox) + Attempts(StatusMail(before, ApplyPatch(before, patch)), mailer)
    ensures id.NotObjectId? ==>
      reply == Failure(400, "Resource not found, Invalid: _id")
      && db.appointments == old(db.appointments) && db.outbox == old(db.outbox)
  {
    if id.NotObjectId? {
      IdCastErrorIs400(id.text, "Appointment");
      reply := Normalize(IdCastError(id.text, "Appointment"));
      return;
    }
    var found := AppointmentAt(db.appointments, id.id);
    if found.None? {
      reply := Reject("Appointment Not Found", 404);
      return;
    }
    var k := found.value;
    var errs := PatchErrors(patch);
    if errs != [] {
      reply := Normalize(ValidationFailure("Appointment", errs));
      return;
    }
    var before := db.appointments[k];
    var after := ApplyPatch(before, patch);
    ApplyPatchKeepsValid(before, patch, db.isEmail, db.isDate);
    db.SetAppointment(k, after);
    var mail := StatusMail(before, after);
    if mail.Some? {
      db.Send(mail.value, mailer);
    }
    reply := Success(200, "Appointment Status Updated Successfully");
  }

  // ---------------------------------------------------------------------
  // deleteAppointment
  // ---------------------------------------------------------------------

  /** The decision of `deleteAppointment` on a stored appointment. */
  datatype Deletion = Remove(message: string) | Keep(reply: Reply)

  function DeleteDecision(a: Appointment, caller: User): (r: Deletion)
    ensures r.Keep? ==> caller.role != Admin && r.reply.Failure? && r.reply.status in {400, 403}
    ensures r.Remove? && caller.role != Admin ==> a.patientId == caller.id && a.status == Pending
  {
    if caller.role == Admin then Remove("Appointment Deleted Successfully!!")
    else if a.patientId != caller.id then Keep(Reject("You are not authorized to delete this appointment", 403))
    else if a.status != Pending then Keep(Reject("Only pending appointments can be cancelled by patients", 400))
    else Remove("Appointment Cancelled Successfully!!")
  }

  /** An admin removes any appointment; anyone else removes exactly their
      own pending appointments, and ownership is tested before status. */
  lemma DeleteDecisionRule(a: Appointment, caller: User)
    ensures DeleteDecision(a, caller).Remove? <==>
      caller.role == Admin || (a.patientId == caller.id && a.status == Pending)
    ensures caller.role != Admin && a.patientId != caller.id ==>
      DeleteDecision(a, caller) == Keep(Failure(403, "You are not authorized to delete this appointment"))
    ensures caller.role != Admin && a.patientId == caller.id && a.status != Pending ==>
      DeleteDecision(a, caller) == Keep(Failure(400, "Only pending appointments can be cancelled by patients"))
  {
  }

  /** `deleteAppointment`: an id that is not an ObjectId is the cast error's
      400 and an unknown one a 404; otherwise the decision
      either removes exactly that appointment, keeping the order of the
      others, or refuses and changes nothing. */
  method DeleteAppointment(db: Db, caller: User, id: RouteId) returns (reply: Reply)
    requires db.Valid()
    modifies db
    ensures db.Valid() && db.users == old(db.users) && db.payments == old(db.payments)
    ensures db.outbox == old(db.outbox)
    ensures id.ObjectId? && AppointmentAt(old(db.appointments), id.id).None? ==>
      reply == Failure(404, "Appointment Not Found") && db.appointments == old(db.appointments)
    ensures id.ObjectId? && AppointmentAt(old(db.appointments), id.id).Some? ==>
      && var k := AppointmentAt(old(db.appointments), id.id).value;
         match DeleteDecision(old(db.appointments)[k], caller)
         case Remove(message) =>
           reply == Success(200, message)
           && db.appointments == old(db.appointments)[..k] + old(db.appointments)[k + 1..]
         case Keep(refusal) =>
           reply == refusal && db.appointments == old(db.appointments)
    ensures id.NotObjectId? ==>
      reply == Failure(400, "Resource not found, Invalid: _id")
      && db.appointments == old(db.appointments) && db.outbox == old(db.outbox)
  {
    if id.NotObjectId? {
      IdCastErrorIs400(id.text, "Appointment");
      reply := Normalize(IdCastError(id.text, "Appointment"));
      return;
    }
    var found := AppointmentAt(db.appointments, id.id);
    if found.None? {
      reply := Reject("Appointment Not Found", 404);
      return;
    }
    var k := found.value;
    match DeleteDecision(db.appointments[k], caller)
    case Remove(message) =>
      db.RemoveAppointment(k);
      reply := Success(200, message);
    case Keep(refusal) =>
      reply := refusal;
  }

  /** Removing the appointment at `k` removes every record with its id and
      keeps all others. */
  lemma RemovalKeepsOthers(s: seq<Appointment>, k: nat)
    requires k < |s| && forall i, j :: 0 <= i < j < |s| ==> s[i].id != s[j].id
    ensures forall a :: a in s[..k] + s[k + 1..] <==> a in s && a.id != s[k].id
  {
    var r := s[..k] + s[k + 1..];
    forall a | a in s && a.id != s[k].id ensures a in r {
      var i :| 0 <= i < |s| && s[i] == a;
      if i < k { assert r[i] == a; } else { assert r[i - 1] == a; }
    }
    forall a | a in r ensures a in s && a.id != s[k].id {
      var i :| 0 <= i < |r| && r[i] == a;
      if i < k { assert a == s[i]; } else { assert a == s[i + 1]; }
    }
  }

  // ---------------------------------------------------------------------
  // getPatientAppointments
  // ---------------------------------------------------------------------

  /** `Appointment.find({ patientId })`: the caller's appointments in
      natural order. */
  function PatientAppointments(appointments: seq<Appointment>, patientId: Id): (r: seq<Appointment>)
    ensures forall a :: a in r <==> a in appointments && a.patientId == patientId
    ensures |r| <= |appointments|
  {
    Filter(appointments, (a: Appointment) => a.patientId == patientId)
  }

  // ---------------------------------------------------------------------
  // directBookAppointment (no login)
  // ---------------------------------------------------------------------

  /** Lines 395-450 of `directBookAppointment`: the guards before anything
      is written. The "Other" department needs no doctor and skips the
      lookup. */
  function ScreenDirect(req: BookingRequest, users: seq<User>): (s: Screening)
    ensures s.Cleared? ==> (s.doctorId.None? <==> req.department == "Other")
  {
    if !AllPresent(DirectFields(req)) then Refused(Reject("Please fill all required fields", 400))
    else if req.department != "Other" && (req.doctorFirstName == "" || req.doctorLastName == "") then
      Refused(Reject("Please select a doctor for this department", 400))
    else if !IsAadhaar(req.nic) then Refused(Reject("Please provide a valid 12-digit Aadhaar number", 400))
    else if req.department == "Other" then Cleared(None)
    else LookUpDoctor(users, req.doctorFirstName, req.doctorLastName, req.department)
  }

  /** The guards of a direct booking reject in a fixed order: a missing
      field, a missing doctor outside "Other", a bad Aadhaar. For "Other"
      the outcome depends neither on the doctor's names nor on the users;
      for any other department a request goes through exactly when it
      would pass the guards of a patient's booking, with the same doctor. */
  lemma DirectRejectionOrder(req: BookingRequest, users: seq<User>)
    ensures !AllPresent(DirectFields(req)) ==>
      ScreenDirect(req, users) == Refused(Failure(400, "Please fill all required fields"))
    ensures (AllPresent(DirectFields(req)) && req.department != "Other"
             && (req.doctorFirstName == "" || req.doctorLastName == "")) ==>
      ScreenDirect(req, users) == Refused(Failure(400, "Please select a doctor for this department"))
    ensures (AllPresent(DirectFields(req)) && !IsAadhaar(req.nic)
             && (req.department == "Other" || (req.doctorFirstName != "" && req.doctorLastName != ""))) ==>
      ScreenDirect(req, users) == Refused(Failure(400, "Please provide a valid 12-digit Aadhaar number"))
    ensures req.department == "Other" ==>
      && ScreenDirect(req, users) == ScreenDirect(req.(doctorFirstName := "", doctorLastName := ""), [])
      && (ScreenDirect(req, users).Cleared? <==> AllPresent(DirectFields(req)) && IsAadhaar(req.nic))
    ensures req.department != "Other" ==>
      && (ScreenDirect(req, users).Cleared? <==> ScreenBooking(req, users).Cleared?)
      && (ScreenDirect(req, users).Cleared? ==> ScreenDirect(req, users) == ScreenBooking(req, users))
  {
    var r0 := req.(doctorFirstName := "", doctorLastName := "");
    assert DirectFields(r0) == DirectFields(req);
    if req.department != "Other" {
      assert AllPresent(BookingFields(req)) <==>
        AllPresent(DirectFields(req)) && req.doctorFirstName != "" && req.doctorLastName != "" by {
        var b := BookingFields(req);
        assert b[9] == req.doctorFirstName && b[10] == req.doctorLastName;
        if AllPresent(DirectFields(req)) && req.doctorFirstName != "" && req.doctorLastName != "" {
          assert forall i :: 0 <= i < 12 ==> b[i] in DirectFields(req) + [req.doctorFirstName, req.doctorLastName];
        }
        if AllPresent(b) {
          assert forall i :: 0 <= i < 10 ==> DirectFields(req)[i] in b;
        }
      }
    }
  }

  /** The doctor a direct booking records: the placeholder for "Other". */
  function DirectDoctor(req: BookingRequest): DoctorName {
    if req.department == "Other" then DoctorName("To be assigned", "by hospital")
    else DoctorName(req.doctorFirstName, req.doctorLastName)
  }

  /** The document `directBookAppointment` hands to `Appointment.create`:
      the fresh `tempId` is the patient, and the doctor too when there is
      none. */
  function DirectDraft(req: BookingRequest, number: string, doctorId: Option<Id>, tempId: Id)
    : AppointmentDraft
  {
    AppointmentDraft(number, req.firstName, req.lastName, req.email, req.phone, req.nic, req.dob,
                     req.gender, req.appointmentDate, req.department, DirectDoctor(req), req.hasVisited,
                     Some(if doctorId.Some? then doctorId.value else tempId), Some(tempId), req.address,
                     StatusName(Pending))
  }

  /** An appointment carries a direct request's details, belongs to the
      placeholder patient `tempId` and waits for review. */
  predicate DirectBookedFrom(a: Appointment, req: BookingRequest, tempId: Id) {
    && a.firstName == req.firstName && a.lastName == req.lastName && a.email == req.email
    && a.phone == req.phone && a.nic == req.nic && a.dob == req.dob
    && a.appointmentDate == req.appointmentDate && a.department == req.department
    && a.doctor == DirectDoctor(req) && a.hasVisited == req.hasVisited && a.address == req.address
    && a.patientId == tempId && a.status == Pending && a.paymentStatus == Unpaid
  }

  lemma DirectDraftFacts(req: BookingRequest, number: string, doctorId: Option<Id>, tempId: Id, id: Id,
                         isEmail: string -> bool, isDate: string -> bool)
    requires AppointmentSchemaHolds(DirectDraft(req, number, doctorId, tempId), isEmail, isDate)
    ensures var a := AppointmentFromDraft(DirectDraft(req, number, doctorId, tempId), id, isEmail, isDate);
      DirectBookedFrom(a, req, tempId) && a.doctorId == Some(if doctorId.Some? then doctorId.value else tempId)
  {
    var a := AppointmentFromDraft(DirectDraft(req, number, doctorId, tempId), id, isEmail, isDate);
    StatusRoundTrip(a.status, "");
  }

  /** The doctor's name the acknowledgement prints. */
  lemma DirectDoctorFullName(req: BookingRequest)
    ensures req.department == "Other" ==>
      DirectDoctor(req).firstName + " " + DirectDoctor(req).lastName == "To be assigned by hospital"
    ensures req.department != "Other" ==>
      DirectDoctor(req).firstName + " " + DirectDoctor(req).lastName
        == req.doctorFirstName + " " + req.doctorLastName
  {
  }

  const RequestSubject: string := "Appointment Request - Satya Trauma & Maternity Center"

  /** The acknowledgement of a direct booking: the doctor's full name, or
      "To be assigned by hospital". */
  function RequestMail(a: Appointment): Mail {
    Mail(a.email, RequestSubject, a.id, a.doctor.firstName + " " + a.doctor.lastName)
  }

  /** The outcome of filing a direct booking, as `Filed` is for a patient's
      booking: the placeholder patient is the first fresh id, the
      appointment the second. */
  twostate predicate DirectFiled(db: Db, req: BookingRequest, doctorId: Option<Id>, draws: seq<nat>,
                                 mailer: Mail -> bool, filing: Filing, used: nat)
    requires DrawsInRange(draws)
    reads db
  {
    && used <= |draws|
    && (filing.Stalled? <==> used == |draws| && AllTaken(old(db.appointments), draws, used))
    && (filing.Booked? ==>
          && var a := filing.appointment;
             && db.appointments == old(db.appointments) + [a]
             && DirectBookedFrom(a, req, old(db.nextId)) && a.id == old(db.nextId) + 1
             && a.doctorId == Some(if doctorId.Some? then doctorId.value else old(db.nextId))
             && 1 <= used && a.appointmentNumber == FormatAppointmentNumber(draws[used - 1])
             && !NumberTaken(old(db.appointments), a.appointmentNumber)
             && db.outbox == old(db.outbox) + [MailAttempt(RequestMail(a), mailer(RequestMail(a)))])
    && (filing.Invalid? ==>
          && 1 <= used
          && var draft := DirectDraft(req, FormatAppointmentNumber(draws[used - 1]), doctorId, old(db.nextId));
             && filing.errors == AppointmentErrors(draft, db.isEmail, db.isDate) && filing.errors != [])
    && (!filing.Booked? ==> db.appointments == old(db.appointments) && db.outbox == old(db.outbox))
  }

  /** Creating the direct appointment for a free `number` with the
      placeholder `tempId` and acknowledging it: the appointment is
      appended, or the schema's errors come back with nothing written. */
  method SubmitDirect(db: Db, req: BookingRequest, number: string, doctorId: Option<Id>, tempId: Id,
                      mailer: Mail -> bool)
    returns (filing: Filing)
    requires db.Valid() && !NumberTaken(db.appointments, number)
    modifies db
    ensures db.Valid() && db.users == old(db.users) && db.payments == old(db.payments)
    ensures !filing.Stalled?
    ensures filing.Booked? ==>
      && var a := filing.appointment;
         && db.appointments == old(db.appointments) + [a]
         && DirectBookedFrom(a, req, tempId) && a.id == old(db.nextId)
         && a.doctorId == Some(if doctorId.Some? then doctorId.value else tempId)
         && a.appointmentNumber == number
         && db.outbox == old(db.outbox) + [MailAttempt(RequestMail(a), mailer(RequestMail(a)))]
    ensures filing.Invalid? ==>
      && filing.errors == AppointmentErrors(DirectDraft(req, number, doctorId, tempId), db.isEmail, db.isDate)
      && filing.errors != []
    ensures !filing.Booked? ==> db.appointments == old(db.appointments) && db.outbox == old(db.outbox)
  {
    var draft := DirectDraft(req, number, doctorId, tempId);
    var doctor := DirectDoctor(req);
    var created, errors := SubmitDraft(db, draft, req.email, RequestSubject,
                                       doctor.firstName + " " + doctor.lastName, mailer);
    if created.None? {
      filing := Invalid(errors);
    } else {
      DirectDraftFacts(req, number, doctorId, tempId, old(db.nextId), db.isEmail, db.isDate);
      assert created.value.doctor == doctor && created.value.email == req.email;
      assert db.outbox == old(db.outbox) + [MailAttempt(RequestMail(created.value), mailer(RequestMail(created.value)))];
      filing := Booked(created.value);
    }
  }

  /** Lines 452-505: a fresh placeholder id, a free number, the create and
      the acknowledgement. */
  method FileDirectBooking(db: Db, req: BookingRequest, doctorId: Option<Id>, draws: seq<nat>,
                           mailer: Mail -> bool)
    returns (filing: Filing, used: nat)
    requires db.Valid() && DrawsInRange(draws)
    modifies db
    ensures db.Valid() && db.users == old(db.users) && db.payments == old(db.payments)
    ensures DirectFiled(db, req, doctorId, draws, mailer, filing, used)
  {
    var tempId := db.NewId();
    var number;
    number, used := GenerateAppointmentNumber(db.appointments, draws);
    if number.None? {
      return Stalled, used;
    }
    filing := SubmitDirect(db, req, number.value, doctorId, tempId, mailer);
  }

  const RequestReceived: string := "Appointment request submitted successfully. We will contact you shortly."

  /** The reply of `directBookAppointment` once the guards passed: its
      `catch` wraps any error in a 500 carrying the error's own message. */
  function DirectReply(filing: Filing): Reply {
    match filing
    case Booked(_) => Success(201, RequestReceived)
    case Invalid(errs) => Reject(ValidationFailure("Appointment", errs).message, 500)
    case Stalled => Unanswered
  }

  /** A direct booking is a 201 exactly when an appointment was created; a
      draft the schema refuses is a 500 whose message is the summary of
      the `ValidationError`, path by path, unlike a patient's booking,
      which shows only the per-field messages. */
  lemma DirectReplyStatus(filing: Filing)
    ensures DirectReply(filing).Success? <==> filing.Booked?
    ensures filing.Invalid? ==>
      DirectReply(filing)
        == Failure(500, "Appointment validation failed: " + Join(FieldSummaries(filing.errors), ", "))
    ensures DirectReply(filing).Unanswered? <==> filing.Stalled?
  {
    if filing.Invalid? {
      var rest := Join(FieldSummaries(filing.errors), ", ");
      assert ValidationFailure("Appointment", filing.errors).message == "Appointment" + " validation failed: " + rest;
      assert "Appointment" + " validation failed: " == "Appointment validation failed: ";
    }
  }

  /** `directBookAppointment`, open to anyone. A refusal by the guards
      writes nothing and draws nothing; otherwise the booking is filed with
      the doctor the lookup matched, or none for "Other". */
  method DirectBookAppointment(db: Db, req: BookingRequest, draws: seq<nat>, mailer: Mail -> bool)
    returns (reply: Reply, used: nat, ghost filing: Filing)
    requires db.Valid() && DrawsInRange(draws)
    modifies db
    ensures db.Valid() && db.users == old(db.users) && db.payments == old(db.payments)
    ensures ScreenDirect(req, old(db.users)).Refused? ==>
      && reply == ScreenDirect(req, old(db.users)).reply && used == 0
      && db.appointments == old(db.appointments) && db.outbox == old(db.outbox)
    ensures ScreenDirect(req, old(db.users)).Cleared? ==>
      && DirectFiled(db, req, ScreenDirect(req, old(db.users)).doctorId, draws, mailer, filing, used)
      && reply == DirectReply(filing)
  {
    used := 0;
    filing := Stalled;
    var screening := ScreenDirect(req, db.users);
    if screening.Refused? {
      reply := screening.reply;
      return;
    }
    var f;
    f, used := FileDirectBooking(db, req, screening.doctorId, draws, mailer);
    filing := f;
    reply := match f
      case Booked(_) => Success(201, RequestReceived)
      case Invalid(errs) => Reject(ValidationFailure("Appointment", errs).message, 500)
      case Stalled => Unanswered;
  }

  // ---------------------------------------------------------------------
  // getDoctorAppointments
  // ---------------------------------------------------------------------

  /** The `date` query parameter once `new Date(date)` has parsed it:
      absent, not a date, or the day it falls on as "YYYY-MM-DD". */
  datatype DateQuery = AnyDate | BadDate | OnDay(day: string)

  /** The `$or` of the query: booked with the doctor's id, or under the
      doctor's exact first and last name. */
  predicate OwnedBy(a: Appointment, doctor: User) {
    a.doctorId == Some(doctor.id)
    || (a.doctor.firstName == doctor.firstName && a.doctor.lastName == doctor.lastName)
  }

  /** The status a doctor's listing asks for: the one given, except that
      none and "all" both mean Accepted. */
  function WantedStatus(status: string): string {
    if status != "" && status != "all" then status else "Accepted"
  }

  /** The whole query: the doctor's, of the wanted status, and on the day
      when one is given (the regular expression `^YYYY-MM-DD` is a prefix
      test). */
  predicate Listed(a: Appointment, doctor: User, date: DateQuery, status: string) {
    && OwnedBy(a, doctor)
    && StatusName(a.status) == WantedStatus(status)
    && (date.OnDay? ==> date.day <= a.appointmentDate)
  }

  predicate SortedByDate(s: seq<Appointment>) {
    forall i, j :: 0 <= i < j < |s| ==> StringLe(s[i].appointmentDate, s[j].appointmentDate)
  }

  /** No appointment of `s` is dated before `day`. */
  predicate NoneBefore(day: string, s: seq<Appointment>) {
    forall x :: x in s ==> StringLe(day, x.appointmentDate)
  }

  lemma SortedCons(x: Appointment, s: seq<Appointment>)
    requires SortedByDate(s) && NoneBefore(x.appointmentDate, s)
    ensures SortedByDate([x] + s)
  {
    var r := [x] + s;
    forall i, j | 0 <= i < j < |r| ensures StringLe(r[i].appointmentDate, r[j].appointmentDate) {
      if i == 0 { assert r[j] == s[j - 1] && s[j - 1] in s; } else { assert r[i] == s[i - 1] && r[j] == s[j - 1]; }
    }
  }

  /** A bound that holds of `s` holds of every reordering of it. */
  lemma NoneBeforeSameElements(day: string, s: seq<Appointment>, t: seq<Appointment>)
    requires multiset(s) == multiset(t) && NoneBefore(day, s)
    ensures NoneBefore(day, t)
  {
    forall x | x in t ensures StringLe(day, x.appointmentDate) {
      assert x in multiset(t);
      assert x in s;
    }
  }

  /** Places `a` before the first appointment of `s` whose date is not
      earlier. */
  function InsertByDate(a: Appointment, s: seq<Appointment>): (r: seq<Appointment>)
    requires SortedByDate(s)
    ensures multiset(r) == multiset(s) + multiset{a}
    ensures SortedByDate(r)
  {
    if s == [] then [a]
    else if StringLe(a.appointmentDate, s[0].appointmentDate) then
      InsertFirst(a, s);
      [a] + s
    else
      var rest := InsertByDate(a, s[1..]);
      InsertLater(a, s, rest);
      [s[0]] + rest
  }

  lemma InsertFirst(a: Appointment, s: seq<Appointment>)
    requires SortedByDate(s) && s != [] && StringLe(a.appointmentDate, s[0].appointmentDate)
    ensures SortedByDate([a] + s)
  {
    forall x | x in s ensures StringLe(a.appointmentDate, x.appointmentDate) {
      var j :| 0 <= j < |s| && s[j] == x;
      if j > 0 { StringLeTransitive(a.appointmentDate, s[0].appointmentDate, x.appointmentDate); }
    }
    SortedCons(a, s);
  }

  lemma InsertLater(a: Appointment, s: seq<Appointment>, rest: seq<Appointment>)
    requires SortedByDate(s) && s != [] && !StringLe(a.appointmentDate, s[0].appointmentDate)
    requires SortedByDate(rest) && multiset(rest) == multiset(s[1..]) + multiset{a}
    ensures SortedByDate([s[0]] + rest)
    ensures multiset([s[0]] + rest) == multiset(s) + multiset{a}
  {
    StringLeTotal(a.appointmentDate, s[0].appointmentDate);
    assert s == [s[0]] + s[1..];
    forall x | x in s[1..] + [a] ensures StringLe(s[0].appointmentDate, x.appointmentDate) {
      if x != a {
        var j :| 0 <= j < |s[1..]| && s[1..][j] == x;
        assert s[j + 1] == x;
      }
    }
    NoneBeforeSameElements(s[0].appointmentDate, s[1..] + [a], rest);
    SortedCons(s[0], rest);
  }

  /** `.sort({ appointment_date: 1 })`: ascending by the date string;
      appointments on the same date come in an order left unspecified. */
  function SortByDate(s: seq<Appointment>): (r: seq<Appointment>)
    ensures multiset(r) == multiset(s)
    ensures SortedByDate(r)
  {
    if s == [] then []
    else
      assert s == [s[0]] + s[1..];
      InsertByDate(s[0], SortByDate(s[1..]))
  }

  /** What a listing handler answers: the appointments, or a refusal. */
  datatype Listing = Found(appointments: seq<Appointment>) | NotFound(reply: Reply)

  /** `getDoctorAppointments` for the doctor `caller`. */
  function DoctorAppointments(appointments: seq<Appointment>, caller: User, date: DateQuery, status: string)
    : (r: Listing)
    ensures r.NotFound? <==> date.BadDate?
    ensures r.NotFound? ==> r.reply == Failure(400, "Invalid date format")
    ensures r.Found? ==> SortedByDate(r.appointments)
    ensures r.Found? ==>
      forall a :: a in r.appointments <==> a in appointments && Listed(a, caller, date, status)
  {
    if date.BadDate? then NotFound(Reject("Invalid date format", 400))
    else
      var wanted := Filter(appointments, (a: Appointment) => Listed(a, caller, date, status));
      var sorted := SortByDate(wanted);
      assert forall a :: a in sorted <==> a in wanted by {
        forall a ensures a in sorted <==> a in wanted {
          assert a in sorted <==> a in multiset(sorted);
          assert a in wanted <==> a in multiset(wanted);
        }
      }
      Found(sorted)
  }

  /** Without a status, and with "all", a doctor sees only accepted
      appointments; any other status is matched exactly, so one that is not
      a status name lists nothing. */
  lemma DoctorStatusDefault(a: Appointment, doctor: User, date: DateQuery, status: string)
    ensures status == "" || status == "all" ==>
      (Listed(a, doctor, date, status) <==> OwnedBy(a, doctor) && a.status == Accepted
                                            && (date.OnDay? ==> date.day <= a.appointmentDate))
    ensures status != "" && status != "all" && ParseStatus(status).None? ==> !Listed(a, doctor, date, status)
  {
    StatusRoundTrip(a.status, status);
    if StatusName(a.status) == "Accepted" {
      assert a.status == Accepted;
    }
  }

  /** Ownership goes by name as well as by id: two doctors with the same
      first and last name, in any departments, see each other's
      appointments. */
  lemma SameNameSharesListing(a: Appointment, d1: User, d2: User, date: DateQuery, status: string)
    requires d1.firstName == d2.firstName && d1.lastName == d2.lastName
    requires a.doctorId != Some(d1.id) && a.doctorId != Some(d2.id)
    ensures Listed(a, d1, date, status) <==> Listed(a, d2, date, status)
  {
  }

  // ---------------------------------------------------------------------
  // updateAppointmentStatusByDoctor
  // ---------------------------------------------------------------------

  /** The `TypeError` of `appointment.doctorId.toString()` when the stored
      appointment has no doctor id. */
  function MissingDoctorId(): (e: AppError)
    ensures e.statusCode == 0 && e.errors.None? && e.message != "" && !IsRemapped(e)
  {
    AppError("TypeError", "Cannot read properties of undefined (reading 'toString')", 0, 0, [], "", None)
  }

  /** The decision of `updateAppointmentStatusByDoctor` on a stored
      appointment: the new status, or the reply that refuses. */
  datatype DoctorUpdate = NewStatus(status: Status) | Refuse(reply: Reply)

  function DecideDoctorUpdate(a: Appointment, caller: User, status: string): (r: DoctorUpdate)
    ensures r.NewStatus? ==> a.doctorId.Some? && OwnedBy(a, caller) && r.status in {Completed, Accepted}
    ensures r.Refuse? ==> r.reply.Failure?
  {
    if a.doctorId.None? then Refuse(Normalize(MissingDoctorId()))
    else if !OwnedBy(a, caller) then Refuse(Reject("You are not authorized to update this appointment", 403))
    else if status != "Completed" && status != "Accepted" then
      Refuse(Reject("Doctors can only change status to Completed or Accepted", 400))
    else NewStatus(if status == "Completed" then Completed else Accepted)
  }

  /** Ownership is tested before the target status; the update goes
      through exactly for an owned appointment and a target of Completed or
      Accepted, and never depends on the current status, so a rejected,
      cancelled or completed appointment can be set back to Accepted. */
  lemma DoctorUpdateRule(a: Appointment, caller: User, status: string, current: Status)
    ensures DecideDoctorUpdate(a, caller, status).NewStatus? <==>
      a.doctorId.Some? && OwnedBy(a, caller) && (status == "Completed" || status == "Accepted")
    ensures DecideDoctorUpdate(a, caller, status).NewStatus? ==>
      StatusName(DecideDoctorUpdate(a, caller, status).status) == status
    ensures a.doctorId.Some? && !OwnedBy(a, caller) ==>
      DecideDoctorUpdate(a, caller, status) == Refuse(Failure(403, "You are not authorized to update this appointment"))
    ensures a.doctorId.None? ==> DecideDoctorUpdate(a, caller, status).reply.status == 500
    ensures DecideDoctorUpdate(a.(status := current), caller, status) == DecideDoctorUpdate(a, caller, status)
  {
    var b := a.(status := current);
    assert b.doctorId == a.doctorId && (OwnedBy(b, caller) <==> OwnedBy(a, caller));
    if a.doctorId.None? {
      NormalizeCases(MissingDoctorId());
    } else if OwnedBy(a, caller) && status == "Completed" {
      assert StatusName(Completed) == "Completed";
    } else if OwnedBy(a, caller) && status == "Accepted" {
      assert StatusName(Accepted) == "Accepted";
    }
  }

  /** `updateAppointmentStatusByDoctor`: an id that is not an ObjectId is
      the cast error's 400 and an unknown one a 404; otherwise
      only the status of that appointment changes, or nothing does. */
  method UpdateAppointmentStatusByDoctor(db: Db, caller: User, id: RouteId, status: string) returns (reply: Reply)
    requires db.Valid()
    modifies db
    ensures db.Valid() && db.users == old(db.users) && db.payments == old(db.payments)
    ensures db.outbox == old(db.outbox)
    ensures id.ObjectId? && AppointmentAt(old(db.appointments), id.id).None? ==>
      reply == Failure(404, "Appointment Not Found") && db.appointments == old(db.appointments)
    ensures id.ObjectId? && AppointmentAt(old(db.appointments), id.id).Some? ==>
      && var k := AppointmentAt(old(db.appointments), id.id).value;
         match DecideDoctorUpdate(old(db.appointments)[k], caller, status)
         case NewStatus(st) =>
           && reply == Success(200, "Appointment status updated to " + status + " successfully")
           && db.appointments == old(db.appointments)[k := old(db.appointments)[k].(status := st)]
         case Refuse(refusal) =>
           reply == refusal && db.appointments == old(db.appointments)
    ensures id.NotObjectId? ==>
      reply == Failure(400, "Resource not found, Invalid: _id")
      && db.appointments == old(db.appointments) && db.outbox == old(db.outbox)
  {
    if id.NotObjectId? {
      IdCastErrorIs400(id.text, "Appointment");
      reply := Normalize(IdCastError(id.text, "Appointment"));
      return;
    }
    var found := AppointmentAt(db.appointments, id.id);
    if found.None? {
      reply := Reject("Appointment Not Found", 404);
      return;
    }
    var k := found.value;
    var a := db.appointments[k];
    match DecideDoctorUpdate(a, caller, status)
    case NewStatus(st) =>
      db.SetAppointment(k, a.(status := st));
      reply := Success(200, "Appointment status updated to " + status + " successfully");
    case Refuse(refusal) =>
      reply := refusal;
  }
}
