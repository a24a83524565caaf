/** The MongoDB database the handlers share, as one object: the `User`,
    `Appointment` and `Payment` collections in their natural order, a
    counter that hands out fresh ObjectIds, and the log of every email the
    handlers tried to send. `isEmail` is the email test of the validator
    library and `isDate` whether Mongoose can cast a string to a `Date`,
    both fixed for the life of the database.

    `Valid()` is what the database keeps between requests: every record
    passed its schema, ids are fresh and unique, appointment numbers and
    payment references are unique (the schemas declare both unique), and no
    two users share an email (every handler that creates a user looks the
    email up first). */
module Store {
  import opened Common
  import opened UserSchema
  import opened AppointmentSchema
  import opened PaymentSchema

  /** One `sendEmail` call: the recipient, the subject, the appointment it
      is about and the doctor's name as the template prints it. */
  datatype Mail = Mail(to: string, subject: string, appointmentId: Id, doctorName: string)

  /** A send and whether nodemailer delivered it; a failed send is logged
      and swallowed by every handler. */
  datatype MailAttempt = MailAttempt(mail: Mail, delivered: bool)

  predicate UsersValid(users: seq<User>, nextId: nat, isEmail: string -> bool, isDate: string -> bool) {
    && (forall i :: 0 <= i < |users| ==> users[i].id < nextId && UserValid(users[i], isEmail, isDate))
    && (forall i, j :: 0 <= i < j < |users| ==> users[i].id != users[j].id && users[i].email != users[j].email)
  }

  predicate AppointmentsValid(appointments: seq<Appointment>, nextId: nat, isEmail: string -> bool, isDate: string -> bool) {
    && (forall i :: 0 <= i < |appointments| ==>
          appointments[i].id < nextId && AppointmentValid(appointments[i], isEmail, isDate))
    && (forall i, j :: 0 <= i < j < |appointments| ==>
          appointments[i].id != appointments[j].id
          && appointments[i].appointmentNumber != appointments[j].appointmentNumber)
  }

  predicate PaymentsValid(payments: seq<Payment>, nextId: nat) {
    && (forall i :: 0 <= i < |payments| ==> payments[i].id < nextId)
    && (forall i, j :: 0 <= i < j < |payments| ==>
          payments[i].id != payments[j].id && payments[i].paymentRefId != payments[j].paymentRefId)
  }

  lemma AppointmentsAppend(s: seq<Appointment>, a: Appointment, n: nat, isEmail: string -> bool, isDate: string -> bool)
    requires AppointmentsValid(s, n, isEmail, isDate) && a.id == n && AppointmentValid(a, isEmail, isDate)
    requires !NumberTaken(s, a.appointmentNumber)
    ensures AppointmentsValid(s + [a], n + 1, isEmail, isDate)
  {
    var t := s + [a];
    forall i | 0 <= i < |s|
      ensures t[i] == s[i] && s[i].appointmentNumber != a.appointmentNumber
    {
      assert s[i] in s;
    }
  }

  lemma UsersAppend(s: seq<User>, u: User, n: nat, isEmail: string -> bool, isDate: string -> bool)
    requires UsersValid(s, n, isEmail, isDate) && u.id == n && UserValid(u, isEmail, isDate)
    requires forall j :: 0 <= j < |s| ==> s[j].email != u.email
    ensures UsersValid(s + [u], n + 1, isEmail, isDate)
  {
    var t := s + [u];
    assert forall i :: 0 <= i < |s| ==> t[i] == s[i];
  }

  /** `User.findById(id)`, as a position. */
  function UserAt(users: seq<User>, id: Id): (r: Option<nat>)
    ensures r.Some? ==> r.value < |users| && users[r.value].id == id
    ensures r.None? <==> forall j :: 0 <= j < |users| ==> users[j].id != id
  {
    FindFirst(users, (u: User) => u.id == id)
  }

  /** `User.findOne({ email })`, as a position. */
  function UserWithEmail(users: seq<User>, email: string): (r: Option<nat>)
    ensures r.Some? ==> r.value < |users| && users[r.value].email == email
    ensures r.None? <==> forall j :: 0 <= j < |users| ==> users[j].email != email
  {
    FindFirst(users, (u: User) => u.email == email)
  }

  /** `Appointment.findById(id)`, as a position. */
  function AppointmentAt(appointments: seq<Appointment>, id: Id): (r: Option<nat>)
    ensures r.Some? ==> r.value < |appointments| && appointments[r.value].id == id
    ensures r.None? <==> forall j :: 0 <= j < |appointments| ==> appointments[j].id != id
  {
    FindFirst(appointments, (a: Appointment) => a.id == id)
  }

  /** `Payment.findOne({ paymentRefId })`, as a position. */
  function PaymentWithRef(payments: seq<Payment>, ref: string): (r: Option<nat>)
    ensures r.Some? ==> r.value < |payments| && payments[r.value].paymentRefId == ref
    ensures r.None? <==> forall j :: 0 <= j < |payments| ==> payments[j].paymentRefId != ref
  {
    FindFirst(payments, (p: Payment) => p.paymentRefId == ref)
  }

  /** `Payment.findOne({ appointmentId })`: the first payment of the
      appointment in natural order. */
  function PaymentOf(payments: seq<Payment>, appointmentId: Id): (r: Option<nat>)
    ensures r.Some? ==> r.value < |payments| && payments[r.value].appointmentId == appointmentId
    ensures r.Some? ==> forall j :: 0 <= j < r.value ==> payments[j].appointmentId != appointmentId
    ensures r.None? <==> forall j :: 0 <= j < |payments| ==> payments[j].appointmentId != appointmentId
  {
    FindFirst(payments, (p: Payment) => p.appointmentId == appointmentId)
  }

  /** A reference no stored payment uses, apart from the one at `except`. */
  predicate RefFree(payments: seq<Payment>, ref: string, except: int) {
    forall j :: 0 <= j < |payments| && j != except ==> payments[j].paymentRefId != ref
  }

  class Db {
    var users: seq<User>
    var appointments: seq<Appointment>
    var payments: seq<Payment>
    var outbox: seq<MailAttempt>
    var nextId: nat
    const isEmail: string -> bool
    const isDate: string -> bool

    ghost predicate Valid()
      reads this
    {
      && UsersValid(users, nextId, isEmail, isDate)
      && AppointmentsValid(appointments, nextId, isEmail, isDate)
      && PaymentsValid(payments, nextId)
    }

    /** An empty database. */
    constructor(isEmail: string -> bool, isDate: string -> bool)
      ensures Valid() && this.isEmail == isEmail && this.isDate == isDate
      ensures users == [] && appointments == [] && payments == [] && outbox == []
    {
      this.isEmail := isEmail;
      this.isDate := isDate;
      users := [];
      appointments := [];
      payments := [];
      outbox := [];
      nextId := 0;
    }

    /** `new mongoose.Types.ObjectId()`: an id no record has. */
    method NewId() returns (id: Id)
      requires Valid()
      modifies this
      ensures Valid() && id == old(nextId) && nextId == old(nextId) + 1
      ensures users == old(users) && appointments == old(appointments)
      ensures payments == old(payments) && outbox == old(outbox)
    {
      id := nextId;
      nextId := nextId + 1;
    }

    /** `Appointment.create(d)` once validation has passed and the number
      is free. */
    method CreateAppointment(d: AppointmentDraft) returns (a: Appointment)
      requires Valid()
      requires AppointmentSchemaHolds(d, isEmail, isDate) && !NumberTaken(appointments, d.appointmentNumber)
      modifies this
      ensures Valid()
      ensures a == AppointmentFromDraft(d, old(nextId), isEmail, isDate) && nextId == old(nextId) + 1
      ensures appointments == old(appointments) + [a]
      ensures users == old(users) && payments == old(payments) && outbox == old(outbox)
    {
      var id := NewId();
      a := AppointmentFromDraft(d, id, isEmail, isDate);
      AppointmentsAppend(appointments, a, id, isEmail, isDate);
      appointments := appointments + [a];
    }

    /** `save` of the appointment at position `k`, with its id and number
      kept. */
    method SetAppointment(k: nat, a: Appointment)
      requires Valid() && k < |appointments|
      requires a.id == appointments[k].id && a.appointmentNumber == appointments[k].appointmentNumber
      requires AppointmentValid(a, isEmail, isDate)
      modifies this
      ensures Valid() && appointments == old(appointments)[k := a]
      ensures users == old(users) && payments == old(payments) && outbox == old(outbox)
      ensures nextId == old(nextId)
    {
      appointments := appointments[k := a];
    }

    /** `findByIdAndDelete` of the appointment at position `k`. */
    method RemoveAppointment(k: nat)
      requires Valid() && k < |appointments|
      modifies this
      ensures Valid() && appointments == old(appointments)[..k] + old(appointments)[k + 1..]
      ensures users == old(users) && payments == old(payments) && outbox == old(outbox)
      ensures nextId == old(nextId)
    {
      var rest := appointments[..k] + appointments[k + 1..];
      assert forall i :: 0 <= i < |rest| ==> rest[i] == appointments[if i < k then i else i + 1];
      appointments := rest;
    }

    /** `User.create(d)` once validation has passed and the email is new. */
    method CreateUser(d: UserDraft) returns (u: User)
      requires Valid()
      requires UserSchemaHolds(d, isEmail, isDate) && UserWithEmail(users, d.email).None?
      modifies this
      ensures Valid()
      ensures u == UserFromDraft(d, old(nextId), isEmail, isDate) && nextId == old(nextId) + 1
      ensures users == old(users) + [u]
      ensures appointments == old(appointments) && payments == old(payments) && outbox == old(outbox)
    {
      var id := NewId();
      u := UserFromDraft(d, id, isEmail, isDate);
      UsersAppend(users, u, id, isEmail, isDate);
      users := users + [u];
    }

    /** `deleteOne` of the user at position `k`. */
    method RemoveUser(k: nat)
      requires Valid() && k < |users|
      modifies this
      ensures Valid() && users == old(users)[..k] + old(users)[k + 1..]
      ensures appointments == old(appointments) && payments == old(payments) && outbox == old(outbox)
      ensures nextId == old(nextId)
    {
      var rest := users[..k] + users[k + 1..];
      assert forall i :: 0 <= i < |rest| ==> rest[i] == users[if i < k then i else i + 1];
      users := rest;
    }

    /** `Payment.create` with the schema's defaults: status PENDING, no
      transaction id, no verification time, `paymentDate` the current
      time. */
    method CreatePayment(appointmentId: Id, patientId: Option<Id>, ref: string, amount: nat,
                         currency: string, qr: string, url: string, now: int)
      returns (p: Payment)
      requires Valid() && RefFree(payments, ref, -1)
      modifies this
      ensures Valid() && nextId == old(nextId) + 1
      ensures p == Payment(old(nextId), appointmentId, patientId, ref, amount, currency, Some(Requested),
                           None, qr, url, now, None)
      ensures payments == old(payments) + [p]
      ensures users == old(users) && appointments == old(appointments) && outbox == old(outbox)
    {
      var id := NewId();
      p := Payment(id, appointmentId, patientId, ref, amount, currency, Some(Requested), None, qr, url, now, None);
      payments := payments + [p];
    }

    /** `save` of the payment at position `k`, with its id kept. */
    method SetPayment(k: nat, p: Payment)
      requires Valid() && k < |payments| && p.id == payments[k].id
      requires RefFree(payments, p.paymentRefId, k)
      modifies this
      ensures Valid() && payments == old(payments)[k := p]
      ensures users == old(users) && appointments == old(appointments) && outbox == old(outbox)
      ensures nextId == old(nextId)
    {
      payments := payments[k := p];
    }

    /** `sendEmail(mail)` inside a `try` whose `catch` only logs: the
      attempt is recorded whatever `mailer` says. */
    method Send(mail: Mail, mailer: Mail -> bool)
      requires Valid()
      modifies this
      ensures Valid() && outbox == old(outbox) + [MailAttempt(mail, mailer(mail))]
      ensures users == old(users) && appointments == old(appointments) && payments == old(payments)
      ensures nextId == old(nextId)
    {
      outbox := outbox + [MailAttempt(mail, mailer(mail))];
    }
  }
}
