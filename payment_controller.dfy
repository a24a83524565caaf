/** The payment handlers (Backend/controller/paymentController.js): asking
    the gateway for a UPI payment of an appointment, checking a payment with
    the gateway, and the gateway's callback. The gateway's answers and the
    clock are parameters. Every handler wraps its work in a `try` whose
    `catch` answers a fixed 500, so a failed save (a duplicate reference, a
    status outside the enum) changes nothing and gets that 500. */
module PaymentController {
  import opened Common
  import opened ErrorMiddleware
  import opened AppointmentSchema
  import opened PaymentSchema
  import opened Store

  /** The fee the gateway is asked for, in rupees, and its currency. */
  const BookingFee: nat := 500
  const FeeCurrency: string := "INR"

  /** An id parameter of a request: absent, not an ObjectId (finding by it
      throws a `CastError`), or an id. */
  datatype IdParam = Missing | NotAnId | IdOf(id: Id)

  /** What `createPaymentRequest` returns: a fresh reference, the QR code
      image and the UPI link. */
  datatype PaymentRequest = PaymentRequest(ref: string, qr: string, url: string)

  /** Whether a reference can be saved on the payment at `k` (-1 for a new
      payment) without breaking the unique index. */
  lemma StoredRefIsFree(payments: seq<Payment>, nextId: nat, k: nat)
    requires PaymentsValid(payments, nextId) && k < |payments|
    ensures RefFree(payments, payments[k].paymentRefId, k)
  {
  }

  // ---------------------------------------------------------------------
  // generatePaymentQR
  // ---------------------------------------------------------------------

  const QrFailed: string := "Failed to generate payment QR code"

  /** Lines 14-33: what `generatePaymentQR` decides before it calls the
      gateway. */
  datatype QrStart = QrRefused(reply: Reply) | QrPaid | QrRequest(appointment: Appointment, existing: Option<nat>)

  function StartQr(appointments: seq<Appointment>, payments: seq<Payment>, appointmentId: IdParam): (s: QrStart)
    ensures s.QrRequest? ==> appointmentId.IdOf? && s.appointment in appointments
    ensures s.QrRequest? ==> s.appointment.id == appointmentId.id
    ensures s.QrRequest? && s.existing.Some? ==>
      s.existing.value < |payments| && payments[s.existing.value].appointmentId == appointmentId.id
      && payments[s.existing.value].status != Some(Succeeded)
  {
    match appointmentId
    case Missing => QrRefused(Reject("Appointment ID is required", 400))
    case NotAnId => QrRefused(Reject(QrFailed, 500))
    case IdOf(id) =>
      match AppointmentAt(appointments, id)
      case None => QrRefused(Reject("Appointment not found", 404))
      case Some(i) =>
        var existing := PaymentOf(payments, id);
        if existing.Some? && payments[existing.value].status == Some(Succeeded) then QrPaid
        else QrRequest(appointments[i], existing)
  }

  /** The guards of `generatePaymentQR` in order; an appointment whose
      first payment succeeded is never charged again. */
  lemma StartQrRule(appointments: seq<Appointment>, payments: seq<Payment>, appointmentId: IdParam)
    ensures appointmentId.Missing? ==> StartQr(appointments, payments, appointmentId) == QrRefused(Failure(400, "Appointment ID is required"))
    ensures appointmentId.IdOf? && AppointmentAt(appointments, appointmentId.id).None? ==>
      StartQr(appointments, payments, appointmentId) == QrRefused(Failure(404, "Appointment not found"))
    ensures appointmentId.IdOf? && AppointmentAt(appointments, appointmentId.id).Some? ==>
      (StartQr(appointments, payments, appointmentId).QrPaid? <==>
         PaymentOf(payments, appointmentId.id).Some?
         && payments[PaymentOf(payments, appointmentId.id).value].status == Some(Succeeded))
    ensures StartQr(appointments, payments, appointmentId).QrRequest? ==>
      StartQr(appointments, payments, appointmentId).existing == PaymentOf(payments, appointmentId.id)
  {
  }

  /** An existing payment asked for again: a new reference, back to
      PENDING, the new QR code and link, dated now; the amount and the
      transaction id stay. */
  function Renewed(p: Payment, g: PaymentRequest, now: int): (q: Payment)
    ensures q.id == p.id && q.appointmentId == p.appointmentId && q.amount == p.amount
    ensures q.paymentRefId == g.ref && q.status == Some(Requested) && q.paymentDate == now
  {
    p.(paymentRefId := g.ref, status := Some(Requested), qrCodeData := g.qr, paymentUrl := g.url, paymentDate := now)
  }

  /** The payment `Payment.create` stores for a first request: the
      appointment's patient, the fee, and the schema's defaults. */
  function Opened(id: Id, a: Appointment, g: PaymentRequest, now: int): Payment {
    Payment(id, a.id, Some(a.patientId), g.ref, BookingFee, FeeCurrency, Some(Requested), None, g.qr, g.url, now, None)
  }

  /** After a renewal the appointment's first payment is still the renewed
      one. */
  lemma PaymentOfRenewed(payments: seq<Payment>, j: nat, q: Payment)
    requires PaymentOf(payments, q.appointmentId) == Some(j)
    ensures PaymentOf(payments[j := q], q.appointmentId) == Some(j)
  {
    var s := payments[j := q];
    assert forall i :: 0 <= i < j ==> s[i] == payments[i];
    assert s[j].appointmentId == q.appointmentId;
    var r := PaymentOf(s, q.appointmentId);
    assert r.Some? && r.value <= j;
  }

  /** After a first request the appointment's first payment is the new
      one. */
  lemma PaymentOfOpened(payments: seq<Payment>, q: Payment)
    requires PaymentOf(payments, q.appointmentId).None?
    ensures PaymentOf(payments + [q], q.appointmentId) == Some(|payments|)
  {
    var s := payments + [q];
    assert forall i :: 0 <= i < |payments| ==> s[i] == payments[i];
    assert s[|payments|].appointmentId == q.appointmentId;
  }

  /** `generatePaymentQR`. `requested` says whether the gateway was asked
      (None is a gateway that threw). A refusal, a paid appointment, a
      gateway failure or a reference already stored changes nothing; else
      the first payment of the appointment is renewed in place, or one new
      payment is stored. Appointments, users and mails never change. */
  method GeneratePaymentQR(db: Db, appointmentId: IdParam, gateway: Option<PaymentRequest>, now: int)
    returns (reply: Reply, requested: bool)
    requires db.Valid()
    modifies db
    ensures db.Valid() && db.users == old(db.users) && db.appointments == old(db.appointments)
    ensures db.outbox == old(db.outbox)
    ensures requested <==> StartQr(old(db.appointments), old(db.payments), appointmentId).QrRequest?
    ensures StartQr(old(db.appointments), old(db.payments), appointmentId).QrRefused? ==>
      reply == StartQr(old(db.appointments), old(db.payments), appointmentId).reply && db.payments == old(db.payments)
    ensures StartQr(old(db.appointments), old(db.payments), appointmentId).QrPaid? ==>
      reply == Success(200, "Payment already completed for this appointment") && db.payments == old(db.payments)
    ensures StartQr(old(db.appointments), old(db.payments), appointmentId).QrRequest? ==>
      && var start := StartQr(old(db.appointments), old(db.payments), appointmentId);
         var except := if start.existing.Some? then start.existing.value as int else -1;
         if gateway.None? || !RefFree(old(db.payments), gateway.value.ref, except) then
           reply == Failure(500, QrFailed) && db.payments == old(db.payments)
         else
           && reply == Success(200, "Payment QR code generated successfully")
           && (start.existing.Some? ==>
                 db.payments == old(db.payments)[start.existing.value :=
                                  Renewed(old(db.payments)[start.existing.value], gateway.value, now)])
           && (start.existing.None? ==>
                 db.payments == old(db.payments) + [Opened(old(db.nextId), start.appointment, gateway.value, now)])
  {
    requested := false;
    var start := StartQr(db.appointments, db.payments, appointmentId);
    match start
    case QrRefused(refusal) =>
      reply := refusal;
    case QrPaid =>
      reply := Success(200, "Payment already completed for this appointment");
    case QrRequest(a, existing) =>
      requested := true;
      var except := if existing.Some? then existing.value as int else -1;
      if gateway.None? || !RefFree(db.payments, gateway.value.ref, except) {
        reply := Reject(QrFailed, 500);
        return;
      }
      var g := gateway.value;
      if existing.Some? {
        var j := existing.value;
        db.SetPayment(j, Renewed(db.payments[j], g, now));
      } else {
        var p := db.CreatePayment(a.id, Some(a.patientId), g.ref, BookingFee, FeeCurrency, g.qr, g.url, now);
      }
      reply := Success(200, "Payment QR code generated successfully");
  }

  // ---------------------------------------------------------------------
  // The appointment side of a successful payment
  // ---------------------------------------------------------------------

  /** `Appointment.findById(appointmentId)` and, when found, its payment
      status set to PAID; with `onlyPending` only while the appointment is
      still Pending. */
  function MarkPaid(appointments: seq<Appointment>, appointmentId: Id, onlyPending: bool): (r: seq<Appointment>)
    ensures |r| == |appointments|
  {
    match AppointmentAt(appointments, appointmentId)
    case None => appointments
    case Some(i) =>
      if onlyPending && appointments[i].status != Pending then appointments
      else appointments[i := appointments[i].(paymentStatus := Paid)]
  }

  /** Marking a payment never changes any appointment's status, and changes
      at most the payment status of the appointment paid for; it marks that
      one exactly when it exists and, with `onlyPending`, is Pending. */
  lemma MarkPaidRule(appointments: seq<Appointment>, appointmentId: Id, onlyPending: bool)
    ensures var r := MarkPaid(appointments, appointmentId, onlyPending);
      forall i :: 0 <= i < |appointments| ==>
        && r[i].status == appointments[i].status
        && (r[i] == appointments[i] || (appointments[i].id == appointmentId && r[i] == appointments[i].(paymentStatus := Paid)))
    ensures var r := MarkPaid(appointments, appointmentId, onlyPending);
      forall i :: 0 <= i < |appointments| && appointments[i].id == appointmentId
                  && AppointmentAt(appointments, appointmentId) == Some(i) ==>
        (r[i].paymentStatus == Paid <==>
           (appointments[i].paymentStatus == Paid || !onlyPending || appointments[i].status == Pending))
  {
  }

  /** Paying keeps every appointment valid and keeps ids and numbers. */
  lemma MarkPaidKeepsValid(appointments: seq<Appointment>, appointmentId: Id, onlyPending: bool, n: nat,
                           isEmail: string -> bool, isDate: string -> bool)
    requires AppointmentsValid(appointments, n, isEmail, isDate)
    ensures AppointmentsValid(MarkPaid(appointments, appointmentId, onlyPending), n, isEmail, isDate)
  {
    var r := MarkPaid(appointments, appointmentId, onlyPending);
    MarkPaidRule(appointments, appointmentId, onlyPending);
    assert forall i :: 0 <= i < |r| ==>
      r[i].id == appointments[i].id && r[i].appointmentNumber == appointments[i].appointmentNumber;
  }

  /** The payment after the gateway reported `state`: its transaction id
      and the verification time; `None` unsets the path. */
  function Settled(p: Payment, state: Option<PaymentState>, transactionId: Option<string>, now: int): (q: Payment)
    ensures q.id == p.id && q.appointmentId == p.appointmentId && q.paymentRefId == p.paymentRefId
    ensures q.amount == p.amount && q.status == state && q.verifiedAt == Some(now)
  {
    p.(status := state, transactionId := transactionId, verifiedAt := Some(now))
  }

  // ---------------------------------------------------------------------
  // checkPaymentStatus
  // ---------------------------------------------------------------------

  const CheckFailed: string := "Failed to check payment status"

  /** What `verifyPayment` answers; `VerifyThrew` is a verifier that threw. */
  datatype Verification = VerifyThrew | Verified(success: bool, status: string, transactionId: string)

  /** `checkPaymentStatus` for the reference `ref`. An unsuccessful
      verification changes nothing; a successful one records the verifier's
      status on the payment, and a SUCCESS marks the appointment PAID only
      while it is Pending. No appointment's status ever changes. */
  method CheckPaymentStatus(db: Db, ref: string, verification: Verification, now: int) returns (reply: Reply)
    requires db.Valid()
    modifies db
    ensures db.Valid() && db.users == old(db.users) && db.outbox == old(db.outbox)
    ensures ref == "" ==>
      reply == Failure(400, "Payment reference ID is required")
      && db.payments == old(db.payments) && db.appointments == old(db.appointments)
    ensures ref != "" && PaymentWithRef(old(db.payments), ref).None? ==>
      reply == Failure(404, "Payment not found")
      && db.payments == old(db.payments) && db.appointments == old(db.appointments)
    ensures ref != "" && PaymentWithRef(old(db.payments), ref).Some? ==>
      && var k := PaymentWithRef(old(db.payments), ref).value;
         var p := old(db.payments)[k];
         match verification
         case VerifyThrew =>
           reply == Failure(500, CheckFailed)
           && db.payments == old(db.payments) && db.appointments == old(db.appointments)
         case Verified(success, status, transactionId) =>
           if !success then
             reply == Success(200, "Payment status: " + StatusText(p.status))
             && db.payments == old(db.payments) && db.appointments == old(db.appointments)
           else if ParsePaymentState(status).None? then
             reply == Failure(500, CheckFailed)
             && db.payments == old(db.payments) && db.appointments == old(db.appointments)
           else
             && var state := ParsePaymentState(status).value;
                && reply == Success(200, "Payment status: " + status)
                && db.payments == old(db.payments)[k := Settled(p, Some(state), Some(transactionId), now)]
                && db.appointments == (if state == Succeeded then MarkPaid(old(db.appointments), p.appointmentId, true)
                                       else old(db.appointments))
  {
    if ref == "" {
      return Reject("Payment reference ID is required", 400);
    }
    var found := PaymentWithRef(db.payments, ref);
    if found.None? {
      return Reject("Payment not found", 404);
    }
    var k := found.value;
    var p := db.payments[k];
    match verification
    case VerifyThrew =>
      reply := Reject(CheckFailed, 500);
    case Verified(success, status, transactionId) =>
      if !success {
        reply := Success(200, "Payment status: " + StatusText(p.status));
        return;
      }
      var state := ParsePaymentState(status);
      if state.None? {
        reply := Reject(CheckFailed, 500);
        return;
      }
      StoredRefIsFree(db.payments, db.nextId, k);
      db.SetPayment(k, Settled(p, state, Some(transactionId), now));
      if state.value == Succeeded {
        MarkAppointmentPaid(db, p.appointmentId, true);
      }
      reply := Success(200, "Payment status: " + status);
  }

  /** Saves `MarkPaid` of the appointments. */
  method MarkAppointmentPaid(db: Db, appointmentId: Id, onlyPending: bool)
    requires db.Valid()
    modifies db
    ensures db.Valid() && db.appointments == MarkPaid(old(db.appointments), appointmentId, onlyPending)
    ensures db.users == old(db.users) && db.payments == old(db.payments) && db.outbox == old(db.outbox)
  {
    var found := AppointmentAt(db.appointments, appointmentId);
    if found.Some? {
      var i := found.value;
      if !onlyPending || db.appointments[i].status == Pending {
        db.SetAppointment(i, db.appointments[i].(paymentStatus := Paid));
      }
    }
  }

  // ---------------------------------------------------------------------
  // paymentCallback
  // ---------------------------------------------------------------------

  /** The query of the gateway's callback: `refId`, `status` and
      `transactionId`, each of which may be absent (`undefined`). */
  datatype Callback = Callback(ref: Option<string>, status: Option<string>, transactionId: Option<string>)

  /** The answer to a callback: JSON, or a redirect for a browser. */
  datatype CallbackReply = Answered(reply: Reply) | Redirected(location: string)

  /** A processed callback: browsers go to the status page, whose query
      prints an absent field as "undefined". */
  function CallbackDone(cb: Callback, html: bool): CallbackReply {
    if html then Redirected("/payment/status?ref=" + Shown(cb.ref) + "&status=" + Shown(cb.status))
    else Answered(Success(200, "Payment callback processed successfully"))
  }

  /** A callback whose processing threw. */
  function CallbackFailed(html: bool): CallbackReply {
    if html then Redirected("/payment/error") else Answered(Failure(500, "Failed to process payment callback"))
  }

  /** Line 165 as written: `Payment.findOne({ paymentRefId: refId })`. A
      query without `refId` filters on `undefined`, which Mongoose drops,
      so the filter matches every payment and `findOne` returns one of
      them: the first in natural order. */
  function CallbackTarget(payments: seq<Payment>, ref: Option<string>): (r: Option<nat>)
    ensures r.Some? ==> r.value < |payments|
    ensures ref.Some? ==> r == PaymentWithRef(payments, ref.value)
    ensures ref.None? ==> (r.Some? <==> |payments| > 0)
  {
    match ref
    case Some(v) => PaymentWithRef(payments, v)
    case None => if |payments| == 0 then None else Some(0)
  }

  /** The payment a callback evidently means: the one carrying its
      reference, and none when it carries no reference. */
  function CallbackTargetIntended(payments: seq<Payment>, ref: Option<string>): (r: Option<nat>)
    ensures r.Some? ==> ref.Some? && r.value < |payments| && payments[r.value].paymentRefId == ref.value
    ensures r.None? <==> ref.None? || forall j :: 0 <= j < |payments| ==> payments[j].paymentRefId != ref.value
  {
    match ref
    case Some(v) => PaymentWithRef(payments, v)
    case None => None
  }

  /** As written, a callback without a reference settles the first stored
      payment, whichever reference it has; the intended lookup finds none.
      With a reference, the two agree. */
  lemma MissingRefSettlesFirstPayment(payments: seq<Payment>, ref: Option<string>)
    ensures |payments| > 0 ==> CallbackTarget(payments, None) == Some(0)
    ensures CallbackTargetIntended(payments, None) == None
    ensures ref.Some? ==> CallbackTarget(payments, ref) == CallbackTargetIntended(payments, ref)
  {
  }

  /** Whether the save of the query's `status` passes the enum: an absent
      status unsets the path, which the enum lets through. */
  predicate StatusSaves(status: Option<string>) {
    status.None? || ParsePaymentState(status.value).Some?
  }

  /** The status a passing save stores. */
  function SavedStatus(status: Option<string>): (r: Option<PaymentState>)
    requires StatusSaves(status)
    ensures r.Some? <==> status.Some?
    ensures r.Some? ==> PaymentStateName(r.value) == status.value
  {
    match status
    case None => None
    case Some(v) => ParsePaymentState(v)
  }

  const PaymentSubject: string := "Payment Confirmation - Satya Hospital"

  /** The payment confirmation as line 189 writes it: the template reads
      `appointment.doctor_firstName` and `appointment.doctor_lastName`,
      which no appointment has (its doctor is `doctor.firstName` and
      `doctor.lastName`), so both print as "undefined". */
  function PaymentMailAsWritten(a: Appointment): (m: Mail)
    ensures m.to == a.email && m.subject == PaymentSubject && m.appointmentId == a.id
    ensures m.doctorName == "Dr. undefined undefined"
  {
    Mail(a.email, PaymentSubject, a.id, "Dr. " + "undefined" + " " + "undefined")
  }

  /** As written, the confirmation names no doctor: the name is the same
      whatever the appointment's doctor, and differs from the doctor's for
      a doctor named Asha Rao. */
  lemma PaymentMailIgnoresDoctor(a: Appointment, b: Appointment)
    ensures PaymentMailAsWritten(a).doctorName == PaymentMailAsWritten(b).doctorName
    ensures a.doctor == DoctorName("Asha", "Rao") ==>
      PaymentMailAsWritten(a).doctorName != "Dr. " + a.doctor.firstName + " " + a.doctor.lastName
  {
    if a.doctor == DoctorName("Asha", "Rao") {
      assert PaymentMailAsWritten(a).doctorName[4] == 'u';
      assert ("Dr. " + a.doctor.firstName + " " + a.doctor.lastName)[4] == 'A';
    }
  }

  /** The confirmation with the appointment's doctor, as evidently
      intended. */
  function PaymentMail(a: Appointment): (m: Mail)
    ensures m.to == a.email && m.subject == PaymentSubject && m.appointmentId == a.id
    ensures m.doctorName == "Dr. " + a.doctor.firstName + " " + a.doctor.lastName
  {
    Mail(a.email, PaymentSubject, a.id, "Dr. " + a.doctor.firstName + " " + a.doctor.lastName)
  }

  /** The confirmations of a callback: one for a SUCCESS whose appointment
      exists. */
  function PaymentMails(appointments: seq<Appointment>, appointmentId: Id, state: Option<PaymentState>, mailer: Mail -> bool)
    : (r: seq<MailAttempt>)
    ensures |r| <= 1
    ensures r != [] <==> state == Some(Succeeded) && AppointmentAt(appointments, appointmentId).Some?
    ensures r != [] ==> r[0].mail == PaymentMailAsWritten(appointments[AppointmentAt(appointments, appointmentId).value])
  {
    if state != Some(Succeeded) then []
    else match AppointmentAt(appointments, appointmentId)
      case None => []
      case Some(i) => [MailAttempt(PaymentMailAsWritten(appointments[i]), mailer(PaymentMailAsWritten(appointments[i])))]
  }

  /** `paymentCallback`. No payment found updates nothing and is still a
      success; a found one records the reported status (unset when the
      query has none) and transaction id, and a SUCCESS marks the
      appointment PAID whatever its status and attempts the confirmation,
      whose failure is swallowed. */
  method PaymentCallback(db: Db, cb: Callback, html: bool, now: int, mailer: Mail -> bool)
    returns (answer: CallbackReply)
    requires db.Valid()
    modifies db
    ensures db.Valid() && db.users == old(db.users)
    ensures CallbackTarget(old(db.payments), cb.ref).None? ==>
      && answer == CallbackDone(cb, html)
      && db.payments == old(db.payments) && db.appointments == old(db.appointments) && db.outbox == old(db.outbox)
    ensures CallbackTarget(old(db.payments), cb.ref).Some? && !StatusSaves(cb.status) ==>
      && answer == CallbackFailed(html)
      && db.payments == old(db.payments) && db.appointments == old(db.appointments) && db.outbox == old(db.outbox)
    ensures CallbackTarget(old(db.payments), cb.ref).Some? && StatusSaves(cb.status) ==>
      && var k := CallbackTarget(old(db.payments), cb.ref).value;
         var p := old(db.payments)[k];
         var state := SavedStatus(cb.status);
         && answer == CallbackDone(cb, html)
         && db.payments == old(db.payments)[k := Settled(p, state, cb.transactionId, now)]
         && db.appointments == (if state == Some(Succeeded) then MarkPaid(old(db.appointments), p.appointmentId, false)
                                else old(db.appointments))
         && db.outbox == old(db.outbox) + PaymentMails(old(db.appointments), p.appointmentId, state, mailer)
  {
    var found := CallbackTarget(db.payments, cb.ref);
    if found.None? {
      return CallbackDone(cb, html);
    }
    var k := found.value;
    var p := db.payments[k];
    if !StatusSaves(cb.status) {
      return CallbackFailed(html);
    }
    var state := SavedStatus(cb.status);
    StoredRefIsFree(db.payments, db.nextId, k);
    db.SetPayment(k, Settled(p, state, cb.transactionId, now));
    if state == Some(Succeeded) {
      ConfirmPayment(db, p.appointmentId, mailer);
    }
    answer := CallbackDone(cb, html);
  }

  /** Lines 176-196: the appointment paid for is marked PAID whatever its
      status and its patient is sent the confirmation. */
  method ConfirmPayment(db: Db, appointmentId: Id, mailer: Mail -> bool)
    requires db.Valid()
    modifies db
    ensures db.Valid() && db.appointments == MarkPaid(old(db.appointments), appointmentId, false)
    ensures db.outbox == old(db.outbox) + PaymentMails(old(db.appointments), appointmentId, Some(Succeeded), mailer)
    ensures db.users == old(db.users) && db.payments == old(db.payments)
  {
    var target := AppointmentAt(db.appointments, appointmentId);
    var before := db.appointments;
    MarkAppointmentPaid(db, appointmentId, false);
    if target.Some? {
      db.Send(PaymentMailAsWritten(before[target.value]), mailer);
    }
  }

  /** The two ways a SUCCESS reaches an appointment differ: a check marks
      it PAID only while Pending, a callback whatever its status. */
  lemma CheckAndCallbackDiffer(appointments: seq<Appointment>, i: nat)
    requires i < |appointments| && appointments[i].status == Accepted && appointments[i].paymentStatus == Unpaid
    requires forall j :: 0 <= j < |appointments| && j != i ==> appointments[j].id != appointments[i].id
    ensures MarkPaid(appointments, appointments[i].id, true)[i].paymentStatus == Unpaid
    ensures MarkPaid(appointments, appointments[i].id, false)[i].paymentStatus == Paid
  {
    assert AppointmentAt(appointments, appointments[i].id) == Some(i);
  }
}
