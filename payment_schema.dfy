/** The `Payment` collection (Backend/models/paymentSchema.js): one
    payment request per appointment, identified by a unique gateway
    reference, with its own status enum. */
module PaymentSchema {
  import opened Common

  datatype PaymentState = Requested | Succeeded | Declined | Withdrawn

  function PaymentStateName(s: PaymentState): string {
    match s
    case Requested => "PENDING"
    case Succeeded => "SUCCESS"
    case Declined => "FAILED"
    case Withdrawn => "CANCELLED"
  }

  /** The `enum: ["PENDING", "SUCCESS", "FAILED", "CANCELLED"]` test. */
  function ParsePaymentState(s: string): (r: Option<PaymentState>)
    ensures r.Some? ==> PaymentStateName(r.value) == s
  {
    if s == "PENDING" then Some(Requested)
    else if s == "SUCCESS" then Some(Succeeded)
    else if s == "FAILED" then Some(Declined)
    else if s == "CANCELLED" then Some(Withdrawn)
    else None
  }

  lemma PaymentStateRoundTrip(p: PaymentState, s: string)
    ensures ParsePaymentState(PaymentStateName(p)) == Some(p)
    ensures ParsePaymentState(s).Some? <==> s in {"PENDING", "SUCCESS", "FAILED", "CANCELLED"}
  {
  }

  /** How `${payment.status}` prints a status: an unset one is
      "undefined". */
  function StatusText(s: Option<PaymentState>): (r: string)
    ensures s.Some? ==> ParsePaymentState(r) == s
    ensures s.None? ==> ParsePaymentState(r).None?
  {
    match s
    case Some(state) => PaymentStateName(state)
    case None => Shown(None)
  }

  /** A stored payment. Times are clock readings; `None` is an unset
      status or transaction id. */
  datatype Payment = Payment(
    id: Id,
    appointmentId: Id,
    patientId: Option<Id>,
    paymentRefId: string,
    amount: nat,
    currency: string,
    status: Option<PaymentState>,
    transactionId: Option<string>,
    qrCodeData: string,
    paymentUrl: string,
    paymentDate: int,
    verifiedAt: Option<int>)
}
