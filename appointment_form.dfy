/** The patient's booking form (Frontend/src/components/AppointmentForm.jsx):
    the personal details, the list of appointment slots the patient edits,
    the checks run before submitting, and the request bodies sent to the
    single and batch booking routes. The slot editors follow React's
    copy-and-replace updates, so each is a function from the old list to
    the new one. Messages are those of the English interface. */
module AppointmentForm {
  import opened Common
  import opened UserSchema
  import opened AppointmentController

  /** The personal details shared by every slot. */
  datatype Personal = Personal(
    firstName: string,
    lastName: string,
    email: string,
    phone: string,
    nic: string,
    dob: string,
    gender: string,
    address: string)

  const EmptyPersonal: Personal := Personal("", "", "", "", "", "", "", "")

  /** The eight personal fields in the order the form tests them. */
  function PersonalFields(p: Personal): (fs: seq<string>)
    ensures |fs| == 8
  {
    [p.firstName, p.lastName, p.email, p.phone, p.nic, p.dob, p.gender, p.address]
  }

  /** One appointment slot: a date, a department and a doctor. */
  datatype Slot = Slot(appointmentDate: string, department: string, doctorFirstName: string, doctorLastName: string)

  const EmptySlot: Slot := Slot("", "", "", "")

  /** The `field` argument of `updateAppointment`. */
  datatype SlotField = DateField | DepartmentField | DoctorFirstField | DoctorLastField

  function Get(s: Slot, field: SlotField): string {
    match field
    case DateField => s.appointmentDate
    case DepartmentField => s.department
    case DoctorFirstField => s.doctorFirstName
    case DoctorLastField => s.doctorLastName
  }

  function Put(s: Slot, field: SlotField, value: string): (t: Slot)
    ensures Get(t, field) == value
    ensures forall f :: f != field ==> Get(t, f) == Get(s, f)
  {
    match field
    case DateField => s.(appointmentDate := value)
    case DepartmentField => s.(department := value)
    case DoctorFirstField => s.(doctorFirstName := value)
    case DoctorLastField => s.(doctorLastName := value)
  }

  // ---------------------------------------------------------------------
  // The slot list editors
  // ---------------------------------------------------------------------

  /** `addAppointmentSlot`: one empty slot after the others. */
  function AddSlot(slots: seq<Slot>): (r: seq<Slot>)
    ensures |r| == |slots| + 1 && r[..|slots|] == slots && r[|slots|] == EmptySlot
  {
    slots + [EmptySlot]
  }

  /** `removeAppointmentSlot(index)`: `splice(index, 1)` on a copy, done
      only while more than one slot is left. */
  function RemoveSlot(slots: seq<Slot>, index: nat): (r: seq<Slot>)
    ensures |slots| >= 1 ==> |r| >= 1
    ensures |slots| > 1 && index < |slots| ==>
      |r| == |slots| - 1
      && (forall j :: 0 <= j < index ==> r[j] == slots[j])
      && (forall j :: index <= j < |r| ==> r[j] == slots[j + 1])
    ensures !(|slots| > 1 && index < |slots|) ==> r == slots
  {
    if |slots| > 1 && index < |slots| then slots[..index] + slots[index + 1..] else slots
  }

  /** Removing the slot just added gives back the list before. */
  lemma RemoveAfterAdd(slots: seq<Slot>)
    requires |slots| >= 1
    ensures RemoveSlot(AddSlot(slots), |slots|) == slots
  {
    var r := RemoveSlot(AddSlot(slots), |slots|);
    assert |r| == |slots|;
    assert forall j :: 0 <= j < |slots| ==> r[j] == slots[j];
  }

  /** The only slot is never removed. */
  lemma LastSlotStays(slot: Slot, index: nat)
    ensures RemoveSlot([slot], index) == [slot]
  {
  }

  /** `updateAppointment(index, field, value)`: only that field of that
      slot changes. */
  function UpdateSlot(slots: seq<Slot>, index: nat, field: SlotField, value: string): (r: seq<Slot>)
    requires index < |slots|
    ensures |r| == |slots|
    ensures forall j :: 0 <= j < |slots| && j != index ==> r[j] == slots[j]
    ensures Get(r[index], field) == value
    ensures forall f :: f != field ==> Get(r[index], f) == Get(slots[index], f)
  {
    slots[index := Put(slots[index], field, value)]
  }

  /** A second update of the same field overrides the first; writing back
      what a field holds changes nothing. */
  lemma UpdateSlotLastWins(slots: seq<Slot>, index: nat, field: SlotField, v: string, w: string)
    requires index < |slots|
    ensures UpdateSlot(UpdateSlot(slots, index, field, v), index, field, w) == UpdateSlot(slots, index, field, w)
    ensures UpdateSlot(slots, index, field, Get(slots[index], field)) == slots
  {
    var a := UpdateSlot(UpdateSlot(slots, index, field, v), index, field, w);
    var b := UpdateSlot(slots, index, field, w);
    assert forall f :: Get(a[index], f) == Get(b[index], f);
    SlotsAgree(a[index], b[index]);
    SlotsAgree(UpdateSlot(slots, index, field, Get(slots[index], field))[index], slots[index]);
  }

  /** Slots that agree on every field are equal. */
  lemma SlotsAgree(s: Slot, t: Slot)
    requires forall f :: Get(s, f) == Get(t, f)
    ensures s == t
  {
    assert Get(s, DateField) == Get(t, DateField) && Get(s, DepartmentField) == Get(t, DepartmentField);
    assert Get(s, DoctorFirstField) == Get(t, DoctorFirstField) && Get(s, DoctorLastField) == Get(t, DoctorLastField);
  }

  /** The value of the doctor drop-down: nothing chosen, or a doctor's
      names. */
  datatype DoctorChoice = Unchosen | Chosen(firstName: string, lastName: string)

  /** `handleDoctorSelect(index, value)`: an empty choice clears both
      names. */
  function SelectDoctor(slots: seq<Slot>, index: nat, choice: DoctorChoice): (r: seq<Slot>)
    requires index < |slots|
    ensures |r| == |slots|
    ensures forall j :: 0 <= j < |slots| && j != index ==> r[j] == slots[j]
    ensures r[index].appointmentDate == slots[index].appointmentDate && r[index].department == slots[index].department
    ensures choice.Unchosen? ==> r[index].doctorFirstName == "" && r[index].doctorLastName == ""
    ensures choice.Chosen? ==>
      r[index].doctorFirstName == choice.firstName && r[index].doctorLastName == choice.lastName
  {
    match choice
    case Unchosen => slots[index := slots[index].(doctorFirstName := "", doctorLastName := "")]
    case Chosen(first, last) => slots[index := slots[index].(doctorFirstName := first, doctorLastName := last)]
  }

  /** The doctor drop-down's `onChange`: a chosen doctor goes through
      `handleDoctorSelect`; an empty choice makes two `updateAppointment`
      calls, each copying the same list from before the change, so the
      second one's list (only the last name cleared) is the one kept. The
      slot stays incomplete either way, so the form still refuses it. */
  function DoctorDropDown(slots: seq<Slot>, index: nat, choice: DoctorChoice): (r: seq<Slot>)
    requires index < |slots|
    ensures |r| == |slots|
    ensures forall j :: 0 <= j < |slots| && j != index ==> r[j] == slots[j]
    ensures choice.Chosen? ==> r == SelectDoctor(slots, index, choice)
    ensures choice.Unchosen? ==>
      r[index].doctorLastName == "" && r[index].doctorFirstName == slots[index].doctorFirstName
      && r[index].appointmentDate == slots[index].appointmentDate && r[index].department == slots[index].department
    ensures choice.Unchosen? ==> SlotProblem(r[index], index) != None
  {
    match choice
    case Chosen(_, _) => SelectDoctor(slots, index, choice)
    case Unchosen => UpdateSlot(slots, index, DoctorLastField, "")
  }

  /** The department drop-down of a slot: a new department clears the
      doctor. */
  function ChangeDepartment(slots: seq<Slot>, index: nat, department: string): (r: seq<Slot>)
    requires index < |slots|
    ensures |r| == |slots|
    ensures forall j :: 0 <= j < |slots| && j != index ==> r[j] == slots[j]
    ensures r[index] == Slot(slots[index].appointmentDate, department, "", "")
  {
    slots[index := slots[index].(department := department, doctorFirstName := "", doctorLastName := "")]
  }

  // ---------------------------------------------------------------------
  // handleAppointment: the checks before submitting
  // ---------------------------------------------------------------------

  /** What stops a submission, with the slot it concerns (from 0). */
  datatype FormProblem = MissingPersonal | BadAadhaar | NoDate(slot: nat) | NoDepartment(slot: nat) | NoDoctor(slot: nat)

  /** The toast shown for a problem; slots are numbered from 1 there. */
  function ProblemMessage(problem: FormProblem): string {
    match problem
    case MissingPersonal => "Please fill all personal information fields"
    case BadAadhaar => "Please enter a valid 12-digit Aadhaar number"
    case NoDate(i) => "Please select a date for appointment # " + NatToString(i + 1)
    case NoDepartment(i) => "Please select a department for appointment # " + NatToString(i + 1)
    case NoDoctor(i) => "Please select a doctor for appointment # " + NatToString(i + 1)
  }

  /** A slot with a date, a department and both doctor names. */
  predicate SlotComplete(s: Slot) {
    s.appointmentDate != "" && s.department != "" && s.doctorFirstName != "" && s.doctorLastName != ""
  }

  /** The problem of slot `i`, tested date first, then department, then
      doctor; None for a complete slot. */
  function SlotProblem(s: Slot, i: nat): (r: Option<FormProblem>)
    ensures r.None? <==> SlotComplete(s)
  {
    if s.appointmentDate == "" then Some(NoDate(i))
    else if s.department == "" then Some(NoDepartment(i))
    else if s.doctorFirstName == "" || s.doctorLastName == "" then Some(NoDoctor(i))
    else None
  }

  /** The checks of `handleAppointment`: the personal fields, the Aadhaar
      number, then the slots in order; the first failure is reported. */
  method CheckForm(p: Personal, slots: seq<Slot>) returns (problem: Option<FormProblem>)
    ensures problem == Some(MissingPersonal) <==> !AllPresent(PersonalFields(p))
    ensures problem == Some(BadAadhaar) <==> AllPresent(PersonalFields(p)) && !IsAadhaar(p.nic)
    ensures problem.None? <==>
      AllPresent(PersonalFields(p)) && IsAadhaar(p.nic) && forall j :: 0 <= j < |slots| ==> SlotComplete(slots[j])
    ensures problem.Some? && !problem.value.MissingPersonal? && !problem.value.BadAadhaar? ==>
      && var i := problem.value.slot;
         && i < |slots| && (forall j :: 0 <= j < i ==> SlotComplete(slots[j]))
         && SlotProblem(slots[i], i) == problem
  {
    if !AllPresent(PersonalFields(p)) {
      return Some(MissingPersonal);
    }
    if !IsAadhaar(p.nic) {
      return Some(BadAadhaar);
    }
    var i := 0;
    while i < |slots|
      invariant 0 <= i <= |slots|
      invariant forall j :: 0 <= j < i ==> SlotComplete(slots[j])
    {
      var found := SlotProblem(slots[i], i);
      if found.Some? {
        return found;
      }
      i := i + 1;
    }
    return None;
  }

  // ---------------------------------------------------------------------
  // The request bodies
  // ---------------------------------------------------------------------

  /** The body for one slot: the personal details and the slot's fields,
      under the names the backend reads. */
  function Payload(p: Personal, hasVisited: bool, s: Slot): BookingRequest {
    BookingRequest(p.firstName, p.lastName, p.email, p.phone, p.nic, p.dob, p.gender,
                   s.appointmentDate, s.department, s.doctorFirstName, s.doctorLastName, hasVisited, p.address)
  }

  /** `handleMultipleAppointments`: one body per slot, in slot order, all
      with the same personal details. */
  function BatchPayload(p: Personal, hasVisited: bool, slots: seq<Slot>): (r: seq<BookingRequest>)
    ensures |r| == |slots|
    ensures forall i :: 0 <= i < |slots| ==> r[i] == Payload(p, hasVisited, slots[i])
  {
    if slots == [] then [] else [Payload(p, hasVisited, slots[0])] + BatchPayload(p, hasVisited, slots[1..])
  }

  /** `handleSingleAppointment`: only the first slot is sent. */
  function SinglePayload(p: Personal, hasVisited: bool, slots: seq<Slot>): BookingRequest
    requires |slots| >= 1
  {
    Payload(p, hasVisited, slots[0])
  }

  /** Every body of a batch carries the same personal details, and the
      single booking's body is the batch's first. */
  lemma BatchPayloadShares(p: Personal, hasVisited: bool, slots: seq<Slot>)
    requires |slots| >= 1
    ensures forall i :: 0 <= i < |slots| ==>
      BatchPayload(p, hasVisited, slots)[i].nic == p.nic && BatchPayload(p, hasVisited, slots)[i].email == p.email
    ensures BatchPayload(p, hasVisited, slots)[0] == SinglePayload(p, hasVisited, slots)
  {
  }

  /** A form that passes its own checks sends bodies that pass the
      backend's missing-field and Aadhaar guards: the booking then depends
      only on the doctor lookup. */
  lemma CheckedFormPassesBackendGuards(p: Personal, hasVisited: bool, slots: seq<Slot>, users: seq<User>, i: nat)
    requires AllPresent(PersonalFields(p)) && IsAadhaar(p.nic)
    requires forall j :: 0 <= j < |slots| ==> SlotComplete(slots[j])
    requires i < |slots|
    ensures var req := BatchPayload(p, hasVisited, slots)[i];
      ScreenBooking(req, users) == LookUpDoctor(users, req.doctorFirstName, req.doctorLastName, req.department)
  {
    var req := BatchPayload(p, hasVisited, slots)[i];
    assert PersonalFields(p)[0] != "" && PersonalFields(p)[1] != "" && PersonalFields(p)[2] != "";
    assert PersonalFields(p)[3] != "" && PersonalFields(p)[4] != "" && PersonalFields(p)[5] != "";
    assert PersonalFields(p)[6] != "" && PersonalFields(p)[7] != "";
    assert SlotComplete(slots[i]);
    assert AllPresent(BookingFields(req));
  }

  // ---------------------------------------------------------------------
  // The payment step
  // ---------------------------------------------------------------------

  /** The id the payment step is opened with: the appointment number when
      the reply has one, else the database id, else none (the patient goes
      to the dashboard). */
  function PaymentId(appointmentNumber: string, id: string): (r: Option<string>)
    ensures appointmentNumber != "" ==> r == Some(appointmentNumber)
    ensures appointmentNumber == "" && id != "" ==> r == Some(id)
    ensures r.None? <==> appointmentNumber == "" && id == ""
  {
    if appointmentNumber != "" then Some(appointmentNumber)
    else if id != "" then Some(id)
    else None
  }
}
