/** The account handlers (Backend/controller/usercontroller.js): patient
    registration, login, and the admin's handlers that add admins and
    doctors, list doctors and delete a doctor. Password hashing and its
    comparison, the token cookie and the image host are parameters or left
    out; the stored password is the value the request carried. */
module UserController {
  import opened Common
  import opened ErrorMiddleware
  import opened UserSchema
  import opened Store

  /** The fields of a registration body; "" for a field left out. */
  datatype Registration = Registration(
    firstName: string,
    lastName: string,
    email: string,
    phone: string,
    password: string,
    gender: string,
    dob: string,
    nic: string,
    role: string)

  /** The eight personal fields every account handler requires. */
  function PersonalFields(r: Registration): seq<string> {
    [r.firstName, r.lastName, r.email, r.phone, r.password, r.gender, r.dob, r.nic]
  }

  /** The document handed to `User.create` for the role `role`. */
  function AccountDraft(r: Registration, role: string, department: Option<string>, photo: Option<Photo>)
    : UserDraft
  {
    UserDraft(r.firstName, r.lastName, r.email, r.phone, r.nic, r.dob, r.gender, r.password, role,
              department, photo)
  }

  const FillAllFields: string := "Please fill all the fields!"
  const BadAadhaar: string := "Please provide a valid 12-digit Aadhaar number"

  /** The refusal of a second account with a stored email: it names the
      role of the account that has it. */
  function TakenEmail(users: seq<User>, email: string): Option<Reply> {
    match UserWithEmail(users, email)
    case Some(k) => Some(Reject(RoleName(users[k].role) + " with this email already exists!", 400))
    case None => None
  }

  /** `User.create(draft)` behind the handlers' guards: a draft the schema
      refuses is the `ValidationError`, a 500 with the per-field messages,
      and stores nothing; otherwise exactly one user is appended. */
  twostate predicate Enrolled(db: Db, new draft: UserDraft, new success: string, new reply: Reply)
    reads db
  {
    && (UserSchemaHolds(draft, db.isEmail, db.isDate) ==>
          && reply == Success(200, success)
          && db.users == old(db.users) + [UserFromDraft(draft, old(db.nextId), db.isEmail, db.isDate)])
    && (!UserSchemaHolds(draft, db.isEmail, db.isDate) ==>
          && reply == Normalize(ValidationFailure("User", UserErrors(draft, db.isEmail, db.isDate)))
          && db.users == old(db.users))
  }

  method Enrol(db: Db, draft: UserDraft, success: string) returns (reply: Reply)
    requires db.Valid() && UserWithEmail(db.users, draft.email).None?
    modifies db
    ensures db.Valid() && db.appointments == old(db.appointments)
    ensures db.payments == old(db.payments) && db.outbox == old(db.outbox)
    ensures Enrolled(db, draft, success, reply)
  {
    var errors := UserErrors(draft, db.isEmail, db.isDate);
    UserErrorsIff(draft, db.isEmail, db.isDate);
    if errors != [] {
      reply := Normalize(ValidationFailure("User", errors));
      assert db.users == old(db.users);
      return;
    }
    assert UserSchemaHolds(draft, db.isEmail, db.isDate);
    var u := db.CreateUser(draft);
    reply := Success(200, success);
  }

  // ---------------------------------------------------------------------
  // patientRegister
  // ---------------------------------------------------------------------

  /** Lines 21-40: the guards of a registration; None lets it through. */
  function ScreenRegistration(r: Registration, users: seq<User>): (refusal: Option<Reply>)
    ensures refusal.None? ==> UserWithEmail(users, r.email).None?
  {
    if !AllPresent(PersonalFields(r) + [r.role]) then Some(Reject(FillAllFields, 400))
    else if !IsAadhaar(r.nic) then Some(Reject(BadAadhaar, 400))
    else if UserWithEmail(users, r.email).Some? then Some(Reject("User already exists!", 400))
    else None
  }

  /** A registration is refused in a fixed order, every refusal a 400: a
      missing field (the role included), a bad Aadhaar whatever the role,
      an email already in use. */
  lemma RegistrationRejectionOrder(r: Registration, users: seq<User>)
    ensures !AllPresent(PersonalFields(r) + [r.role]) ==>
      ScreenRegistration(r, users) == Some(Failure(400, FillAllFields))
    ensures AllPresent(PersonalFields(r) + [r.role]) && !IsAadhaar(r.nic) ==>
      ScreenRegistration(r, users) == Some(Failure(400, BadAadhaar))
    ensures (AllPresent(PersonalFields(r) + [r.role]) && IsAadhaar(r.nic)
             && (exists u :: u in users && u.email == r.email)) ==>
      ScreenRegistration(r, users) == Some(Failure(400, "User already exists!"))
    ensures ScreenRegistration(r, users).None? <==>
      AllPresent(PersonalFields(r) + [r.role]) && IsAadhaar(r.nic)
      && forall u :: u in users ==> u.email != r.email
  {
  }

  /** `patientRegister`: once the guards pass, the account is created with
      the role the request names, whichever of the three it is. */
  method PatientRegister(db: Db, r: Registration) returns (reply: Reply)
    requires db.Valid()
    modifies db
    ensures db.Valid() && db.appointments == old(db.appointments)
    ensures db.payments == old(db.payments) && db.outbox == old(db.outbox)
    ensures ScreenRegistration(r, old(db.users)).Some? ==>
      reply == ScreenRegistration(r, old(db.users)).value && db.users == old(db.users)
    ensures ScreenRegistration(r, old(db.users)).None? ==>
      Enrolled(db, AccountDraft(r, r.role, None, None), "User registered successfully!", reply)
  {
    var refusal := ScreenRegistration(r, db.users);
    if refusal.Some? {
      return refusal.value;
    }
    reply := Enrol(db, AccountDraft(r, r.role, None, None), "User registered successfully!");
  }

  /** The role of a registered account is the one of the request, so a
      registration asking for "Admin" or "Doctor" creates one. */
  lemma RegisteredRole(r: Registration, id: Id, isEmail: string -> bool, isDate: string -> bool)
    requires UserSchemaHolds(AccountDraft(r, r.role, None, None), isEmail, isDate)
    ensures RoleName(UserFromDraft(AccountDraft(r, r.role, None, None), id, isEmail, isDate).role) == r.role
    ensures r.role == "Admin" ==> UserFromDraft(AccountDraft(r, r.role, None, None), id, isEmail, isDate).role == Admin
  {
    var u := UserFromDraft(AccountDraft(r, r.role, None, None), id, isEmail, isDate);
    RoleRoundTrip(u.role, r.role);
  }

  // ---------------------------------------------------------------------
  // login
  // ---------------------------------------------------------------------

  /** The body of a login; `role` is "" when the portal names none. */
  datatype Credentials = Credentials(email: string, password: string, role: string)

  datatype LoginOutcome = LoggedIn(user: User) | LoginRefused(reply: Reply)

  /** `login`; `matches(entered, stored)` is `bcrypt.compare`. */
  function Login(users: seq<User>, c: Credentials, matches: (string, string) -> bool): (r: LoginOutcome)
    ensures r.LoggedIn? ==> r.user in users && r.user.email == c.email && matches(c.password, r.user.password)
    ensures r.LoginRefused? ==> r.reply.Failure?
  {
    if c.email == "" || c.password == "" then LoginRefused(Reject("Please provide email and password!", 400))
    else match UserWithEmail(users, c.email)
      case None => LoginRefused(Reject("User does not exist!", 400))
      case Some(k) =>
        if !matches(c.password, users[k].password) then LoginRefused(Reject("Invalid email or password!", 400))
        else if c.role != "" && c.role != RoleName(users[k].role) then
          LoginRefused(Reject("You don't have permission to access this portal!", 400))
        else LoggedIn(users[k])
  }

  /** A login succeeds exactly for the account holding the email whose
      password matches, and whose role is the portal's when one is named;
      the checks run in that order and every refusal is a 400. */
  lemma LoginRule(users: seq<User>, c: Credentials, matches: (string, string) -> bool)
    ensures Login(users, c, matches).LoginRefused? ==> Login(users, c, matches).reply.status == 400
    ensures Login(users, c, matches).LoggedIn? <==>
      && c.email != "" && c.password != ""
      && UserWithEmail(users, c.email).Some?
      && matches(c.password, users[UserWithEmail(users, c.email).value].password)
      && (c.role == "" || c.role == RoleName(users[UserWithEmail(users, c.email).value].role))
    ensures Login(users, c, matches).LoggedIn? ==>
      && Login(users, c, matches).user in users
      && Login(users, c, matches).user.email == c.email
      && (c.role != "" ==> RoleName(Login(users, c, matches).user.role) == c.role)
    ensures c.email != "" && c.password != "" && (forall u :: u in users ==> u.email != c.email) ==>
      Login(users, c, matches) == LoginRefused(Failure(400, "User does not exist!"))
  {
  }

  // ---------------------------------------------------------------------
  // addNewAdmin
  // ---------------------------------------------------------------------

  /** Lines 99-117: the guards of `addNewAdmin`; a body's role is never
      read. */
  function ScreenAdmin(r: Registration, users: seq<User>): (refusal: Option<Reply>)
    ensures refusal.None? ==> UserWithEmail(users, r.email).None?
  {
    if !AllPresent(PersonalFields(r)) then Some(Reject(FillAllFields, 400))
    else if !IsAadhaar(r.nic) then Some(Reject(BadAadhaar, 400))
    else TakenEmail(users, r.email)
  }

  /** An email already in use is refused with the role of its holder. */
  lemma AdminDuplicateNamesRole(r: Registration, users: seq<User>, k: nat)
    requires AllPresent(PersonalFields(r)) && IsAadhaar(r.nic)
    requires k < |users| && users[k].email == r.email
    requires forall i, j :: 0 <= i < j < |users| ==> users[i].email != users[j].email
    ensures ScreenAdmin(r, users) == Some(Failure(400, RoleName(users[k].role) + " with this email already exists!"))
  {
    assert UserWithEmail(users, r.email).Some?;
  }

  /** `addNewAdmin`: the account is always an admin, whatever the body
      says. */
  method AddNewAdmin(db: Db, r: Registration) returns (reply: Reply)
    requires db.Valid()
    modifies db
    ensures db.Valid() && db.appointments == old(db.appointments)
    ensures db.payments == old(db.payments) && db.outbox == old(db.outbox)
    ensures ScreenAdmin(r, old(db.users)).Some? ==>
      reply == ScreenAdmin(r, old(db.users)).value && db.users == old(db.users)
    ensures ScreenAdmin(r, old(db.users)).None? ==>
      Enrolled(db, AccountDraft(r, "Admin", None, None), "Admin added successfully!", reply)
  {
    var refusal := ScreenAdmin(r, db.users);
    if refusal.Some? {
      return refusal.value;
    }
    reply := Enrol(db, AccountDraft(r, "Admin", None, None), "Admin added successfully!");
  }

  /** An account `addNewAdmin` creates is an admin. */
  lemma AddedAdminIsAdmin(r: Registration, id: Id, isEmail: string -> bool, isDate: string -> bool)
    requires UserSchemaHolds(AccountDraft(r, "Admin", None, None), isEmail, isDate)
    ensures UserFromDraft(AccountDraft(r, "Admin", None, None), id, isEmail, isDate).role == Admin
  {
    var u := UserFromDraft(AccountDraft(r, "Admin", None, None), id, isEmail, isDate);
    RoleRoundTrip(u.role, "Admin");
  }

  // ---------------------------------------------------------------------
  // getAllDoctors
  // ---------------------------------------------------------------------

  function Profiles(users: seq<User>): (r: seq<Profile>)
    ensures |r| == |users|
    ensures forall i :: 0 <= i < |users| ==> r[i] == ProfileOf(users[i])
  {
    if users == [] then [] else [ProfileOf(users[0])] + Profiles(users[1..])
  }

  /** `User.find({ role: "Doctor" })`, without passwords. */
  function AllDoctors(users: seq<User>): (r: seq<Profile>)
    ensures forall p :: p in r <==> exists u :: u in users && u.role == Doctor && p == ProfileOf(u)
    ensures |r| <= |users|
  {
    var doctors := Filter(users, (u: User) => u.role == Doctor);
    var r := Profiles(doctors);
    assert forall p :: p in r <==> exists u :: u in doctors && p == ProfileOf(u) by {
      forall p ensures p in r <==> exists u :: u in doctors && p == ProfileOf(u) {
        if p in r {
          var i :| 0 <= i < |r| && r[i] == p;
          assert doctors[i] in doctors;
        }
        if exists u :: u in doctors && p == ProfileOf(u) {
          var u :| u in doctors && p == ProfileOf(u);
          var i :| 0 <= i < |doctors| && doctors[i] == u;
          assert r[i] == p;
        }
      }
    }
    r
  }

  // ---------------------------------------------------------------------
  // addNewDoctor
  // ---------------------------------------------------------------------

  /** `req.files`: none, some files but no `docPhoto`, or the photo with
      its mimetype. */
  datatype Files = NoFiles | WithoutPhoto | WithPhoto(mimetype: string)

  /** What the image host's `upload` answers. */
  datatype Upload = Uploaded(photo: Photo) | UploadThrew(error: AppError)

  /** The formats a doctor's photo may have. */
  predicate AllowedFormat(mimetype: string) {
    mimetype == "image/jpg" || mimetype == "image/jpeg" || mimetype == "image/png" || mimetype == "image/webp"
  }

  /** The `TypeError` of `docPhoto.mimetype` when the files carry no
      `docPhoto`. */
  function MissingPhoto(): (e: AppError)
    ensures e.statusCode == 0 && e.errors.None? && e.message != "" && !IsRemapped(e)
  {
    AppError("TypeError", "Cannot read properties of undefined (reading 'mimetype')", 0, 0, [], "", None)
  }

  /** Lines 189-227: the guards of `addNewDoctor`, all before the upload. */
  function ScreenDoctor(files: Files, r: Registration, department: string, users: seq<User>)
    : (refusal: Option<Reply>)
    ensures refusal.None? ==> UserWithEmail(users, r.email).None?
  {
    match files
    case NoFiles => Some(Reject("Please upload the Doctor's photo!", 400))
    case WithoutPhoto => Some(Normalize(MissingPhoto()))
    case WithPhoto(mimetype) =>
      if !AllowedFormat(mimetype) then Some(Reject("Please upload jpg, jpeg, webp or png format!", 400))
      else if !AllPresent(PersonalFields(r) + [department]) then Some(Reject(FillAllFields, 400))
      else if Utf16Length(Trim(r.nic)) < 2 then Some(Reject("Qualifications must be at least 2 characters!", 400))
      else TakenEmail(users, r.email)
  }

  /** The photo is tested before the fields, the fields before the
      qualifications, the qualifications (trimmed) before the email; no
      Aadhaar rule applies to a doctor. */
  lemma DoctorRejectionOrder(files: Files, r: Registration, department: string, users: seq<User>)
    ensures files.NoFiles? ==>
      ScreenDoctor(files, r, department, users) == Some(Failure(400, "Please upload the Doctor's photo!"))
    ensures files.WithPhoto? && !AllowedFormat(files.mimetype) ==>
      ScreenDoctor(files, r, department, users) == Some(Failure(400, "Please upload jpg, jpeg, webp or png format!"))
    ensures files.WithPhoto? && AllowedFormat(files.mimetype) && !AllPresent(PersonalFields(r) + [department]) ==>
      ScreenDoctor(files, r, department, users) == Some(Failure(400, FillAllFields))
    ensures (files.WithPhoto? && AllowedFormat(files.mimetype) && AllPresent(PersonalFields(r) + [department])
             && Utf16Length(Trim(r.nic)) < 2) ==>
      ScreenDoctor(files, r, department, users) == Some(Failure(400, "Qualifications must be at least 2 characters!"))
    ensures ScreenDoctor(files, r, department, users).None? <==>
      && files.WithPhoto? && AllowedFormat(files.mimetype) && AllPresent(PersonalFields(r) + [department])
      && Utf16Length(Trim(r.nic)) >= 2 && forall u :: u in users ==> u.email != r.email
  {
  }

  /** Lines 228-252: the upload and the create, once the guards passed. A
      failed upload is the host's error and stores nothing. */
  method FileDoctor(db: Db, r: Registration, department: string, upload: Upload) returns (reply: Reply)
    requires db.Valid() && UserWithEmail(db.users, r.email).None?
    modifies db
    ensures db.Valid() && db.appointments == old(db.appointments)
    ensures db.payments == old(db.payments) && db.outbox == old(db.outbox)
    ensures upload.UploadThrew? ==> reply == Normalize(upload.error) && db.users == old(db.users)
    ensures upload.Uploaded? ==>
      Enrolled(db, AccountDraft(r, "Doctor", Some(department), Some(upload.photo)),
               "New Doctor added successfully!", reply)
  {
    match upload
    case UploadThrew(error) =>
      reply := Normalize(error);
    case Uploaded(photo) =>
      reply := Enrol(db, AccountDraft(r, "Doctor", Some(department), Some(photo)), "New Doctor added successfully!");
  }

  /** `addNewDoctor`. `uploaded` says whether the photo was sent to the
      image host; a refusal by the guards never sends it. */
  method AddNewDoctor(db: Db, files: Files, r: Registration, department: string, upload: Upload)
    returns (reply: Reply, uploaded: bool)
    requires db.Valid()
    modifies db
    ensures db.Valid() && db.appointments == old(db.appointments)
    ensures db.payments == old(db.payments) && db.outbox == old(db.outbox)
    ensures uploaded <==> ScreenDoctor(files, r, department, old(db.users)).None?
    ensures ScreenDoctor(files, r, department, old(db.users)).Some? ==>
      reply == ScreenDoctor(files, r, department, old(db.users)).value && db.users == old(db.users)
    ensures ScreenDoctor(files, r, department, old(db.users)).None? && upload.UploadThrew? ==>
      reply == Normalize(upload.error) && db.users == old(db.users)
    ensures ScreenDoctor(files, r, department, old(db.users)).None? && upload.Uploaded? ==>
      Enrolled(db, AccountDraft(r, "Doctor", Some(department), Some(upload.photo)),
               "New Doctor added successfully!", reply)
  {
    var refusal := ScreenDoctor(files, r, department, db.users);
    if refusal.Some? {
      return refusal.value, false;
    }
    uploaded := true;
    reply := FileDoctor(db, r, department, upload);
  }

  /** A doctor that passed the guards also passes the schema's `nic` rule:
      two UTF-16 code units after trimming means at least two before. */
  lemma DoctorNicAccepted(r: Registration)
    requires Utf16Length(Trim(r.nic)) >= 2
    ensures NicAccepted("Doctor", r.nic)
  {
    TrimUtf16Shorter(r.nic);
  }

  // ---------------------------------------------------------------------
  // deleteDoctor
  // ---------------------------------------------------------------------

  /** `User.findOne({ _id: id, role: "Doctor" })`, as a position. */
  function DoctorAt(users: seq<User>, id: Id): (r: Option<nat>)
    ensures r.Some? ==> r.value < |users| && users[r.value].id == id && users[r.value].role == Doctor
    ensures r.None? <==> forall j :: 0 <= j < |users| ==> !(users[j].id == id && users[j].role == Doctor)
  {
    FindFirst(users, (u: User) => u.id == id && u.role == Doctor)
  }

  /** `deleteDoctor`: an id that is not an ObjectId is the cast error's 400;
      otherwise only a doctor with the id is removed, and every other
      user stays in order. `destroyed` is the photo whose removal was asked
      of the image host; whatever the host answers, the doctor is removed. */
  method DeleteDoctor(db: Db, id: RouteId) returns (reply: Reply, destroyed: Option<string>)
    requires db.Valid()
    modifies db
    ensures db.Valid() && db.appointments == old(db.appointments)
    ensures db.payments == old(db.payments) && db.outbox == old(db.outbox)
    ensures id.ObjectId? && DoctorAt(old(db.users), id.id).None? ==>
      reply == Failure(404, "Doctor not found") && destroyed.None? && db.users == old(db.users)
    ensures id.ObjectId? && DoctorAt(old(db.users), id.id).Some? ==>
      && var k := DoctorAt(old(db.users), id.id).value;
         && reply == Success(200, "Doctor deleted successfully")
         && db.users == old(db.users)[..k] + old(db.users)[k + 1..]
         && (destroyed.Some? <==> old(db.users)[k].docPhoto.Some? && old(db.users)[k].docPhoto.value.publicId != "")
         && (destroyed.Some? ==> destroyed.value == old(db.users)[k].docPhoto.value.publicId)
    ensures id.NotObjectId? ==>
      reply == Failure(400, "Resource not found, Invalid: _id") && destroyed.None? && db.users == old(db.users)
  {
    if id.NotObjectId? {
      IdCastErrorIs400(id.text, "User");
      return Normalize(IdCastError(id.text, "User")), None;
    }
    var found := DoctorAt(db.users, id.id);
    if found.None? {
      return Reject("Doctor not found", 404), None;
    }
    var k := found.value;
    var photo := db.users[k].docPhoto;
    destroyed := if photo.Some? && photo.value.publicId != "" then Some(photo.value.publicId) else None;
    db.RemoveUser(k);
    reply := Success(200, "Doctor deleted successfully");
  }

  /** A deletion leaves every user but the doctor with the id. */
  lemma DoctorRemovalKeepsOthers(users: seq<User>, k: nat)
    requires k < |users| && forall i, j :: 0 <= i < j < |users| ==> users[i].id != users[j].id
    ensures forall u :: u in users[..k] + users[k + 1..] <==> u in users && u.id != users[k].id
  {
    var r := users[..k] + users[k + 1..];
    forall u | u in users && u.id != users[k].id ensures u in r {
      var i :| 0 <= i < |users| && users[i] == u;
      if i < k { assert r[i] == u; } else { assert r[i - 1] == u; }
    }
    forall u | u in r ensures u in users && u.id != users[k].id {
      var i :| 0 <= i < |r| && r[i] == u;
      if i < k { assert u == users[i]; } else { assert u == users[i + 1]; }
    }
  }
}
