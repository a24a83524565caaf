/** The `User` collection of the backend (Backend/models/userSchema.js): the
    three roles, the gender enum, the stored record, and the Mongoose
    validation a new user must pass, including the role-dependent rule on
    `nic` (an Aadhaar number for patients and admins, free-text
    qualifications for doctors). */
module UserSchema {
  import opened Common
  import opened ErrorMiddleware

  datatype Role = Doctor | Admin | Patient
  datatype Gender = Male | Female | OtherGender

  function RoleName(r: Role): string {
    match r
    case Doctor => "Doctor"
    case Admin => "Admin"
    case Patient => "Patient"
  }

  /** The `enum: ["Doctor", "Admin", "Patient"]` test. */
  function ParseRole(s: string): (r: Option<Role>)
    ensures r.Some? ==> RoleName(r.value) == s
  {
    if s == "Doctor" then Some(Doctor)
    else if s == "Admin" then Some(Admin)
    else if s == "Patient" then Some(Patient)
    else None
  }

  /** Every role is accepted under its own name, and only the three names
      are accepted. */
  lemma RoleRoundTrip(r: Role, s: string)
    ensures ParseRole(RoleName(r)) == Some(r)
    ensures ParseRole(s).Some? <==> s in {"Doctor", "Admin", "Patient"}
  {
  }

  function GenderName(g: Gender): string {
    match g
    case Male => "Male"
    case Female => "Female"
    case OtherGender => "Other"
  }

  /** The `enum: ["Male", "Female", "Other"]` test shared by both schemas. */
  function ParseGender(s: string): (g: Option<Gender>)
    ensures g.Some? ==> GenderName(g.value) == s
  {
    if s == "Male" then Some(Male)
    else if s == "Female" then Some(Female)
    else if s == "Other" then Some(OtherGender)
    else None
  }

  lemma GenderRoundTrip(g: Gender, s: string)
    ensures ParseGender(GenderName(g)) == Some(g)
    ensures ParseGender(s).Some? <==> s in {"Male", "Female", "Other"}
  {
  }

  datatype Photo = Photo(publicId: string, url: string)

  /** A stored user. `doctorDepartment` and `docPhoto` are optional for
      every role. The password is kept as the stored value; hashing is not
      part of this model. */
  datatype User = User(
    id: Id,
    firstName: string,
    lastName: string,
    email: string,
    phone: string,
    nic: string,
    dob: string,
    gender: Gender,
    password: string,
    role: Role,
    doctorDepartment: Option<string>,
    docPhoto: Option<Photo>)

  /** A user as queries return it by default: `select: false` keeps the
      password out. */
  datatype Profile = Profile(
    id: Id,
    firstName: string,
    lastName: string,
    email: string,
    phone: string,
    nic: string,
    dob: string,
    gender: Gender,
    role: Role,
    doctorDepartment: Option<string>,
    docPhoto: Option<Photo>)

  function ProfileOf(u: User): (p: Profile)
    ensures p.id == u.id && p.email == u.email && p.role == u.role
  {
    Profile(u.id, u.firstName, u.lastName, u.email, u.phone, u.nic, u.dob, u.gender,
            u.role, u.doctorDepartment, u.docPhoto)
  }

  /** The document handed to `User.create`; enum fields are still the
      strings of the request, "" stands for a field left out. */
  datatype UserDraft = UserDraft(
    firstName: string,
    lastName: string,
    email: string,
    phone: string,
    nic: string,
    dob: string,
    gender: string,
    password: string,
    role: string,
    doctorDepartment: Option<string>,
    docPhoto: Option<Photo>)

  /** The custom `nic` validator: at least two UTF-16 code units for a doctor,
      exactly twelve digits for anyone else. */
  predicate NicAccepted(role: string, nic: string) {
    if role == "Doctor" then Utf16Length(nic) >= 2 else IsAadhaar(nic)
  }

  function NicMessage(role: string): string {
    if role == "Doctor" then "Qualifications must be at least 2 characters!"
    else "Aadhaar must contain exactly 12 digits!"
  }

  function EnumMessage(value: string, path: string): string {
    "`" + value + "` is not a valid enum value for path `" + path + "`."
  }

  /** The message of the `CastError` of a `Date` path given a string that
      does not parse as a date. */
  function DateCastMessage(value: string, path: string): string {
    "Cast to date failed for value \"" + value + "\" (type string) at path \"" + path + "\""
  }

  /** One validator of a path: no error when it passes. */
  function Check(path: string, passes: bool, message: string): (r: seq<FieldError>)
    ensures r == [] <==> passes
  {
    if passes then [] else [FieldError(path, message)]
  }

  /** Mongoose stops at the first failing validator of a path: the
      `required` check first, then the others in declaration order. */
  function Then(first: seq<FieldError>, rest: seq<FieldError>): (r: seq<FieldError>)
    ensures r == [] <==> first == [] && rest == []
  {
    if first == [] then rest else first
  }

  /** The `firstName` path: required, then at least three UTF-16 code units. */
  function FirstNameErrors(d: UserDraft): (r: seq<FieldError>)
    ensures r == [] <==> Utf16Length(d.firstName) >= 3
    ensures |r| <= 1
  {
    Then(Check("firstName", d.firstName != "", " First Name is required"),
         Check("firstName", Utf16Length(d.firstName) >= 3, "First Name Must Contain At Least 3 Characters!"))
  }

  /** The `lastName` path: required, then `minLength` 3. */
  function LastNameErrors(d: UserDraft): (r: seq<FieldError>)
    ensures r == [] <==> Utf16Length(d.lastName) >= 3
    ensures |r| <= 1
  {
    Then(Check("lastName", d.lastName != "", " Last Name is required"),
         Check("lastName", Utf16Length(d.lastName) >= 3, "Last Name Must Contain At Least 3 Characters!"))
  }

  /** The `email` path: required, then the library's email test. */
  function EmailErrors(d: UserDraft, isEmail: string -> bool): (r: seq<FieldError>)
    ensures r == [] <==> d.email != "" && isEmail(d.email)
    ensures |r| <= 1
  {
    Then(Check("email", d.email != "", " Email is required"),
         Check("email", isEmail(d.email), "Provide A Valid Email!"))
  }

  /** The `phone` path: required, then `minLength` and `maxLength` 10. */
  function PhoneErrors(d: UserDraft): (r: seq<FieldError>)
    ensures r == [] <==> Utf16Length(d.phone) == 10
    ensures |r| <= 1
  {
    Then(Check("phone", d.phone != "", " Phone Number is required"),
         Then(Check("phone", Utf16Length(d.phone) >= 10, "Phone Number Must Contain Exact 10 Digits!"),
              Check("phone", Utf16Length(d.phone) <= 10, "Phone Number Must Contain Exact 10 Digits!")))
  }

  /** The `nic` path: required, then the role-dependent validator. */
  function NicErrors(d: UserDraft): (r: seq<FieldError>)
    ensures r == [] <==> d.nic != "" && NicAccepted(d.role, d.nic)
    ensures |r| <= 1
  {
    Then(Check("nic", d.nic != "", " NIC/Qualifications are required"),
         Check("nic", NicAccepted(d.role, d.nic), NicMessage(d.role)))
  }

  /** The `gender` path: required, then one of the enum's values. */
  function GenderErrors(d: UserDraft): (r: seq<FieldError>)
    ensures r == [] <==> ParseGender(d.gender).Some?
    ensures |r| <= 1
  {
    Then(Check("gender", d.gender != "", "Gender is required"),
         Check("gender", ParseGender(d.gender).Some?, EnumMessage(d.gender, "gender")))
  }

  /** The `password` path: required, then `minLength` 8. */
  function PasswordErrors(d: UserDraft): (r: seq<FieldError>)
    ensures r == [] <==> Utf16Length(d.password) >= 8
    ensures |r| <= 1
  {
    Then(Check("password", d.password != "", "Password is required"),
         Check("password", Utf16Length(d.password) >= 8, "Password Must Contain At Least 8 Characters!"))
  }

  /** The `role` path: required, then one of the enum's values. */
  function RoleErrors(d: UserDraft): (r: seq<FieldError>)
    ensures r == [] <==> ParseRole(d.role).Some?
    ensures |r| <= 1
  {
    Then(Check("role", d.role != "", "Role is required"),
         Check("role", ParseRole(d.role).Some?, EnumMessage(d.role, "role")))
  }

  /** The `dob` path, of type `Date`: an empty string casts to null and
      fails `required`; any other string must cast to a date, or the path
      reports the `CastError`. */
  function DobErrors(d: UserDraft, isDate: string -> bool): (r: seq<FieldError>)
    ensures r == [] <==> d.dob != "" && isDate(d.dob)
    ensures |r| <= 1
  {
    Then(Check("dob", d.dob != "", "Date of Birth is required!!"),
         Check("dob", isDate(d.dob), DateCastMessage(d.dob, "dob")))
  }

  /** The errors of validating a new user, path by path in schema order.
      `isEmail` is the email test of the validator library and `isDate`
      whether a string casts to a `Date`. Each path reports at most one
      error, so a draft gets at most nine. */
  function UserErrors(d: UserDraft, isEmail: string -> bool, isDate: string -> bool): (r: seq<FieldError>)
    ensures |r| <= 9
  {
    FirstNameErrors(d) + LastNameErrors(d) + EmailErrors(d, isEmail) + PhoneErrors(d) + NicErrors(d)
    + DobErrors(d, isDate)
    + GenderErrors(d) + PasswordErrors(d) + RoleErrors(d)
  }

  /** The schema's rules, stated field by field. */
  predicate UserSchemaHolds(d: UserDraft, isEmail: string -> bool, isDate: string -> bool) {
    && Utf16Length(d.firstName) >= 3 && Utf16Length(d.lastName) >= 3
    && d.email != "" && isEmail(d.email)
    && Utf16Length(d.phone) == 10
    && (if d.role == "Doctor" then Utf16Length(d.nic) >= 2 else IsAadhaar(d.nic))
    && d.dob != "" && isDate(d.dob)
    && ParseGender(d.gender).Some?
    && Utf16Length(d.password) >= 8
    && ParseRole(d.role).Some?
  }

  /** Validation passes exactly when the schema's rules hold, and a failing
      validation names each failing path once. */
  lemma UserErrorsIff(d: UserDraft, isEmail: string -> bool, isDate: string -> bool)
    ensures UserErrors(d, isEmail, isDate) == [] <==> UserSchemaHolds(d, isEmail, isDate)
  {
  }

  /** The stored user built from a draft that passed validation. */
  function UserFromDraft(d: UserDraft, id: Id, isEmail: string -> bool, isDate: string -> bool): (u: User)
    requires UserSchemaHolds(d, isEmail, isDate)
    ensures u.id == id && u.email == d.email && RoleName(u.role) == d.role
    ensures GenderName(u.gender) == d.gender && u.nic == d.nic && u.password == d.password
    ensures UserValid(u, isEmail, isDate)
  {
    RoleRoundTrip(Doctor, d.role);
    GenderRoundTrip(Male, d.gender);
    UserValidIff(User(id, d.firstName, d.lastName, d.email, d.phone, d.nic, d.dob,
                      ParseGender(d.gender).value, d.password, ParseRole(d.role).value,
                      d.doctorDepartment, d.docPhoto), isEmail, isDate);
    User(id, d.firstName, d.lastName, d.email, d.phone, d.nic, d.dob,
         ParseGender(d.gender).value, d.password, ParseRole(d.role).value,
         d.doctorDepartment, d.docPhoto)
  }

  function UserDraftOf(u: User): UserDraft {
    UserDraft(u.firstName, u.lastName, u.email, u.phone, u.nic, u.dob, GenderName(u.gender),
              u.password, RoleName(u.role), u.doctorDepartment, u.docPhoto)
  }

  /** The schema's rules on a stored user, whose gender and role are
      enum members by construction. */
  predicate UserValid(u: User, isEmail: string -> bool, isDate: string -> bool) {
    && Utf16Length(u.firstName) >= 3 && Utf16Length(u.lastName) >= 3
    && u.email != "" && isEmail(u.email)
    && Utf16Length(u.phone) == 10
    && (if u.role == Doctor then Utf16Length(u.nic) >= 2 else IsAadhaar(u.nic))
    && u.dob != "" && isDate(u.dob)
    && Utf16Length(u.password) >= 8
  }

  /** A stored user is valid exactly when it would pass validation again. */
  lemma UserValidIff(u: User, isEmail: string -> bool, isDate: string -> bool)
    ensures UserValid(u, isEmail, isDate) <==> UserSchemaHolds(UserDraftOf(u), isEmail, isDate)
  {
    RoleRoundTrip(u.role, "");
    GenderRoundTrip(u.gender, "");
  }

  /** The role-dependent `nic` rule: a doctor's qualifications need only
      two UTF-16 code units, every other role needs a twelve-digit Aadhaar. */
  lemma NicRule(d: UserDraft, isEmail: string -> bool, isDate: string -> bool)
    requires d.nic != ""
    ensures UserErrors(d, isEmail, isDate) == [] ==>
      (d.role == "Doctor" && Utf16Length(d.nic) >= 2) || (d.role in {"Admin", "Patient"} && IsAadhaar(d.nic))
    ensures d.role == "Doctor" && Utf16Length(d.nic) < 2 ==>
      FieldError("nic", "Qualifications must be at least 2 characters!") in UserErrors(d, isEmail, isDate)
    ensures d.role != "Doctor" && !IsAadhaar(d.nic) ==>
      FieldError("nic", "Aadhaar must contain exactly 12 digits!") in UserErrors(d, isEmail, isDate)
  {
    UserErrorsIff(d, isEmail, isDate);
  }
}
