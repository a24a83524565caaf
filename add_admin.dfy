/** The admin-creation page (Frontend/src/pages/AddAdmin.jsx): the form's
    fields, the digit filter on the Aadhaar input, the per-field error map
    `validateForm` builds, and the guard that sends the form only when that
    map is empty. `formData` and `errors` are the fields of `AdminPage`. */
module AddAdmin {
  import opened Common
  import opened UserSchema
  import opened UserController

  datatype AdminField = FirstName | LastName | Email | Phone | Password | Gender | Dob | Nic

  datatype AdminForm = AdminForm(
    firstName: string,
    lastName: string,
    email: string,
    phone: string,
    password: string,
    gender: string,
    dob: string,
    nic: string)

  const EmptyAdminForm: AdminForm := AdminForm("", "", "", "", "", "", "", "")

  function Get(f: AdminForm, field: AdminField): string {
    match field
    case FirstName => f.firstName
    case LastName => f.lastName
    case Email => f.email
    case Phone => f.phone
    case Password => f.password
    case Gender => f.gender
    case Dob => f.dob
    case Nic => f.nic
  }

  /** `{...formData, [name]: value}`. */
  function Put(f: AdminForm, field: AdminField, value: string): (g: AdminForm)
    ensures Get(g, field) == value
    ensures forall other :: other != field ==> Get(g, other) == Get(f, other)
  {
    match field
    case FirstName => f.(firstName := value)
    case LastName => f.(lastName := value)
    case Email => f.(email := value)
    case Phone => f.(phone := value)
    case Password => f.(password := value)
    case Gender => f.(gender := value)
    case Dob => f.(dob := value)
    case Nic => f.(nic := value)
  }

  /** `value.replace(/\D/g, '')`: the digits of `value`, in order. */
  function DigitsOnly(value: string): (r: string)
    ensures AllDigits(r) && |r| <= |value|
    ensures forall c :: c in r <==> c in value && IsDigit(c)
  {
    Filter(value, IsDigit)
  }

  /** The digit filter changes nothing in a string of digits, so applying
      it twice is applying it once. */
  lemma DigitsOnlyIdempotent(value: string)
    ensures AllDigits(value) ==> DigitsOnly(value) == value
    ensures DigitsOnly(DigitsOnly(value)) == DigitsOnly(value)
  {
    var r := DigitsOnly(value);
    FilterAll(r, IsDigit);
    if AllDigits(value) {
      FilterAll(value, IsDigit);
    }
  }

  /** The Aadhaar test the server applies, read through the page's input
      filter: a value passes exactly when it has twelve characters and the
      digit filter keeps every one of them. */
  lemma AadhaarIsTwelveKeptDigits(value: string)
    ensures IsAadhaar(value) <==> |value| == 12 && DigitsOnly(value) == value
  {
    DigitsOnlyIdempotent(value);
  }

  predicate IsNonSpace(c: char) {
    !IsSpace(c)
  }

  /** `/\S+@\S+\.\S+/.test(email)`: somewhere in the string, a
      non-blank character, '@', a run of non-blank characters, '.', and a
      non-blank character. */
  predicate LooksLikeEmail(s: string) {
    exists at, dot :: 1 <= at && at + 1 < dot && dot + 1 < |s| && EmailShapeAt(s, at, dot)
  }

  predicate EmailShapeAt(s: string, at: int, dot: int)
    requires 1 <= at && at + 1 < dot && dot + 1 < |s|
  {
    && s[at] == '@' && s[dot] == '.' && IsNonSpace(s[at - 1]) && IsNonSpace(s[dot + 1])
    && forall k :: at < k < dot ==> IsNonSpace(s[k])
  }

  /** A match needs at least five characters among them an '@' and a
      later '.', so a string without '@' never passes. The pattern is not
      anchored: text added on either side of a passing string keeps it
      passing, whatever that text is. */
  lemma EmailShapeUnanchored(s: string, before: string, after: string)
    ensures LooksLikeEmail(s) ==> |s| >= 5 && '@' in s && '.' in s
    ensures '@' !in s ==> !LooksLikeEmail(s)
    ensures LooksLikeEmail(s) ==> LooksLikeEmail(before + s + after)
  {
    if LooksLikeEmail(s) {
      var at, dot :| 1 <= at && at + 1 < dot && dot + 1 < |s| && EmailShapeAt(s, at, dot);
      var t := before + s + after;
      var n := |before|;
      assert forall k :: 0 <= k < |s| ==> t[n + k] == s[k];
      assert EmailShapeAt(t, n + at, n + dot);
    }
  }

  /** `!value.trim()`: the value is all whitespace (see `BlankIsTrimEmpty`). */
  predicate Blank(s: string) {
    AllSpace(s)
  }

  /** A value is blank exactly when it trims to "". */
  lemma BlankIsTrimEmpty(s: string)
    ensures Blank(s) <==> Trim(s) == ""
  {
    TrimEmptyIff(s);
  }

  const AdminFields: set<AdminField> := {FirstName, LastName, Email, Phone, Password, Gender, Dob, Nic}

  /** The message `validateForm` puts under `field`, if any: the required
      check first, then the email shape, the password length or the
      Aadhaar number. */
  function AdminFieldError(f: AdminForm, field: AdminField): Option<string> {
    match field
    case FirstName => if Blank(f.firstName) then Some("First name is required") else None
    case LastName => if Blank(f.lastName) then Some("Last name is required") else None
    case Email =>
      if Blank(f.email) then Some("Email is required")
      else if !LooksLikeEmail(f.email) then Some("Email is invalid") else None
    case Phone => if Blank(f.phone) then Some("Phone number is required") else None
    case Password =>
      if Blank(f.password) then Some("Password is required")
      else if Utf16Length(f.password) < 6 then Some("Password must be at least 6 characters") else None
    case Gender => if f.gender == "" then Some("Gender is required") else None
    case Dob => if f.dob == "" then Some("Date of birth is required") else None
    case Nic =>
      if Blank(f.nic) then Some("Aadhaar number is required")
      else if !IsAadhaar(f.nic) then Some("Aadhaar number must be exactly 12 digits") else None
  }

  /** `validateForm`'s error map: one entry per failing field, holding
      that field's message. */
  function AdminErrors(f: AdminForm): (errors: map<AdminField, string>)
    ensures forall field :: field in errors <==> AdminFieldError(f, field).Some?
    ensures forall field :: field in errors ==> errors[field] == AdminFieldError(f, field).value
  {
    map field | field in AdminFields && AdminFieldError(f, field).Some? :: AdminFieldError(f, field).value
  }

  /** Which fields fail, and with which message: the required check comes
      before the format check of the same field. */
  lemma AdminErrorsRule(f: AdminForm)
    ensures Email in AdminErrors(f) <==> Blank(f.email) || !LooksLikeEmail(f.email)
    ensures Password in AdminErrors(f) <==> Blank(f.password) || Utf16Length(f.password) < 6
    ensures Nic in AdminErrors(f) <==> Blank(f.nic) || !IsAadhaar(f.nic)
    ensures Email in AdminErrors(f) ==>
      AdminErrors(f)[Email] == (if Blank(f.email) then "Email is required" else "Email is invalid")
    ensures Password in AdminErrors(f) ==>
      AdminErrors(f)[Password] == (if Blank(f.password) then "Password is required"
                                   else "Password must be at least 6 characters")
    ensures Nic in AdminErrors(f) ==>
      AdminErrors(f)[Nic] == (if Blank(f.nic) then "Aadhaar number is required"
                              else "Aadhaar number must be exactly 12 digits")
  {
    assert AdminFieldError(f, Email).Some? <==> Blank(f.email) || !LooksLikeEmail(f.email);
    assert AdminFieldError(f, Password).Some? <==> Blank(f.password) || Utf16Length(f.password) < 6;
    assert AdminFieldError(f, Nic).Some? <==> Blank(f.nic) || !IsAadhaar(f.nic);
  }

  /** The form is free of errors exactly when every field passes. */
  predicate AdminFormValid(f: AdminForm) {
    !Blank(f.firstName) && !Blank(f.lastName) && !Blank(f.email) && LooksLikeEmail(f.email)
    && !Blank(f.phone) && !Blank(f.password) && Utf16Length(f.password) >= 6 && f.gender != "" && f.dob != ""
    && IsAadhaar(f.nic)
  }

  lemma NoAdminErrorsIff(f: AdminForm)
    ensures AdminErrors(f) == map[] <==> AdminFormValid(f)
  {
    if AdminFormValid(f) {
      ValidHasNoErrors(f);
    }
    if AdminErrors(f) == map[] {
      NoErrorsValid(f);
    }
  }

  lemma ValidHasNoErrors(f: AdminForm)
    requires AdminFormValid(f)
    ensures AdminErrors(f) == map[]
  {
    forall field
      ensures field !in AdminErrors(f)
    {
      FieldPasses(f, field);
    }
  }

  lemma FieldPasses(f: AdminForm, field: AdminField)
    requires AdminFormValid(f)
    ensures AdminFieldError(f, field).None?
  {
    match field
    case FirstName =>
    case LastName =>
    case Email =>
    case Phone =>
    case Password =>
    case Gender =>
    case Dob =>
    case Nic => AadhaarNotBlank(f.nic);
  }

  /** Twelve digits never trim to nothing. */
  lemma AadhaarNotBlank(s: string)
    requires IsAadhaar(s)
    ensures !Blank(s)
  {
    assert !IsSpace(s[0]);
  }

  lemma NoErrorsValid(f: AdminForm)
    requires AdminErrors(f) == map[]
    ensures AdminFormValid(f)
  {
    assert FirstName !in AdminErrors(f) && LastName !in AdminErrors(f);
    assert Email !in AdminErrors(f) && Phone !in AdminErrors(f);
    assert Password !in AdminErrors(f) && Gender !in AdminErrors(f);
    assert Dob !in AdminErrors(f) && Nic !in AdminErrors(f);
    NoFieldErrorsValid(f);
  }

  lemma NoFieldErrorsValid(f: AdminForm)
    requires AdminFieldError(f, FirstName).None? && AdminFieldError(f, LastName).None?
    requires AdminFieldError(f, Email).None? && AdminFieldError(f, Phone).None?
    requires AdminFieldError(f, Password).None? && AdminFieldError(f, Gender).None?
    requires AdminFieldError(f, Dob).None? && AdminFieldError(f, Nic).None?
    ensures AdminFormValid(f)
  {
  }

  /** The registration the backend's `addNewAdmin` receives. */
  function AdminRegistration(f: AdminForm): Registration {
    Registration(f.firstName, f.lastName, f.email, f.phone, f.password, f.gender, f.dob, f.nic, "")
  }

  /** A form with no errors passes the backend's missing-field and Aadhaar
      guards, so only an email already in use can refuse it. */
  lemma ValidAdminFormPassesBackend(f: AdminForm, users: seq<User>)
    requires AdminErrors(f) == map[]
    ensures ScreenAdmin(AdminRegistration(f), users) == TakenEmail(users, f.email)
  {
    NoAdminErrorsIff(f);
    BlankIfEmpty(f.firstName);
    BlankIfEmpty(f.lastName);
    BlankIfEmpty(f.email);
    BlankIfEmpty(f.phone);
    BlankIfEmpty(f.password);
    var fs := PersonalFields(AdminRegistration(f));
    assert fs[0] != "" && fs[1] != "" && fs[2] != "" && fs[3] != "" && fs[4] != "";
    assert fs[5] != "" && fs[6] != "" && fs[7] != "";
  }

  /** The page asks for six UTF-16 code units of password, the schema for
      eight: a form the page accepts with a six-unit password clears
      the guards and is then refused by `User.create`. */
  lemma ShortPasswordPassesPageOnly(f: AdminForm, users: seq<User>, isEmail: string -> bool, isDate: string -> bool)
    requires AdminErrors(f) == map[] && Utf16Length(f.password) == 6
    ensures ScreenAdmin(AdminRegistration(f), users) == TakenEmail(users, f.email)
    ensures UserErrors(AccountDraft(AdminRegistration(f), "Admin", None, None), isEmail, isDate) != []
  {
    ValidAdminFormPassesBackend(f, users);
    UserErrorsIff(AccountDraft(AdminRegistration(f), "Admin", None, None), isEmail, isDate);
  }

  lemma BlankIfEmpty(s: string)
    ensures s == "" ==> Blank(s)
  {
  }

  /** The page's state. */
  class AdminPage {
    var form: AdminForm
    var errors: map<AdminField, string>

    constructor ()
      ensures form == EmptyAdminForm && errors == map[]
    {
      form := EmptyAdminForm;
      errors := map[];
    }

    /** `handleInputChange`: the Aadhaar input keeps only digits; the
        field's error, when it shows one, is blanked and no other error
        changes. */
    method HandleInputChange(field: AdminField, value: string)
      modifies this
      ensures form == Put(old(form), field, if field == Nic then DigitsOnly(value) else value)
      ensures field in old(errors) && old(errors)[field] != "" ==> errors == old(errors)[field := ""]
      ensures !(field in old(errors) && old(errors)[field] != "") ==> errors == old(errors)
    {
      if field == Nic {
        form := Put(form, field, DigitsOnly(value));
      } else {
        form := Put(form, field, value);
      }
      if field in errors && errors[field] != "" {
        errors := errors[field := ""];
      }
    }

    /** `validateForm`: replaces the errors and answers whether there are
        none. */
    method ValidateForm() returns (ok: bool)
      modifies this`errors
      ensures errors == AdminErrors(form)
      ensures ok <==> errors == map[]
    {
      errors := AdminErrors(form);
      ok := |errors| == 0;
      if !ok {
        assert errors != map[];
      }
    }

    /** `handleAddAdmin`: the form is posted only when it validates;
        `accepted` is the backend's answer, after which the form is
        emptied. */
    method HandleAddAdmin(accepted: bool) returns (sent: Option<AdminForm>)
      modifies this
      ensures errors == AdminErrors(old(form))
      ensures sent.Some? <==> AdminErrors(old(form)) == map[]
      ensures sent.Some? ==> sent.value == old(form)
      ensures form == (if sent.Some? && accepted then EmptyAdminForm else old(form))
    {
      var ok := ValidateForm();
      if !ok {
        return None;
      }
      sent := Some(form);
      if accepted {
        form := EmptyAdminForm;
      }
    }
  }
}
