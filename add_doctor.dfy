/** The doctor-creation page (Frontend/src/pages/AddDoctor.jsx): the form,
    the photo, the per-field error map `validateForm` builds, and the photo
    check `handleAddDoctor` makes only after the form validates.
    `formData`, `docPhoto`, `previewImage` and `errors` are the fields of
    `DoctorPage`. */
module AddDoctor {
  import opened Common
  import opened UserSchema
  import opened UserController
  import opened ErrorMiddleware
  import AddAdmin

  datatype DoctorField = FirstName | LastName | Email | Phone | Password | Gender | Dob | Nic | Department

  /** The keys of the error map: a field, or the photo. */
  datatype ErrorKey = OfField(field: DoctorField) | PhotoKey

  datatype DoctorForm = DoctorForm(
    firstName: string,
    lastName: string,
    email: string,
    phone: string,
    password: string,
    gender: string,
    dob: string,
    nic: string,
    doctorDepartment: string)

  const EmptyDoctorForm: DoctorForm := DoctorForm("", "", "", "", "", "", "", "", "")
  const DefaultPreview: string := "/doc.png"
  const PhotoRequired: string := "Doctor's photo is required"

  function Get(f: DoctorForm, field: DoctorField): string {
    match field
    case FirstName => f.firstName
    case LastName => f.lastName
    case Email => f.email
    case Phone => f.phone
    case Password => f.password
    case Gender => f.gender
    case Dob => f.dob
    case Nic => f.nic
    case Department => f.doctorDepartment
  }

  /** `{...formData, [name]: value}`. */
  function Put(f: DoctorForm, field: DoctorField, value: string): (g: DoctorForm)
    ensures Get(g, field) == value
    ensures forall other :: other != field ==> Get(g, other) == Get(f, other)
  {
    match field
    case FirstName => f.(firstName := value)
    case LastName => f.(lastName := value)
    case Email => f.(email := value)
    case Phone => f.(phone := value)
    case Password => f.(password := value)
    case Gender => f.(gender := value)
    case Dob => f.(dob := value)
    case Nic => f.(nic := value)
    case Department => f.(doctorDepartment := value)
  }

  /** The message `validateForm` puts under a field, if any. The
      qualifications (`nic`) need only be non-blank; the email and password
      rules are the admin form's. */
  function DoctorFieldError(f: DoctorForm, field: DoctorField): Option<string> {
    match field
    case FirstName => if AddAdmin.Blank(f.firstName) then Some("First name is required") else None
    case LastName => if AddAdmin.Blank(f.lastName) then Some("Last name is required") else None
    case Email =>
      if AddAdmin.Blank(f.email) then Some("Email is required")
      else if !AddAdmin.LooksLikeEmail(f.email) then Some("Email is invalid") else None
    case Phone => if AddAdmin.Blank(f.phone) then Some("Phone number is required") else None
    case Password =>
      if AddAdmin.Blank(f.password) then Some("Password is required")
      else if Utf16Length(f.password) < 6 then Some("Password must be at least 6 characters") else None
    case Gender => if f.gender == "" then Some("Gender is required") else None
    case Dob => if f.dob == "" then Some("Date of birth is required") else None
    case Nic => if AddAdmin.Blank(f.nic) then Some("Qualifications are required") else None
    case Department => if f.doctorDepartment == "" then Some("Department is required") else None
  }

  const DoctorFields: set<DoctorField> := {FirstName, LastName, Email, Phone, Password, Gender, Dob, Nic, Department}

  /** `validateForm`'s error map: one entry per failing field. */
  function DoctorErrors(f: DoctorForm): (errors: map<ErrorKey, string>)
    ensures PhotoKey !in errors
    ensures forall field :: OfField(field) in errors <==> DoctorFieldError(f, field).Some?
    ensures forall field :: OfField(field) in errors ==> errors[OfField(field)] == DoctorFieldError(f, field).value
  {
    map key | key in (set field | field in DoctorFields :: OfField(field)) && DoctorFieldError(f, key.field).Some?
      :: DoctorFieldError(f, key.field).value
  }

  /** A doctor form is free of errors when every field passes. */
  predicate DoctorFormValid(f: DoctorForm) {
    !AddAdmin.Blank(f.firstName) && !AddAdmin.Blank(f.lastName) && !AddAdmin.Blank(f.email)
    && AddAdmin.LooksLikeEmail(f.email) && !AddAdmin.Blank(f.phone) && !AddAdmin.Blank(f.password)
    && Utf16Length(f.password) >= 6 && f.gender != "" && f.dob != "" && !AddAdmin.Blank(f.nic) && f.doctorDepartment != ""
  }

  lemma NoDoctorErrorsIff(f: DoctorForm)
    ensures DoctorErrors(f) == map[] <==> DoctorFormValid(f)
  {
    if DoctorFormValid(f) {
      forall field
        ensures DoctorFieldError(f, field).None?
      {
      }
      assert DoctorErrors(f).Keys == {};
    }
    if DoctorErrors(f) == map[] {
      assert OfField(FirstName) !in DoctorErrors(f) && OfField(LastName) !in DoctorErrors(f);
      assert OfField(Email) !in DoctorErrors(f) && OfField(Phone) !in DoctorErrors(f);
      assert OfField(Password) !in DoctorErrors(f) && OfField(Gender) !in DoctorErrors(f);
      assert OfField(Dob) !in DoctorErrors(f) && OfField(Nic) !in DoctorErrors(f);
      assert OfField(Department) !in DoctorErrors(f);
    }
  }

  /** The registration the backend's `addNewDoctor` receives. */
  function DoctorRegistration(f: DoctorForm): Registration {
    Registration(f.firstName, f.lastName, f.email, f.phone, f.password, f.gender, f.dob, f.nic, "")
  }

  /** A form with no errors passes the backend's field guard, but not
      necessarily the others: the backend also wants an allowed photo
      format and qualifications of at least two UTF-16 code units after
      trimming, which the page does not check. */
  lemma ValidDoctorFormAtBackend(f: DoctorForm, mimetype: string, users: seq<User>)
    requires DoctorErrors(f) == map[]
    ensures ScreenDoctor(WithPhoto(mimetype), DoctorRegistration(f), f.doctorDepartment, users) ==
      if !AllowedFormat(mimetype) then Some(Failure(400, "Please upload jpg, jpeg, webp or png format!"))
      else if Utf16Length(Trim(f.nic)) < 2 then Some(Failure(400, "Qualifications must be at least 2 characters!"))
      else TakenEmail(users, f.email)
  {
    NoDoctorErrorsIff(f);
    ValidFormFieldsPresent(f);
  }

  /** Non-blank fields are present fields. */
  lemma ValidFormFieldsPresent(f: DoctorForm)
    requires DoctorFormValid(f)
    ensures AllPresent(PersonalFields(DoctorRegistration(f)) + [f.doctorDepartment])
  {
    var fs := PersonalFields(DoctorRegistration(f)) + [f.doctorDepartment];
    assert fs[0] != "" && fs[1] != "" && fs[2] != "" && fs[3] != "" && fs[4] != "";
    assert fs[5] != "" && fs[6] != "" && fs[7] != "" && fs[8] != "";
  }

  /** The one-character qualification "X" passes the page but is refused
      by the backend. */
  lemma ShortQualificationPassesPage(f: DoctorForm, users: seq<User>)
    requires DoctorFormValid(f) && f.nic == "X"
    ensures DoctorErrors(f) == map[]
    ensures ScreenDoctor(WithPhoto("image/png"), DoctorRegistration(f), f.doctorDepartment, users) ==
      Some(Failure(400, "Qualifications must be at least 2 characters!"))
  {
    NoDoctorErrorsIff(f);
    ValidDoctorFormAtBackend(f, "image/png", users);
  }

  /** The page's state; `docPhoto` is the chosen file, by its type. */
  class DoctorPage {
    var form: DoctorForm
    var docPhoto: Option<string>
    var previewImage: string
    var errors: map<ErrorKey, string>

    constructor ()
      ensures form == EmptyDoctorForm && docPhoto.None? && previewImage == DefaultPreview && errors == map[]
    {
      form := EmptyDoctorForm;
      docPhoto := None;
      previewImage := DefaultPreview;
      errors := map[];
    }

    /** `handleInputChange`: the field takes the value; its error, when it
        shows one, is blanked, and no other error changes. */
    method HandleInputChange(field: DoctorField, value: string)
      modifies this`form, this`errors
      ensures form == Put(old(form), field, value)
      ensures OfField(field) in old(errors) && old(errors)[OfField(field)] != "" ==>
        errors == old(errors)[OfField(field) := ""]
      ensures !(OfField(field) in old(errors) && old(errors)[OfField(field)] != "") ==> errors == old(errors)
    {
      form := Put(form, field, value);
      if OfField(field) in errors && errors[OfField(field)] != "" {
        errors := errors[OfField(field) := ""];
      }
    }

    /** `handleImage`: a chosen file becomes the photo and blanks the
        photo's error; choosing nothing changes nothing. */
    method HandleImage(file: Option<string>)
      modifies this`docPhoto, this`errors
      ensures file.None? ==> docPhoto == old(docPhoto) && errors == old(errors)
      ensures file.Some? ==> docPhoto == file
      ensures file.Some? && PhotoKey in old(errors) && old(errors)[PhotoKey] != "" ==>
        errors == old(errors)[PhotoKey := ""]
      ensures file.Some? && !(PhotoKey in old(errors) && old(errors)[PhotoKey] != "") ==> errors == old(errors)
    {
      if file.Some? {
        docPhoto := file;
        if PhotoKey in errors && errors[PhotoKey] != "" {
          errors := errors[PhotoKey := ""];
        }
      }
    }

    /** `validateForm`: replaces the errors and answers whether there are
        none. */
    method ValidateForm() returns (ok: bool)
      modifies this`errors
      ensures errors == DoctorErrors(form)
      ensures ok <==> errors == map[]
    {
      errors := DoctorErrors(form);
      ok := |errors| == 0;
      if !ok {
        assert errors != map[];
      }
    }

    /** `handleAddDoctor`: an invalid form is not sent; a valid one without
        a photo is not sent either, and the photo's error is added to the
        errors of the previous render, which replaces what `validateForm`
        just stored. Once sent and `accepted`, the page is emptied. */
    method HandleAddDoctor(accepted: bool) returns (sent: bool)
      modifies this
      ensures sent <==> DoctorErrors(old(form)) == map[] && old(docPhoto).Some?
      ensures DoctorErrors(old(form)) != map[] ==> errors == DoctorErrors(old(form))
      ensures DoctorErrors(old(form)) == map[] && old(docPhoto).None? ==>
        errors == old(errors)[PhotoKey := PhotoRequired]
      ensures sent ==> errors == map[]
      ensures sent && accepted ==> form == EmptyDoctorForm && docPhoto.None? && previewImage == DefaultPreview
      ensures !(sent && accepted) ==>
        form == old(form) && docPhoto == old(docPhoto) && previewImage == old(previewImage)
    {
      var previous := errors;
      var ok := ValidateForm();
      if !ok {
        return false;
      }
      if docPhoto.None? {
        errors := previous[PhotoKey := PhotoRequired];
        return false;
      }
      sent := true;
      if accepted {
        form := EmptyDoctorForm;
        docPhoto := None;
        previewImage := DefaultPreview;
      }
    }
  }
}
