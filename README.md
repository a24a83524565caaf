# Satya Trauma & Maternity Center appointments, modelled in Dafny

This project models the core of the hospital's appointment application and
proves properties of that model. The application has two parts:

- **The Express backend** covers the appointment lifecycle: booking (single, batch and anonymous "direct"), the admin's and the doctor's status updates, deletion and the listings. It also covers identity rules: the user and appointment schemas, registration, login, and creation of admins and doctors. The cookie guards, the error middleware that turns errors into status codes, and the payment bookkeeping complete it.
- **The React frontend** contributes its form validators and list editors: the booking forms, the admin forms, the dashboard filters and CSV export, message paging, the doctors' lists, the language context, the payment countdown and the floating "Book Appointment" button.

The backend's collections live in one object, `Store.Db`. Each handler is a method that changes it and states the whole new state:

- users, appointments and payments are sequences in natural order with unique ids;
- the outbox records every mail attempt and whether it was delivered.

Each handler's guards are pure functions, and the lemmas beside them state the rules the code follows: the order of rejections, exactly which record changes, what is mailed. Each frontend component is a class whose fields are its React state; its handlers are methods that update those fields. Pure helpers are functions.

Outside services become parameters:

- the mailer is a function that says whether a mail was delivered;
- the JWT verifier, the password check, the e-mail format test and the test whether a string casts to a date are functions too;
- the payment gateway's answer, the uploaded file and the clock are inputs;
- the random draws of the appointment-number generator are a finite sequence of draws.

The backend answers a Mongoose validation error raised by `create` or `save` with 500, not the 400 that the application's error taxonomy assigns to schema violations: the error carries no status code, and the middleware defaults it to 500. The model follows the code.

## Model

| member | source | states |
|---|---|---|
| Common.TrimStart | Backend/controller/usercontroller.js:220 | the leading part of `trim`: a suffix of the input whose dropped prefix is all whitespace and which starts with a non-space |
| Common.TrimEnd | Backend/controller/usercontroller.js:220 | the trailing part of `trim`: a prefix of the input whose dropped suffix is all whitespace and which ends with a non-space |
| Common.Trim | Backend/controller/usercontroller.js:220 | `String.prototype.trim`: no longer than the input, empty or starting and ending with a non-space character |
| Common.TrimEmptyIff | Frontend/src/pages/AddAdmin.jsx:72-81 | `!s.trim()` holds exactly when the string is all whitespace |
| Common.TrimKeepsTrimmed | Frontend/src/contexts/LanguageContext.jsx:14 | trimming a string without whitespace at its ends returns it unchanged |
| Common.Units | Backend/models/userSchema.js:7-11 | a character takes two UTF-16 code units exactly when it lies above U+FFFF, one otherwise |
| Common.Utf16Length | Backend/models/userSchema.js:7-11 | JavaScript's `length`, which Mongoose's `minLength` and `maxLength` read: at least the number of characters and at most twice it |
| Common.Utf16LengthAppend | Backend/models/userSchema.js:7-11 | the UTF-16 length of a concatenation is the sum of the lengths |
| Common.Utf16LengthBmp | Backend/models/userSchema.js:7-11 | the UTF-16 length equals the number of characters exactly when none lies above U+FFFF |
| Common.Utf16LengthParts | Backend/controller/usercontroller.js:220 | a prefix or a suffix is never longer in UTF-16 code units than the string |
| Common.TrimUtf16Shorter | Backend/controller/usercontroller.js:220 | `trim` never lengthens a string in UTF-16 code units |
| Common.EmojiCountsTwice | Backend/models/userSchema.js:7-11 | two emoji are two characters but four code units, so they pass a three-unit minimum |
| Common.Join | Backend/middlewares/errorMiddleware.js:30 | `Array.prototype.join`: one part gives that part, no parts give "", and the result begins with the first part |
| Common.JoinCountsSeparators | Frontend/src/pages/AdminDashboard.jsx:136 | joining n parts that lack the separator character puts exactly n-1 of it in the result |
| Common.CountCharOnce | Frontend/src/pages/AdminDashboard.jsx:136 | a character found at exactly one position of a string is counted once |
| Common.JoinAvoids | Frontend/src/pages/AdminDashboard.jsx:136 | a character absent from the separator and from every part is absent from the joined text |
| Common.ToLower | Frontend/src/pages/AdminMessages.jsx:77-79 | `toLowerCase` on ASCII: same length, each letter A-Z lowered, every other character kept (non-ASCII letters are not mapped) |
| Common.ToUpper | Frontend/src/pages/AdminDashboard.jsx:362 | `toUpperCase` on ASCII: same length, each letter a-z raised, every other character kept (non-ASCII letters are not mapped) |
| Common.NatToString | Backend/models/appointmentSchema.js:119 | decimal digits of a number: at least one character, all digits |
| Common.NatToStringRoundTrip | Backend/models/appointmentSchema.js:119 | reading the decimal digits back gives the number |
| Common.NatToStringLength | Backend/models/appointmentSchema.js:118-119 | a number in [10^(k-1), 10^k) has exactly k digits |
| Common.Filter | Frontend/src/pages/AdminDoctors.jsx:52 | `Array.prototype.filter`: no longer than the input and holding exactly the input's elements that satisfy the predicate |
| Common.FilterAll | Frontend/src/pages/AdminDashboard.jsx:325-333 | a filter every element passes returns the whole list |
| Common.FilterAppend | Frontend/src/pages/AdminDashboard.jsx:325-333 | filtering distributes over concatenation |
| Common.Count | Frontend/src/pages/AdminDashboard.jsx:336-339 | `filter(p).length`, bounded by the list length |
| Common.CountIsFilterLength | Frontend/src/pages/AdminDashboard.jsx:336-339 | the count of a predicate is the length of the filtered list |
| Common.DisjointCountsBounded | Frontend/src/pages/AdminDashboard.jsx:336-339 | counts of three pairwise exclusive predicates add up to at most the list length |
| Common.FindFirst | Backend/controller/usercontroller.js:37 | `findOne` in natural order: the first index whose element satisfies the predicate, or none exactly when no element does |
| Common.FirstIndex | Frontend/src/pages/AdminDoctors.jsx:42 | the first position of an element present in the list |
| Common.Distinct | Frontend/src/pages/AdminDoctors.jsx:42 | `[...new Set(xs)]`: the same members as the input, each once, no more of them than the input has |
| Common.DistinctFirstOccurrenceOrder | Frontend/src/pages/AdminDoctors.jsx:42 | a `Set` keeps first-insertion order: earlier elements of the result first occur earlier in the input |
| Common.FirstIndexPrefix | Frontend/src/pages/AdminDoctors.jsx:42 | the first position of an element in a prefix that holds it is its first position in the whole list |
| Common.StringLeTotal | Backend/controller/appointmentController.js:573 | the string order used to sort by `appointment_date` is total |
| Common.StringLeTransitive | Backend/controller/appointmentController.js:573 | the string order is transitive |
| Common.StringLeAntisymmetric | Backend/controller/appointmentController.js:573 | the string order is antisymmetric |
| ErrorMiddleware.Handler | Backend/middlewares/errorMiddleware.js:1-8 | `new ErrorHandler(message, statusCode)`: a plain `Error` with exactly that message and status, no field errors and no duplicate-key code |
| ErrorMiddleware.FieldMessages | Backend/middlewares/errorMiddleware.js:30 | `Object.values(err.errors).map(e => e.message)`: one message per failing path, in order |
| ErrorMiddleware.FieldSummaries | Backend/middlewares/errorMiddleware.js:30 | each failing path with its message, in order |
| ErrorMiddleware.ValidationFailure | Backend/middlewares/errorMiddleware.js:30 | a Mongoose `ValidationError`: no status code, and its field errors carry the messages of the failing paths |
| ErrorMiddleware.WithDefaults | Backend/middlewares/errorMiddleware.js:10-11 | an empty message becomes "Internal Server Error" and a missing status 500; everything else is kept |
| ErrorMiddleware.Normalize | Backend/middlewares/errorMiddleware.js:9-36 | every error gets a failure reply with a non-zero status and a non-empty message |
| ErrorMiddleware.IdCastError | Backend/middlewares/errorMiddleware.js:25-28 | the error `findById` or `findOne` raises for an `:id` that is not an ObjectId: a `CastError` on path `_id`, not a duplicate key |
| ErrorMiddleware.IdCastErrorIs400 | Backend/middlewares/errorMiddleware.js:25-28 | the middleware answers that error with 400 "Resource not found, Invalid: _id" |
| ErrorMiddleware.NormalizeCases | Backend/middlewares/errorMiddleware.js:13-34 | duplicate keys, invalid and expired tokens and cast errors become 400s with their fixed messages; field errors are joined by spaces; any other error keeps its status and message, or gets 500 and the default |
| ErrorMiddleware.HandlerRoundTrip | Backend/middlewares/errorMiddleware.js:1-36 | an `ErrorHandler` reaches the client with exactly its own message and status |
| ErrorMiddleware.StatusIsRemappedOrOwn | Backend/middlewares/errorMiddleware.js:11-28 | every reply's status is 400 or the error's own status (500 when it has none) |
| ErrorMiddleware.ValidationFailureIs500 | Backend/middlewares/errorMiddleware.js:9-36 | a Mongoose validation failure is answered with status 500, not 400, and its message is the per-path messages joined by one space |
| ErrorMiddleware.JoinNonEmpty | Backend/middlewares/errorMiddleware.js:30 | joining messages whose first is non-empty gives a non-empty message |
| Validation.PathPassesSmall | Backend/models/userSchema.js:6-73 | a path with up to three validators passes exactly when each of them passes |
| Validation.AllPassAppend | Backend/models/appointmentSchema.js:4-107 | a schema split in two passes exactly when both halves pass |
| Validation.FirstFailureIff | Backend/models/userSchema.js:6-73 | a path reports no error exactly when all its validators pass, and otherwise the message of a failing validator |
| Validation.Validate | Backend/models/userSchema.js:6-73 | validation reports at most one error per path |
| Validation.ValidateIff | Backend/models/userSchema.js:6-73 | validation reports nothing exactly when every path passes, and at most one error per path |
| Validation.ValidateReportsFailingPaths | Backend/models/userSchema.js:6-73 | every reported error names a path of the schema that fails |
| UserSchema.ParseRole | Backend/models/userSchema.js:60-65 | the role enum: a parsed role's name is the input |
| UserSchema.RoleRoundTrip | Backend/models/userSchema.js:63 | each role parses back from its name, and exactly "Doctor", "Admin" and "Patient" parse |
| UserSchema.ParseGender | Backend/models/userSchema.js:49-53 | the gender enum: a parsed gender's name is the input |
| UserSchema.GenderRoundTrip | Backend/models/userSchema.js:52 | each gender parses back from its name, and exactly "Male", "Female" and "Other" parse |
| UserSchema.ProfileOf | Backend/models/userSchema.js:54-59 | a user as queries return it: same id, email and role, the password left out (`select: false`) |
| UserSchema.Check | Backend/models/userSchema.js:6-73 | one validator reports an error exactly when it fails |
| UserSchema.Then | Backend/models/userSchema.js:6-73 | validators run in sequence report nothing exactly when neither part reports anything |
| UserSchema.FirstNameErrors | Backend/models/userSchema.js:7-11 | `firstName` reports nothing exactly when it has at least three UTF-16 code units, and at most one error |
| UserSchema.LastNameErrors | Backend/models/userSchema.js:12-16 | `lastName` reports nothing exactly when it has at least three UTF-16 code units, and at most one error |
| UserSchema.EmailErrors | Backend/models/userSchema.js:17-21 | `email` reports nothing exactly when it is present and passes the email test, and at most one error |
| UserSchema.PhoneErrors | Backend/models/userSchema.js:22-27 | `phone` reports nothing exactly when it has exactly ten UTF-16 code units, and at most one error |
| UserSchema.NicErrors | Backend/models/userSchema.js:28-44 | `nic` reports nothing exactly when it is present and the role's rule accepts it (a doctor's length counted in UTF-16 code units), and at most one error |
| UserSchema.GenderErrors | Backend/models/userSchema.js:49-53 | `gender` reports nothing exactly when it is one of the enum's values, and at most one error |
| UserSchema.PasswordErrors | Backend/models/userSchema.js:54-59 | `password` reports nothing exactly when it has at least eight UTF-16 code units, and at most one error |
| UserSchema.RoleErrors | Backend/models/userSchema.js:60-65 | `role` reports nothing exactly when it is one of the enum's values, and at most one error |
| UserSchema.UserErrorsIff | Backend/models/userSchema.js:6-73 | `User` validation reports nothing exactly when every path's rule holds, the birth date included: given and castable to a date; lengths are in UTF-16 code units |
| UserSchema.UserErrors | Backend/models/userSchema.js:6-73 | each of the nine validated paths reports at most one error, so a document gets at most nine |
| UserSchema.DobErrors | Backend/models/userSchema.js:45-48 | the `Date` path `dob` passes exactly when it is given and casts to a date; an empty value fails `required`, any other unparsable one reports the cast error |
| UserSchema.UserFromDraft | Backend/models/userSchema.js:92 | a document that passes validation is stored with its id, email, role, gender, nic and password, and the stored user is valid |
| UserSchema.UserValidIff | Backend/models/userSchema.js:6-73 | a stored user is valid exactly when its document passes the schema |
| UserSchema.NicRule | Backend/models/userSchema.js:28-44 | a doctor's `nic` needs two UTF-16 code units and any other role's twelve digits, each failure with its own message |
| AppointmentSchema.ParseStatus | Backend/models/appointmentSchema.js:96-101 | the status enum: a parsed status's name is the input |
| AppointmentSchema.StatusRoundTrip | Backend/models/appointmentSchema.js:98 | each status parses back from its name, and exactly the five names parse |
| AppointmentSchema.ParsePaymentStatus | Backend/models/appointmentSchema.js:102-106 | the payment status enum: a parsed value's name is the input |
| AppointmentSchema.PaymentStatusRoundTrip | Backend/models/appointmentSchema.js:104 | each payment status parses back from its name, and exactly "PENDING", "PAID" and "FAILED" parse |
| AppointmentSchema.FormatAppointmentNumber | Backend/models/appointmentSchema.js:118-119 | `STH${n}` for a six-digit n matches `^STH\d{6}$` and its digits read back as n |
| AppointmentSchema.FormatAppointmentNumberInjective | Backend/models/appointmentSchema.js:118-119 | two draws give the same appointment number exactly when they are equal |
| AppointmentSchema.FindByNumber | Backend/models/appointmentSchema.js:122 | `findOne({ appointmentNumber })`: the index of an appointment holding the number, or none exactly when none holds it |
| AppointmentSchema.GenerateAppointmentNumber | Backend/models/appointmentSchema.js:112-129 | the number returned is formatted from the last draw used and held by no appointment, every earlier draw was taken, and no number means every draw was taken |
| AppointmentSchema.AppointmentChecks | Backend/models/appointmentSchema.js:4-107 | one path check per schema path, in schema order |
| AppointmentSchema.NumberNamePathsIff | Backend/models/appointmentSchema.js:5-28 | the number, name and email paths pass exactly when the number matches `STH` and six digits, both names have three UTF-16 code units and the email is given and valid |
| AppointmentSchema.ContactPathsIff | Backend/models/appointmentSchema.js:29-51 | the phone, Aadhaar, birth date and gender paths pass exactly when the phone has ten UTF-16 code units, the Aadhaar twelve digits, a birth date is given and casts to a date, and the gender is in the enum |
| AppointmentSchema.FirstPathsIff | Backend/models/appointmentSchema.js:5-51 | the first eight paths pass exactly when the number matches `STH` and six digits, the names have three UTF-16 code units, the email is valid, the phone has ten, the Aadhaar twelve digits, a birth date is given and casts to a date, and the gender is in the enum |
| AppointmentSchema.VisitPathsIff | Backend/models/appointmentSchema.js:52-75 | the date, department and doctor-name paths pass exactly when date and department are given and, unless the department is "Other", both of the doctor's names |
| AppointmentSchema.RecordPathsIff | Backend/models/appointmentSchema.js:81-101 | the doctor-id, patient, address and status paths pass exactly when the doctor's id is given unless the department is "Other", patient and address are given and the status is in the enum |
| AppointmentSchema.LastPathsIff | Backend/models/appointmentSchema.js:52-101 | the last eight paths pass exactly when date, department, patient, address are given, the doctor's names and id are given unless the department is "Other", and the status is in the enum |
| AppointmentSchema.AppointmentErrors | Backend/models/appointmentSchema.js:4-107 | `Appointment` validation reports at most one error per path, so at most sixteen |
| AppointmentSchema.AppointmentErrorsIff | Backend/models/appointmentSchema.js:4-107 | `Appointment` validation reports nothing exactly when every path's rule holds, the birth date included: given and castable to a date; lengths are in UTF-16 code units |
| AppointmentSchema.AppointmentFromDraft | Backend/models/appointmentSchema.js:109 | a document that passes validation is stored with its number, status, patient, doctor and id, payment status "PENDING", and the stored appointment is valid |
| AppointmentSchema.AppointmentValidIff | Backend/models/appointmentSchema.js:4-107 | a stored appointment is valid exactly when its document passes the schema |
| AppointmentSchema.PatchErrors | Backend/models/appointmentSchema.js:96-106 | an update with validators, followed in its status, payment status and visit flag, reports nothing exactly when the status and payment status it sets are in their enums |
| AppointmentSchema.ApplyPatch | Backend/models/appointmentSchema.js:76-106 | an update carrying only status, payment status and visit flag sets exactly those it names and keeps every other field |
| AppointmentSchema.ApplyPatchKeepsValid | Backend/models/appointmentSchema.js:4-107 | an update that passes its validators keeps a valid appointment valid |
| PaymentSchema.ParsePaymentState | Backend/models/paymentSchema.js:31-35 | the payment state enum: a parsed state's name is the input |
| PaymentSchema.PaymentStateRoundTrip | Backend/models/paymentSchema.js:33 | each state parses back from its name, and exactly "PENDING", "SUCCESS", "FAILED" and "CANCELLED" parse |
| PaymentSchema.StatusText | Backend/controller/paymentController.js:137 | `${payment.status}`: a set status prints its enum name, an unset one prints a text outside the enum |
| UserController.Enrol | Backend/controller/usercontroller.js:41-52 | a document that passes the `User` schema is stored as a new user and answered 200; one that fails stores nothing and gets the middleware's reply to the validation error |
| UserController.ScreenRegistration | Backend/controller/usercontroller.js:21-40 | a registration let through has an email no account holds |
| UserController.RegistrationRejectionOrder | Backend/controller/usercontroller.js:21-40 | a missing field (role included), then a bad Aadhaar whatever the role, then a taken email, each a 400; a registration passes exactly when none applies |
| UserController.PatientRegister | Backend/controller/usercontroller.js:9-53 | a refused registration changes nothing; an accepted one is enrolled with the role the request names |
| UserController.RegisteredRole | Backend/controller/usercontroller.js:41-51 | the stored account takes the role the request names, so a registration asking for "Admin" creates an administrator |
| UserController.Login | Backend/controller/usercontroller.js:55-86 | a login yields only a stored account holding the given email whose password matches; anything else is a refusal |
| UserController.LoginRule | Backend/controller/usercontroller.js:55-86 | a login succeeds exactly for the account holding the email whose password matches and whose role is the portal's when one is named; every refusal is a 400, an unknown email gets "User does not exist!" |
| UserController.ScreenAdmin | Backend/controller/usercontroller.js:99-117 | an administrator let through has an email no account holds |
| UserController.AdminDuplicateNamesRole | Backend/controller/usercontroller.js:114-117 | a taken email is refused with the holder's role in the message |
| UserController.AddNewAdmin | Backend/controller/usercontroller.js:88-135 | a refused request changes nothing; an accepted one is enrolled with the role "Admin" |
| UserController.AddedAdminIsAdmin | Backend/controller/usercontroller.js:118-128 | the stored account is an administrator whatever the body says |
| UserController.Profiles | Backend/controller/usercontroller.js:138-143 | each user as a query returns it, in order |
| UserController.AllDoctors | Backend/controller/usercontroller.js:137-144 | `User.find({ role: "Doctor" })`: exactly the doctors, without passwords |
| UserController.MissingPhoto | Backend/controller/usercontroller.js:192-194 | files without `docPhoto` make `docPhoto.mimetype` throw a `TypeError` that the middleware answers with 500 |
| UserController.ScreenDoctor | Backend/controller/usercontroller.js:189-227 | a doctor let through has an email no account holds |
| UserController.DoctorRejectionOrder | Backend/controller/usercontroller.js:189-227 | no files, a format outside jpg/jpeg/png/webp, a missing field, qualifications under two UTF-16 code units after trimming, each a 400 in that order; a request passes exactly when none applies and the email is free |
| UserController.FileDoctor | Backend/controller/usercontroller.js:228-252 | a failed upload stores nothing; an uploaded photo is enrolled as a doctor with its department and photo |
| UserController.AddNewDoctor | Backend/controller/usercontroller.js:188-253 | the photo is uploaded exactly when the guards pass; a refusal changes nothing; otherwise the doctor is filed |
| UserController.DoctorNicAccepted | Backend/models/userSchema.js:32-37 | qualifications the controller lets through also pass the schema's two-unit rule: trimming never lengthens a string in UTF-16 code units |
| UserController.DoctorAt | Backend/controller/usercontroller.js:257 | `findOne({ _id: id, role: "Doctor" })`: the index of the doctor with the id, or none exactly when there is none |
| UserController.DeleteDoctor | Backend/controller/usercontroller.js:255-277 | an id that is not an ObjectId gets the cast error's 400 "Resource not found, Invalid: _id" and an unknown doctor 404, neither changing the users; otherwise exactly that doctor is removed, and the photo is destroyed exactly when it has a public id |
| UserController.DoctorRemovalKeepsOthers | Backend/controller/usercontroller.js:271 | removing one user keeps exactly the users with other ids |
| Auth.FindUser | Backend/middlewares/auth.js:12 | `User.findById`: the user with the id, or none exactly when no user has it |
| Auth.Guard | Backend/middlewares/auth.js:6-43 | a missing cookie gets 400 "Not Authenticated <role>"; the request passes exactly when the role's own cookie verifies and names a user of that role |
| Auth.GuardReadsOwnCookie | Backend/middlewares/auth.js:6-43 | each single-role guard reads only its own role's cookie |
| Auth.GuardStatusCodes | Backend/middlewares/auth.js:11-15 | a token that fails verification gets 400, a verified token of a deleted user 500, a user of another role 403 with that role in the message |
| Auth.PatientOrAdmin | Backend/middlewares/auth.js:46-77 | no cookie at all gets 401; a pass is a patient or an administrator of the store; every refusal is a 401 or a 403 |
| Auth.PatientCookieFirst | Backend/middlewares/auth.js:56-61 | a patient cookie that loads a patient passes, whatever the admin cookie holds |
| Auth.BadPatientTokenIs401 | Backend/middlewares/auth.js:74-76 | a patient cookie that fails verification ends the request with 401 "Authentication failed", even with a good admin cookie |
| Auth.PatientOrAdminPasses | Backend/middlewares/auth.js:55-73 | the request passes exactly when the patient cookie loads a patient, or the patient cookie is absent or verifies (whoever it names) and the admin cookie loads an administrator |
| Store.AppointmentsAppend | Backend/models/appointmentSchema.js:5-13 | appending a valid appointment whose number no stored one holds keeps the collection valid with unique ids and numbers |
| Store.UsersAppend | Backend/controller/usercontroller.js:37-51 | appending a valid user whose email no stored one holds keeps the collection valid with unique ids and emails |
| Store.UserAt | Backend/middlewares/auth.js:12 | `User.findById`: the index of the user with the id, or none exactly when no user has it |
| Store.UserWithEmail | Backend/controller/usercontroller.js:37 | `User.findOne({ email })`: the index of the user with the email, or none exactly when no user has it |
| Store.AppointmentAt | Backend/controller/paymentController.js:20 | `Appointment.findById`: the index of the appointment with the id, or none exactly when none has it |
| Store.PaymentWithRef | Backend/controller/paymentController.js:106 | `Payment.findOne({ paymentRefId })`: the index of the payment with the reference, or none exactly when none has it |
| Store.PaymentOf | Backend/controller/paymentController.js:26 | `Payment.findOne({ appointmentId })`: the first payment of the appointment in natural order, or none exactly when it has none |
| Store.Db.constructor | Backend/database/dbconnections.js:1-33 | an empty database |
| Store.Db.NewId | Backend/models/appointmentSchema.js:109 | a fresh `_id`; nothing stored changes |
| Store.Db.CreateAppointment | Backend/models/appointmentSchema.js:109 | `Appointment.create` of a valid document with a free number appends exactly the stored appointment, under a fresh id |
| Store.Db.SetAppointment | Backend/models/appointmentSchema.js:109 | `save` of a valid appointment replaces exactly the one at its place |
| Store.Db.RemoveAppointment | Backend/controller/appointmentController.js:336 | `findByIdAndDelete` removes exactly that appointment |
| Store.Db.CreateUser | Backend/models/userSchema.js:92 | `User.create` of a valid document with a free email appends exactly the stored user, under a fresh id |
| Store.Db.RemoveUser | Backend/controller/usercontroller.js:271 | `deleteOne` removes exactly that user |
| Store.Db.CreatePayment | Backend/controller/paymentController.js:63-71 | `Payment.create` with a free reference appends exactly the new PENDING payment, under a fresh id |
| Store.Db.SetPayment | Backend/controller/paymentController.js:117-120 | `save` of a payment whose reference stays unique replaces exactly the one at its place |
| Store.Db.Send | Backend/utils/sendEmail.js:3-25 | one mail attempt, with whether it was delivered, is logged; nothing else changes |
| PaymentController.StoredRefIsFree | Backend/models/paymentSchema.js:14-18 | the unique reference index: a stored payment's reference is held by no other payment |
| PaymentController.StartQr | Backend/controller/paymentController.js:14-33 | a request goes ahead only for an existing appointment, and reuses only an earlier payment of it that has not succeeded |
| PaymentController.StartQrRule | Backend/controller/paymentController.js:14-33 | a missing id gets 400, an unknown appointment 404; the reply is "already completed" exactly when the appointment's first payment succeeded |
| PaymentController.Renewed | Backend/controller/paymentController.js:50-60 | a renewed payment keeps its id, appointment and amount and takes the new reference, status PENDING and date |
| PaymentController.PaymentOfRenewed | Backend/controller/paymentController.js:50-60 | renewing the appointment's payment keeps it the appointment's payment |
| PaymentController.PaymentOfOpened | Backend/controller/paymentController.js:63-71 | a new payment becomes the appointment's payment when it had none |
| PaymentController.GeneratePaymentQR | Backend/controller/paymentController.js:11-92 | a refusal or a completed payment changes nothing; otherwise a gateway answer with a free reference renews the earlier payment or creates one, and anything else is a 500 that stores nothing |
| PaymentController.MarkPaid | Backend/controller/paymentController.js:123-131 | the list keeps its length |
| PaymentController.MarkPaidRule | Backend/controller/paymentController.js:123-131 | only the appointment's payment status can change, to PAID, never any status; it is PAID afterwards exactly when it was before, or the update is unconditional, or the appointment is Pending |
| PaymentController.MarkPaidKeepsValid | Backend/controller/paymentController.js:128-129 | marking an appointment PAID keeps the collection valid |
| PaymentController.Settled | Backend/controller/paymentController.js:117-120 | a settled payment keeps its id, appointment, reference and amount and takes the reported status (possibly unset) and the verification time |
| PaymentController.CheckPaymentStatus | Backend/controller/paymentController.js:97-152 | a missing reference gets 400, an unknown one 404; a failed verification changes nothing and reports the stored status ("undefined" when unset); a success records the status and marks a Pending appointment PAID on SUCCESS |
| PaymentController.MarkAppointmentPaid | Backend/controller/paymentController.js:124-130 | the appointments become `MarkPaid` of the old ones; nothing else changes |
| PaymentController.PaymentMailIgnoresDoctor | Backend/controller/paymentController.js:189 | as written, the confirmation's doctor is the same for every appointment and is not the doctor's name (as-written half of a finding) |
| PaymentController.PaymentMail | Backend/controller/paymentController.js:181-196 | the confirmation goes to the patient's email with the fixed subject and names the appointment's doctor (corrected half of a finding) |
| PaymentController.PaymentMailAsWritten | Backend/controller/paymentController.js:181-196 | the confirmation the callback sends: to the patient's email with the fixed subject, naming "Dr. undefined undefined" |
| PaymentController.PaymentMails | Backend/controller/paymentController.js:173-196 | at most one confirmation, sent exactly on SUCCESS for an appointment that exists, and it is the confirmation as written |
| PaymentController.CallbackTarget | Backend/controller/paymentController.js:165 | the payment the callback updates: the one with the reference when there is one, and, with no reference, some payment whenever any is stored |
| PaymentController.CallbackTargetIntended | Backend/controller/paymentController.js:165 | the payment a callback should update carries its reference, and there is none exactly when the reference is absent or unknown (corrected half of a finding) |
| PaymentController.MissingRefSettlesFirstPayment | Backend/controller/paymentController.js:165 | as written, a callback without a reference selects the first stored payment while the intended lookup selects none; with a reference the two agree (as-written half of a finding) |
| PaymentController.SavedStatus | Backend/models/paymentSchema.js:31-35 | the status a passing save stores: unset exactly when the callback carries none, otherwise the enum member named by it |
| PaymentController.PaymentCallback | Backend/controller/paymentController.js:157-224 | no payment found changes nothing and still succeeds; a status outside the enum fails with 500 or the error page; otherwise the payment takes the status (unset when absent) and transaction id, a SUCCESS marks the appointment PAID whatever its status and the confirmation as written is attempted; the redirect prints an absent field as "undefined" |
| PaymentController.ConfirmPayment | Backend/controller/paymentController.js:174-199 | the appointment is marked PAID unconditionally and its confirmation, as written, attempted |
| PaymentController.CheckAndCallbackDiffer | Backend/controller/paymentController.js:123-131 | an Accepted unpaid appointment stays unpaid after a successful check but becomes PAID after a successful callback |
| AppointmentController.MatchingDoctors | Backend/controller/appointmentController.js:48-53 | the `User.find` of the doctor lookup: exactly the users with the given first and last name, the Doctor role and the department |
| AppointmentController.LookUpDoctor | Backend/controller/appointmentController.js:55-59 | a lookup that lets the booking through always carries a doctor id |
| AppointmentController.LookUpDoctorUnique | Backend/controller/appointmentController.js:48-60 | the lookup goes on exactly when one user matches the query, and the id it returns is that user's: every matching user has it |
| AppointmentController.ScreenBooking | Backend/controller/appointmentController.js:29-60 | a booking cleared by the guards carries a doctor id |
| AppointmentController.BookingRejectionOrder | Backend/controller/appointmentController.js:29-60 | a missing field is a 400 before a bad Aadhaar (400), before no doctor (404), before several doctors (400); a booking goes on exactly when all twelve fields are present, the Aadhaar is valid and one doctor matches |
| AppointmentController.BookingDraftFacts | Backend/controller/appointmentController.js:66-85 | the created appointment carries the request's details, the caller as patient, the matched doctor's id, status Pending and payment Unpaid |
| AppointmentController.ConfirmationsAt | Backend/controller/appointmentController.js:87-109 | one confirmation attempt per booked appointment, the k-th to the k-th appointment's patient |
| AppointmentController.ConfirmationsAppend | Backend/controller/appointmentController.js:218-242 | booking one more appointment adds exactly its own confirmation at the end of the outbox |
| AppointmentController.SubmitDraft | Backend/controller/appointmentController.js:66-109 | `Appointment.create`: a draft the schema refuses writes nothing and yields its non-empty field errors; an accepted draft is appended with the next id and its one mail attempt is recorded; users and payments never change |
| AppointmentController.SubmitBooking | Backend/controller/appointmentController.js:66-109 | with a free number: the appointment is appended with the request's details, the patient, the doctor, a fresh id and that number, and its confirmation attempted; or the schema's errors come back and nothing is written |
| AppointmentController.FileBooking | Backend/controller/appointmentController.js:62-109 | after the guards: a free number is drawn, the draft is created and confirmed, or the schema's errors are kept, or the draws run out; nothing else changes |
| AppointmentController.BookingReplyStatus | Backend/controller/appointmentController.js:66-115 | a booking answers 201 exactly when an appointment was created; a schema refusal is a 500 (not a 400) whose message joins the fields' messages; an exhausted number generator never answers |
| AppointmentController.BookAppointment | Backend/controller/appointmentController.js:10-116 | a refusal by the guards writes and draws nothing and answers as the guard says; otherwise the booking is filed with the looked-up doctor and answered from the filing |
| AppointmentController.ScreenItem | Backend/controller/appointmentController.js:148-185 | an item clears only with every required field present, a twelve-digit Aadhaar and a stored doctor; a missing field is reported as "Appointment for <date> is missing required fields" |
| AppointmentController.ScreenItemAgreesWithBooking | Backend/controller/appointmentController.js:149-191 | an item of a batch clears its guards exactly when the same request clears the guards of a single booking, and with the same doctor |
| AppointmentController.BookItem | Backend/controller/appointmentController.js:131-245 | one pass of the batch loop: a refused item is reported with its guard's line and writes nothing; a booked one is appended with the item's details, the caller as patient and its confirmation |
| AppointmentController.BookItemEffect | Backend/controller/appointmentController.js:131-245 | what one item does to the appointments and the outbox: exactly one appended appointment and one confirmation when booked, nothing otherwise |
| AppointmentController.ErrorsField | Backend/controller/appointmentController.js:256 | the `errors` field is absent exactly when no item failed and otherwise lists the failures |
| AppointmentController.BatchTraceBooked | Backend/controller/appointmentController.js:242 | an appointment booked from item i extends the trace of the batch: booked appointments follow their items' order |
| AppointmentController.BatchTraceWiden | Backend/controller/appointmentController.js:131-246 | a trace over the first i items is a trace over any longer prefix, so skipped items keep it |
| AppointmentController.BookItems | Backend/controller/appointmentController.js:131-246 | the loop appends exactly the booked appointments and their confirmations, each traced to its own item in order, and every item ends booked or reported unless the draws run out |
| AppointmentController.BookMultipleAppointments | Backend/controller/appointmentController.js:119-258 | no list or an empty one is a 400 that books nothing; otherwise a 201 whose count message matches the booked appointments, whose `errors` is absent exactly when every item was booked and otherwise has one line per item not booked |
| AppointmentController.Attempts | Backend/controller/appointmentController.js:286-309 | an update makes at most one mail attempt and none exactly when there is no notification |
| AppointmentController.StatusMailIff | Backend/controller/appointmentController.js:286-301 | an update notifies exactly when the new status differs from the stored one and is Accepted or Rejected, with the approval or the rejection subject, to the patient of that appointment |
| AppointmentController.UpdateAppointmentStatus | Backend/controller/appointmentController.js:268-324 | an id that is not an ObjectId is the cast error's 400 and an unknown one a 404, both changing nothing; a body the schema refuses changes nothing and answers the normalized validation error; otherwise only that appointment is patched and the notification is attempted |
| AppointmentController.DeleteDecision | Backend/controller/appointmentController.js:335-351 | a refusal is a 400 or 403 and never meets an admin; a non-admin removes only their own Pending appointment |
| AppointmentController.DeleteDecisionRule | Backend/controller/appointmentController.js:335-351 | an admin removes any appointment; anyone else removes exactly their own Pending ones, with 403 for another's before 400 for a non-pending one |
| AppointmentController.DeleteAppointment | Backend/controller/appointmentController.js:326-360 | an id that is not an ObjectId is the cast error's 400 and an unknown one a 404, both changing nothing; otherwise the decision removes exactly that appointment, keeping the others in order, or refuses and changes nothing; no mail is sent |
| AppointmentController.RemovalKeepsOthers | Backend/controller/appointmentController.js:354 | with unique ids, removing the k-th appointment keeps every other appointment and only those |
| AppointmentController.PatientAppointments | Backend/controller/appointmentController.js:362-374 | exactly the stored appointments whose patient is the caller |
| AppointmentController.ScreenDirect | Backend/controller/appointmentController.js:395-449 | a cleared direct booking has no doctor id exactly when the department is "Other" |
| AppointmentController.DirectRejectionOrder | Backend/controller/appointmentController.js:395-449 | a missing field, then a missing doctor outside "Other", then a bad Aadhaar, each a 400; for "Other" the outcome ignores the doctor's names and the users; for any other department it clears exactly as a patient's booking would, with the same doctor |
| AppointmentController.DirectDraftFacts | Backend/controller/appointmentController.js:451-478 | the created appointment carries the request's details, the placeholder doctor for "Other", the fresh placeholder patient, that id as doctor when there is none, status Pending and payment Unpaid |
| AppointmentController.DirectDoctorFullName | Backend/controller/appointmentController.js:482-484 | the acknowledgement names "To be assigned by hospital" for "Other" and the requested doctor otherwise |
| AppointmentController.SubmitDirect | Backend/controller/appointmentController.js:458-505 | with a free number: the appointment is appended with the request's details, the placeholder patient, the doctor or the placeholder, a fresh id and that number, and the acknowledgement attempted; or the schema's errors come back and nothing is written |
| AppointmentController.FileDirectBooking | Backend/controller/appointmentController.js:451-505 | a fresh placeholder id, a free number, the create and the acknowledgement: the appointment appended, or the schema's errors kept, or the draws run out with nothing written |
| AppointmentController.DirectReplyStatus | Backend/controller/appointmentController.js:506-514 | a direct booking answers 201 exactly when an appointment was created; a schema refusal is a 500 whose message joins every field's summary |
| AppointmentController.DirectBookAppointment | Backend/controller/appointmentController.js:377-515 | a refusal by the guards writes and draws nothing; otherwise the booking is filed with the matched doctor, or none for "Other", and answered from the filing |
| AppointmentController.SortedCons | Backend/controller/appointmentController.js:573 | an appointment dated no later than all of a sorted list can go first |
| AppointmentController.NoneBeforeSameElements | Backend/controller/appointmentController.js:573 | a lower bound on the dates holds for any reordering of the same appointments |
| AppointmentController.InsertByDate | Backend/controller/appointmentController.js:573 | inserting into a date-sorted list keeps it sorted and adds exactly that appointment |
| AppointmentController.InsertFirst | Backend/controller/appointmentController.js:573 | an appointment no later than the head of a sorted list can go before it |
| AppointmentController.InsertLater | Backend/controller/appointmentController.js:573 | an appointment later than the head goes after it, and the result is sorted and holds the same appointments |
| AppointmentController.SortByDate | Backend/controller/appointmentController.js:573 | `.sort({ appointment_date: 1 })`: sorted by date and a permutation of its input |
| AppointmentController.DoctorAppointments | Backend/controller/appointmentController.js:517-580 | an unparsable date is a 400 and only then; otherwise exactly the stored appointments the query matches, sorted by date |
| AppointmentController.DoctorStatusDefault | Backend/controller/appointmentController.js:562-568 | without a status, or with "all", a doctor sees only Accepted appointments; a status that names none lists nothing |
| AppointmentController.SameNameSharesListing | Backend/controller/appointmentController.js:527-535 | ownership goes by name as well as by id: two doctors with the same names see the same appointments not booked with either's id |
| AppointmentController.MissingDoctorId | Backend/controller/appointmentController.js:595 | an appointment without a doctor id throws an error with no status, so the handler answers 500 |
| AppointmentController.DecideDoctorUpdate | Backend/controller/appointmentController.js:588-609 | a new status is granted only on the doctor's own appointment with a doctor id, and is Completed or Accepted; anything else is a refusal |
| AppointmentController.DoctorUpdateRule | Backend/controller/appointmentController.js:588-609 | the update goes through exactly for the doctor's own appointment and a target of Completed or Accepted, whatever the current status; 403 before 400; a missing doctor id is a 500 |
| AppointmentController.UpdateAppointmentStatusByDoctor | Backend/controller/appointmentController.js:583-616 | an id that is not an ObjectId is the cast error's 400 and an unknown one a 404, both changing nothing; otherwise only that appointment's status changes, to the requested one, or nothing changes; no mail is sent |
| AdminDashboard.Filtered | Frontend/src/pages/AdminDashboard.jsx:325-333 | an appointment is shown exactly when it is in the list, its status matches the filter ("all" matches every status) and, with the today switch on, it falls today |
| AdminDashboard.AllShowsEverything | Frontend/src/pages/AdminDashboard.jsx:325-333 | the "all" filter without the today switch shows the whole list in its order |
| AdminDashboard.TodayNarrows | Frontend/src/pages/AdminDashboard.jsx:328-330 | the today switch keeps, in order, exactly today's appointments among those the status filter shows |
| AdminDashboard.StatsOf | Frontend/src/pages/AdminDashboard.jsx:336-339 | the total is the list length, each card counts the appointments with its status, and the three counts never exceed the total |
| AdminDashboard.StatusClass | Frontend/src/pages/AdminDashboard.jsx:351-358 | "accepted" exactly for Accepted, "rejected" exactly for Rejected, "pending" for every other status |
| AdminDashboard.CharAt0 | Frontend/src/pages/AdminDashboard.jsx:362 | `charAt(0)`: exactly the first character of a non-empty string, and "" for an empty one |
| AdminDashboard.Initials | Frontend/src/pages/AdminDashboard.jsx:361-363 | one upper-cased letter for each non-empty name, the first name's first |
| AdminDashboard.Updated | Frontend/src/pages/AdminDashboard.jsx:70-74 | the list keeps its length and order; entries with the id get the new status and nothing else changes |
| AdminDashboard.UpdateIdempotent | Frontend/src/pages/AdminDashboard.jsx:70-74 | applying the same status update twice is applying it once |
| AdminDashboard.UpdatedListedUnderNewStatus | Frontend/src/pages/AdminDashboard.jsx:70-74 | after an update the appointment shows under the new status filter and under no other status filter |
| AdminDashboard.Removed | Frontend/src/pages/AdminDashboard.jsx:89-91 | the remaining appointments are exactly those without the deleted id |
| AdminDashboard.RemovedCount | Frontend/src/pages/AdminDashboard.jsx:89-91 | deletion shortens the list by the number of entries with the id, and deleting again changes nothing |
| AdminDashboard.CsvRow | Frontend/src/pages/AdminDashboard.jsx:120-130 | one cell per header; "N/A" for a missing appointment number; the formatted date and the status name in columns 7 and 8 |
| AdminDashboard.CsvRows | Frontend/src/pages/AdminDashboard.jsx:107-133 | the header row first, then one row per exported appointment, in order |
| AdminDashboard.Escape | Frontend/src/pages/AdminDashboard.jsx:136 | doubling quotes brings in no line break (corrected export) |
| AdminDashboard.ReadAppend | Frontend/src/pages/AdminDashboard.jsx:136 | a CSV reader's separator count and quote state over a concatenation compose from its parts |
| AdminDashboard.ReadEscaped | Frontend/src/pages/AdminDashboard.jsx:136 | inside quotes, an escaped cell holds no separator and leaves the reader inside quotes |
| AdminDashboard.ReadQuoted | Frontend/src/pages/AdminDashboard.jsx:136 | a quoted cell holds no separator and leaves the reader outside quotes, whatever the cell holds |
| AdminDashboard.ReadQuotedJoin | Frontend/src/pages/AdminDashboard.jsx:136 | n quoted cells joined by commas read as exactly n-1 separators |
| AdminDashboard.CsvContentAsWritten | Frontend/src/pages/AdminDashboard.jsx:120-136 | the file as written begins with the unquoted header line |
| AdminDashboard.CsvContent | Frontend/src/pages/AdminDashboard.jsx:120-136 | the quoted file begins with the quoted header line (corrected form of the export) |
| AdminDashboard.LineHasNineFields | Frontend/src/pages/AdminDashboard.jsx:120-136 | every quoted line reads back as exactly nine fields, whatever its cells hold (corrected half of a finding) |
| AdminDashboard.JoinCountOneCell | Frontend/src/pages/AdminDashboard.jsx:136 | when only one cell holds commas, the joined line has n-1 commas plus that cell's own |
| AdminDashboard.DateCommaShiftsColumns | Frontend/src/pages/AdminDashboard.jsx:120-136 | as written, a date formatted "Jan 5, 2025" gives the line nine commas, so it reads as ten fields under nine headers (as-written half of a finding) |
| AdminDashboard.DepartmentCommaShiftsColumns | Frontend/src/components/AppointmentForm.jsx:54 | as written, the department "EAR, NOSE & THROAT (ENT)", one of the forms' own choices, gives the line nine commas in every locale (as-written half of a finding) |
| AdminDashboard.DepartmentHasOneComma | Frontend/src/pages/AddDoctor.jsx:51 | the department name "EAR, NOSE & THROAT (ENT)" holds exactly one comma |
| AdminDashboard.DateHasOneComma | Frontend/src/pages/AdminDashboard.jsx:344-347 | the short English date "Jan 5, 2025" that `formatDate` gives holds exactly one comma |
| AdminDashboard.LineAvoidsNewline | Frontend/src/pages/AdminDashboard.jsx:136 | a quoted line whose cells lack line breaks has none |
| AdminDashboard.CsvLineCount | Frontend/src/pages/AdminDashboard.jsx:133-136 | both as written and quoted, the file has exactly one line break per exported appointment when no cell holds one |
| AdminDashboard.RowAvoidsNewline | Frontend/src/pages/AdminDashboard.jsx:133-136 | when no cell holds a line break, neither the header line nor any appointment's line holds one, quoted or as written |
| AdminDashboard.HeadersAvoidNewline | Frontend/src/pages/AdminDashboard.jsx:107-117 | no header holds a line break |
| AdminDashboard.DashboardPage.constructor | Frontend/src/pages/AdminDashboard.jsx:24-27 | the page starts with no appointments, the "all" filter and the today switch off |
| AdminDashboard.DashboardPage.Loaded | Frontend/src/pages/AdminDashboard.jsx:43-62 | a fetched list replaces the appointments; a failed fetch keeps them |
| AdminDashboard.DashboardPage.HandleUpdateStatus | Frontend/src/pages/AdminDashboard.jsx:64-79 | an accepted update changes the list to `Updated`; a refused one leaves it |
| AdminDashboard.DashboardPage.HandleDeleteAppointment | Frontend/src/pages/AdminDashboard.jsx:81-99 | a confirmed and accepted delete leaves `Removed`; otherwise nothing changes |
| AdminDashboard.DashboardPage.HandleExportCsv | Frontend/src/pages/AdminDashboard.jsx:102-136 | the exported file is the CSV, as written with unquoted cells, of exactly the appointments the table shows |
| AdminMessages.Filtered | Frontend/src/pages/AdminMessages.jsx:75-86 | a message is listed exactly when it is in the inbox, matches the search case-insensitively in name, email or text (or the search is empty) and matches the read filter |
| AdminMessages.LowerCharIdempotent | Frontend/src/pages/AdminMessages.jsx:77-79 | lowering a character twice, or after raising it, is lowering it once |
| AdminMessages.SearchIgnoresCase | Frontend/src/pages/AdminMessages.jsx:77-79 | a search term matches the same messages in lower or upper case |
| AdminMessages.EverythingShown | Frontend/src/pages/AdminMessages.jsx:75-86 | an empty search with the "all" filter lists the whole inbox in order |
| AdminMessages.ReadUnreadSplit | Frontend/src/pages/AdminMessages.jsx:81-83 | the "read" and "unread" filters split the searched messages between them |
| AdminMessages.TotalPages | Frontend/src/pages/AdminMessages.jsx:92 | `Math.ceil(n / 6)`: the least number of six-message pages that holds n messages |
| AdminMessages.Page | Frontend/src/pages/AdminMessages.jsx:89-91 | page p holds at most six messages, messages (p-1)*6 onward in order, is empty exactly past the last page and full before it |
| AdminMessages.PagesArePrefix | Frontend/src/pages/AdminMessages.jsx:89-91 | the first k pages together are the first 6k messages |
| AdminMessages.PagesCoverAll | Frontend/src/pages/AdminMessages.jsx:89-92 | all the pages together are exactly the listed messages |
| AdminMessages.PageOfIndex | Frontend/src/pages/AdminMessages.jsx:89-91 | message i appears on page i/6+1 at place i mod 6 |
| AdminMessages.StrandedPage | Frontend/src/pages/AdminMessages.jsx:171-177 | as written, a search or filter that leaves matches while the page stays past the last one shows the empty state and no page controls, although every page up to the last holds messages (as-written half of a finding) |
| AdminMessages.ShownPage | Frontend/src/pages/AdminMessages.jsx:89-92 | the page clamped into 1..totalPages, unchanged when already in range (corrected paging) |
| AdminMessages.ShownPageNotEmpty | Frontend/src/pages/AdminMessages.jsx:89-92 | with the clamped page, a non-empty list never shows an empty page (corrected half of a finding) |
| AdminMessages.ShownPageNotEmptyIfAny | Frontend/src/pages/AdminMessages.jsx:89-92 | the clamped page is empty only when nothing is listed |
| AdminMessages.MarkedRead | Frontend/src/pages/AdminMessages.jsx:95-101 | same length and order; the message with the id becomes read and nothing else changes |
| AdminMessages.MarkedReadLeavesUnread | Frontend/src/pages/AdminMessages.jsx:95-101 | a message marked read is read and leaves the "unread" list |
| AdminMessages.Deleted | Frontend/src/pages/AdminMessages.jsx:110-114 | the remaining messages are exactly those without the id |
| AdminMessages.Inbox.constructor | Frontend/src/pages/AdminMessages.jsx:20-24 | no messages, empty search, "all" filter, page 1 |
| AdminMessages.Inbox.CurrentMessagesAsWritten | Frontend/src/pages/AdminMessages.jsx:88-90 | the slice for the stored page: at most six messages, and empty exactly when the stored page lies past the last page |
| AdminMessages.Inbox.PaginationShown | Frontend/src/pages/AdminMessages.jsx:217-300 | the controls sit in the branch that lists messages and need more than one page, so they show exactly when there are several pages and the stored page is one of them |
| AdminMessages.Inbox.CurrentMessages | Frontend/src/pages/AdminMessages.jsx:89-91 | the corrected page is never empty while messages are listed and is the page as written whenever that page exists |
| AdminMessages.Inbox.Loaded | Frontend/src/pages/AdminMessages.jsx:43-49 | the fetched messages, read flags included, become the inbox |
| AdminMessages.Inbox.SetSearchTerm | Frontend/src/pages/AdminMessages.jsx:171 | the search term changes and the page does not |
| AdminMessages.Inbox.SetFilterStatus | Frontend/src/pages/AdminMessages.jsx:177 | the filter changes and the page does not |
| AdminMessages.Inbox.HandleMarkAsRead | Frontend/src/pages/AdminMessages.jsx:95-101 | the inbox becomes `MarkedRead` of the old one |
| AdminMessages.Inbox.HandleDelete | Frontend/src/pages/AdminMessages.jsx:110-114 | the inbox becomes `Deleted` of the old one |
| AdminMessages.Inbox.Paginate | Frontend/src/pages/AdminMessages.jsx:310-314 | the numbered button index+1 becomes the page |
| AdminMessages.Inbox.PreviousPage | Frontend/src/pages/AdminMessages.jsx:302-305 | one page back, except on page 1 |
| AdminMessages.Inbox.NextPage | Frontend/src/pages/AdminMessages.jsx:320-323 | one page on, except on the last page |
| AdminDoctors.Slashes | Frontend/src/pages/AdminDoctors.jsx:29 | `replace(/\\/g, '/')`: same length, each backslash turned into a slash, every other character kept, no backslash left |
| AdminDoctors.SlashesIdempotent | Frontend/src/pages/AdminDoctors.jsx:29 | replacing backslashes twice is replacing them once |
| AdminDoctors.ResolveDoctorPhoto | Frontend/src/pages/AdminDoctors.jsx:26-32 | an uploaded photo's non-empty url as it is; a plain path under the server origin with forward slashes only; "/doc.jpg" otherwise |
| AdminDoctors.DepartmentsOf | Frontend/src/pages/AdminDoctors.jsx:42 | `doctors.map(d => d.doctorDepartment)`, in order |
| AdminDoctors.Departments | Frontend/src/pages/AdminDoctors.jsx:41-43 | "all" first, then exactly the departments of the listed doctors, each once |
| AdminDoctors.FilteredDoctors | Frontend/src/pages/AdminDoctors.jsx:66-68 | every doctor for "all", else exactly the doctors of the chosen department |
| AdminDoctors.EveryOptionShowsADoctor | Frontend/src/pages/AdminDoctors.jsx:41-43 | no department in the drop-down leads to an empty list |
| AdminDoctors.WithoutDoctor | Frontend/src/pages/AdminDoctors.jsx:89 | the remaining doctors are exactly those without the deleted id |
| AdminDoctors.AdminDoctorsPage.constructor | Frontend/src/pages/AdminDoctors.jsx:20-22 | no doctors and the "all" department |
| AdminDoctors.AdminDoctorsPage.Loaded | Frontend/src/pages/AdminDoctors.jsx:45-63 | a fetched list replaces the doctors; a failed fetch keeps them |
| AdminDoctors.AdminDoctorsPage.SelectDepartment | Frontend/src/pages/AdminDoctors.jsx:145 | the clicked department becomes the selection |
| AdminDoctors.AdminDoctorsPage.HandleDeleteDoctor | Frontend/src/pages/AdminDoctors.jsx:80-93 | after the confirmation and the server's acceptance the doctor leaves the list; otherwise nothing changes |
| DoctorsPage.Tabs | Frontend/src/pages/Doctors.jsx:40-46 | "All" first, then exactly the non-empty departments of the doctors, each once |
| DoctorsPage.Chosen | Frontend/src/pages/Doctors.jsx:61-64 | every doctor for "All", else exactly the doctors of the chosen department |
| DoctorsPage.Cards | Frontend/src/pages/Doctors.jsx:139-140 | `slice(0, 9)`: the first nine chosen doctors, or all of them when fewer |
| DoctorsPage.EveryTabShowsACard | Frontend/src/pages/Doctors.jsx:40-46 | every department tab shows at least one card |
| DoctorsPage.DoctorsList.constructor | Frontend/src/pages/Doctors.jsx:11-14 | no doctors, no tabs, "All" selected |
| DoctorsPage.DoctorsList.Loaded | Frontend/src/pages/Doctors.jsx:36-49 | a response carrying doctors sets both the list and the tabs from it; otherwise neither changes |
| DoctorsPage.DoctorsList.SelectDepartment | Frontend/src/pages/Doctors.jsx:114 | the clicked tab becomes the selection |
| AddAdmin.Put | Frontend/src/pages/AddAdmin.jsx:53-56 | `{...formData, [name]: value}`: the edited field takes the value and every other field is kept |
| AddAdmin.DigitsOnly | Frontend/src/pages/AddAdmin.jsx:47 | `value.replace(/\D/g, '')`: only digits, no longer than the input, keeping exactly the input's digits |
| AddAdmin.DigitsOnlyIdempotent | Frontend/src/pages/AddAdmin.jsx:46-51 | an all-digit value is kept as it is, and stripping twice is stripping once |
| AddAdmin.EmailShapeUnanchored | Frontend/src/pages/AddAdmin.jsx:75 | the unanchored pattern `\S+@\S+\.\S+` needs five characters with an '@' and a '.', so no string without '@' passes, and text added on either side of a passing string keeps it passing |
| AddAdmin.AadhaarIsTwelveKeptDigits | Backend/controller/usercontroller.js:7 | a value passes `isValidAadhaar` exactly when it has twelve characters that the page's digit filter all keeps |
| AddAdmin.BlankIsTrimEmpty | Frontend/src/pages/AddAdmin.jsx:72-81 | a field counts as missing (`!value.trim()`) exactly when its trimmed value is empty |
| AddAdmin.AdminErrors | Frontend/src/pages/AddAdmin.jsx:68-86 | the error map has an entry exactly for each field that fails its check, holding that check's message |
| AddAdmin.AdminErrorsRule | Frontend/src/pages/AddAdmin.jsx:74-82 | email fails when blank or not shaped like an address, password when blank or under 6 UTF-16 code units, Aadhaar when blank or not 12 digits, with the blank message taking precedence |
| AddAdmin.NoAdminErrorsIff | Frontend/src/pages/AddAdmin.jsx:84-85 | `validateForm` returns true exactly when every field passes |
| AddAdmin.ValidHasNoErrors | Frontend/src/pages/AddAdmin.jsx:84-85 | a form whose every field passes yields an empty error map |
| AddAdmin.FieldPasses | Frontend/src/pages/AddAdmin.jsx:72-82 | in a valid form no single field reports an error |
| AddAdmin.AadhaarNotBlank | Frontend/src/pages/AddAdmin.jsx:81-82 | a 12-digit Aadhaar is never blank |
| AddAdmin.NoErrorsValid | Frontend/src/pages/AddAdmin.jsx:84-85 | an empty error map means every field passes |
| AddAdmin.NoFieldErrorsValid | Frontend/src/pages/AddAdmin.jsx:72-82 | when no field reports an error, the form is valid |
| AddAdmin.ValidAdminFormPassesBackend | Backend/controller/usercontroller.js:99-117 | a form the page accepts passes the handler's presence and Aadhaar guards, so of those guards only a taken email can refuse it; the schema's validators come after and are not covered |
| AddAdmin.ShortPasswordPassesPageOnly | Backend/models/userSchema.js:55-58 | a form the page accepts with a password of six UTF-16 code units clears the guards and is then refused by the schema's eight-unit minimum |
| AddAdmin.BlankIfEmpty | Frontend/src/pages/AddAdmin.jsx:72 | an empty field is blank |
| AddAdmin.AdminPage.constructor | Frontend/src/pages/AddAdmin.jsx:23-34 | an empty form and no errors |
| AddAdmin.AdminPage.HandleInputChange | Frontend/src/pages/AddAdmin.jsx:42-66 | the field takes the value (digits only for Aadhaar); its error is blanked only when it held a message |
| AddAdmin.AdminPage.ValidateForm | Frontend/src/pages/AddAdmin.jsx:68-86 | the errors become `AdminErrors` of the form, and the result is true exactly when there are none |
| AddAdmin.AdminPage.HandleAddAdmin | Frontend/src/pages/AddAdmin.jsx:88-130 | the form is sent exactly when it has no errors; an accepted submission resets the form, anything else keeps it |
| AddDoctor.Put | Frontend/src/pages/AddDoctor.jsx:60-63 | the edited field takes the value and every other field is kept |
| AddDoctor.DoctorErrors | Frontend/src/pages/AddDoctor.jsx:94-112 | an entry exactly for each failing field, with its message (the password's length in UTF-16 code units), and never one for the photo |
| AddDoctor.NoDoctorErrorsIff | Frontend/src/pages/AddDoctor.jsx:110-111 | `validateForm` returns true exactly when every field passes |
| AddDoctor.ValidDoctorFormAtBackend | Backend/controller/usercontroller.js:188-227 | a form the page accepts, sent with a photo, is refused by the handler's guards only for a photo format, a qualification under two UTF-16 code units after trimming, or a taken email; the schema's validators come after and are not covered |
| AddDoctor.ValidFormFieldsPresent | Backend/controller/usercontroller.js:208-219 | a form the page accepts has every field the server requires |
| AddDoctor.ShortQualificationPassesPage | Frontend/src/pages/AddDoctor.jsx:107 | the page accepts the one-character qualification "X", which the server refuses with "Qualifications must be at least 2 characters!" |
| AddDoctor.DoctorPage.constructor | Frontend/src/pages/AddDoctor.jsx:20-34 | an empty form, no photo, the "/doc.png" preview, no errors |
| AddDoctor.DoctorPage.HandleInputChange | Frontend/src/pages/AddDoctor.jsx:58-72 | the field takes the value; its error is blanked only when it held a message |
| AddDoctor.DoctorPage.HandleImage | Frontend/src/pages/AddDoctor.jsx:74-92 | a chosen file becomes the photo and blanks a photo error; no file changes nothing |
| AddDoctor.DoctorPage.ValidateForm | Frontend/src/pages/AddDoctor.jsx:94-112 | the errors become `DoctorErrors` of the form, and the result is true exactly when there are none |
| AddDoctor.DoctorPage.HandleAddDoctor | Frontend/src/pages/AddDoctor.jsx:114-185 | sent exactly when the form passes and a photo is chosen; a missing photo adds its message to the errors held before validation; an accepted submission resets form, photo and preview |
| AppointmentForm.Put | Frontend/src/components/AppointmentForm.jsx:126-129 | `{ ...slot, [field]: value }`: the field takes the value and every other field keeps its own |
| AppointmentForm.AddSlot | Frontend/src/components/AppointmentForm.jsx:97-107 | one empty slot is added after the others, which stay as they were |
| AppointmentForm.RemoveSlot | Frontend/src/components/AppointmentForm.jsx:110-116 | while more than one slot is left, the slot at the index is removed and the others keep their order; with one slot, or an index past the end, nothing changes; a list never becomes empty |
| AppointmentForm.RemoveAfterAdd | Frontend/src/components/AppointmentForm.jsx:97-116 | removing the slot just added gives back the list before it |
| AppointmentForm.LastSlotStays | Frontend/src/components/AppointmentForm.jsx:111 | the only slot is never removed |
| AppointmentForm.UpdateSlot | Frontend/src/components/AppointmentForm.jsx:119-135 | only the given field of the given slot changes, to the value; every other slot and field stays |
| AppointmentForm.UpdateSlotLastWins | Frontend/src/components/AppointmentForm.jsx:119-135 | a second update of the same field overrides the first, and writing back what a field holds changes nothing |
| AppointmentForm.SelectDoctor | Frontend/src/components/AppointmentForm.jsx:139-165 | the doctor's names of that slot are set from the choice, or both cleared for an empty choice; the date, the department and every other slot stay |
| AppointmentForm.DoctorDropDown | Frontend/src/components/AppointmentForm.jsx:778-786 | a chosen doctor is set as handleDoctorSelect sets it; an empty choice, through two updates of the same stale list, clears only the last name, and the slot stays incomplete for the form's checks |
| AppointmentForm.ChangeDepartment | Frontend/src/components/AppointmentForm.jsx:740-752 | choosing a department sets it on that slot and clears the slot's doctor; the other slots stay |
| AppointmentForm.SlotProblem | Frontend/src/components/AppointmentForm.jsx:393-410 | a slot is reported exactly when it lacks a date, a department or either doctor name, date first |
| AppointmentForm.CheckForm | Frontend/src/components/AppointmentForm.jsx:373-412 | the first problem is reported: missing personal fields, then a bad Aadhaar number, then the first incomplete slot; none exactly when all pass |
| AppointmentForm.BatchPayload | Frontend/src/components/AppointmentForm.jsx:295-309 | one body per slot, in slot order, each the personal details with that slot's date, department and doctor |
| AppointmentForm.BatchPayloadShares | Frontend/src/components/AppointmentForm.jsx:168-200 | every body of a batch has the same personal details, and the single booking sends the batch's first body |
| AppointmentForm.CheckedFormPassesBackendGuards | Frontend/src/components/AppointmentForm.jsx:373-412 | a form that passes its own checks sends bodies that pass the backend's missing-field and Aadhaar guards, so of the guards only the doctor lookup can refuse them; the schema's validators come after and are not covered |
| AppointmentForm.PaymentId | Frontend/src/components/AppointmentForm.jsx:205-215 | the payment step opens with the appointment number when the reply has one, else the database id, and not at all when it has neither |
| DirectAppointmentForm.Step1Problem | Frontend/src/components/DirectAppointmentForm.jsx:110-120 | the first step passes exactly when every personal field is filled and the Aadhaar number has twelve digits |
| DirectAppointmentForm.Step2Problem | Frontend/src/components/DirectAppointmentForm.jsx:122-138 | the second step passes exactly when there is a date and a department, and both doctor names unless the department is "Other" |
| DirectAppointmentForm.ValidStepsPassBackendGuards | Frontend/src/components/DirectAppointmentForm.jsx:140-184 | a form whose two steps pass sends a body that clears the backend's field, doctor and Aadhaar guards: "Other" goes through without a lookup, any other department goes to the doctor lookup |
| DirectAppointmentForm.DirectForm.constructor | Frontend/src/components/DirectAppointmentForm.jsx:23-48 | the first render: every field empty, step 1, no payment step and no id |
| DirectAppointmentForm.DirectForm.ResetForm | Frontend/src/components/DirectAppointmentForm.jsx:252-269 | every field is emptied, back to step 1 with both flags down; the payment step and its id are kept |
| DirectAppointmentForm.DirectForm.NextStep | Frontend/src/components/DirectAppointmentForm.jsx:272-278 | step 1 moves to 2 exactly when its checks pass and step 2 to 3 likewise, reporting the first failure; step 3 stays |
| DirectAppointmentForm.DirectForm.PrevStep | Frontend/src/components/DirectAppointmentForm.jsx:280-282 | one step back |
| DirectAppointmentForm.DirectForm.HandleSubmit | Frontend/src/components/DirectAppointmentForm.jsx:140-172 | before step 3 the button only advances a step and sends nothing; at step 3 the body is sent exactly when both steps pass, and carries the form's fields |
| DirectAppointmentForm.DirectForm.Booked | Frontend/src/components/DirectAppointmentForm.jsx:183-195 | a reply with an appointment number, or else an id, opens the payment step with it; a reply with neither reports success |
| DirectAppointmentForm.DirectForm.HandlePaymentSuccess | Frontend/src/components/DirectAppointmentForm.jsx:213-232 | ignored once handled; otherwise the form is reset, which lowers the flag the handler just raised, and the payment step is left open |
| DirectAppointmentForm.DirectForm.HandlePaymentClose | Frontend/src/components/DirectAppointmentForm.jsx:235-249 | ignored once a payment was handled; otherwise the payment step closes and the form is reset |
| DirectAppointmentForm.DirectForm.ChangeDepartment | Frontend/src/components/DirectAppointmentForm.jsx:499-503 | a new department clears the chosen doctor |
| DirectAppointmentForm.DirectForm.SelectDoctor | Frontend/src/components/DirectAppointmentForm.jsx:93-107 | the chosen doctor's names are set, or both cleared for an empty choice |
| DirectAppointmentForm.CompleteFormSends | Frontend/src/components/DirectAppointmentForm.jsx:140-146 | a complete form for "Other" sends nothing on the first two presses and its body on the third |
| LanguageContext.Collapse | Frontend/src/contexts/LanguageContext.jsx:14 | `replace(/\s+/g, " ")`: the result has only single plain spaces for whitespace, and starts with whitespace exactly when the input does |
| LanguageContext.CollapseKeepsText | Frontend/src/contexts/LanguageContext.jsx:14 | collapsing changes whitespace only: the other characters stay, in order |
| LanguageContext.CollapseFixesCollapsed | Frontend/src/contexts/LanguageContext.jsx:14 | a string already collapsed is left as it is |
| LanguageContext.NormalizeKey | Frontend/src/contexts/LanguageContext.jsx:13-14 | a normalised key has single plain spaces only and no whitespace at either end |
| LanguageContext.NormalizeKeyIdempotent | Frontend/src/contexts/LanguageContext.jsx:13-14 | normalising twice is normalising once |
| LanguageContext.NormalizeKeyKeepsText | Frontend/src/contexts/LanguageContext.jsx:13-14 | normalising keeps every non-whitespace character, in order |
| LanguageContext.Translate | Frontend/src/contexts/LanguageContext.jsx:40-56 | the result is the fallback (or the text), or else a non-empty entry of the chosen non-English dictionary |
| LanguageContext.TranslateCases | Frontend/src/contexts/LanguageContext.jsx:40-56 | English shows the fallback or else the text; another language shows the dictionary's non-empty entry for the normalised key, and otherwise the fallback or the text |
| LanguageContext.TranslateIgnoresSpacing | Frontend/src/contexts/LanguageContext.jsx:46-55 | texts that differ only in whitespace are translated alike |
| LanguageContext.TranslateNeverBlanks | Frontend/src/contexts/LanguageContext.jsx:42-55 | without a fallback, a non-empty text never translates to the empty string |
| LanguageContext.InitialLanguage | Frontend/src/contexts/LanguageContext.jsx:17-21 | the first language is the stored one when it is "hi" or "en", and English otherwise; always a supported language |
| LanguageContext.Toggled | Frontend/src/contexts/LanguageContext.jsx:32 | toggling gives a supported language other than the current one |
| LanguageContext.ToggleTwice | Frontend/src/contexts/LanguageContext.jsx:30-38 | toggling twice comes back to a supported language |
| LanguageContext.LanguageProvider.constructor | Frontend/src/contexts/LanguageContext.jsx:17-21 | the provider starts in the initial language of what the storage holds |
| LanguageContext.LanguageProvider.SetLanguage | Frontend/src/contexts/LanguageContext.jsx:23-28 | the language is set and stored |
| LanguageContext.LanguageProvider.ToggleLanguage | Frontend/src/contexts/LanguageContext.jsx:30-38 | the other language is set and stored, so a reload starts in it |
| PaymentQr.Pad2 | Frontend/src/components/PaymentQR.jsx:52 | `padStart(2, '0')`: a string of two or more is kept; a shorter one gets leading zeros up to two characters |
| PaymentQr.TwoDigits | Frontend/src/components/PaymentQR.jsx:52 | below a hundred, the padded form has two digits and reads back as the number |
| PaymentQr.FormatTime | Frontend/src/components/PaymentQR.jsx:49-53 | the clock ends in a colon and two digits of seconds, with at least two digits of minutes before it |
| PaymentQr.FormatTimeReadsBack | Frontend/src/components/PaymentQR.jsx:49-53 | under a hundred minutes the clock reads MM:SS, seconds below sixty, and sixty times the minutes plus the seconds is the time left |
| PaymentQr.StartReadsTwoMinutes | Frontend/src/components/PaymentQR.jsx:20 | the dialog first shows "02:00" |
| PaymentQr.CloseEffects | Frontend/src/components/PaymentQR.jsx:56-63 | closing calls the parent's `onClose` when there is one and otherwise goes home, one effect either way |
| PaymentQr.RedirectEffects | Frontend/src/components/PaymentQR.jsx:38-44 | the timer's redirect goes home first, then calls `onClose` exactly when there is one |
| PaymentQr.Countdown.constructor | Frontend/src/components/PaymentQR.jsx:20-23 | two minutes on the clock, no redirect yet, the QR picture |
| PaymentQr.Countdown.Tick | Frontend/src/components/PaymentQR.jsx:26-46 | a second off while time is left; at zero the one redirect; after it nothing; the count never exceeds two minutes and the redirect happens at most once |
| PaymentQr.Countdown.QrFailed | Frontend/src/components/PaymentQR.jsx:98-102 | a picture that fails to load is replaced by the fallback |
| PaymentQr.LeftOpen | Frontend/src/components/PaymentQR.jsx:26-46 | a dialog left open sends the visitor home at the 121st run of the effect, and the next run does nothing |
| AppointmentCta.ExclusionCoversSubpaths | Frontend/src/components/AppointmentCTA.jsx:31-33 | everything below an excluded page is excluded too |
| AppointmentCta.ExclusionExamples | Frontend/src/components/AppointmentCTA.jsx:21-33 | "/admin/doctors" and "/appointment" are excluded; "/administrator", "/" and "/doctors" are not |
| AppointmentCta.DiffersAt | Frontend/src/components/AppointmentCTA.jsx:32 | a path that differs from the excluded page plus "/" within both is not below that page, unless it is the page |
| AppointmentCta.Cta.constructor | Frontend/src/components/AppointmentCTA.jsx:10-13 | the button starts visible and shown, with no popup and no direct form |
| AppointmentCta.Cta.RouteChanged | Frontend/src/components/AppointmentCTA.jsx:19-36 | the button is allowed exactly on pages that are not excluded |
| AppointmentCta.Cta.Scrolled | Frontend/src/components/AppointmentCTA.jsx:39-47 | the button is visible exactly past 300 pixels of scrolling |
| AppointmentCta.Cta.HandleBookNowClick | Frontend/src/components/AppointmentCTA.jsx:49-56 | signed-in visitors go to the booking page; the others get the direct form, which hides the button |
| AppointmentCta.Cta.CloseDirectForm | Frontend/src/components/AppointmentCTA.jsx:62-64 | the direct form closes |
| AppointmentCta.BookingPageHasNoButton | Frontend/src/components/AppointmentCTA.jsx:19-75 | on the booking page the button is hidden, however far the page is scrolled |

## Left out

- Mail delivery: `sendEmail` is a parameter `mailer`. Each attempt is recorded with its result, and no reply depends on it. The HTML templates and their locale-formatted dates are not modelled.
- Payment gateway: `createPaymentRequest` and `verifyPayment` (Backend/utils/paymentUtils.js) are inputs. The QR rendering, the random reference and `Date.now` are not modelled, and neither is the fact that `verifyPayment` always reports success.
- Passwords and tokens: bcrypt hashing and comparison are a parameter, and so are JWT signing, verification and expiry. The pre-save hook that hashes the password is not modelled. `select: false` on the password is modelled by the profiles that leave it out (UserSchema.ProfileOf, UserController.AllDoctors).
- Image host: the Cloudinary upload and destroy calls are not modelled. The upload's result is an input, and a deletion returns the public id it would destroy.
- `validator.isEmail` is an abstract predicate held by the store, and so is `isDate`, whether Mongoose can cast a string to a `Date`.
- Dates of birth: a stored `dob` keeps the string as sent, not the normalised `Date`. The cast error of a `dob` that does not parse is listed in the `dob` path's place among the errors. Mongoose records a cast error when the value is set, so in the joined message it may come before the errors of earlier paths.
- PatchErrors (AppointmentSchema): the update body is followed only in `status`, `paymentStatus` and `hasVisited`. Its other paths are also `$set`, each with its own update validator and cast, and `appointmentNumber` with its unique index; the model neither checks nor applies them. `hasVisited` is an `Option<bool>`, so a body whose `hasVisited` is not a boolean (a cast error in the source) cannot be stated.
- ApplyPatch (AppointmentSchema): every field but those three is kept, which holds only for a body that carries no other path.
- UpdateAppointmentStatus (AppointmentController): the same restriction of the body. A body with other paths may change them, or be refused by their validators; the contract does not say so.
- ToLower (Common): ASCII letters only. JavaScript's `toLowerCase` also maps non-ASCII letters ("É" to "é").
- ToUpper (Common): ASCII letters only. JavaScript's `toUpperCase` also maps non-ASCII letters, sometimes to two characters ("ß" to "SS").
- Initials (AdminDashboard): upper-cases with ToUpper, so a non-ASCII initial is kept as typed.
- CharAt0 (AdminDashboard): a Dafny character is a whole Unicode scalar value, so for a string starting above U+FFFF the model returns that whole character where `charAt(0)` returns a lone high surrogate, which no Dafny string can hold.
- Initials (AdminDashboard): through CharAt0, a name starting above U+FFFF contributes its whole first character, where the page shows a lone high surrogate.
- Filtered (AdminMessages): lower-cases with ToLower, so a match that needs non-ASCII case folding is missed.
- BookItem (AppointmentController): an item without `appointment_date` is reported as "Appointment for  is missing required fields", where the source prints "undefined" for the date. The request model does not tell an absent field from an empty one.
- BookItems (AppointmentController): the same message for an item without a date.
- BookMultipleAppointments (AppointmentController): the same message for an item without a date.
- ValidAdminFormPassesBackend (AddAdmin): states only the handler's guards. `User.create` can still refuse a form the page accepts, for instance a six- or seven-character password (AddAdmin.ShortPasswordPassesPageOnly), a two-letter name or a phone that is not ten characters long.
- ValidDoctorFormAtBackend (AddDoctor): states only the handler's guards. `User.create` can still refuse the form, as for the admin form.
- CheckedFormPassesBackendGuards (AppointmentForm): states only the handler's guards. `Appointment.create` can still refuse the body, for instance a two-letter name or a phone that is not ten characters long.
- CallbackTarget (PaymentController): with no reference, `findOne` matches every payment and returns one of them. Mongoose does not say which; the model takes the first in natural order.
- AppointmentSchema.GenerateAppointmentNumber: the source retries forever while a drawn number is taken. The model draws from a finite sequence and reports that it ran out, and a handler that runs out gives no reply.
- Concurrency: the race between the number check and the insert, and concurrent requests in general, are not modelled. Every handler runs alone.
- Dates: `new Date(date)` and `toISOString` in the doctor's listing are replaced by the parsed day, given as input. `isToday` and `formatDate` on the admin dashboard are parameters because they depend on the locale and the clock.
- `getAllAppointments` returns the whole collection, which is the store's `appointments` field, so it has no member of its own.
- Randomness: the `Math.random` read flags of the admin's messages are part of the fetched input.
- Wiring: the Express app, the database connection and the routers are not modelled. The guard in front of each handler is the caller that the handler receives.
- User interface: toasts, animation, timers, navigation, `axios` and the DOM download are not modelled. Navigation and `onClose` appear only as returned effects.
- `localStorage` is the field `stored` of the language provider, and `window` is always present.
- LanguageContext.TranslateCases: texts are strings only. `translate`'s non-string keys, which `normalizeKey` passes through unchanged, are not modelled.
- AppointmentForm: the step display (`currentStep`), the authentication probe before submitting and the replies' toasts are not modelled. The slot editors are functions from the old list to the new one.
- AppointmentForm.SelectDoctor: the `JSON.parse` failure of a malformed option value is not modelled, because the drop-down only offers well-formed values.
- AppointmentForm.SelectDoctor: its branch that clears both names is not reached from the page, whose drop-down clears through two `updateAppointment` calls instead (AppointmentForm.DoctorDropDown).
- AddDoctor.DoctorPage.HandleImage: the `FileReader` that later sets the preview to the file's data URL is not modelled, so the preview changes only when the page resets it.
- DirectAppointmentForm.DirectForm.HandlePaymentSuccess: `resetForm` lowers the flag right after it is raised, so the once-only guard never holds after a success. The contract states this as the code does it. No payment dialog calls this handler, because PaymentQR.jsx never invokes `onPaymentSuccess`.
- AdminMessages: `getInitials` repeats the dashboard's and is modelled once, as AdminDashboard.Initials.
- AppointmentCta: `isPopupOpen` is never set to true and `closePopup` only lowers it, so the popup is a field that stays false.
- PaymentQr.Countdown.Tick: the one-second timer is not modelled. Each call is one run of the effect after the timer fires, and the one-second delay before the redirect is folded into that run.

## Findings

| source | as written | input that shows it | evidently intended | confidence | as-written member | corrected member |
|---|---|---|---|---|---|---|
| Backend/controller/paymentController.js:189 | the payment confirmation reads `appointment.doctor_firstName` and `appointment.doctor_lastName`, which no appointment has | any paid appointment, e.g. one with the doctor Asha Rao: the mail names "Dr. undefined undefined" | the appointment's `doctor.firstName` and `doctor.lastName` | not executed | PaymentController.PaymentMailIgnoresDoctor | PaymentController.PaymentMail |
| Frontend/src/pages/AdminDashboard.jsx:120-136 | the CSV joins cells with "," without quoting | an appointment whose formatted date is "Jan 5, 2025": its line has nine commas and reads as ten fields under nine headers | each cell quoted, so every line reads as nine fields | not executed | AdminDashboard.DateCommaShiftsColumns | AdminDashboard.LineHasNineFields |
| Frontend/src/components/AppointmentForm.jsx:54 | the department list offers "EAR, NOSE & THROAT (ENT)", and the CSV writes it unquoted | in any locale, an appointment in that department: its line has nine commas and reads as ten fields under nine headers | each cell quoted, so every line reads as nine fields | not executed | AdminDashboard.DepartmentCommaShiftsColumns | AdminDashboard.LineHasNineFields |
| Backend/controller/paymentController.js:165 | a callback's query without `refId` gives the filter `{ paymentRefId: undefined }`, which matches every payment | a callback with `status=SUCCESS` and no `refId` while any payment is stored: the first stored payment becomes SUCCESS and its appointment PAID | no payment updated when the callback names none | not executed | PaymentController.MissingRefSettlesFirstPayment | PaymentController.CallbackTargetIntended |
| Frontend/src/pages/AdminMessages.jsx:171-177 | changing the search or the filter keeps `currentPage` | on page 3 of a 13-message inbox, a search that leaves eight messages: page 3 is empty, so the empty state replaces the list and its page controls, and pages 1 and 2, which hold the eight, cannot be reached | the page brought back into 1..totalPages | not executed | AdminMessages.StrandedPage | AdminMessages.ShownPageNotEmpty |
