# DocSpot booking core in Dafny

DocSpot is a doctor-booking service. Customers register, browse approved
doctors and book appointment slots. Doctors register, wait for an admin to
approve them, then see and update their appointments. Admins approve or
reject doctor accounts. This project models the server's core and the
client's decision logic:

- **The account directory**: registration, login, profiles and admin approval.
- **The appointment ledger**: booking with its slot-conflict rule, listing
  one's own appointments, the doctor's status update and the customer's
  cancel.
- **The access gate** `protect(roles)`.
- **The route-to-role policy** of the four mounted routers.
- **The error normaliser** at the end of the pipeline.
- **The client's pure decisions**: the hash-route guard, the session flags
  with login, logout and restore, the redirect after login, the
  registration payload, and the booking-form check and payload.

How the server is represented:

- The MongoDB collections become two maps keyed by opaque ids, plus an id
  counter: `Database.Db`.
- Every state-changing handler is a function from `Db` to a `Step`. A
  `Step` is the reply (`Ok` or an `Error(status, message)`) together with
  the tables the handler leaves behind.
- `Server.Store` holds the same tables in fields. It has one method per
  handler that updates them in place. Each method is proved to leave
  exactly the state, and return exactly the reply, of its function.
- `Ledger.Run` folds a sequence of handlers over the tables. The
  invariants are proved over whole runs.

Foreign code is passed in, not modelled:

- bcrypt and jsonwebtoken are the fields of `Crypto.Library`. They are
  uninterpreted functions.
- Three predicates state the only facts assumed about them, and only in
  the lemmas that need them:
  - a signed token verifies back to its claims;
  - a token is one non-empty word;
  - a password matches its own hash.

Several replies differ from what the handlers seem to intend. The model
follows the code:

- **The gate reports every failure after a bearer header as 401.** The role
  and approval refusals set 403, but the catch block replaces it with 401
  "Not authorized, token failed".
- **A taken email and a taken slot are 400, not a conflict status (409).**
- **An error the handlers do not catch is 500.** Examples are Mongoose
  validation, the unique-email index on a profile update, and bcryptjs
  refusing a login body without a password. The error handler turns the
  still-unset 200 into 500.
- **Roles reach the client as strings.** The client reads `role` from the
  reply, so `LoginPage.RedirectFor` takes the role's text, and any unknown
  text goes to "#".

In request bodies, `""` stands for a field left out wherever the code
tests the field for truthiness. An `Option` is used where the code tests
for `undefined`: the doctor's notes and summary, and documents.

## Model

| member | source | states |
|---|---|---|
| ErrorMiddleware.ErrorHandler | server/middleware/errorMiddleware.js:10-20 | the reply status is 500 when the response status is still 200 and the set status otherwise (never 200); the body's message is the error's message; the stack is null exactly in production |
| ErrorMiddleware.NotFound | server/middleware/errorMiddleware.js:4-8 | a 404 error whose message is "Not Found - " followed by the URL |
| ErrorMiddleware.HandlerIdempotent | server/middleware/errorMiddleware.js:13-14 | normalising an already-normalised status changes nothing |
| ErrorMiddleware.HandlerKeepsHandlerStatus | server/middleware/errorMiddleware.js:13-16 | every status a handler of this API sets (400, 401, 403, 404, 500) reaches the client unchanged, with its message |
| ErrorMiddleware.NotFoundReply | server/middleware/errorMiddleware.js:4-20 | notFound followed by errorHandler is a 404 reply naming the URL |
| UserModel.ParseRole | server/models/User.js:20-24 | the enum admits exactly customer, doctor and admin, each to its own role |
| UserModel.ParseRoleName | server/models/User.js:20-24 | every role's name parses back to that role |
| UserModel.CreateAccount | server/models/User.js:7-55 | creation succeeds exactly when the schema accepts; the stored account satisfies the record invariant, defaults to customer and to unapproved, stores the hash of the password and keeps the given fields |
| Crypto.MatchPassword | server/models/User.js:58-60 | a password always matches the stored hash of itself, given that fact of bcrypt |
| UserModel.DoctorFieldsRequired | server/models/User.js:26-35 | a doctor document is refused without a non-empty specialty and location, and accepted with them |
| AppointmentModel.ParseStatus | server/models/Appointment.js:24-28 | the enum admits exactly the five statuses, each to its own status |
| AppointmentModel.ParseStatusName | server/models/Appointment.js:24-28 | every status's name parses back to that status |
| AppointmentModel.CreateAppointment | server/models/Appointment.js:6-41 | creation succeeds exactly when date and time are given; status defaults to pending, documents to [], notes and summary to "" |
| AuthController.GenerateToken | server/controllers/authController.js:7-11 | the token verifies to (id, role) and is one non-empty word, given those facts of the library |
| AuthController.RegistrationFields | server/controllers/authController.js:29-41 | approval is false exactly for role "doctor"; a missing role becomes customer; specialty and location are passed only for a doctor |
| AuthController.RegisteredAccountShape | server/controllers/authController.js:29-41 | a registered account is approved exactly when it is not a doctor; a missing role gives customer; any role given (admin included) is taken as given; only doctors carry specialty and location |
| AuthController.RegisterUser | server/controllers/authController.js:16-63 | a taken email gives 400 and creates nothing; a document the schema refuses gives a 500 whose message begins "User validation failed"; otherwise exactly one new account under a fresh id, and a reply with its fields, a token for every role and the role's message |
| AuthController.FindByEmail | server/controllers/authController.js:77 | the account holding the email, and none exactly when no account holds it |
| AuthController.AuthUser | server/controllers/authController.js:68-120 | unknown email and wrong password give the same 401; the password is checked before approval, so only a correct password of an unapproved doctor gives the pending 401; a body without a password gives a 500 once the email is found (bcryptjs refuses to compare); success returns exactly id, name, email, role and a token for (id, role) |
| AuthController.LoginFailuresAre401 | server/controllers/authController.js:77-118 | every failure of a login that carries a password is a 401 with one of the two messages; without a password the failure is a 401 exactly when the email is unknown, and a 500 otherwise |
| AuthController.LoginAfterRegister | server/controllers/authController.js:16-120 | after a successful registration, the same credentials log a customer or admin in with the registration's id and token, and tell a doctor the account is pending |
| AppointmentController.InactiveNeverBlocks | server/controllers/appointmentController.js:35-46 | the slot query sees only pending and scheduled appointments: completed, cancelled and rescheduled ones never block |
| AppointmentController.InsertKeepsSlotUnique | server/controllers/appointmentController.js:35-55 | inserting an appointment under a new id into a free slot keeps at most one active appointment per (doctor, date, time) |
| AppointmentController.FreeingKeepsSlotUnique | server/controllers/appointmentController.js:138-144 | changing one appointment to an inactive status, or keeping it active in its own slot, keeps slot uniqueness |
| AppointmentController.BookAppointment | server/controllers/appointmentController.js:8-71 | 404 for an unknown doctor id, then 400 for an account that is not an approved doctor, then 400 for a taken slot, then a 500 whose message begins "Appointment validation failed" for an empty date or time, nothing inserted in each case; otherwise exactly one new pending appointment of the caller with the given documents or [], and its id; accounts untouched; slot uniqueness preserved |
| AppointmentController.SecondBookingConflicts | server/controllers/appointmentController.js:35-46 | booking a slot just booked fails with the slot-taken 400, whoever the second customer is |
| AppointmentController.SlotTakenReplyExactly | server/controllers/appointmentController.js:35-46 | the slot-taken 400 is returned exactly when the doctor is an approved doctor and an active appointment already holds that doctor, date and time |
| AppointmentController.GetMyAppointments | server/controllers/appointmentController.js:76-110 | a customer gets exactly the appointments whose customer is the caller, a doctor exactly those whose doctor is the caller, each with the other party's public fields; any other role gets 403 |
| AppointmentController.BothPartiesSeeIt | server/controllers/appointmentController.js:84-96 | an appointment's customer and doctor both see it, as the same record |
| AppointmentController.ApplyStatusUpdate | server/controllers/appointmentController.js:140-144 | status is replaced only by a non-empty status and is refused outside the enum; notes and summary are replaced whenever defined, "" included; customer, doctor, date, time and documents are unchanged |
| AppointmentController.UpdateAppointmentStatus | server/controllers/appointmentController.js:115-155 | 404 for an unknown id, 401 when the caller is not the appointment's doctor, a 500 whose message begins "Appointment validation failed" for a status outside the enum, otherwise only that appointment changes, as ApplyStatusUpdate says |
| AppointmentController.StatusUpdateKeepsSlotUnique | server/controllers/appointmentController.js:126-144 | every status update that does not make an inactive appointment of the caller pending or scheduled again keeps slot uniqueness: confirming a pending appointment, completing, cancelling or rescheduling, and writing notes |
| AppointmentController.StatusUpdateCanDoubleBook | server/controllers/appointmentController.js:140 | a doctor setting a cancelled appointment back to pending can leave two active appointments in one slot |
| AppointmentController.CancelAppointment | server/controllers/appointmentController.js:160-195 | 404 for an unknown id, 401 when the caller is not the appointment's customer, otherwise the status becomes cancelled from any prior status and nothing else changes; slot uniqueness preserved |
| AppointmentController.CancelIdempotent | server/controllers/appointmentController.js:169-184 | cancelling twice is cancelling once |
| AdminController.GetPendingDoctorApprovals | server/controllers/adminController.js:8-17 | exactly the doctors with approval false, without passwords |
| AdminController.ApproveDoctor | server/controllers/adminController.js:22-44 | 404 for an unknown id, 400 for a non-doctor, otherwise approval becomes true and nothing else changes |
| AdminController.ApproveIdempotent | server/controllers/adminController.js:36-39 | approving twice is approving once |
| AdminController.RejectDoctor | server/controllers/adminController.js:49-70 | the same 404 and 400, otherwise the account is deleted, approved or not, and appointments are untouched |
| AdminController.RejectTwiceIsNotFound | server/controllers/adminController.js:51-56 | rejecting the same id again gives 404 |
| DoctorController.GetApprovedDoctors | server/controllers/doctorController.js:8-18 | exactly the approved doctors, without passwords |
| DoctorController.GetDoctorById | server/controllers/doctorController.js:23-37 | the account exactly when the id is an approved doctor's, otherwise 404 "Doctor not found or not approved" |
| DoctorController.ByIdAgreesWithList | server/controllers/doctorController.js:11-25 | the single lookup succeeds exactly for the ids on the public list, with the same entry |
| UserController.GetUserProfile | server/controllers/userController.js:8-26 | the caller's fields without the password, or 404 when the account is gone |
| UserController.ApplyProfileUpdate | server/controllers/userController.js:35-47 | name and email are replaced only by non-empty values, the password only when given (then hashed), specialty and location only for a doctor and only by non-empty values; role and approval never change; the record invariant is kept |
| UserController.UpdateUserProfile | server/controllers/userController.js:31-64 | 404 when the account is gone, a 500 whose message begins "E11000 duplicate key error" when the new email is another account's, otherwise only the caller's account changes and the reply is it without the password |
| UserController.ProfileAfterUpdate | server/controllers/userController.js:10-59 | reading the profile after an update gives what the update returned |
| AuthMiddleware.SecondField | server/middleware/authMiddleware.js:12 | split(' ')[1]: undefined exactly when there is no space, and never containing a space |
| AuthMiddleware.TokenOfBearerHeader | server/middleware/authMiddleware.js:9-12 | the gate reads back exactly the token a client puts after "Bearer " |
| AuthMiddleware.Protect | server/middleware/authMiddleware.js:6-51 | no bearer header gives 401 "Not authorized, no token"; every other rejection is 401 "Not authorized, token failed"; admission means a verified token of an existing account, a role in a non-empty list (any role for an empty one), and an approved doctor unless the path contains "/doctors/pending"; and every request meeting those conditions is admitted as that account |
| AuthMiddleware.RejectionsAre401 | server/middleware/authMiddleware.js:27-49 | every rejection of the gate is a 401, with one of its two messages |
| AuthMiddleware.BareBearerIsTokenFailure | server/middleware/authMiddleware.js:12-50 | a header of exactly "Bearer" is a failed token: the first error passed on wins |
| AuthMiddleware.EmptyRolesAdmitAnyRole | server/middleware/authMiddleware.js:27 | whatever some role list admits, the empty list admits too |
| AuthMiddleware.IssuedTokenAdmits | server/middleware/authMiddleware.js:9-39 | a token issued for an existing account opens every gate that allows its role, unless it is an unapproved doctor's, and req.user is that account |
| Routes.TableFollowsPolicy | server/routes/appointmentRoutes.js:17-26 | each route of the table grants exactly the roles of the stated policy: booking and cancel customers, the own list customers and doctors, the status update doctors, the admin routes admins, the auth and doctor routes everyone |
| Routes.Dispatch | server/routes/adminRoutes.js:14-16 | the route chosen is the first of the table matching method, mount point and path, and none is chosen exactly when none matches |
| Routes.Handle | server/server.js:73-76 | a request reaches no route exactly when no route of the table matches it; a gate rejection is a 401 with one of the gate's two messages; a handler is reached only through a matching route with that handler, with a user exactly when the route is protected |
| Routes.ReachOnlyByPolicy | server/routes/appointmentRoutes.js:17-26 | a handler is reached only by the roles the policy grants it, and a public one without a user |
| Routes.NoAdminOnAppointmentRoutes | server/routes/appointmentRoutes.js:17-26 | no admin reaches an appointment handler |
| Routes.OnlyAdminsOnAdminRoutes | server/routes/adminRoutes.js:14-16 | only admins reach an admin handler, approved doctors included in the refusal |
| Routes.MyAppointmentsNeverForbidden | server/routes/appointmentRoutes.js:20 | whoever reaches getMyAppointments gets the list: its 403 is unreachable through the table |
| Routes.StatusPathAvoidsPendingList | server/routes/appointmentRoutes.js:23 | a path "/:id/status" never contains "/doctors/pending" |
| Routes.DoctorRoutePathsAvoidPendingList | server/routes/appointmentRoutes.js:20-23 | no path of a route that admits doctors contains "/doctors/pending" |
| Routes.UnapprovedDoctorNeverAdmitted | server/routes/adminRoutes.js:14 | an unapproved doctor reaches no protected handler at all: the gate's path bypass applies only on the admin-only route |
| Routes.GrantedRolesAreAdmitted | server/routes/appointmentRoutes.js:17-26 | a customer, admin or approved doctor holding a token of their account reaches every handler the policy grants their role |
| Server.Store.constructor | server/server.js:13-14 | the store attaches to the collections as the database holds them |
| Server.Store.RegisterUser | server/controllers/authController.js:16-63 | the in-place registration leaves the tables and the reply of AuthController.RegisterUser |
| Server.Store.AuthUser | server/controllers/authController.js:68-120 | the lookup returns exactly AuthController.AuthUser |
| Server.Store.BookAppointment | server/controllers/appointmentController.js:8-71 | the in-place booking leaves the tables and the reply of AppointmentController.BookAppointment |
| Server.Store.UpdateAppointmentStatus | server/controllers/appointmentController.js:115-155 | the field-by-field update leaves the tables and the reply of AppointmentController.UpdateAppointmentStatus |
| Server.Store.CancelAppointment | server/controllers/appointmentController.js:160-195 | the in-place cancel leaves the tables and the reply of AppointmentController.CancelAppointment |
| Server.Store.ApproveDoctor | server/controllers/adminController.js:22-44 | the in-place approval leaves the tables and the reply of AdminController.ApproveDoctor |
| Server.Store.RejectDoctor | server/controllers/adminController.js:49-70 | the deletion leaves the tables and the reply of AdminController.RejectDoctor |
| Server.Store.UpdateUserProfile | server/controllers/userController.js:31-64 | the field-by-field update leaves the tables and the reply of UserController.UpdateUserProfile |
| Ledger.Apply | server/server.js:73-76 | one request keeps the table invariant; account requests leave the appointments alone and appointment requests the accounts |
| Ledger.Run | server/server.js:73-76 | every sequence of requests keeps the table invariant (ids below the counter, unique emails, valid records) |
| Ledger.ApplyKeepsSlotUnique | server/controllers/appointmentController.js:35-184 | each request that does not re-activate an inactive appointment, judged on the tables it is applied to, keeps slot uniqueness |
| Ledger.RunKeepsSlotUnique | server/controllers/appointmentController.js:35-184 | under sequential requests none of which re-activates an inactive appointment (each judged on the tables the requests before it leave), at most one pending or scheduled appointment holds each (doctor, date, time); confirmations are included |
| Ledger.FromEmptySlotsStaySingle | server/controllers/appointmentController.js:35-55 | from the empty database every run without a re-activation keeps slots single |
| Ledger.DoctorListsPartition | server/controllers/doctorController.js:11 | every doctor is on exactly one of the public list and the pending list, and no one else is on either |
| Ledger.ApproveMovesBetweenLists | server/controllers/adminController.js:36-39 | approval moves the doctor from the pending list to the public list and changes no other entry |
| Ledger.RejectRemovesFromLists | server/controllers/adminController.js:63 | rejection takes the doctor off both lists |
| Ledger.DoctorLifecycle | server/controllers/authController.js:91-100 | a registered doctor is pending and login says so; after approval the same credentials log in; after rejection they get the generic 401 |
| AuthContext.DeriveFlags | client/src/context/AuthContext.js:55-58 | authenticated exactly with a user and a token; each role flag exactly for its role name; all role flags false without a user |
| AuthContext.AtMostOneRole | client/src/context/AuthContext.js:56-58 | at most one role flag holds |
| AuthContext.RestoreFrom | client/src/context/AuthContext.js:16-39 | the stored pair is restored only when both entries exist; a user entry that does not parse signs out; otherwise the state stays |
| AuthContext.ReloadAfterLogin | client/src/context/AuthContext.js:16-46 | reloading after a login with a token restores that session, authenticated |
| AuthContext.ReloadAfterLogout | client/src/context/AuthContext.js:16-53 | reloading after a logout stays signed out with every flag false |
| AuthContext.AuthProvider.constructor | client/src/context/AuthContext.js:9-10 | the provider mounts with no user and no token |
| AuthContext.AuthProvider.Login | client/src/context/AuthContext.js:41-46 | login sets the user and the token and stores both |
| AuthContext.AuthProvider.Logout | client/src/context/AuthContext.js:48-53 | logout clears the user, the token and their stored copies, leaving every flag false; the state it leaves does not depend on the state before, so it is idempotent |
| AuthContext.AuthProvider.Restore | client/src/context/AuthContext.js:16-39 | the start-up effect sets the session RestoreFrom gives, and clears storage only on an unparsable user entry |
| AppRouter.RenderContent | client/src/App.js:28-46 | a dashboard is shown only on its own hash to an authenticated user of its role; the login page only on its hash or a dashboard hash; the register page exactly on its hash |
| AppRouter.PageConditions | client/src/App.js:28-46 | login and register pages for anyone; each dashboard exactly for an authenticated user of its role, the login page otherwise; the home page for every other hash |
| AppRouter.SignedOutSeesNoDashboard | client/src/App.js:34-42 | signed out, no hash shows a dashboard |
| AppRouter.App.HashChanged | client/src/App.js:22-26 | the hashchange listener sets the current hash |
| LoginPage.RedirectFor | client/src/pages/Auth/LoginPage.js:30-42 | customer to "#user-dashboard", doctor to "#doctor-dashboard", admin to "#admin-dashboard", anything else to "#" |
| LoginPage.RedirectIsAdmitted | client/src/pages/Auth/LoginPage.js:23-42 | for each of the three roles, the redirect shows that role's dashboard once the session is set |
| LoginPage.NoTokenNoDashboard | client/src/pages/Auth/LoginPage.js:26-42 | without a token the redirect shows no dashboard |
| LoginPage.LoginForm.HandleSubmit | client/src/pages/Auth/LoginPage.js:15-48 | success logs in with exactly id, name, email and role plus the token and redirects by role; failure shows the server message or the fallback, with no login and no redirect; loading ends false |
| RegisterPage.BuildRegistrationPayload | client/src/pages/Auth/RegisterPage.js:24-28 | name, email, password and role always; specialty and location exactly for role doctor |
| RegisterPage.FormRegistersNoAdmin | client/src/pages/Auth/RegisterPage.js:82-83 | an account the server creates from a form payload is an approved customer or a pending doctor with the form's specialty and location, never an admin |
| RegisterPage.RegisterForm.constructor | client/src/pages/Auth/RegisterPage.js:8-16 | the form starts empty with role customer and loading false |
| RegisterPage.RegisterForm.SelectRole | client/src/pages/Auth/RegisterPage.js:77-84 | only the offered roles can be chosen; nothing else changes |
| RegisterPage.RegisterForm.HandleSubmit | client/src/pages/Auth/RegisterPage.js:18-41 | the payload sent is BuildRegistrationPayload of the fields; success shows the server message, failure the server message or "Registration failed"; loading ends false |
| BookingModal.DateShapeIsConcatenation | client/src/components/BookAppointmentModal.js:18 | the date check is four digits, a dash, two digits, a dash, two digits, and nothing more |
| BookingModal.CalendarIsNotChecked | client/src/components/BookAppointmentModal.js:18-19 | the dialog accepts "2025-13-45" and "2025-02-29", which are not days of the calendar; a short date or an empty time is refused |
| BookingModal.MenuSlotsAccepted | client/src/components/BookAppointmentModal.js:57-61 | every time slot of the menu passes the check |
| BookingModal.BuildBookingPayload | client/src/components/BookAppointmentModal.js:24-31 | doctor id and the entered strings, documents [name] when a file was chosen and [] otherwise |
| BookingModal.AcceptedBookingIsStored | client/src/components/BookAppointmentModal.js:17-33 | a submission the dialog accepts whose date is a day of the calendar, for an approved doctor and a free slot, books on the server: the stored appointment is pending with the entered date and time and exactly the documents the dialog sent |
| BookingModal.BookingDialog.HandleFileChange | client/src/components/BookAppointmentModal.js:11-15 | only the first selected file's name is kept; no selection changes nothing |
| BookingModal.BookingDialog.HandleSubmit | client/src/components/BookAppointmentModal.js:17-33 | a missing date or time, or a date of the wrong shape, shows the error and calls neither onBook nor onClose; otherwise the error is cleared, onBook gets the payload and the dialog closes |

## Left out

- Network and database I/O, console logging, Socket.IO and CORS (server/server.js) are not modelled. The axios client (client/src/services/api.js) is not modelled either. Each client method takes its server reply as a parameter.
- List order is not modelled. The collections and the lists returned are maps keyed by id, so `find` and `populate` order is lost.
- ObjectId casting is not modelled. A malformed id makes `findById` throw, which surfaces as a 500; the model treats an id as present or absent.
- The stored `Date` is not modelled: a date is an opaque string compared by equality. Two different strings for one instant are one slot on the server and two in the model.
- AppointmentController.BookAppointment: books any non-empty date string. On the server, a date that JavaScript's `Date` cannot read (such as "2025-13-45", which the booking dialog lets through) fails the cast in the slot query with a 500, and nothing is stored. BookingModal.AcceptedBookingIsStored therefore requires a date of the calendar.
- Timestamps (`createdAt`, `updatedAt`) are not modelled.
- bcrypt salting and JWT expiry are not modelled. They are folded into the uninterpreted library; a token may expire, but the model proves only what holds for a token the library verifies.
- The pre-save hook calls `next()` without returning and then hashes again (server/models/User.js:49-54). Whether a later save re-hashes the stored password depends on Mongoose hook timing.
- AdminController.ApproveDoctor: keeps the stored password unchanged, which assumes the re-hash on save does not take effect.
- UserController.ApplyProfileUpdate: keeps the stored password when none is given, assuming the re-hash on save does not take effect.
- The messages of library exceptions are reduced to their leading words. The contracts state the 500 status and that the message begins with those words. Examples are "User validation failed" and "Appointment validation failed" from Mongoose, "E11000 duplicate key error" from MongoDB, and "Illegal arguments" from bcryptjs.
- Ledger.FromEmptySlotsStaySingle: starts from an empty database, which the server never does. Ledger.RunKeepsSlotUnique covers any valid database in which slots are unique.
- Server.Store.constructor: requires the invariant of `Database.Valid` of the collections it attaches to. That invariant holds of a database written only by this server, where the id counter stands in for fresh ObjectIds.
- Booking is one atomic step. The check-then-insert race between two concurrent bookings is a concurrency matter and is left out.
- A header that starts with "Bearer" but whose second space-separated field is missing or empty makes Express call `next` twice. Examples are "Bearer", "Bearer ", "Bearerxyz" and "Bearer  x". The model reports the first error, a failed token.
- Express matches paths case-insensitively and ignores a trailing slash. The model matches exact segments.
- An unmatched URL gets Express's default 404, because `notFound` is defined but not mounted (server/server.js:80).
- server/routes/userRoutes.js is not mounted and would not load (it imports `authorizeRoles`, which does not exist). The profile handlers are modelled directly and have no route in the table.
- `findOne({ email })` with an undefined email is not modelled: an absent email is "", and "" is never stored, because the schema requires the email.
- A notes or summary value of `null` in an update body is not distinguished from a string.
- AuthContext.AuthProvider.Restore: does not model the logging branch for `window.__initial_auth_token`, which changes no state.
- The browser's storage and `window.location.hash` are fields of the client classes. React re-rendering is not modelled.
- Presentation-only client files are not part of this model: the dashboards, the home page, the header, the footer, the doctor card, the theme, the page container and index.js.
