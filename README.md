# cisne: authorization and relational integrity, in Dafny

This project models the core of the cisne back end and of its home page. The back end is an
Express/Sequelize API for therapy centres, therapists and patients. The page registers and
logs users in.

Every request handler is a short protocol: a fixed chain of guards (a missing field gives 400,
an unknown row 404, a taken key 409, a wrong token or role 401/403), then one or two writes to
the relational store. The model states, for each handler, which answer it gives for which
input and what the store looks like afterwards, and proves that the store's invariants are
kept.

## Structure

| module | file | models |
|---|---|---|
| `JsValues` | js_values.dfy | the JavaScript value semantics the code relies on: truthiness, `\|\|`, `??`, `trim`, `toLowerCase`, `split`/`join`, `replace(/\s+/g, " ")`, `includes`/`LIKE`, `Number()` |
| `Http` | http.dfy | status codes, token claims, the request object (`req.user` is mutable), symbolic bcrypt and JWT |
| `Query` | query.dfy | `WHERE`, `ORDER BY` and `LIMIT` over a table's rows |
| `Schema` | schema.dfy | backend/models/cisne.model.js as a class `Store` with one field per table, its unique and foreign-key invariants (`Valid`, `Linked`), and write primitives that refuse what its keys and unique and foreign-key constraints refuse (column widths are not modelled) |
| `AuthService` | auth_service.dfy | backend/services/auth.service.js: `splitFullName`, `normalizeRole`, the uniqueness checks, `createProfileByRole`, the `register` transaction, `login` |
| `AuthController`, `AuthRoutes` | auth_controller.dfy, auth_routes.dfy | the register/login controller that backend/routes/authRoutes.js wires, and the validators that router puts in front of it |
| `AuthJwt`, `RoleMiddleware` | auth_jwt.dfy, role_middleware.dfy | `verifyToken`, `requireRole`, `allowRoles` |
| `Router` | router.dfy | Express dispatch: the first declared route whose verb and pattern accept a request, and the middleware in front of it |
| `CentreRoutes`, `ResourceRoutes` | centre_routes.dfy, resource_routes.dfy | the two routers' tables of paths, handlers and roles |
| `CentreController`, `TherapistController`, `PatientController`, `UserController`, `ResourceController`, `CourseController`, `ServiceController`, `InvoiceController` | one file each | the guarded inserts, updates and deletes of each controller, and its list and search filters |
| `HomePage` | home_page.dfy | frontend/src/app/home/home.page.ts: `mapRole`, the password match, `applyRegisterValidators` as a class whose method rewrites the form's controls, and the payloads `onRegister` and `onLogin` send |

Handlers that change the store are module-level methods that take the store `s: Store` and
may modify only the tables they write (`modifies s\`centres`). The write primitives they call,
one per table and constraint, are the methods of `Schema.Store`. Each handler states its answer
and its whole new state (`s.centres == old(s.centres)[id := row]`), and keeps `Valid()` (keys
unique, autoincrement counters fresh) and `Linked()` (every foreign key and join-table pair
names existing rows). List and search handlers are functions over the rows of a table in scan
order.

## Where the code and the documented design differ

The model follows the code in each case.

- `normalizeRole` (backend/services/auth.service.js:25-28) does not reject an unknown role. It
  turns any role other than PATIENT, THERAPIST or CENTRE, ADMIN included, into PATIENT.
- `authController.register` accepts ADMIN, because its route's validator allows it
  (backend/routes/authRoutes.js:12). It stores the role without creating a profile.
- Two register/login implementations exist: backend/routes/authRoutes.js:7-26 wires
  `authController`, while backend/services/auth.service.js implements the transactional
  `register` and `login`. Which one serves `/api/auth` is decided by backend/routes/index.js,
  which is not part of this model. Both are modelled; the home page's payload is tied to the
  service's checks.
- backend/models/cisne.model.js:15-29 declares `User` with only `Id_user` and `email`. As
  written, the library drops the undeclared `password` and `role` on insert, so `login`
  reaches `bcrypt.compare(password, undefined)`, which throws (500). The model's users keep
  both fields, so AuthService.RegisterThenLogin and AuthController.RegisterThenLogin hold only
  for a schema that declares them.
- The same file declares no `name` or `phone` on `Centre` and no `firstname`, `lastname` or
  `phone` on `Therapist` and `Patient`, yet backend/services/auth.service.js:83-141 and
  backend/controllers/centreController.js:97,130 write them. The model's rows carry them.
- patientController.js, resourceController.js and invoiceController.js take their models from
  `../sequelize-models`, a module that is not part of this model. courseController.js and
  serviceController.js import theirs from cisne.model.js, but three of their handlers nest
  `require('../sequelize-models').User` inside a cisne.model.js `include`:
  `getCourseTherapists` (backend/controllers/courseController.js:254), `getCourseCentres`
  (backend/controllers/courseController.js:295) and `getServicePatients`
  (backend/controllers/serviceController.js:239). Whether that include resolves or the library
  throws (500) depends on the unseen module. The model assumes both modules share one `User`
  model and gives every controller the one `Schema.Store`, so CourseController.GetCourseTherapists,
  CourseController.GetCourseCentres and ServiceController.GetServicePatients answer 404 or 200.
- `updateCourse` and `updateService` pass the invoice reference to `update` without looking it
  up. A value that does not read as a number is refused by the database (500), and so is a
  number with no invoice row.
- `createTherapist` checks a NIF only against therapists. `createPatient` checks it only
  against patients. Registration checks both tables.
- `removeTherapistFromCentre` answers 200 even when the centre does not employ the therapist.
- There is no `GET /api/centres/me` route. That path reaches the public `getCentreById`
  with the id "me". The `/me/...` routes come after the public `GET /:id` but before
  `/:id/therapists` and `/:id/courses`, so each of them answers its own path.
- `createServiceInvoice` and `createCourseInvoice` write two rows without a transaction. When
  the second write is refused, the invoice row stays.
- `updateCentre`, `updateTherapist`, `updatePatient`, `updateUser` and `updateInvoice` skip
  their uniqueness pre-check for a present but empty value. Such a value reaches the store, which
  refuses a duplicate (500).
- backend/routes/resourceRoutes.js:31-32 hands `getMyResources` and `getPatientFeed` to the
  router, but backend/controllers/resourceController.js exports neither. Express is given
  `undefined` for them and throws when the module loads, so as written no resource route is
  served. ResourceRoutes models the declared table as if both handlers existed.

## Model

| member | source | states |
|---|---|---|
| JsValues.OrElse | backend/services/auth.service.js:158-159 | a logical OR with a default: a present non-empty string is kept, null, undefined and the empty string give the default |
| JsValues.OrNull | backend/services/auth.service.js:89-90 | a logical OR with null: the result is present exactly when x is a non-empty string, and then it is x |
| JsValues.Coalesce | backend/services/auth.service.js:123-126 | `a ?? b`: a present value (even the empty string) is kept; only null or undefined falls through to b |
| JsValues.TrimStart | backend/services/auth.service.js:16 | the result is a suffix of the input that starts with no whitespace, and only whitespace was removed |
| JsValues.TrimEnd | backend/services/auth.service.js:16 | the result is a prefix of the input that ends with no whitespace, and only whitespace was removed |
| JsValues.Trim | backend/services/auth.service.js:16 | trim never lengthens a string and leaves no whitespace at either end |
| JsValues.TrimSpec | backend/services/auth.service.js:16 | what trim removes is whitespace, and only at the two ends: the result is the input with a run of whitespace cut from each end |
| JsValues.TrimOfTrimmed | backend/services/auth.service.js:16 | a string with no whitespace at either end is its own trim |
| JsValues.CollapseLength | backend/services/auth.service.js:16 | replacing whitespace runs by one space never lengthens a string and keeps a non-empty one non-empty |
| JsValues.CollapseFirst | backend/services/auth.service.js:16 | the collapsed string starts with a space exactly when the input starts with whitespace |
| JsValues.CollapseBlanks | backend/services/auth.service.js:16 | after the replacement the only whitespace is single ' ' characters |
| JsValues.CollapseLast | backend/services/auth.service.js:16 | the collapsed string ends with a space exactly when the input ends with whitespace |
| JsValues.CollapseKeepsWords | backend/services/auth.service.js:16 | the replacement keeps every non-whitespace character in order |
| JsValues.ToLower | backend/services/auth.service.js:158 | lower-casing keeps the length and maps every character through the A-Z to a-z table |
| JsValues.NormalizeEmailIdempotent | backend/services/auth.service.js:204 | trimming and lower-casing an email a second time changes nothing |
| JsValues.NormalizeEmail | backend/services/auth.service.js:204 | the normalised email is no longer than the given one and has no whitespace at either end; an absent email normalises to "" |
| JsValues.ToLowerIdempotent | backend/services/auth.service.js:158 | lower-casing twice is lower-casing once |
| JsValues.IndexOf | backend/services/auth.service.js:19 | the result is the first position holding the character, or the length when it is absent |
| JsValues.Split | backend/services/auth.service.js:19 | split gives at least one part, no part holds the separator, and the first part is the text before the first separator |
| JsValues.JoinSplit | backend/services/auth.service.js:19-21 | joining the parts of a split with the same separator gives the original string back |
| JsValues.Contains | backend/controllers/centreController.js:287-288 | `LIKE '%q%'` matches exactly when q occurs in the column at some position |
| JsValues.ToNumber | backend/controllers/centreController.js:23 | `Number(v)`: a number is itself, blank text is 0, and text that is decimal digits once trimmed is their value |
| JsValues.DecimalString | backend/controllers/centreController.js:23 | the decimal text of a natural number is non-empty and made only of digits |
| JsValues.DigitsValueOfDecimal | backend/controllers/centreController.js:23 | reading the decimal text of n gives n back |
| JsValues.DecimalTextIsSameNumber | backend/controllers/centreController.js:23 | an id in the URL ("5") and the same id in a token (5) compare equal under `Number()` |
| Query.Select | backend/controllers/serviceController.js:17-44 | a row is kept exactly when it is in the table and satisfies the WHERE filter, as often as it occurs there, and never more rows than the table has |
| Query.SortBy | backend/controllers/serviceController.js:43 | ORDER BY gives the same rows (same multiset, same count) in key order, ascending or descending |
| Query.Take | backend/controllers/userController.js:293 | LIMIT n gives a prefix of the rows of length min(n, row count) |
| Query.TakeKeepsTop | backend/controllers/resourceController.js:383-384 | after ORDER BY … DESC LIMIT n, a row left out ranks no higher than any row kept |
| Query.DateKey | backend/controllers/serviceController.js:43 | a NULL date sorts below every date and a present date is its own key |
| Query.SelectSorted | backend/controllers/serviceController.js:36-44 | filter then order: the result is ordered and holds exactly the matching rows with their multiplicities |
| Query.SelectAll | backend/controllers/centreController.js:285-290 | an empty WHERE, which every row satisfies, returns the whole table in scan order |
| Router.DispatchFrom | backend/routes/centreRoutes.js:32-92 | the index found is the first route from k on whose verb and pattern accept the request; none is found only when no such route accepts it |
| Router.Dispatch | backend/routes/centreRoutes.js:32-92 | Express answers with the first declared route whose verb and pattern accept the request, and with none (404) only when no route accepts it |
| Router.DispatchFromIsFirst | backend/routes/centreRoutes.js:32-92 | a route that accepts the request, with no accepting route between k and it, is the one found from k |
| Router.DispatchIsFirst | backend/routes/centreRoutes.js:32-92 | the first declared route that accepts a request is the one that handles it |
| Router.Gate | backend/routes/centreRoutes.js:37-42 | a public route lets every request through; a guarded one answers as requireRole does with its roles |
| Router.Admit | backend/routes/centreRoutes.js:32-92 | the handler is that of the first accepting route, or none; a public route continues and leaves req.user alone; a guarded one continues exactly when the Bearer token verifies to claims whose role is one of the route's roles |
| Schema.Find | backend/models/cisne.model.js:15-20 | `findByPk(v)` finds a row exactly when `v` is a number, or a string that reads as one, and a row has that key; the key found is that number |
| Schema.ForeignKey | backend/models/cisne.model.js:176-182 | an absent foreign-key field is null; a present one is the number it coerces to (the handlers write it only when it reads as a number) |
| Schema.DateOrToday | backend/models/cisne.model.js:346-348 | a given date is kept; an absent one becomes today |
| Schema.Store.constructor | backend/models/cisne.model.js:15-424 | the empty database satisfies every unique and foreign-key constraint |
| Schema.Store.FindUserByEmail | backend/models/cisne.model.js:21-25 | finds a user exactly when some user has the email, and the user found has it |
| Schema.Store.InsertUser | backend/models/cisne.model.js:15-25 | the insert succeeds exactly when the email is unused; the new row gets the next auto-increment key, which was free; a refused insert changes nothing; unique emails and foreign keys are kept |
| Schema.Store.UpdateUser | backend/models/cisne.model.js:21-25 | the write succeeds exactly when no other user has the new email; only that row changes |
| Schema.Store.DeleteUser | backend/models/cisne.model.js:15-29 | exactly that user row is removed and the unique constraints still hold |
| Schema.Store.InsertInvoice | backend/models/cisne.model.js:31-41 | succeeds exactly when the invoice number is unused; the new row gets the next auto-increment key, which was free; a refused insert changes nothing |
| Schema.Store.UpdateInvoice | backend/models/cisne.model.js:37-41 | succeeds exactly when no other invoice has the number; only that row changes |
| Schema.Store.DeleteInvoice | backend/models/cisne.model.js:31-58 | exactly that invoice row is removed |
| Schema.Store.InsertServiceInvoice | backend/models/cisne.model.js:60-72 | succeeds exactly when the key is an existing invoice that is not already a service invoice; then exactly that key is added |
| Schema.Store.InsertCourseInvoice | backend/models/cisne.model.js:74-86 | succeeds exactly when the key is an existing invoice that is not already a course invoice; then exactly that key is added |
| Schema.Store.InsertService | backend/models/cisne.model.js:88-120 | succeeds exactly when its invoice reference is null or a service invoice; the new row gets the next free key |
| Schema.Store.UpdateService | backend/models/cisne.model.js:94-100 | succeeds exactly when the invoice reference resolves; only that row changes |
| Schema.Store.DeleteService | backend/models/cisne.model.js:88-120 | exactly that service row is removed |
| Schema.Store.InsertCourse | backend/models/cisne.model.js:122-157 | succeeds exactly when its invoice reference is null or a course invoice; the new row gets the next free key |
| Schema.Store.UpdateCourse | backend/models/cisne.model.js:128-134 | succeeds exactly when the invoice reference resolves; only that row changes |
| Schema.Store.DeleteCourse | backend/models/cisne.model.js:122-157 | exactly that course row is removed |
| Schema.Store.InsertResource | backend/models/cisne.model.js:235-253 | the new row gets the next free key and nothing else changes |
| Schema.Store.UpdateResource | backend/models/cisne.model.js:235-253 | only that resource row changes |
| Schema.Store.DeleteResource | backend/models/cisne.model.js:235-253 | exactly that resource row is removed |
| Schema.Store.InsertCentre | backend/models/cisne.model.js:159-186 | succeeds exactly when the key is an existing user that is not yet a centre, the CIF is unused and the service reference resolves; then exactly that row is added |
| Schema.Store.UpdateCentre | backend/models/cisne.model.js:168-182 | succeeds exactly when no other centre has the CIF and the service reference resolves; only that row changes |
| Schema.Store.DeleteCentre | backend/models/cisne.model.js:159-186 | exactly that centre row is removed |
| Schema.Store.InsertTherapist | backend/models/cisne.model.js:188-211 | succeeds exactly when the key is an existing user that is not yet a therapist and no therapist has the NIF; then exactly that row is added |
| Schema.Store.UpdateTherapist | backend/models/cisne.model.js:197-201 | succeeds exactly when no other therapist has the NIF; only that row changes |
| Schema.Store.DeleteTherapist | backend/models/cisne.model.js:188-211 | exactly that therapist row is removed |
| Schema.Store.InsertPatient | backend/models/cisne.model.js:213-233 | succeeds exactly when the key is an existing user that is not yet a patient and no patient has the NIF; then exactly that row is added |
| Schema.Store.UpdatePatient | backend/models/cisne.model.js:222-226 | succeeds exactly when no other patient has the NIF; only that row changes |
| Schema.Store.DeletePatient | backend/models/cisne.model.js:213-233 | exactly that patient row is removed |
| Schema.Store.AddEmploys | backend/models/cisne.model.js:257-280 | succeeds exactly when the centre and the therapist exist and the pair is new (composite key); then exactly that row is added, with its contract |
| Schema.Store.RemoveEmploys | backend/models/cisne.model.js:257-280 | the pair's row, if any, is removed and nothing else changes |
| Schema.Store.AddTreats | backend/models/cisne.model.js:282-305 | succeeds exactly when the therapist and the patient exist and the pair is new; then exactly that row is added, with its report |
| Schema.Store.SetReport | backend/models/cisne.model.js:299-301 | only the report of that pair changes |
| Schema.Store.RemoveTreats | backend/models/cisne.model.js:282-305 | the pair's row, if any, is removed and nothing else changes |
| Schema.Store.AddPays | backend/models/cisne.model.js:307-327 | succeeds exactly when the patient and the service exist and the pair is new; then exactly that pair is added |
| Schema.Store.AddPosts | backend/models/cisne.model.js:329-352 | succeeds exactly when the centre and the course exist; the pair is then present, with the given date or the date it already had; every other pair is unchanged |
| Schema.Store.AddBuys | backend/models/cisne.model.js:354-377 | succeeds exactly when the therapist and the course exist; the pair is then present, with the given date or the date it already had; every other pair is unchanged |
| Schema.Store.AddPublish | backend/models/cisne.model.js:379-402 | succeeds exactly when the therapist and the resource exist; the pair is then present, with the given date or the date it already had; every other pair is unchanged |
| Schema.Store.AddConsume | backend/models/cisne.model.js:404-424 | succeeds exactly when the patient and the resource exist; the pair is then present (a set, so once) |
| Schema.LinkedUnchanged | backend/models/cisne.model.js:257-424 | whether every foreign key resolves depends only on the tables, not on the auto-increment counters |
| AuthService.SignToken | backend/services/auth.service.js:6-12 | the signed claims are exactly the user's id, email and role |
| AuthService.CleanNameShape | backend/services/auth.service.js:16 | the cleaned full name has no blank at either end and keeps only single spaces between words |
| AuthService.SplitCleanRejoins | backend/services/auth.service.js:19-22 | a non-empty cleaned name splits into a non-empty first word with no whitespace, and the first word, a space and the rest give back the cleaned name |
| AuthService.SplitFullNameRejoins | backend/services/auth.service.js:15-23 | a blank full name splits into two empty strings; any other name splits into a first word without whitespace and a last name that together give back the cleaned name |
| AuthService.SplitFullName | backend/services/auth.service.js:15-23 | the first name is empty exactly when the trimmed, collapsed full name is blank, and there is no last name without a first name |
| AuthService.NormalizeRole | backend/services/auth.service.js:25-28 | the result is always PATIENT, THERAPIST or CENTRE and never ADMIN; those three roles are kept as given; anything else becomes PATIENT |
| AuthService.NormalizeRoleIdempotent | backend/services/auth.service.js:25-28 | normalising a normalised role changes nothing |
| AuthService.EnsureUniqueEmail | backend/services/auth.service.js:30-37 | raises exactly when some user already has the email, and then 409 with its message |
| AuthService.EnsureUniqueNif | backend/services/auth.service.js:39-55 | an empty NIF is never checked; otherwise raises 409 exactly when a therapist or a patient holds the NIF; a therapist holding it gives the therapist message |
| AuthService.EnsureUniqueCif | backend/services/auth.service.js:57-65 | raises 409 exactly when the CIF is non-empty and some centre holds it |
| AuthService.ProfileError | backend/services/auth.service.js:67-152 | every profile error is a 400 or a 409; a role other than the three public ones gives 400 "Rol no soportado."; a patient or therapist without fullName and nif gives 400, and otherwise the NIF check decides; a centre missing its CIF, name or location (after the alias fall-backs) gives 400, and otherwise the CIF check decides |
| AuthService.InsertProfile | backend/services/auth.service.js:83-145 | after the checks passed, exactly the row of the role is added under the user's id, and the other two profile tables are unchanged; the store stays well-formed and linked |
| AuthService.CreateProfileByRole | backend/services/auth.service.js:67-152 | the error is exactly the checks' error; on an error no profile table changes; otherwise exactly the role's row is added, with the full name split into first and last name and "-" for an empty last name |
| AuthService.RegisterError | backend/services/auth.service.js:158-173 | a blank normalised email gives 400 "Email es requerido."; a password shorter than 6 characters gives 400; otherwise a taken email gives 409, and then the profile checks of the normalised role decide |
| AuthService.RegisterTransaction | backend/services/auth.service.js:155-200 | fails exactly when the profile checks fail, with their error, and then the users and profile tables are as they were (rollback); on success the new user is under a fresh id and exactly the profile row of its role is added; every profile keeps its user |
| AuthService.Register | backend/services/auth.service.js:154-201 | fails exactly when the register checks fail, with their error, and then nothing is written; on success exactly one user row (normalised email, password hash, normalised role) and exactly one profile row of that role are added, and the session holds the token and claims of that user |
| AuthService.Login | backend/services/auth.service.js:203-229 | a blank email or password gives 400; an unknown email and a wrong password give the same 401 message; a user with no stored hash makes bcrypt throw (500); succeeds exactly when some user has the normalised email and the hash of the password; the session then carries that user's claims and a token signed for that user |
| AuthService.RegisterTwice | backend/services/auth.service.js:154-201 | once a registration succeeded, a second one whose email normalises to the same email fails with 409 |
| AuthService.RegisterThenLogin | backend/services/auth.service.js:154-229 | after a successful registration, a login with the same email and password succeeds and answers the same claims |
| RoleMiddleware.AllowRoles | backend/middlewares/role.js:1-14 | lets a request through exactly when it carries claims with a non-empty role that is in the permitted list; otherwise 401 without a role and 403 with a role not on the list; passes and fails on the same requests as requireRole, with the same status codes |
| AuthJwt.HeaderToken | backend/middlewares/authJwt.js:7-10 | an accepted header yields a non-empty token with no space in it |
| AuthJwt.HeaderTokenShape | backend/middlewares/authJwt.js:7-10 | an accepted Authorization header is "Bearer ", then a non-empty token with no space in it, then either nothing or text starting with a space |
| AuthJwt.HeaderTokenAt | backend/middlewares/authJwt.js:7-10 | the accepted token is the text between the first space after "Bearer" and the next space, and it is not empty |
| AuthJwt.PrefixShape | backend/middlewares/authJwt.js:7-10 | a space-free run that follows "Bearer " in a header is a token that header carries in the `Bearer <token>` form |
| AuthJwt.BearerHeaderRoundTrip | backend/middlewares/authJwt.js:7-10 | a non-empty token without spaces, sent as `Bearer <token>`, is read back unchanged |
| AuthJwt.VerifyToken | backend/middlewares/authJwt.js:3-19 | 401 with its own message for a missing header, a header that is not `Bearer <token>`, and a token verification rejects; the request continues exactly when all three checks pass; `req.user` then holds the decoded claims, and a rejected request leaves `req.user` unchanged |
| AuthJwt.RequireRole | backend/middlewares/authJwt.js:21-27 | lets a request through exactly when its claims carry a listed role; 401 when there is no role, 403 when the role is not listed |
| AuthJwt.Authorize | backend/middlewares/authJwt.js:3-27 | `verifyToken, requireRole(...roles)` together: the handler runs exactly when the bearer token verifies and its claims carry a listed role; every refusal is a 401 or a 403 |
| AuthController.StoredRole | backend/controllers/authController.js:31 | the stored role is the requested role when it is truthy, and PATIENT otherwise |
| AuthController.Register | backend/controllers/authController.js:16-42 | a failed validation gives 400; a missing email gives 500; a taken email gives 409 and nothing is written; a reply happens exactly when the email is present and free and a password is given; the reply is 201 with a fresh id; exactly one user row is added, holding the password hash and the stored role; the store stays well-formed and keeps its links |
| AuthController.Login | backend/controllers/authController.js:44-66 | a failed validation gives 400; an unknown email and a wrong password both give the same 401 message; a missing email or password, or a user with no stored hash, makes the lookup or bcrypt throw (500); a reply happens exactly when some user has that email and the hash of that password; the reply carries that user's id, email and role and a token signed for that user |
| AuthController.Me | backend/controllers/authController.js:68-70 | answers 200 with the claims that verifyToken stored on the request |
| AuthController.RegisterThenLogin | backend/controllers/authController.js:16-66 | after a successful register, a login with the same email and password succeeds and answers the same claims |
| AuthRoutes.RegisterInvalid | backend/routes/authRoutes.js:7-15 | a request that passes the register validators has a password of at least 6 characters and no role or one of the four roles; a missing email fails the check whenever the empty string is not an email; a role sent as JSON null always fails |
| AuthRoutes.LoginInvalid | backend/routes/authRoutes.js:17-24 | a request that passes the login validators has a non-empty password and an email the email check accepts |
| AuthRoutes.Register | backend/routes/authRoutes.js:7-15 | a password shorter than 6 characters or an unknown role gives 400 and writes nothing; a created user has the role it asked for, or PATIENT when it asked for none; a valid request asking for ADMIN with a free email does create an ADMIN; a role sent as JSON null gives 400 and writes nothing |
| AuthRoutes.Login | backend/routes/authRoutes.js:17-24 | an empty or missing password gives 400; a successful login had a valid email and a non-empty password |
| AuthRoutes.Me | backend/routes/authRoutes.js:26 | answered exactly when the bearer token verifies, and then with that token's claims; every other request gets 401 |
| ResourceRoutes.Handle | backend/routes/resourceRoutes.js:31-62 | the route that answers is a declared one that accepts the verb and the path; no route answers only when no declared route accepts them |
| ResourceRoutes.Answers | backend/routes/resourceRoutes.js:31-62 | a route answers a request when it accepts it and no route declared before it does |
| ResourceRoutes.MineRoute | backend/routes/resourceRoutes.js:31 | GET /mine reaches getMyResources behind THERAPIST only |
| ResourceRoutes.FeedRoute | backend/routes/resourceRoutes.js:32 | GET /feed reaches getPatientFeed behind PATIENT only |
| ResourceRoutes.SearchIsPublic | backend/routes/resourceRoutes.js:35 | GET /search reaches searchResources with no guard |
| ResourceRoutes.PopularIsPublic | backend/routes/resourceRoutes.js:36 | GET /popular reaches getPopularResources with no guard |
| ResourceRoutes.StatsIsAdminOnly | backend/routes/resourceRoutes.js:37 | GET /stats reaches getResourcesStats behind ADMIN only |
| ResourceRoutes.ByTypeIsPublic | backend/routes/resourceRoutes.js:40 | GET /by-type/:type reaches getResourcesByType with no guard |
| ResourceRoutes.ByTherapistIsPublic | backend/routes/resourceRoutes.js:41 | GET /by-therapist/:therapistId reaches getResourcesByTherapist with no guard |
| ResourceRoutes.ListIsPublic | backend/routes/resourceRoutes.js:46-47 | GET / reaches getAllResources with no guard |
| ResourceRoutes.CreateRoute | backend/routes/resourceRoutes.js:46-48 | POST / reaches createResource behind ADMIN or THERAPIST |
| ResourceRoutes.ConsumersRoute | backend/routes/resourceRoutes.js:55 | GET /:id/consumers reaches getResourceConsumers behind ADMIN or THERAPIST |
| ResourceRoutes.PublishersArePublic | backend/routes/resourceRoutes.js:56 | GET /:id/publishers reaches getResourcePublishers with no guard |
| ResourceRoutes.GetByIdIsPublic | backend/routes/resourceRoutes.js:59-60 | GET /:id, for an id that is not a fixed path, reaches getResourceById with no guard |
| ResourceRoutes.UpdateRoute | backend/routes/resourceRoutes.js:59-61 | PUT /:id reaches updateResource behind ADMIN or THERAPIST |
| ResourceRoutes.DeleteRoute | backend/routes/resourceRoutes.js:59-62 | DELETE /:id reaches deleteResource behind ADMIN or THERAPIST |
| ResourceRoutes.FixedPathsAreNotIds | backend/routes/resourceRoutes.js:31-37 | GET on /mine, /feed, /search, /popular or /stats reaches its own handler, never getResourceById |
| ResourceRoutes.WritesNeedAuthors | backend/routes/resourceRoutes.js:46-62 | every POST, PUT or DELETE that reaches a handler is guarded by ADMIN or THERAPIST |
| CentreRoutes.Handle | backend/routes/centreRoutes.js:32-92 | the route that answers is a declared one that accepts the verb and the path; no route answers only when no declared route accepts them |
| CentreRoutes.Answers | backend/routes/centreRoutes.js:32-92 | a route answers a request when it accepts it and no route declared before it does |
| CentreRoutes.SearchIsPublic | backend/routes/centreRoutes.js:32 | GET /search reaches searchCentres with no guard, not getCentreById |
| CentreRoutes.ListIsPublic | backend/routes/centreRoutes.js:33 | GET / reaches getAllCentres with no guard |
| CentreRoutes.GetByIdIsPublic | backend/routes/centreRoutes.js:34 | GET /:id reaches getCentreById with no guard for every id but "search", including "me" |
| CentreRoutes.MeRoutesAreGuarded | backend/routes/centreRoutes.js:34-92 | every request of two or more segments below /me that reaches a handler reaches one guarded by CENTRE or ADMIN, never the public `/:id/...` routes |
| CentreRoutes.MyTherapistsRoute | backend/routes/centreRoutes.js:37-42 | GET /me/therapists reaches getMyCentreTherapists behind CENTRE or ADMIN |
| CentreRoutes.AddToMyCentreRoute | backend/routes/centreRoutes.js:44-49 | POST /me/therapists reaches addTherapistToMyCentre behind CENTRE or ADMIN |
| CentreRoutes.RemoveFromMyCentreRoute | backend/routes/centreRoutes.js:51-56 | DELETE /me/therapists/:therapistId reaches removeTherapistFromMyCentre behind CENTRE or ADMIN |
| CentreRoutes.MyCoursesRoute | backend/routes/centreRoutes.js:58-63 | GET /me/courses reaches getMyCentreCourses behind CENTRE or ADMIN |
| CentreRoutes.PostToMyCentreRoute | backend/routes/centreRoutes.js:65-70 | POST /me/courses reaches postCourseToMyCentre behind CENTRE or ADMIN |
| CentreRoutes.CreateIsAdminOnly | backend/routes/centreRoutes.js:75 | POST / reaches createCentre behind ADMIN only |
| CentreRoutes.UpdateRoute | backend/routes/centreRoutes.js:76 | PUT /:id reaches updateCentre behind ADMIN or CENTRE |
| CentreRoutes.DeleteIsAdminOnly | backend/routes/centreRoutes.js:77 | DELETE /:id reaches deleteCentre behind ADMIN only |
| CentreRoutes.TherapistsArePublic | backend/routes/centreRoutes.js:82 | GET /:id/therapists, for an id other than "me", reaches getCentreTherapists with no guard |
| CentreRoutes.AddTherapistRoute | backend/routes/centreRoutes.js:85 | POST /:id/therapists, for an id other than "me", reaches addTherapistToCentre behind ADMIN or CENTRE |
| CentreRoutes.RemoveTherapistRoute | backend/routes/centreRoutes.js:86 | DELETE /:id/therapists/:therapistId, for an id other than "me", reaches removeTherapistFromCentre behind ADMIN or CENTRE |
| CentreRoutes.CoursesArePublic | backend/routes/centreRoutes.js:89 | GET /:id/courses, for an id other than "me", reaches getCentreCourses with no guard |
| CentreRoutes.PostCourseRoute | backend/routes/centreRoutes.js:92 | POST /:id/courses, for an id other than "me", reaches postCourse behind ADMIN or CENTRE |
| CentreRoutes.WritesAreGuarded | backend/routes/centreRoutes.js:37-92 | every POST, PUT or DELETE that reaches a handler is guarded, and ADMIN passes every one of those guards |
| CentreController.Ownership | backend/controllers/centreController.js:16-28 | the check passes exactly for ADMIN, or for a CENTRE whose id equals the centre id as a number; any other role gets 403 "No tienes permisos."; a CENTRE naming another centre gets 403 "No puedes gestionar un centro que no es el tuyo." |
| CentreController.OwnershipOfDecimalParam | backend/controllers/centreController.js:16-28 | a CENTRE owns the centre named by its own id written in decimal in the URL |
| CentreController.OwnershipRejectsOthers | backend/controllers/centreController.js:16-28 | a CENTRE never owns a centre of another id, however that id is written |
| CentreController.CreateCentreError | backend/controllers/centreController.js:73-104 | a missing user id, CIF or name gives 400; otherwise no guard fails exactly when the user exists, the CIF is free, the user is not already a centre, and a given service exists; every guard failure is a 400, 404 or 409; when no guard fails, the service reference reads as a number |
| CentreController.NewCentre | backend/controllers/centreController.js:97 | the new row carries the body's CIF, name and location, no phone, and the service reference as a number (null when absent) |
| CentreController.CreateCentre | backend/controllers/centreController.js:73-104 | a failed guard is the answer and nothing is written; it replies exactly when the guards pass and the service key is valid; the reply is 201 with the new row, which is stored under the user's id; the store stays well-formed and linked; when the guards pass and the store refuses the write, the answer is 500 "Error al crear centro" |
| CentreController.UpdateCentreError | backend/controllers/centreController.js:107-140 | the ownership refusal comes first; otherwise no guard fails exactly when the centre exists, a new truthy CIF is not taken by another centre, and a given service exists; when no guard fails, the service reference reads as a number |
| CentreController.UpdatedCentre | backend/controllers/centreController.js:122-127 | every field the body leaves absent keeps its old value, and the phone is never changed |
| CentreController.UpdatedCentreEmptyBody | backend/controllers/centreController.js:122-127 | an update with an empty body writes the row back unchanged |
| CentreController.UpdateCentre | backend/controllers/centreController.js:107-140 | a failed guard is the answer and nothing is written; it replies exactly when the guards pass and the store accepts the updated row's CIF and service key; the reply is 200 with the updated row, and only that centre's row changes; when the guards pass and the store refuses the write, the answer is 500 |
| CentreController.DeleteCentre | backend/controllers/centreController.js:143-157 | an unknown centre gives 404 and nothing changes; otherwise exactly that centre's row is removed |
| CentreController.GetCentreById | backend/controllers/centreController.js:52-70 | replies exactly when the centre exists, with its row; otherwise 404 |
| CentreController.EmployedBy | backend/controllers/centreController.js:160-180 | a therapist is in the set exactly when the EMPLOYS table pairs it with the centre |
| CentreController.PostedBy | backend/controllers/centreController.js:239-254 | a course is in the set exactly when the POSTS table pairs it with the centre |
| CentreController.GetCentreTherapists | backend/controllers/centreController.js:160-180 | replies exactly when the centre exists; the reply holds exactly the therapists the centre employs |
| CentreController.GetCentreCourses | backend/controllers/centreController.js:239-254 | replies exactly when the centre exists; the reply holds exactly the courses the centre posted |
| CentreController.SearchCentres | backend/controllers/centreController.js:282-300 | a row is in the result exactly when it matches every filter that was given; with no filter every row comes back |
| CentreController.AddTherapistError | backend/controllers/centreController.js:183-215 | the ownership refusal comes first, then 400 for a missing therapist id; otherwise no guard fails exactly when the centre and the therapist exist and are not already paired; a 409 means the pair is already in EMPLOYS |
| CentreController.AddTherapistToCentre | backend/controllers/centreController.js:183-215 | a failed guard is the answer and EMPLOYS is unchanged; otherwise the answer is 201 and exactly the pair is added, with the body's contract or "No especificado"; links are kept |
| CentreController.RemoveTherapistError | backend/controllers/centreController.js:218-236 | the ownership refusal comes first; otherwise no guard fails exactly when the centre and the therapist exist |
| CentreController.RemoveTherapistFromCentre | backend/controllers/centreController.js:218-236 | a failed guard is the answer and EMPLOYS is unchanged; otherwise the answer is 200 and the pair is no longer in EMPLOYS, whether or not it was there before |
| CentreController.PostCourseError | backend/controllers/centreController.js:257-279 | the ownership refusal comes first, then 400 for a missing course id; otherwise no guard fails exactly when the centre and the course exist |
| CentreController.PostCourse | backend/controllers/centreController.js:257-279 | a failed guard is the answer and POSTS is unchanged; otherwise 201, the pair is in POSTS, dated with the body's date or today (or keeping the date it already had), and every other pair keeps its date |
| CentreController.BindCaller | backend/controllers/centreController.js:305-329 | with a user on the request, the URL id becomes the caller's id; without one the wrapper throws (500) and the id is left alone |
| CentreController.CallerOwnsBoundCentre | backend/controllers/centreController.js:305-329 | a CENTRE or ADMIN always passes the ownership check for the centre the /me wrappers name |
| CentreController.GetMyCentreTherapists | backend/controllers/centreController.js:305-309 | answers what getCentreTherapists answers for the caller's own id; 500 without a user |
| CentreController.GetMyCentreCourses | backend/controllers/centreController.js:321-324 | answers what getCentreCourses answers for the caller's own id; 500 without a user |
| CentreController.AddTherapistToMyCentre | backend/controllers/centreController.js:311-314 | acts on the caller's own centre: with a user, the answer and the new EMPLOYS are exactly those of addTherapistToCentre with the caller's id as the centre (its guard's error with nothing written, or 201 and the pair with the given or default contract); a CENTRE or ADMIN caller is never refused with 403; without a user the answer is 500 and nothing changes |
| CentreController.RemoveTherapistFromMyCentre | backend/controllers/centreController.js:316-319 | acts on the caller's own centre: with a user, the answer and the new EMPLOYS are exactly those of removeTherapistFromCentre with the caller's id as the centre (its guard's error with nothing written, or 200 and the pair gone); a CENTRE or ADMIN caller is never refused with 403; without a user the answer is 500 and nothing changes |
| CentreController.PostCourseToMyCentre | backend/controllers/centreController.js:326-329 | acts on the caller's own centre: with a user, the answer and the new POSTS are those of postCourse with the caller's id as the centre (its guard's error with nothing written, or 201 with the pair present, dated with the given date or today or keeping its date, and every other pair unchanged); a CENTRE or ADMIN caller is never refused with 403; without a user the answer is 500 and nothing changes |
| TherapistController.CreateTherapistError | backend/controllers/therapistController.js:103-162 | a missing user id or NIF gives 400; a NIF a therapist holds gives 409 once the user is found; no guard fails exactly when the user exists, no therapist holds the NIF and the user is not a therapist yet (patients' NIFs are not looked at) |
| TherapistController.NewTherapist | backend/controllers/therapistController.js:142-147 | the new row carries the body's NIF, society id and profession |
| TherapistController.CreateTherapist | backend/controllers/therapistController.js:103-162 | a failed guard is the answer and THERAPIST is unchanged; otherwise 201 with the new row, stored under the user's id; the guards are enough for the store to accept the row; uniqueness and links are kept |
| TherapistController.UpdateTherapistError | backend/controllers/therapistController.js:167-190 | an unknown therapist gives 404; otherwise no guard fails exactly when a new truthy NIF is not held by another therapist |
| TherapistController.UpdatedTherapist | backend/controllers/therapistController.js:192 | a given NIF, society id or profession replaces the old one, an absent one keeps it; name and phone never change |
| TherapistController.KeptNifIsFree | backend/controllers/therapistController.js:181-192 | an update that keeps the therapist's NIF never clashes with another therapist's NIF |
| TherapistController.UpdateTherapist | backend/controllers/therapistController.js:167-207 | a failed guard is the answer and nothing is written; it replies exactly when the guards pass and the store accepts the new NIF; the reply is 200 with the updated row and only that row changes; when the guards pass and the store refuses the write, the answer is 500 |
| TherapistController.DeleteTherapist | backend/controllers/therapistController.js:212-239 | an unknown therapist gives 404 and nothing changes; otherwise exactly that row is removed |
| TherapistController.TreatedBy | backend/controllers/therapistController.js:244-280 | a patient is in the set exactly when TREATS pairs it with the therapist |
| TherapistController.TreatedByAdd | backend/controllers/therapistController.js:285-344 | adding a new TREATS pair gives its therapist exactly that one more patient |
| TherapistController.AddPatientError | backend/controllers/therapistController.js:285-344 | a missing patient id gives 400; otherwise no guard fails exactly when the therapist and the patient exist and are not already paired; a 409 means the pair is already in TREATS |
| TherapistController.AddPatientToTherapist | backend/controllers/therapistController.js:285-344 | a failed guard is the answer and TREATS is unchanged; otherwise 201, exactly the pair is added with the body's report or "Tratamiento iniciado", and the therapist has one patient more |
| TherapistController.UpdateReportError | backend/controllers/therapistController.js:349-390 | an empty report gives 400; otherwise no guard fails exactly when the pair is in TREATS |
| TherapistController.UpdateTreatmentReport | backend/controllers/therapistController.js:349-390 | a failed guard is the answer and TREATS is unchanged; otherwise 200 and only that pair's report changes; the set of pairs never changes |
| TherapistController.RemovePatientError | backend/controllers/therapistController.js:395-429 | an unknown therapist gives 404; otherwise no guard fails exactly when the patient exists |
| TherapistController.RemovePatientFromTherapist | backend/controllers/therapistController.js:395-429 | a failed guard is the answer and TREATS is unchanged; otherwise 200 and the pair is no longer in TREATS |
| TherapistController.AddThenRemoveTreats | backend/controllers/therapistController.js:285-429 | adding a new pair and then removing it gives back the TREATS table it started from |
| TherapistController.BuyCourseError | backend/controllers/therapistController.js:471-515 | a missing course id gives 400; otherwise no guard fails exactly when the therapist and the course exist |
| TherapistController.BuyCourse | backend/controllers/therapistController.js:471-515 | a failed guard is the answer and BUYS is unchanged; otherwise 201, the pair is in BUYS dated with the body's date or today (or keeping the date it had), and every other pair keeps its date; buying twice is not refused |
| TherapistController.PublishError | backend/controllers/therapistController.js:557-601 | a missing resource id gives 400; otherwise no guard fails exactly when the therapist and the resource exist |
| TherapistController.PublishResource | backend/controllers/therapistController.js:557-601 | a failed guard is the answer and PUBLISH is unchanged; otherwise 201, the pair is in PUBLISH dated with the body's date or today (or keeping the date it had), and every other pair keeps its date |
| TherapistController.BoughtBy | backend/controllers/therapistController.js:434-466 | a course is in the set exactly when BUYS pairs it with the therapist |
| TherapistController.PublishedBy | backend/controllers/therapistController.js:520-552 | a resource is in the set exactly when PUBLISH pairs it with the therapist |
| TherapistController.EmployersOf | backend/controllers/therapistController.js:606-631 | a centre is in the set exactly when EMPLOYS pairs it with the therapist |
| TherapistController.GetTherapistStats | backend/controllers/therapistController.js:606-646 | an unknown therapist gives 404; otherwise each count is the number of patients, bought courses, published resources and employing centres the therapist has, and the profession is its own |
| PatientController.CreatePatientError | backend/controllers/patientController.js:106-164 | a missing user id or NIF gives 400; a NIF a patient holds gives 409 once the user is found; no guard fails exactly when the user exists, no patient holds the NIF and the user is not a patient yet (therapists' NIFs are not looked at) |
| PatientController.NewPatient | backend/controllers/patientController.js:145-149 | the new row carries the body's NIF and diagnosis |
| PatientController.CreatePatient | backend/controllers/patientController.js:106-164 | a failed guard is the answer and PATIENT is unchanged; otherwise 201 with the new row, stored under the user's id; the guards are enough for the store to accept it |
| PatientController.UpdatePatientError | backend/controllers/patientController.js:169-192 | an unknown patient gives 404; otherwise no guard fails exactly when a new truthy NIF is not held by another patient |
| PatientController.UpdatedPatient | backend/controllers/patientController.js:194 | a given NIF or diagnosis replaces the old one, an absent one keeps it; name and phone never change |
| PatientController.UpdatePatient | backend/controllers/patientController.js:169-209 | a failed guard is the answer and nothing is written; it replies exactly when the guards pass and the store accepts the new NIF; the reply is 200 with the updated row and only that row changes; when the guards pass and the store refuses the write, the answer is 500 |
| PatientController.TruthyNifUpdateIsWritten | backend/controllers/patientController.js:183-194 | when the guards pass and the NIF is absent or truthy, the store always accepts the update |
| PatientController.DeletePatient | backend/controllers/patientController.js:214-241 | an unknown patient gives 404 and nothing changes; otherwise exactly that row is removed |
| PatientController.PayServiceError | backend/controllers/patientController.js:402-459 | a missing service id gives 400; otherwise no guard fails exactly when the patient and the service exist and the pair is not paid yet; a 409 means the pair is already in PAYS |
| PatientController.PayService | backend/controllers/patientController.js:402-459 | a failed guard is the answer and PAYS is unchanged; otherwise 201 and exactly the pair is added |
| PatientController.PaidPairConflicts | backend/controllers/patientController.js:428-443 | paying a service the patient already paid is refused with 409 "El servicio ya ha sido pagado" |
| PatientController.ConsumeError | backend/controllers/patientController.js:500-542 | a missing resource id gives 400; otherwise no guard fails exactly when the patient and the resource exist |
| PatientController.ConsumeResource | backend/controllers/patientController.js:500-542 | a failed guard is the answer and CONSUME is unchanged; otherwise 201 and the pair is in CONSUME, also when it already was |
| PatientController.TreatersOf | backend/controllers/patientController.js:246-282 | a therapist is in the set exactly when TREATS pairs it with the patient |
| PatientController.PaidBy | backend/controllers/patientController.js:366-397 | a service is in the set exactly when PAYS pairs it with the patient |
| PatientController.ConsumedBy | backend/controllers/patientController.js:464-495 | a resource is in the set exactly when CONSUME pairs it with the patient |
| PatientController.PaidByAdd | backend/controllers/patientController.js:445 | a successful payment gives the patient exactly one more paid service |
| PatientController.ConsumedByAgain | backend/controllers/patientController.js:528 | consuming a resource again leaves the patient's consumed resources as they were |
| PatientController.GetPatientStats | backend/controllers/patientController.js:547-591 | an unknown patient gives 404; otherwise the diagnosis is the patient's own and each count is the number of treating therapists, paid services and consumed resources |
| PatientController.SearchPatients | backend/controllers/patientController.js:596-635 | a row is in the result exactly when it matches every filter that was given; with no filter every row comes back |
| UserController.CreateUserError | backend/controllers/userController.js:101-137 | a missing or empty email gives 400; a taken email gives 409; no guard fails exactly when the email is given and free |
| UserController.CreateUser | backend/controllers/userController.js:101-137 | a failed guard is the answer and USER is unchanged; otherwise 201 with the next key, which was free, and exactly one row holding only that email is added |
| UserController.UpdateUserError | backend/controllers/userController.js:142-165 | an unknown user gives 404; otherwise no guard fails exactly when a new truthy email is not another user's |
| UserController.UpdatedUser | backend/controllers/userController.js:167 | a given email replaces the old one and an absent one keeps the row as it was; password and role never change |
| UserController.UpdateUser | backend/controllers/userController.js:142-182 | a failed guard is the answer and nothing is written; it replies exactly when the guards pass and the store accepts the email; the reply is 200 with the updated row and only that row changes; when the guards pass and the store refuses the write, the answer is 500 |
| UserController.GuardedEmailUpdateIsWritten | backend/controllers/userController.js:157-167 | when the guards pass and the email is absent or truthy, the store always accepts the update |
| UserController.DeleteUser | backend/controllers/userController.js:187-214 | an unknown user gives 404 and nothing changes; otherwise exactly that row is removed |
| UserController.TypeName | backend/controllers/userController.js:238-249 | the type is "unassigned" exactly for a user without a profile |
| UserController.GetUserType | backend/controllers/userController.js:219-271 | an unknown user gives 404; otherwise the answer carries the user's id and email; a centre profile wins over a therapist profile, which wins over a patient profile; the type names the profile; the profile is null exactly when the user has none |
| UserController.SearchUsers | backend/controllers/userController.js:276-309 | a missing query gives 400 and only then; otherwise users from the table with the query in their email: the first min(10, n) of the n matching rows, in scan order |
| ResourceController.CreateResource | backend/controllers/resourceController.js:113-144 | 400 exactly when Name is missing or empty, and then nothing is written; otherwise 201 with a new key that was free, the one row holding the three given fields is added, and the store's invariants and links are kept |
| ResourceController.UpdatedResource | backend/controllers/resourceController.js:163-167 | each given field replaces the stored one and each absent field keeps its value |
| ResourceController.UpdateResource | backend/controllers/resourceController.js:149-182 | it replies exactly when the id names a resource, otherwise 404 and nothing is written; the reply is 200 with the updated row and only that row changes |
| ResourceController.EmptyUpdateKeepsResource | backend/controllers/resourceController.js:163-167 | an update with an empty body leaves the row as it was |
| ResourceController.DeleteResource | backend/controllers/resourceController.js:187-214 | it replies exactly when the id names a resource, otherwise 404 and nothing changes; on success the row, and only that row, is gone |
| ResourceController.GetAllResources | backend/controllers/resourceController.js:13-58 | the rows listed are exactly those matching the type and the Name LIKE filter, newest key first; with no filter every row is listed |
| ResourceController.GetResourcesByType | backend/controllers/resourceController.js:219-245 | the rows listed are exactly those whose type equals the one in the path |
| ResourceController.SearchResources | backend/controllers/resourceController.js:441-487 | 400 exactly when neither q nor type is given; otherwise 200 with exactly the rows whose Name or description contains q and whose type matches, each filter applied only when given |
| ResourceController.SearchByKindIsByType | backend/controllers/resourceController.js:441-487 | a search by type alone gives the same answer as getResourcesByType for that type |
| ResourceController.GetResourcesByTherapist | backend/controllers/resourceController.js:250-282 | 404 exactly when the therapist does not exist; otherwise 200 with exactly the resources that therapist published |
| ResourceController.ConsumptionCount | backend/controllers/resourceController.js:383 | the count is zero exactly when no patient consumed the resource |
| ResourceController.GetPopularResources | backend/controllers/resourceController.js:368-400 | min(10, n) of the n rows, a sub-multiset of the table, ordered by consumption count descending, and no row left out was consumed more often than a row kept |
| CourseController.CreateCourseError | backend/controllers/courseController.js:124-140 | a missing or empty Name gives 400; otherwise a truthy Id_course_invoice naming no course invoice gives 404; no guard fails exactly when the Name is given and a truthy invoice reference exists; when no guard fails, the invoice reference reads as a number |
| CourseController.NewCourse | backend/controllers/courseController.js:142-150 | the new row carries the body's Name, teacher, price, type, description and date, and the invoice reference as a number (null when absent) |
| CourseController.CreateCourse | backend/controllers/courseController.js:119-165 | a failed guard is the answer and COURSE is unchanged; it replies exactly when the guards pass and the store accepts the invoice reference; the reply is 201 with a new key that was free, and exactly that row is added; when the guards pass and the store refuses the write, the answer is 500 |
| CourseController.GuardedCreateIsWritten | backend/controllers/courseController.js:132-150 | when the guards pass and the invoice reference is absent or truthy, the store accepts the new row |
| CourseController.UpdatedCourse | backend/controllers/courseController.js:184-192 | a given Name or invoice replaces the stored one, every other given field replaces its column, and every absent field keeps its value |
| CourseController.EmptyUpdateKeepsCourse | backend/controllers/courseController.js:184-192 | an update with an empty body writes the row back unchanged |
| CourseController.UpdateCourse | backend/controllers/courseController.js:170-207 | an unknown course gives 404 and nothing is written; an invoice reference that does not read as a number gives 500; it replies exactly when the course exists, the reference is a number and the store accepts the updated invoice reference; the reply is 200 with the updated row and only that row changes; when the guards pass and the store refuses the write, the answer is 500 |
| CourseController.DeleteCourse | backend/controllers/courseController.js:212-239 | it replies exactly when the id names a course, otherwise 404 and nothing changes; on success the row, and only that row, is gone |
| CourseController.GetCourseTherapists | backend/controllers/courseController.js:244-280 | 404 exactly when the course does not exist; otherwise 200 with exactly the therapists who bought it |
| CourseController.GetCourseCentres | backend/controllers/courseController.js:285-321 | 404 exactly when the course does not exist; otherwise 200 with exactly the centres that posted it |
| CourseController.CourseMatches | backend/controllers/courseController.js:15-39 | each filter applies only when its parameter is given: a query with no parameters matches every course |
| CourseController.GetAllCourses | backend/controllers/courseController.js:13-65 | the rows listed are exactly those matching every given filter, with their multiplicities, latest date first |
| CourseController.GetAvailableCourses | backend/controllers/courseController.js:326-354 | the rows listed are exactly the undated ones and those dated today or later, earliest date first |
| CourseController.AvailableEarlier | backend/controllers/courseController.js:326-354 | a course available on some day is also available on every earlier day |
| CourseController.GetCoursesByType | backend/controllers/courseController.js:359-381 | the rows listed are exactly those whose type equals the one in the path, earliest date first |
| CourseController.GetCoursesByTeacher | backend/controllers/courseController.js:386-412 | the rows listed are exactly those whose teacher contains the one in the path, latest date first |
| CourseController.ByTypeIsTypeFilter | backend/controllers/courseController.js:359-381 | the type route lists the same rows as the ?type= filter of the list route, with the same multiplicities |
| CourseController.ByTeacherIsTeacherFilter | backend/controllers/courseController.js:386-412 | for a non-empty teacher the teacher route answers exactly what the ?teacher= filter of the list route answers |
| ServiceController.CreateServiceError | backend/controllers/serviceController.js:112-127 | a missing or empty Name gives 400; otherwise a truthy Id_service_invoice naming no service invoice gives 404; no guard fails exactly when the Name is given and a truthy invoice reference exists; when no guard fails, the invoice reference reads as a number |
| ServiceController.NewService | backend/controllers/serviceController.js:130-137 | the new row carries the body's Name, price, tools, room and date, and the invoice reference as a number (null when absent) |
| ServiceController.CreateService | backend/controllers/serviceController.js:107-152 | a failed guard is the answer and SERVICE is unchanged; it replies exactly when the guards pass and the store accepts the invoice reference; the reply is 201 with a new key that was free, and exactly that row is added; when the guards pass and the store refuses the write, the answer is 500 |
| ServiceController.GuardedCreateIsWritten | backend/controllers/serviceController.js:120-138 | when the guards pass and the invoice reference is absent or truthy, the store accepts the new row |
| ServiceController.UpdatedService | backend/controllers/serviceController.js:171-178 | a given Name or invoice replaces the stored one, every other given field replaces its column, and every absent field keeps its value |
| ServiceController.EmptyUpdateKeepsService | backend/controllers/serviceController.js:171-178 | an update with an empty body writes the row back unchanged |
| ServiceController.UpdateService | backend/controllers/serviceController.js:157-193 | an unknown service gives 404 and nothing is written; an invoice reference that does not read as a number gives 500; it replies exactly when the service exists, the reference is a number and the store accepts the updated invoice reference; the reply is 200 with the updated row and only that row changes; when the guards pass and the store refuses the write, the answer is 500 |
| ServiceController.DeleteService | backend/controllers/serviceController.js:198-225 | it replies exactly when the id names a service, otherwise 404 and nothing changes; on success the row, and only that row, is gone |
| ServiceController.GetServicePatients | backend/controllers/serviceController.js:230-265 | 404 exactly when the service does not exist; otherwise 200 with exactly the patients who paid for it |
| ServiceController.ServiceMatches | backend/controllers/serviceController.js:15-36 | each filter applies only when its parameter is given: a query with no parameters matches every service |
| ServiceController.GetAllServices | backend/controllers/serviceController.js:13-59 | the rows listed are exactly those matching every given filter, with their multiplicities, latest date first |
| ServiceController.GetAvailableServices | backend/controllers/serviceController.js:270-298 | the rows listed are exactly the undated ones and those dated today or later, earliest date first |
| ServiceController.GetServicesByDateRange | backend/controllers/serviceController.js:303-336 | 400 exactly when startDate or endDate is missing; otherwise 200 with exactly the services dated between them, both ends included, earliest first |
| ServiceController.RangeIsAvailableFromStart | backend/controllers/serviceController.js:270-336 | every service inside a date range is also listed as available on the range's first day |
| ServiceController.EmptyRange | backend/controllers/serviceController.js:303-336 | a range whose start lies after its end lists nothing |
| ServiceController.OneDayRangeIsDateFilter | backend/controllers/serviceController.js:303-336 | a one-day range lists the same rows as the ?date= filter of the list route for that day |
| InvoiceController.NewInvoice | backend/controllers/invoiceController.js:134-140 | the new row carries the given number and date, and Payment_status is the given one when non-empty, "Pendiente" otherwise |
| InvoiceController.CreateInvoiceError | backend/controllers/invoiceController.js:118-132 | a missing or empty number or date gives 400; otherwise a number another invoice already has gives 409; no guard fails exactly when both fields are given and the number is free |
| InvoiceController.CreateInvoice | backend/controllers/invoiceController.js:113-155 | a failed guard is the answer and INVOICE is unchanged; it replies exactly when the guards pass; the reply is 201 with a new key that was free, and exactly that row is added |
| InvoiceController.UpdateInvoiceError | backend/controllers/invoiceController.js:165-183 | an unknown invoice gives 404; otherwise no guard fails exactly when the body does not bring a new, non-empty number that another invoice already has |
| InvoiceController.UpdatedInvoice | backend/controllers/invoiceController.js:185-191 | a given number or date replaces the stored one, every other given field replaces its column, and every absent field keeps its value |
| InvoiceController.UpdateInvoice | backend/controllers/invoiceController.js:160-206 | a failed guard is the answer and nothing is written; it replies exactly when the guards pass and no other invoice has the resulting number; the reply is 200 with the updated row and only that row changes; when the guards pass and the store refuses the write, the answer is 500 |
| InvoiceController.OwnNumberIsFree | backend/controllers/invoiceController.js:175 | with unique numbers, no invoice other than the row itself holds that row's number |
| InvoiceController.GuardedNumberUpdateIsWritten | backend/controllers/invoiceController.js:175-185 | an update that passes the guards with an absent or non-empty number always leaves the resulting number unused by any other invoice |
| InvoiceController.DeleteInvoice | backend/controllers/invoiceController.js:211-238 | it replies exactly when the id names an invoice, otherwise 404 and nothing changes; on success the row, and only that row, is gone |
| InvoiceController.UpdatePaymentStatus | backend/controllers/invoiceController.js:243-279 | a missing status gives 400 and an unknown invoice 404, writing nothing; otherwise 200 and only that invoice's status changes, to the given one |
| InvoiceController.CreateServiceInvoice | backend/controllers/invoiceController.js:317-361 | a missing number or date gives 400 and writes nothing; a taken number gives 500 and writes nothing; otherwise the invoice row and the SERVICE_INVOICE row with the same key are both written (201) whenever the store's links held before |
| InvoiceController.CreateCourseInvoice | backend/controllers/invoiceController.js:399-443 | the same as createServiceInvoice, with a COURSE_INVOICE row as the second write |
| InvoiceController.InvoiceMatches | backend/controllers/invoiceController.js:17-35 | each filter applies only when its parameter is given (the date range only when both ends are): a query with no parameters matches every invoice |
| InvoiceController.GetAllInvoices | backend/controllers/invoiceController.js:15-63 | the rows listed are exactly those matching the given status and method and, when both ends are given, the date range, with their multiplicities, latest date first |
| InvoiceController.HalfRangeIsIgnored | backend/controllers/invoiceController.js:29-33 | a date range with only one end given is ignored: the answer is the one without any range |
| InvoiceController.GetPendingInvoices | backend/controllers/invoiceController.js:496-516 | the rows listed are exactly those whose status is "Pendiente", with their multiplicities, earliest date first |
| InvoiceController.CreatedWithoutStatusIsPending | backend/controllers/invoiceController.js:134-140 | an invoice created without a status is listed by getPendingInvoices |
| InvoiceController.PaidIsNotPending | backend/controllers/invoiceController.js:264 | once its status is set to anything but "Pendiente", an invoice is no longer listed as pending |
| HomePage.MapRole | frontend/src/app/home/home.page.ts:90-94 | 'therapist' gives THERAPIST, 'centre' gives CENTRE, and every other user type gives PATIENT, each in both directions; ADMIN is never produced |
| HomePage.MapRoleIsNormal | frontend/src/app/home/home.page.ts:90-94 | every role the page sends is kept unchanged by the backend's role normalisation |
| HomePage.KindOf | frontend/src/app/home/home.page.ts:133-160 | the branch applyRegisterValidators takes: centre exactly for 'centre', therapist exactly for 'therapist', the patient branch otherwise |
| HomePage.RequiredOrWiped | frontend/src/app/home/home.page.ts:125-160 | for every user type each role-dependent control is either required or wiped, never both, and a wiped control carries no validator |
| HomePage.ClearedShape | frontend/src/app/home/home.page.ts:125-130 | clearing keeps every control, drops the validators of the six role-dependent ones and changes nothing else |
| HomePage.AppliedShape | frontend/src/app/home/home.page.ts:100-164 | applyRegisterValidators keeps every control, leaves the role-independent ones as they were, and leaves each role-dependent one with the user type's rules and its value wiped exactly when the type does not use it |
| HomePage.AppliedKeeps | frontend/src/app/home/home.page.ts:100-164 | applyRegisterValidators neither adds nor drops a control and does not touch a role-independent one |
| HomePage.CentreRequires | frontend/src/app/home/home.page.ts:133-137 | for a centre, name, CIF and location end up required with minimum lengths 2, 6 and 5, their values kept |
| HomePage.CentreWipes | frontend/src/app/home/home.page.ts:139-141 | for a centre, full name, NIF and society id end up empty and without validators |
| HomePage.PersonRequires | frontend/src/app/home/home.page.ts:144-146 | for a patient or a therapist, full name and NIF end up required with minimum lengths 2 and 6, their values kept |
| HomePage.PersonWipes | frontend/src/app/home/home.page.ts:148-151 | for a patient or a therapist, the centre's name, CIF and location end up empty and without validators |
| HomePage.SocietyIdFor | frontend/src/app/home/home.page.ts:153-159 | a therapist's society id ends up required with minimum length 3; a patient's is wiped and carries no validator |
| HomePage.InitialForm | frontend/src/app/home/home.page.ts:42-81 | after initForms and the patient rules every control exists, the role-independent ones are in their initial state, and the role-dependent ones are empty with the patient's rules |
| HomePage.RegisterForm.constructor | frontend/src/app/home/home.page.ts:42-81 | the new form is complete, terms are not accepted, and every control is empty with its fixed validators or the patient's rules |
| HomePage.RegisterForm.SetRules | frontend/src/app/home/home.page.ts:109-113 | an existing control gets the new validators and keeps its value; a missing one is skipped and nothing else changes |
| HomePage.RegisterForm.Wipe | frontend/src/app/home/home.page.ts:119-122 | an existing control is reset to the empty value and keeps its validators; a missing one is skipped and nothing else changes |
| HomePage.RegisterForm.ApplyRegisterValidators | frontend/src/app/home/home.page.ts:100-164 | on a form holding the six role-dependent controls, the new controls are those the user type's rules specify (AppliedShape) |
| HomePage.RegisterForm.ClearConditional | frontend/src/app/home/home.page.ts:125-130 | the six role-dependent controls lose their validators and stay present (ClearedShape) |
| HomePage.RegisterForm.ApplyCentre | frontend/src/app/home/home.page.ts:133-142 | the form becomes the centre step of the specification: name, CIF and location required, full name, NIF and society id wiped |
| HomePage.RegisterForm.ApplyPerson | frontend/src/app/home/home.page.ts:143-160 | the form becomes the person step: full name and NIF required, centre fields wiped, society id required for a therapist and wiped otherwise |
| HomePage.RegisterPayload | frontend/src/app/home/home.page.ts:176-205 | the body carries the lower-cased trimmed email, the password and the mapped role; a centre sends exactly CIF, name and location and no person fields; others send full name and NIF; diagnosis only for a patient, society id and profession only for a therapist; the legacy centre aliases are never sent |
| HomePage.OnRegister | frontend/src/app/home/home.page.ts:169-221 | a body is sent exactly when every control, the email format, the terms and the password match are valid, and it is the register payload |
| HomePage.SentPasswordIsConfirmed | frontend/src/app/home/home.page.ts:83-87 | the password match validator blocks a mismatch: a mismatching form sends nothing, and a sent password equals the confirmation typed |
| HomePage.RequiredMinLength | frontend/src/app/home/home.page.ts:133-159 | a valid control that is required with a minimum length holds a non-empty value of at least that length |
| HomePage.CompleteBodyOnlyConflicts | backend/services/auth.service.js:158-173 | a body with a non-blank email, a password of six or more characters, a public role and that role's fields can fail registration only with 409 |
| HomePage.PayloadPassword | frontend/src/app/home/home.page.ts:60 | a valid password control puts at least six characters in the body |
| HomePage.PayloadCentreFields | frontend/src/app/home/home.page.ts:133-137 | with the centre's validators passed, the body carries a truthy CIF, name and location |
| HomePage.PayloadPersonFields | frontend/src/app/home/home.page.ts:144-146 | with a person's validators passed, the body carries a truthy full name and NIF |
| HomePage.AcceptedFormPassesRegisterChecks | frontend/src/app/home/home.page.ts:169-221 | a body the page sends from a form whose validators match its user type, with a non-blank email, can only be refused by the backend with 409 |
| HomePage.OnLogin | frontend/src/app/home/home.page.ts:226-244 | a login body is sent exactly when the email is non-empty and well formed and the password is non-empty, carrying the normalised email and the password |
| HomePage.LoginEmailIsNormal | frontend/src/app/home/home.page.ts:235 | the backend's email normalisation leaves the email the page sends unchanged |

## Left out

- The database engine and the ORM: connection pools, `sync`, SQL generation, `include` joins. Tables are maps and sets; a query is a filter, a sort and a limit over a table's rows in scan order.
- The CREATES and GENERATES join tables (backend/models/cisne.model.js:426-468): no handler of the core writes them.
- Referential actions on delete: the model file declares no `ON DELETE` rule. A delete removes only its own row. `Linked()` is proved for inserts and updates only.
- SQL details: the collation of `LIKE` (it is taken as case-sensitive substring search; a `%` or `_` inside the user's query is a wildcard in SQL but a literal character in `Like`) and the database's NULL ordering (a NULL date sorts lowest).
- Column widths: backend/models/cisne.model.js declares string lengths, such as email STRING(255) at :22, CIF STRING(20) at :169, NIF STRING(20) at :198 and :223, and the resource `Name` STRING(100) at :242. No `Schema.Store` primitive checks them. In the model an over-long value is written and answered 201 or 200, whereas the database truncates or refuses it (500), depending on its mode.
- The library's handling of `update` with `undefined` fields: an absent field keeps the stored value. A field sent as `null` is absent too; the database would clear that column.
- Which date the library's `addCourse`/`addPost`/`addResource` keep for a pair that already exists. The model accepts such a pair and the handlers answer 201: Schema.Store.AddBuys, AddPublish and AddPosts keep the old date or write the new one, and AddConsume leaves the set as it was.
- Floating point: prices and tax amounts are integers (cents); `parseFloat` bounds become integer bounds.
- The statistics handlers (getCoursesStats, getServicesStats, getResourcesStats, getInvoicesStats) and `total_spent` with `toFixed`: they compute averages and sums in floating point. The therapist and patient stats are modelled by their counts.
- The read-only handlers that return one row or a joined listing with no guard beyond 404: getAllTherapists, getTherapistById, getAllPatients, getPatientById, getMedicalHistory, getAllUsers, getUserById, getCourseById, getInvoiceById, getAllServiceInvoices, getAllCourseInvoices, getResourceById, getResourceConsumers, getResourcePublishers and getServiceById. Their guards are the same 404 lookup the modelled handlers prove.
- getMyResources and getPatientFeed: backend/controllers/resourceController.js defines neither, so there is no code to model. Only their declared routes and roles are modelled (see "Where the code and the documented design differ").
- Schema.Find: an id that does not read as a number ("5abc") is not found, so the handlers answer 404. What the database does with such a key is not visible in the code: MySQL reads the leading digits, and PostgreSQL refuses the query (500).
- JsValues.ToNumber: the contract states the number, blank-text and decimal-digit cases only. Exponents, hexadecimal and fractions give NaN instead of a number.
- `toLowerCase` outside A to Z, and string lengths in UTF-16 code units: strings are sequences of characters, lower-cased through the ASCII table.
- Check-then-insert races between concurrent requests: every handler runs alone.
- Logging, and the text of `error.message` in 500 answers: a thrown error is `ServerError` with an empty message.
- Express's case-insensitive and trailing-slash route matching; the routers without role middleware (therapist, patient, course, service, invoice and user routes); the JSON envelopes of the answers.
- Columns the model file does not declare but the code writes (the user's password and role; the centre's name and phone; the therapist's and patient's first name, last name and phone): the store carries every field the code writes.
- The email format validator of express-validator and of Angular: a parameter `isEmail`.
- The `acceptTerms` field: the page sends the constant `acceptTerms: 'true'` (frontend/src/app/home/home.page.ts:185), and no backend handler reads it. The model's register body leaves out this constant, unread field.
- The JWT secret and expiry: a token is its claims, signed symbolically, and `jwt.verify` is a parameter. bcrypt is symbolic too: `compare(p, hash(q))` holds exactly when `p == q`.
- The clock: `today` and `new Date()` defaults are parameters; dates are day numbers.
- The frontend outside home.page.ts (other pages, HTTP clients, local storage, alerts).
- HomePage.RegisterForm.ApplyRegisterValidators: the new controls are stated only when the six role-dependent controls exist, as they always do on the form initForms builds.
- HomePage.RegisterForm.ClearConditional: stated only when the six role-dependent controls exist.
- HomePage.RegisterForm.ApplyCentre: stated only when the six role-dependent controls exist.
- HomePage.RegisterForm.ApplyPerson: stated only when the six role-dependent controls exist.
