# car2go in Dafny

car2go is a driving-school car rental service. Apprentices (`apprenti`) and
their companions (`accompagnateur`) register, link to each other, and book dual-control or
ordinary cars by the hour. The backend is a FastAPI application over
PostgreSQL tables for users, cars, bookings and apprentice/companion links;
the front end is a Next.js application. This project models:

- the **tables** as classes holding a map from id to row and an autoincrement
  counter, with the database's unique and check constraints as class
  invariants and as a `Commit` function that refuses what PostgreSQL refuses;
- every **route** of the booking, car, user, authentication and association
  routers as a method (when it writes) or a function (when it only reads)
  returning `Ok(value)` or `Err(failure)`, where a failure is an HTTP error
  with its status and detail, a 422 naming the fields that failed
  validation, or a constraint violation;
- the `setattr` **update loops** as one generic loop (`Rows.SetEach`) proved
  against a fold, and per table a proof that the fold over the supplied fields
  is the field-wise overwrite;
- the **per-car overlap rule** for bookings and the disjointness it keeps;
- the **settings** (`split_cors_origins` and the defaults);
- the **registration form** of the front end (its two change handlers and the
  cleaned payload);
- the **home page carousel** index arithmetic.

Two choices are made by this model and are not properties of the source. First, bookings are
half-open intervals: `[s1, e1)` and `[s2, e2)` overlap when `s1 < e2 && s2 < e1`,
so a booking may start when another ends. Second, only a `confirmée` booking blocks its car.
No route checks that a booking starts before it ends, and the model does not
assume it: the overlap formula is applied as written to every interval.

Times and dates are integers; the price is in integer cents; status, purpose,
role and car type are datatypes whose text is the source's exact string. A
caller is `Option<int>` where the booking routes test `if not current_user`,
and a `Principal(id, role)` where the association routes read the caller's
role. The clock (`datetime.utcnow()`, `date.today()`) is a `now`/`today`
parameter (`create_booking` reads the clock twice, routes/booking.py:20, so in the source `created_at` and `updated_at` can differ by the time between the two calls; the model uses one reading for both), the password hash is a `hashed` parameter, and a JWT is the claim it
carries (`Token(sub)`); a token the verifier rejects is `None`.

Where the booking route and the conflict test disagree the model follows the
test (see Findings): `create_booking` refuses an overlapping booking with 400
"Car is already booked for the selected time range", the detail the test
expects. `Bookings.CarScheduleDisjoint` (two blocking bookings of one car never
overlap) is proved preserved by create and delete only: `update_booking` can
rewrite `start_time`/`end_time` with no check, and the model keeps that.

PostgreSQL evaluates check constraints in the alphabetical order of their
names and unique indexes after them. For users this puts
`users_check_combined` before `users_role_check`. The combined constraint
already admits only the two roles, so an unknown role is refused as
`CheckViolation("users_check_combined")` and `users_role_check` never decides
(`Users.CombinedCheckImpliesRoleCheck`).

Ids come from the `SERIAL` sequences PostgreSQL creates for the integer
primary keys (database.py:4). An insert draws its id before any constraint is
tested, so an insert the database refuses adds no row but still uses up an id:
the tables' `nextId` advances on those refusals too. A refusal raised by a
route before it reaches the database leaves `nextId` alone.

Whitespace is stripped with Python's notion of it on the backend
(`str.strip()`) and JavaScript's on the front end (`trim()`). The two differ:
Python also strips U+001C to U+001F and U+0085, JavaScript also strips U+FEFF
(`Text.RuntimesDisagree`).

## Model

| member | source | states |
|---|---|---|
| Rows.SetEach | routes/booking.py:120-121 | the `for key, value in ...: setattr(row, key, value)` loop performs the assignments in order: its result is the fold of the items over the row |
| Text.TrimStart | config.py:13 | the result is a suffix of the input, everything cut off is whitespace, and the result does not start with whitespace |
| Text.TrimEnd | config.py:13 | the result is a prefix of the input, everything cut off is whitespace, and the result does not end with whitespace |
| Text.Strip | config.py:13 | `str.strip()` (with Python's whitespace) or `trim()` (with JavaScript's, car2go-frontend/src/app/register/page.tsx:47-51): the result has no whitespace at either end and is a contiguous part of the input with only whitespace around it |
| Text.RuntimesDisagree | config.py:13 | Python strips a leading U+001F that JavaScript keeps, and JavaScript strips a byte order mark that Python keeps |
| Text.StripIdempotent | config.py:13 | stripping twice is stripping once |
| Text.Split | config.py:13 | `str.split(sep)` always yields at least one piece |
| Text.SplitCount | config.py:13 | there are as many pieces as separators plus one |
| Text.SplitPiecesHaveNoSeparator | config.py:13 | no piece contains the separator |
| Text.JoinSplit | config.py:13 | joining the pieces with the separator gives back the string |
| Text.SplitJoin | config.py:13 | splitting the join of separator-free pieces gives back the pieces |
| Config.SplitCorsOrigins | config.py:10-14 | a list passes through unchanged; a string gives (commas + 1) origins, each the piece at its position stripped of Python's whitespace, none with such whitespace at its ends or a comma inside |
| Config.SplitCorsOriginsRoundTrip | config.py:13 | when no piece carries surrounding whitespace, joining the origins with commas gives back the string |
| Config.StripOfStripped | config.py:13 | a string without whitespace at its ends is its own strip |
| Config.MakeSettings | config.py:4-8 | `jwt_algorithm` defaults to "HS256" and `cors_origins` to ["*"]; given values are kept, a given `cors_origins` after the validator |
| Cars.CarTypeText | models/car.py:24 | the text of every car type is admitted by `cars_type_check` |
| Cars.ParseCarType | models/car.py:24 | a text is admitted exactly when it is one of "double commande" and "classique", and then names the type whose text it is |
| Cars.WithType | models/car.py:11-21 | replacing the `type` value of a row sets that value and keeps every other column |
| Cars.WithTypeRoundTrip | models/car.py:11-21 | putting the old `type` value back gives the row back |
| Cars.Commit | models/car.py:15-24 | a type outside the check is refused with `cars_type_check`, then a taken plate with the unique index on `plaque`; the commit succeeds exactly when neither applies, and the stored row loads back as the committed object with a plate no other row has |
| Cars.CommitKeepsPlaquesUnique | models/car.py:15 | committing a row in place of an id keeps the plates unique |
| Cars.SuppliedFieldsOverwrite | routes/car.py:49-50 | the setattr loop over `model_dump(exclude_unset=True)` overwrites exactly the supplied fields |
| Cars.SuppliedTailOverwrite | routes/car.py:49-50 | the same loop restricted to the type, plate and inspection-date fields overwrites exactly those three |
| Cars.OverwriteProperties | routes/car.py:49-50 | each of the six updatable fields takes the supplied value and is kept when not supplied; price, availability, image and both timestamps are kept; an empty update is the identity; an update applied twice is applied once |
| Cars.UpdatedRow | routes/car.py:49-52 | the committed row has `updated_at` = `today`, the supplied type and plate or the stored ones, the stored price, availability, image and creation date; an empty update only restamps the row |
| Cars.NewCar | routes/car.py:13-22 | the new row copies the six request fields, takes price 2000 cents, available, no image (models/car.py:17-19), and both timestamps `today` |
| Cars.CarTable.Create | routes/car.py:11-26 | a refused commit returns its failure and adds no row, but the id the insert drew from the sequence is used up; otherwise the row is stored under the next id, nothing else changes, and plates stay unique |
| Cars.CarTable.Get | routes/car.py:28-34 | 404 "Voiture non trouvée" exactly for an unknown id, otherwise that car |
| Cars.CarTable.GetAll | routes/car.py:36-40 | the listing holds exactly the cars of the table |
| Cars.CarTable.Update | routes/car.py:42-55 | 404 and no change for an unknown id; otherwise the supplied fields overwritten and `updated_at` = `today`, committed in place; a refused commit changes nothing |
| Cars.CarTable.Delete | routes/car.py:57-66 | 404 and no change for an unknown id; otherwise exactly that car is removed |
| Bookings.PurposeText | models/booking.py:23 | every purpose's text is admitted by `bookings_purpose_check` |
| Bookings.ParsePurpose | schemas/booking.py:10 | a text matches `^(self|accompanied)$` exactly when it is a purpose's text, and then names it |
| Bookings.StatusText | models/booking.py:24 | every status's text is admitted by `bookings_status_check` |
| Bookings.ParseStatus | schemas/booking.py:18 | a text matches the status pattern exactly when it is "confirmée", "annulée" or "terminée", and then names that status |
| Bookings.ValidateCreate | schemas/booking.py:5-13 | a create body is accepted exactly when its purpose matches the pattern (else 422 on `purpose`), and the request then carries the body's five fields and no status |
| Bookings.ValidateUpdate | schemas/booking.py:15-19 | an update body is accepted exactly when a supplied status and a supplied purpose match their patterns; a refusal names each bad field; an accepted update carries the supplied fields and no car or owner |
| Bookings.OverlapsIffSharedInstant | tests/bookings/test_conflicts.py:95-108 | intervals that share an instant overlap; for intervals that start before they end, overlapping is sharing an instant |
| Bookings.OverlapsSymmetricAndAdjacency | tests/bookings/test_conflicts.py:95-108 | overlap is symmetric and back-to-back intervals do not overlap |
| Bookings.AdmitKeepsDisjoint | tests/bookings/test_conflicts.py:95-108 | adding a booking that conflicts with nothing keeps every car's blocking bookings pairwise disjoint |
| Bookings.RemoveKeepsDisjoint | routes/booking.py:144-146 | removing a booking keeps the schedules disjoint |
| Bookings.FreeCarAdmits | tests/bookings/test_conflicts.py:92-93 | a car with no blocking booking admits any interval |
| Bookings.OtherCarsDoNotConflict | tests/bookings/test_conflicts.py:95-108 | a booking on another car never decides a conflict |
| Bookings.CancellingFreesInterval | models/booking.py:24 | cancelling or deleting the only blocking booking overlapping an interval frees it |
| Bookings.SameIntervalRefused | tests/bookings/test_conflicts.py:95-108 | a confirmed, non-empty booking conflicts with the same interval on its car |
| Bookings.NewBooking | routes/booking.py:20 | the new row carries the request's fields, status "confirmée" (models/booking.py:13) and created/updated both `now` |
| Bookings.InsertedAsWritten | routes/booking.py:16-24 | as written, the new booking is inserted and every other booking is kept, whatever the car's schedule |
| Bookings.AsWrittenAdmitsOverlap | routes/booking.py:16-24 | as written, the test's two overlapping requests both go in and the car's schedule is no longer disjoint |
| Bookings.SuppliedFieldsOverwrite | routes/booking.py:120-121 | the setattr loop over the supplied fields overwrites exactly those fields |
| Bookings.OverwriteProperties | schemas/booking.py:15-19 | an update never changes car, owner or timestamps; start, end, status and purpose each take the supplied value and are kept when not supplied; an empty update is the identity; an update applied twice is applied once |
| Bookings.UpdatedBooking | routes/booking.py:120-123 | the committed booking has `updated_at` = `now`, the same car, owner and creation time, and the supplied or stored start and end; an empty update only restamps it |
| Bookings.BookingTable.Create | routes/booking.py:16-24 | 401 "Non autorisé" without a caller; 400 with the test's detail and no change when a confirmed booking of the car overlaps; otherwise the new row under the next id; schedules stay disjoint |
| Bookings.BookingTable.GetAll | routes/booking.py:27-33 | 401 exactly without a caller; otherwise exactly the bookings of the table |
| Bookings.BookingTable.GetByUser | routes/booking.py:36-88 | 401 exactly without a caller; otherwise always a listing, holding exactly the caller's bookings whose car exists, each paired with that car's id and columns up to the image (no timestamps) |
| Bookings.BookedCarOf | routes/booking.py:71-82 | the car listed with a booking carries the car's id, nom, modele, year, type, plate, inspection date, price, availability and image |
| Bookings.BookingTable.Get | routes/booking.py:91-103 | 401 without a caller, then 404 "Réservation non trouvée" for an unknown id, otherwise that booking |
| Bookings.BookingTable.Update | routes/booking.py:106-126 | 401, then 404, then 403 "Accès interdit" for a non-owner, each with no change; otherwise the supplied fields overwritten and `updated_at` = `now`, every other booking kept |
| Bookings.BookingTable.Delete | routes/booking.py:129-146 | 401, then 404, then 403, each with no change; otherwise exactly that booking removed; schedules stay disjoint |
| Bookings.ConflictScenario | tests/bookings/test_conflicts.py:78-108 | on an empty table the test's first booking is admitted as confirmed, the overlapping second is refused with the test's 400, and one starting when the first ends is admitted |
| Users.RoleText | models/user.py:34 | every role's text is admitted by `users_role_check` |
| Users.ParseRole | models/user.py:34 | a text is admitted exactly when it is "apprenti" or "accompagnateur", and then names that role |
| Users.WithRole | models/user.py:11-22 | replacing the `role` value of a row sets that value and keeps every other column |
| Users.WithRoleRoundTrip | models/user.py:11-22 | putting the old `role` value back gives the row back |
| Users.CombinedCheckImpliesRoleCheck | models/user.py:34-39 | a row admitted by `users_check_combined` has one of the two roles, and for those roles the check reads the same on text and on the stored role |
| Users.Commit | models/user.py:14-39 | a row failing the combined check is refused with `users_check_combined`, then a taken email with the unique index; it succeeds exactly when neither applies, and the stored row satisfies the check and has an email no other row has |
| Users.CommitKeepsChecks | models/user.py:14-39 | committing a row in place of an id keeps emails unique and every row within the combined check |
| Users.CreateRefusal | routes/user.py:16-23 | a role other than the two, an accompagnateur without a licence number, an apprenti without a booklet number are refused with their 400 details, in that order; nothing else is |
| Users.NumbersForRole | routes/user.py:36-37 | the licence number is kept only for an accompagnateur and the booklet number only for an apprenti; otherwise each is None |
| Users.ValidatedUserSatisfiesChecks | routes/user.py:16-38 | a user built after the guards has an admitted role and satisfies the combined check; its commit fails only on a taken email |
| Users.DumpOverwrite | routes/user.py:68-70 | the loop over all dumped fields, skipping None, overwrites exactly the fields given a value |
| Users.ApplyUpdate | routes/user.py:68-70 | the update loop of `update_user` yields the field-wise overwrite |
| Users.OverwriteFields | routes/user.py:68-70 | each of the eleven fields takes the value given and is kept when given None |
| Users.OverwriteProperties | routes/user.py:68-70 | an all-None update is the identity, an update applied twice is applied once |
| Users.UserTable.Insert | models/user.py:14-39 | a refused commit returns its failure and adds no row, but uses up the id the sequence handed out; otherwise the row goes under the next id and the constraints still hold |
| Users.NewUser | routes/user.py:25-38 | the row carries the request's fields, the hash as password, the licence number only for an accompagnateur and the booklet number only for an apprenti; `register` builds its row the same way (routes/auth.py:35-48, `Auth.RegisteredUser`) |
| Users.UserTable.CreateUser | routes/user.py:14-42 | the guards' 400s with no change; a taken email refused by the database with no row added but an id used up; otherwise the role-filtered row is stored under the next id |
| Users.UserTable.GetUser | routes/user.py:44-50 | 404 "Utilisateur non trouvé" exactly for an unknown id, otherwise that user |
| Users.UserTable.GetAllUsers | routes/user.py:52-56 | the listing holds exactly the users of the table |
| Users.UserTable.UpdateUser | routes/user.py:58-73 | 404 for an unknown id, then 403 "Accès interdit" unless the caller is the user, each with no change; otherwise the overwritten row committed in place; a refused commit changes nothing |
| Users.UserTable.DeleteUser | routes/user.py:75-87 | 404, then 403, each with no change; otherwise exactly that user is removed and committed, and the answer is a 500 because the returned message does not fit `response_model=UserResponse` |
| Auth.LengthErrors | schemas/auth.py:5-15 | a field is reported exactly when it breaks its bound: nom and prenom 100, telephone 15, adresse 255, role 20, a present licence or booklet number 20 |
| Auth.RegisterRefusal | routes/auth.py:18-33 | refusals in order: 422 on the bounds, 400 "Email already registered", an apprenti without a booklet number, an accompagnateur without a licence number and then without a licence date; none exactly when bounds, email and role fields are all right |
| Auth.RegisterCommitFailsOnlyOnRole | routes/auth.py:35-51 | after the guards, the row is committed exactly when its role is one of the two; otherwise the combined check refuses it |
| Auth.Register | routes/auth.py:17-55 | the guards' refusals leave the table unchanged; the database's refusal of an unknown role adds no row but uses up an id; a success stores the role-filtered row under the next id, keeps every other row, and returns a bearer token whose subject is the new email; emails stay unique |
| Auth.Login | routes/auth.py:58-71 | 401 "Invalid credentials" exactly when no user has the email; otherwise a bearer token whose subject is the submitted username, which is a stored user's email |
| Auth.CurrentUser | routes/auth.py:74-88 | 401 "Invalid token" without a verified token, 404 "User not found" for an unknown subject, otherwise the id, nom, prenom and email of the user with that email |
| Auth.RegisteredUserAuthenticates | routes/auth.py:54-88 | after a user is added with a fresh email, logging in with it yields that user's token and resolving the token yields that user |
| Associations.Sides | routes/apprenti_accompagnateur.py:20-29 | an apprenti caller is the apprenti and names the companion, an accompagnateur caller the reverse; any other role has no side |
| Associations.AssociationTable.Create | routes/apprenti_accompagnateur.py:13-50 | 403 for a caller of neither role, then 400 unless the apprenti end has role apprenti, then 400 unless the companion end has role accompagnateur, each with no change; otherwise both ids and the link under the next id |
| Associations.AssociationTable.ForApprenti | routes/apprenti_accompagnateur.py:52-66 | 403 unless the caller is that apprenti or admin; 404 exactly when no association has that apprenti; otherwise exactly those associations |
| Associations.AssociationTable.ForAccompagnateur | routes/apprenti_accompagnateur.py:68-85 | the same rules on the companion side |
| Associations.AssociationTable.Delete | routes/apprenti_accompagnateur.py:87-105 | 404 for an unknown id, then 403 unless the caller is one of its ends or admin, each with no change; otherwise exactly that association removed |
| Associations.StoredCallerIsNeverAdmin | routes/apprenti_accompagnateur.py:59-60 | a caller whose role comes from the users table is never admin, so it is refused anybody else's listings |
| Associations.CreatedIsListed | routes/apprenti_accompagnateur.py:62-83 | a stored association is listed for its apprenti and for its companion |
| RegisterPage.WithInput | car2go-frontend/src/app/register/page.tsx:26-28 | the named field takes the typed value and every other field, the role included, is unchanged |
| RegisterPage.WithRole | car2go-frontend/src/app/register/page.tsx:30-39 | the new role; licence date and number kept only for an accompagnateur (else null and ""), booklet number only for an apprenti (else null); the other fields unchanged |
| RegisterPage.OrNull | car2go-frontend/src/app/register/page.tsx:48 | `s || null` is null exactly for the empty string, and the string otherwise |
| RegisterPage.OptionOrNull | car2go-frontend/src/app/register/page.tsx:54-56 | `o || null` is null exactly for null or "", and the value otherwise |
| RegisterPage.CleanFormData | car2go-frontend/src/app/register/page.tsx:46-58 | nom, email, adresse are stripped; prenom, telephone, password stripped and null exactly when nothing is left; dates and numbers null exactly when empty; role passed on; no optional field is "" |
| RegisterPage.CleanedTextIsStable | car2go-frontend/src/app/register/page.tsx:47-51 | the trimmed fields of the payload are their own trim |
| RegisterPage.RoleSwitchDropsOtherNumbers | car2go-frontend/src/app/register/page.tsx:30-56 | after a role switch, and typing in any other input, an apprenti's payload has no licence number or date and an accompagnateur's no booklet number |
| RegisterPage.RegisterForm.constructor | car2go-frontend/src/app/register/page.tsx:9-21 | the form starts empty, with null licence date and booklet number |
| RegisterPage.RegisterForm.HandleChange | car2go-frontend/src/app/register/page.tsx:26-28 | the state becomes `WithInput` of the old state |
| RegisterPage.RegisterForm.HandleRoleChange | car2go-frontend/src/app/register/page.tsx:30-39 | the state becomes `WithRole` of the old state |
| HomePage.JsRemainder | car2go-frontend/src/app/page.tsx:12 | JavaScript `%`: the Euclidean remainder for a non-negative dividend, in (-n, 0] for a negative one |
| HomePage.NextIndex | car2go-frontend/src/app/page.tsx:11-13 | from a non-negative index the result is in [0, 3); from an index in range it is (i + 1) mod 3 |
| HomePage.PrevIndex | car2go-frontend/src/app/page.tsx:15-17 | from an index at least -2 the result is in [0, 3); from an index in range it is (i - 1) mod 3 |
| HomePage.NextPrevInverse | car2go-frontend/src/app/page.tsx:12-16 | from an index in range, previous undoes next and next undoes previous |
| HomePage.ThreeNextsReturn | car2go-frontend/src/app/page.tsx:8-12 | three nexts come back to the start |
| HomePage.StepShift | car2go-frontend/src/app/page.tsx:12-16 | a click moves an in-range index by plus or minus one modulo 3 |
| HomePage.ReplayPosition | car2go-frontend/src/app/page.tsx:8-17 | after any sequence of clicks from an index in range, the index is in range and equals the start plus forward clicks minus back clicks, modulo 3 |
| HomePage.Carousel.constructor | car2go-frontend/src/app/page.tsx:8-9 | the carousel starts at index 0 of its three images |
| HomePage.Carousel.NextImage | car2go-frontend/src/app/page.tsx:11-13 | the index becomes `NextIndex` of the old one and stays in range |
| HomePage.Carousel.PrevImage | car2go-frontend/src/app/page.tsx:15-17 | the index becomes `PrevIndex` of the old one and stays in range |

## Left out

- Concurrency: every route is one atomic step; the check-then-insert race of booking admission under concurrent requests is not modelled.
- Persistence and framework plumbing: sessions, `commit`/`refresh`, dependency injection, routing and the mounting of routers are replaced by method calls on in-memory tables.
- Password hashing and JWT signing/verification are outside the model: the hash is a parameter, a token is its subject claim, a rejected token is `None`.
- Auth.Login: the password is not compared with anything, because the route verifies the input against a fresh hash of itself (routes/auth.py:64), which always passes.
- Users.UserTable.UpdateUser: a supplied password is stored as given, without hashing, as the route does.
- Auth.Register: the route passes the hash as `hashed_password`, a name the user model has no column for; the model stores it in `password`, the column it evidently means.
- Foreign keys (bookings to users and cars, associations to users) and deleting rows that others refer to are not modelled.
- Column widths are not modelled; in particular the register schema admits a nom of up to 100 characters where the column holds 50.
- An explicit `null` in an update body is treated as "not supplied"; the booking and car routes would assign it and the NOT NULL columns would then refuse the commit.
- Bookings.BookingTable.Update: no overlap re-check, as in the route, so disjointness of a car's schedule is proved for create and delete only.
- The association model class is not part of this model (the route imports it from the user models); its table is modelled from the fields the route reads and writes. Both association listings are modelled although they share the same path, so only the first can be reached over HTTP.
- `EmailStr` validation, the `.env` loading of the settings, logging, and the legacy `app/` package are not modelled.
- The front end's fetch calls, toasts, routing, rendering, and the dashboard's floating-point durations are not modelled; only the register form state and payload and the carousel index are.
- Text.IsSpace: the whitespace sets are those of current Python 3 (`str.isspace`) and current ECMAScript (`WhiteSpace` and `LineTerminator`); U+180E, which engines built on Unicode before 6.3 also trim, is not in the JavaScript set.
- Caller identity: `get_current_user` returns a dict with id, nom, prenom and email and no role (routes/auth.py:88). The booking routes turn it into a `User`, but `update_user`, `delete_user` and every association route read `.id` or `.role` on the dict, which raises and answers 500. Users.UserTable.UpdateUser, Users.UserTable.DeleteUser, Associations.Sides, Associations.AssociationTable.Create, Associations.AssociationTable.ForApprenti, Associations.AssociationTable.ForAccompagnateur and Associations.AssociationTable.Delete take the caller's id (and role) as given instead, so they describe the routes as they would behave with a caller object; no source path supplies the role a `Principal` carries.
- Associations.AssociationTable: the routes call the synchronous `db.query` on the `AsyncSession` that `get_db` yields, which has no such method. In create the role test and the choice of sides (routes/apprenti_accompagnateur.py:20-29) run before the first query (:32), so its 403 is reached and everything after fails; in the two listings the 403 tests (:59-60, :75-76) run before the queries (:62, :78); in delete the query (:93) comes before every check. The model gives each query its intended result.
- Auth: routes/auth.py:5 imports `UserLogin`, which schemas/auth.py does not define, so the module does not import as written; the model describes the routes as if the import succeeded.
- The ordering of listings is not modelled: listings are sets or maps keyed by id.

## Findings

| source | as written | input that shows it | evidently intended | confidence | as-written member | corrected member |
|---|---|---|---|---|---|---|
| routes/booking.py:16-24 | `create_booking` inserts the booking without looking at the car's other bookings | a confirmed booking of car 7 over [0, 60), then a request for car 7 over [30, 90) | the second request is refused with 400 "Car is already booked for the selected time range" (tests/bookings/test_conflicts.py:95-108) | not executed | Bookings.AsWrittenAdmitsOverlap | Bookings.BookingTable.Create |
