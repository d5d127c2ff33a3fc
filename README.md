# Stroke-screening service: a Dafny model

This project models the domain logic of a FastAPI service that screens patients
for stroke risk. A patient registers and logs in, then submits height, weight,
medical flags and lifestyle categories. The service derives the patient's age
and BMI. It encodes everything into the 17-key feature dictionary of a
pre-trained classifier, asks the classifier for a stroke probability, and bands
that probability into Low / Medium / High. It then stores exactly one row in
`stroke_screenings`. Patients read only their own rows; admins list one
patient's rows and see dashboard counters.

Modules, one per source file or table:

- `Errors` (errors.dfy): `Option`, `Result` and `HttpError` (status and detail).
- `Models` (models.dfy): the enums and their wire strings, `Date`, and the
  request validation of `ScreeningInput`, `UserRegister` and `validate_phone`.
- `Users` (users.dfy): rows of `users` and the lookup by e-mail.
- `Queries` (queries.dfy): the SQL the endpoints issue over a table snapshot.
  `Filter` is `WHERE`, `Count` is `COUNT(*)`, `Project` selects columns, and
  `SortNewestFirst` is `ORDER BY created_at DESC`.
- `Screening` (screening.dfy): `calculate_age`, `calculate_bmi`,
  `get_risk_level` and `prepare_ml_input` as functions. The
  `stroke_screenings` table is the class `ScreeningTable`, whose `rows` the
  create endpoint appends to and the history and detail endpoints read.
- `Dependencies` (dependencies.dfy): bearer-token resolution and the PATIENT /
  ADMIN gates.
- `Auth` (auth.dfy): `register` is a method on the class `UserRegistry`, which
  holds the `users` rows. `login` is a function.
- `Admin` (admin.dfy): the per-patient listing, its route behind the admin gate,
  and the dashboard counters.

Collaborators that are not shown enter as function-valued parameters. The
classifier is `Predictor`, and it may be absent. Password hashing is `hash`,
password checking is `verify`, and the token functions are `createToken` and
`decode`. `date.today()`, the database-generated ids and `created_at` are
parameters too. A classifier, hash, password check or token creation that
raises is modelled as a `PredictorRaised` or `None` answer, which the endpoint
turns into a 500. A token that does not decode is a `None` from `decode`, which
is a 401.

Behaviour worth knowing:

- The feature dictionary has 17 keys: 8 scalars, 5 work-type columns and 4
  smoking columns.
- `get_risk_level` has no range check. A probability of 1.5 is "High" and one
  of -0.2 is "Low" (`RiskLevelBoundaries`).
- A patient asking for someone else's screening gets 404 "Screening not found",
  the same answer as for a missing id.
- Of the endpoints modelled here, an admin reads screening rows only through the
  per-patient listing, which answers 404 unless the id belongs to a PATIENT row,
  and through the dashboard counters. The patient endpoints answer an admin with
  403 (`get_current_patient`). `get_high_risk_screenings`, which is not modelled,
  also lists screenings, from a view.
- A single screening is answered without the predictor's risk factors,
  confidence, binary prediction and threshold (`ScreeningResponse`), although
  the stored row holds them.

## Model

| member | source | states |
|---|---|---|
| `Models.ParseWorkType` | app/models.py:26-31 | a string is accepted exactly when it is the wire value of a `WorkType`, and it parses to that member |
| `Models.ParseSmokingStatus` | app/models.py:37-41 | the same for the four `SmokingStatus` values |
| `Models.ParseResidenceType` | app/models.py:33-35 | the same for Urban / Rural |
| `Models.ParseRiskLevel` | app/models.py:21-24 | the same for Low / Medium / High |
| `Models.ValidateScreeningInput` | app/models.py:87-97 | accepted iff height is in [50,250], weight in [20,300] and glucose in [50,400], all bounds inclusive, and every enum string is a member value; the accepted input carries the same values; otherwise 422 |
| `Models.ValidatePhone` | app/models.py:55-59 | accepts None, "" and any string whose first character is '+'; rejects any other non-empty string with "Phone number must start with +"; returns accepted values unchanged |
| `Models.ValidateUserRegister` | app/models.py:47-59 | accepted iff the password has at least 8 characters, the full name 2 to 255, and the phone passes `validate_phone`; the value is unchanged |
| `Queries.Filter` | app/routers/screening.py:221 | `WHERE`: a subsequence of the table, in table order, whose rows all satisfy the condition and whose length is the number of table rows that do, so every matching row, duplicates included, is kept |
| `Queries.Count` | app/routers/admin.py:145-166 | `COUNT(*) ... WHERE`: at most the table size, and zero exactly when no row satisfies the condition |
| `Queries.SortNewestFirst` | app/routers/screening.py:222 | `ORDER BY created_at DESC`: the result is ordered newest first and is a permutation of the input |
| `Users.FindByEmail` | app/dependencies.py:40-51 | `WHERE email = %s` then `fetchone()`: a returned row is in the table and has that e-mail; no row is returned exactly when no row has that e-mail |
| `Users.FindByEmailFindsTheRow` | app/dependencies.py:40-60 | with unique e-mails, the lookup by a row's e-mail returns that very row |
| `Users.AppendFreshEmail` | app/routers/auth.py:20-58 | inserting a row whose e-mail no row has keeps e-mails unique |
| `Screening.CalculateAge` | app/routers/screening.py:24-30 | the result is the number of completed years: the age-th anniversary of the birth date is on or before today and the next one is after today |
| `Screening.AgeIsTheCompletedYears` | app/routers/screening.py:24-30 | no other count satisfies those two anniversary conditions, so they define the age |
| `Screening.AgeOnBirthday` | app/routers/screening.py:27-29 | on the n-th birthday itself the age is already n |
| `Screening.AgeNonNegative` | app/routers/screening.py:24-30 | a birth date on or before today gives an age of at least 0 |
| `Screening.AgeExamples` | app/routers/screening.py:24-30 | born 2000-06-15: 23 on 2024-06-14, 24 on 2024-06-15 |
| `Screening.Round1` | app/routers/screening.py:36 | rounding to one decimal moves the value by at most 0.05 and yields a whole number of tenths |
| `Screening.CalculateBmi` | app/routers/screening.py:32-36 | the result is a whole number of tenths within 0.05 of weight / (height/100)^2, which is exactly one value |
| `Screening.BmiBoundsForValidatedInput` | app/routers/screening.py:32-36 | for validated height and weight the BMI is strictly positive, between 3.15 and 1200.05 |
| `Screening.BmiExample` | app/routers/screening.py:32-36 | height 170, weight 70 gives 24.2 |
| `Screening.GetRiskLevel` | app/routers/screening.py:38-45 | "High" iff p >= 0.7, "Medium" iff 0.4 <= p < 0.7, "Low" iff p < 0.4, for every real p |
| `Screening.RiskLevelMonotonic` | app/routers/screening.py:38-45 | a higher probability never gets a lower band |
| `Screening.RiskLevelBoundaries` | app/routers/screening.py:38-45 | 0.69 is Medium, 0.7 High, 0.39 Low, 0.4 Medium; 1.5 is High and -0.2 Low, because there is no range check |
| `Screening.RiskLevelOutputsAreEnumValues` | app/models.py:21-24 | every classifier output is a `RiskLevel` wire value |
| `Screening.EveryRiskLevelIsReached` | app/models.py:21-24 | every `RiskLevel` value is the band of some probability, so the enum is exactly the classifier's range |
| `Screening.OneHotMeansExactlyOne` | app/routers/screening.py:56-70 | a group whose columns are 0/1 and sum to 1 is exactly a group with one column 1 and all others 0 |
| `Screening.EncodeWorkType` | app/routers/screening.py:56-78 | five columns, one-hot; each named column is hot exactly for its value, and the Private column also for any value not in the table |
| `Screening.EncodeSmokingStatus` | app/routers/screening.py:65-79 | four columns, one-hot; each column is hot exactly for its value, and the never-smoked column also for any value not in the table |
| `Screening.UnknownWorkTypeIsPrivate` | app/routers/screening.py:78 | a value missing from the table encodes exactly as "Private" |
| `Screening.UnknownSmokingStatusIsNeverSmoked` | app/routers/screening.py:79 | a value missing from the table encodes exactly as "never smoked" |
| `Screening.EncoderTablesMatchEnums` | app/models.py:26-41 | the keys of the work-type and smoking tables are exactly the `WorkType` and `SmokingStatus` values, and the gender and residence maps have exactly the enum values as keys, so validated input never takes a fallback |
| `Screening.WorkTypeEncodingRoundTrip` | app/routers/screening.py:56-62 | the hot column of a work type's encoding reads back as that work type, so distinct values get distinct columns |
| `Screening.SmokingEncodingRoundTrip` | app/routers/screening.py:65-70 | the same for smoking status |
| `Screening.EncodeGender` | app/routers/screening.py:83 | Female gives 0; Male, a missing gender and any other value give 1 |
| `Screening.EncodeResidence` | app/routers/screening.py:87 | Rural gives 0; Urban and any other value give 1 |
| `Screening.FeatureKeysAreDistinct` | app/routers/screening.py:81-99 | the dictionary has 17 distinct keys, one per value |
| `Screening.ZipLookup` | app/routers/screening.py:81-99 | a dictionary literal with distinct keys has exactly those keys, and each key looks up the value written beside it |
| `Screening.DictionaryInKeyOrder` | app/routers/screening.py:81-99 | the dictionary built from a feature record has exactly the 17 keys, and the i-th key maps to the i-th column value |
| `Screening.DictionaryEntries` | app/routers/screening.py:82-92 | "age", "bmi", "Residence_type", "work_type_Private" and "smoking_status_never_smoked" map to the age, BMI, residence and the two fallback columns |
| `Screening.PrepareMlInput` | app/routers/screening.py:47-99 | age, bmi and glucose pass through; booleans become 1/0; gender and residence follow their maps with default 1; both categorical groups are one-hot and are the encodings of the request's values |
| `Screening.ValidatedInputEncodesItsOwnCategories` | app/routers/screening.py:124-137 | for a validated request the hot work-type and smoking columns name the request's own enum members, and residence is 1 exactly for Urban |
| `Screening.ScreeningTable.CreateScreening` | app/routers/screening.py:101-205 | 503 first when no model is loaded; success iff the model is loaded, the user has a birth date and the predictor answers; on success exactly one row is appended and answered without the predictor's extra columns; the row carries the computed age and BMI (positive), the input fields, the defaults 0.0 / [] / "Medium" / 0 / 0.5 for missing predictor fields, and the band of the stored probability; any failure leaves the table unchanged; ids stay unique |
| `Screening.ScreeningTable.History` | app/routers/screening.py:207-235 | the summaries of exactly the caller's rows, one per row, newest first; nothing of another user appears |
| `Screening.ScreeningTable.Detail` | app/routers/screening.py:237-278 | the answer is the response view of a stored row that has the requested id and is the caller's; 404 exactly when no row matches both id and owner |
| `Screening.ScreenTwice` | app/routers/screening.py:154-196 | two submissions of the same input by the same patient on the same day succeed or fail together; on success both are stored as two new rows that differ only in id and timestamp |
| `Dependencies.GetCurrentUser` | app/dependencies.py:14-60 | 401 "Invalid authentication credentials" when the token does not decode or has no "sub", 401 "User not found" when "sub" names no user; otherwise the table row whose e-mail is "sub" |
| `Dependencies.TokenResolvesToItsUser` | app/dependencies.py:40-60 | with unique e-mails, a token naming a user's e-mail resolves to exactly that user |
| `Dependencies.GetCurrentPatient` | app/dependencies.py:62-73 | passes the user through unchanged iff the role is "PATIENT", else 403 "Only patients can access this endpoint" |
| `Dependencies.GetCurrentAdmin` | app/dependencies.py:75-86 | passes the user through unchanged iff the role is "ADMIN", else 403 "Only admins can access this endpoint" |
| `Dependencies.GatesPartitionUsers` | app/dependencies.py:62-86 | every user passes exactly one of the two gates |
| `Dependencies.GetCurrentUserOptional` | app/dependencies.py:89-101 | no credentials give None; otherwise None exactly when authentication fails, else the user `get_current_user` returns |
| `Auth.UserRegistry.Register` | app/routers/auth.py:14-70 | a taken e-mail gives 400 and leaves the table unchanged; success iff the e-mail is free and hashing succeeds, appending exactly one PATIENT row that stores the hash and answering with that row without the hash; a failed hash is 500; e-mails and ids stay unique |
| `Auth.Login` | app/routers/auth.py:72-114 | 401 "Incorrect email or password" iff the e-mail is unknown or the password check answers false; 500 "Login failed" iff the password check raises, or it accepts and token creation raises; success iff the row exists, the check accepts and a token is created, answering the bearer token made from claims sub = e-mail and role = stored role |
| `Auth.LoginTokenAuthenticates` | app/routers/auth.py:99-101 | when decoding inverts token creation, the token from a successful login resolves through `get_current_user` to the user who logged in |
| `Auth.LoginAfterRegister` | app/routers/auth.py:80-105 | a row appended with a fresh e-mail can log in with a password that verifies against its stored hash |
| `Admin.GetPatientScreenings` | app/routers/admin.py:86-133 | 404 "Patient not found" exactly when no PATIENT row has the id; otherwise a newest-first permutation of the response views of exactly that patient's screenings, one per row |
| `Admin.AdminIdIsNotAPatient` | app/routers/admin.py:97-107 | with unique ids, an admin's own id gives 404 |
| `Admin.PatientCheckPrecedesScreeningRead` | app/routers/admin.py:96-124 | when the patient check fails, the answer does not depend on the screenings table |
| `Admin.PatientScreeningsRoute` | app/routers/admin.py:85-88 | an authentication failure is passed on unchanged; an authenticated ADMIN gets exactly the patient listing, any other authenticated user 403 |
| `Admin.PatientRejectedBeforeStoreAccess` | app/routers/admin.py:85-107 | an authenticated patient gets 403, whatever the screenings table holds |
| `Admin.GetDashboardStats` | app/routers/admin.py:135-180 | total_patients is the number of PATIENT rows, total_screenings the table size, high_risk_count the number of rows whose band is "High", and recent_screenings_7days the number of rows created at or after the cutoff; hence total_patients is zero exactly when no user is a patient and the two screening counts never exceed total_screenings |
| `Admin.PatientsAndAdminsAreAllUsers` | app/routers/admin.py:145-146 | total_patients plus the number of admins is the number of users |
| `Admin.HighRiskCountIsHighProbabilityCount` | app/routers/admin.py:153-156 | in a table written by the create endpoint, high_risk_count is the number of screenings with probability at least 0.7 |
| `Admin.RecentCountMonotonic` | app/routers/admin.py:158-166 | an earlier cutoff never lowers recent_screenings_7days |

## Left out

- `app/database.py` is not part of this model: connection pooling, the fallback over several URLs, and commit/rollback. Each endpoint is modelled as one atomic step over a table snapshot.
- `database/run_migration.py`, `database/create_admin.py`, `database/generate_admin_hash.py` and `main.py` are not part of this model. They are interactive scripts, I/O and application wiring.
- `get_all_patients`, `get_screening_statistics` and `get_high_risk_screenings` only select from SQL views whose definitions are not part of this model. `get_current_user_info` only echoes the authenticated user.
- The classifier, password hashing and verification, and JWT creation and decoding are function-valued parameters. Their internals are not modelled.
- Logging, and HTTP plumbing beyond status codes and detail messages.
- Database failures inside an endpoint, which the handlers report as 500, are not modelled. Neither is the race between two concurrent registrations of one e-mail.
- Screening.Round1: rounds half up on exact reals. Python's `round` works on binary floats and rounds ties to even. The probability and the other float fields are exact reals as well.
- Screening.ScreeningTable.CreateScreening: requires the field bounds and the PATIENT role, which request validation and the `get_current_patient` dependency guarantee before the handler runs. A predictor dictionary with a key present but set to None, and the validation of the response object, are not modelled.
- Screening.ScreeningTable.CreateScreening: the 500 detail is a fixed "Screening failed". The source appends the exception text.
- Models.ValidateScreeningInput: pydantic's coercions and the per-field error list are not modelled. Every rejection is the single 422 `ValidationFailed`.
- Models.ValidateUserRegister: the `EmailStr` syntax check is not modelled.
- Dependencies.GetCurrentUser: answers the whole `users` row, password hash included. The source's query selects every column but the password, and nothing downstream reads the hash.
- Queries.SortNewestFirst: rows with equal `created_at` come in one fixed order. SQL leaves their order unspecified, so the endpoints' contracts state only the newest-first order and the permutation.
- `Date` does not check that a day exists in its month. Age only compares (year, month, day) lexicographically.
