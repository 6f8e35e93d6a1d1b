# Livestock management backend — a Dafny model

The system is a Flask back end for livestock management. Farmers register
their animals, veterinarians are assigned to animals and write health records,
and administrators manage accounts. Every user has a role (farmer,
veterinarian, admin) and a status (pending, active, inactive, suspended). A
user can log in only when active and verified on both the email and the phone
channel. Verification and password reset go through a single one-time-code
slot on the user row. Rows are never deleted: they are soft-deleted by an
`is_active` flag.

The model keeps the tables of the database as sequences, in insertion order,
inside one `Db.Store` object. The service and route operations that change
rows are methods on that store, with `modifies` clauses. Each method is proved
against a pure function that says what the operation computes, and the
properties the code promises are proved as lemmas about those functions. The
modules follow the program:

- `Text`, `Json`, `Tables`, `Wrappers`: the parts of Python the code relies on.
  These are `str.lower`/`strip`, JSON values and dictionaries, filtering,
  counting and stable sorting of query results, and result and option types.
  `Result` has an extra `Crash` case for the `except` branches that turn a
  failed commit or a raised exception into an error reply.
- `Helpers` (app/utils/helpers.py) and `Validators` (app/utils/validators.py).
- `BaseModel`, `UserModel`, `AnimalModel` (app/models): entities, enumerations,
  defaults and the predicates on them.
- `Db`: the store and its uniqueness constraints (unique email, Aadhar,
  licence, employee id, tag id and primary key).
- `OtpService`, `AuthUtils` (app/services/otp_service.py, app/auth/utils.py):
  the one-time-code slot, authentication and account verification.
- `UserService`, `AnimalService` (app/services): registration, verification,
  profile updates, deactivation, animal creation, vet assignment, health
  records, summaries and search.
- `Http`, `Decorators`, `Policy`: reply shapes, the route decorators as
  decision functions, and the role-scoped access policy the endpoints
  implement, with its lemmas.
- `AnimalsApi`, `UsersApi`, `FarmersApi`, `VetsApi`, `AuthRoutes` (app/api,
  app/auth/routes.py): the endpoints. Each has its access decision, its
  scoping and the store updates it makes.

The clock is a parameter: `now` counts microseconds and `today` counts days.
Randomness is a `draw` function, and a new id is a parameter. Password hashing
is credential equality. The email-format check, date parsing and JSON parsing
are function parameters.

## Model

| member | source | states |
|---|---|---|
| Text.NormalisedIsLower | app/services/user_service.py:58 | lower-casing the stripped, lower-cased email changes nothing, so the stored email is in normal form |
| Text.NormalisedEmpty | app/services/user_service.py:58 | the normalised email is empty exactly when the given one is all whitespace |
| Text.Digits | app/utils/helpers.py:36 | the filtered string holds only digits, is no longer than the input, and is the input itself when that is all digits |
| Helpers.GenerateOtp | app/utils/helpers.py:10-13 | the code has exactly `length` characters (none for a negative length), each a decimal digit |
| Helpers.EveryCodeIsPossible | app/utils/helpers.py:10-13 | every digit string is the output of some draw of the random source |
| Helpers.OtpValidityWindow | app/utils/helpers.py:21-27 | no timestamp is never valid; a code is valid from its issue instant up to but excluding issue + validity, and the expiry instant itself is invalid |
| Helpers.OtpValidityMonotone | app/utils/helpers.py:21-27 | a code valid later, or under a shorter window, is valid earlier and under a longer one |
| Helpers.FormatPhoneNumber | app/utils/helpers.py:30-46 | None exactly for empty input; otherwise a digits-only suffix of the input's digits, and exactly those digits unless there are 13 starting `91` or 12 starting `0` |
| Helpers.FormatKeepsTenDigits | app/utils/helpers.py:39-40 | an input with ten digits, separators or not, comes back as those digits; ten bare digits come back unchanged |
| Helpers.FormatIdempotent | app/utils/helpers.py:30-46 | formatting a formatted number changes nothing |
| Helpers.PrefixBranchesGiveElevenDigits | app/utils/helpers.py:41-44 | the "91"-prefix and leading-zero branches both yield 11 digits, a length the phone validator rejects |
| Helpers.PaginateCounts | app/utils/helpers.py:76-92 | per_page is capped at max_per_page; total is the row count, pages is ceil(total/per_page), has_next iff page*per_page < total iff page < pages, has_prev iff page > 1 |
| Helpers.LaterPageExists | app/utils/helpers.py:89-90 | page*per_page < total exactly when page is below the reported page count |
| Helpers.PaginateItems | app/utils/helpers.py:82 | the page holds at most per_page rows, its i-th item is row (page-1)*per_page+i, and a short page is the last one |
| Helpers.PageWindow | app/utils/helpers.py:82 | offset then limit selects the consecutive rows from the offset on, at most the limit of them |
| Helpers.PageItemsAreRows | app/utils/helpers.py:81-82 | every item on a page is a row of the query, and the total is the number of rows |
| Helpers.CeilingDiv | app/utils/helpers.py:89 | (total + per_page - 1) // per_page is the least page count that covers the total |
| Helpers.FloorDiv | app/utils/helpers.py:89 | Python's floor division: the quotient q satisfies q*b <= a < q*b + b for a positive divisor |
| Helpers.Mask | app/utils/helpers.py:120-138 | scalars come back unchanged; a dictionary keeps every key in order, a sensitive key's value becomes "***MASKED***" and any other value is masked in turn; a list's items are each masked |
| Helpers.MaskKeepsPublic | app/utils/helpers.py:120-138 | a value with no sensitive key at any depth comes back unchanged |
| Helpers.MaskHidesSensitive | app/utils/helpers.py:125-136 | after masking, no sensitive key at any depth holds anything but "***MASKED***" |
| Helpers.MaskIdempotent | app/utils/helpers.py:120-138 | masking twice is masking once |
| Helpers.CreateResponse | app/utils/helpers.py:49-63 | the reply always has success and message, has 'data' exactly when data is not None and 'errors' exactly when errors is not None, and carries the status code |
| Helpers.Envelope | app/utils/helpers.py:51-55 | the base dictionary has success and message and neither data nor errors |
| Helpers.SuccessResponse | app/utils/helpers.py:66-68 | success is true and there is no 'errors' key |
| Helpers.ErrorResponse | app/utils/helpers.py:71-73 | success is false and there is no 'data' key |
| Validators.PhoneOfDigits | app/utils/validators.py:17-21 | a digit string is valid exactly when it has 10 digits and starts with 6-9 |
| Validators.PhoneTrailingNewline | app/utils/validators.py:20-21 | `$` in `re.match` also accepts a valid number followed by one newline |
| Validators.ValidatePasswordStrength | app/utils/validators.py:24-43 | the error list is the messages of the broken rules in source order (length, uppercase, lowercase, digit, special); ok iff the list is empty iff the password is strong |
| Validators.CheckRule | app/utils/validators.py:28-41 | one rule check appends that rule's message exactly when the rule is broken |
| Validators.StrongBreaksNothing | app/utils/validators.py:43 | a password is strong exactly when it breaks no rule |
| Validators.BrokenRulesMeaning | app/utils/validators.py:28-41 | a rule is listed exactly when the password breaks it, and at most five are listed |
| Validators.PasswordErrorsMeaning | app/utils/validators.py:28-43 | a rule's message is in the error list exactly when the rule is broken; there are at most five errors |
| Validators.MessagesMeaning | app/utils/validators.py:28-41 | with distinct messages, a message is listed exactly when its rule is |
| Validators.MessagesInjective | app/utils/validators.py:29-41 | the five messages are pairwise distinct |
| Validators.AadharWithoutSpaces | app/utils/validators.py:46-54 | input without whitespace is accepted exactly when it is empty or exactly 12 digits |
| Validators.ValidateUserRoleExactly | app/utils/validators.py:57-65 | a value is accepted exactly when it is the string "farmer", "veterinarian" or "admin" |
| Validators.ValidateRequiredFields | app/utils/validators.py:68-74 | the missing list holds exactly the required fields that are absent, falsy or blank, in the order given; ok iff it is empty |
| Validators.SanitizeString | app/utils/validators.py:77-92 | the result has none of `< > " ' &`, is no longer than the input, and is at most max_length long when a positive one is given |
| Validators.SliceTo | app/utils/validators.py:90 | `value[:n]` is a prefix of length min(n, len) |
| Validators.ValidateJsonData | app/utils/validators.py:95-133 | the errors are the per-field errors of the schema in order; ok iff there are none |
| Validators.CheckField | app/utils/validators.py:100-131 | one loop pass appends exactly the errors the field's rules give for its value |
| Validators.FalsyFieldErrors | app/utils/validators.py:103-109 | a falsy required field yields exactly "<field> is required" and nothing else; a falsy optional field yields no error |
| Validators.SchemaErrorsEmpty | app/utils/validators.py:99-133 | the schema check passes exactly when every field passes |
| BaseModel.Fresh | app/models/base.py:25-26 | a new row is active with no deletion time |
| BaseModel.SoftDeleted | app/models/base.py:41-45 | soft delete clears is_active and records the deletion time |
| BaseModel.Restored | app/models/base.py:47-51 | restore sets is_active and clears the deletion time |
| BaseModel.RestoreAfterSoftDelete | app/models/base.py:41-51 | restoring a soft-deleted row gives a fresh active row |
| BaseModel.GetActive | app/models/base.py:53-56 | exactly the rows whose is_active is true |
| UserModel.ParseRole | app/models/user.py:11-15 | a parsed role's value is the given string |
| UserModel.RoleValuesRoundTrip | app/models/user.py:11-15 | every role parses back from its value, and exactly the three role values parse |
| UserModel.ParseStatus | app/models/user.py:18-23 | a parsed status's value is the given string |
| UserModel.StatusValuesRoundTrip | app/models/user.py:18-23 | every status parses back from its value, and exactly the four status values parse |
| UserModel.RoleOf | app/models/user.py:85-188 | the role agrees with the subclass row the user has |
| UserModel.CanLoginExactly | app/models/user.py:65-71 | can_login iff status is ACTIVE and both channels are verified; pending, inactive and suspended users never can |
| UserModel.NewUser | app/models/user.py:39-45 | a new user is PENDING, unverified on both channels, has no code and no code time, is active, and cannot log in |
| UserModel.JsonContains | app/models/user.py:197 | Python's `in` is defined for lists, dictionaries and strings and raises for other JSON values |
| UserModel.HasPermissionMeaning | app/models/user.py:190-199 | no, empty or unparseable permissions grant nothing; otherwise the permission is granted iff it or "all" is in the parsed list |
| UserModel.ScalarPermissionsGrantNothing | app/models/user.py:195-199 | permissions that parse to a number, boolean or null grant nothing, because `in` raises |
| UserModel.ToDict | app/models/user.py:73-79 | the dictionary never has password_hash or otp_code and keeps every other column of the row it is given unchanged (for a farmer, veterinarian or admin that row is the role's joined table, without the users-table columns) |
| AnimalModel.ParseSpecies | app/models/animal.py:10-18 | a parsed species has the given value; a failed parse means no species has it |
| AnimalModel.ParseGender | app/models/animal.py:20-23 | the same for genders |
| AnimalModel.ParseHealth | app/models/animal.py:25-32 | the same for health statuses |
| AnimalModel.ParseProduction | app/models/animal.py:34-41 | the same for production statuses |
| AnimalModel.SpeciesClosed | app/models/animal.py:10-18 | every species is listed and parses back from its value |
| AnimalModel.GenderClosed | app/models/animal.py:20-23 | every gender is listed and parses back from its value |
| AnimalModel.HealthClosed | app/models/animal.py:25-32 | every health status is listed and parses back from its value |
| AnimalModel.ProductionClosed | app/models/animal.py:34-41 | every production status is listed and parses back from its value |
| AnimalModel.NeedsAttentionExactly | app/models/animal.py:106-113 | needs_attention iff sick, under treatment or in quarantine |
| AnimalModel.IsProductiveExactly | app/models/animal.py:94-104 | no production status is unproductive; dry and retired are unproductive; the other four are productive |
| AnimalModel.DaysSinceCheckup | app/models/animal.py:121-125 | None exactly when there is no last checkup; otherwise last checkup + days = today |
| Db.InsertUserKeepsUnique | app/models/user.py:33 | inserting a user that clashes with no row keeps every unique column unique |
| Db.ReplaceUserKeepsUnique | app/models/user.py:33 | replacing a user row by one with the same keys keeps the columns unique |
| Db.ReplaceAnimalKeepsUnique | app/models/animal.py:47 | replacing an animal row with the same id and tag keeps ids and tags unique |
| Db.UniqueUserId | app/models/base.py:17 | two user rows with the same id are the same row |
| Db.ActiveUserIndex | app/models/base.py:53-56 | `filter_by(id=..., is_active=True).first()`: the first active row with the id, or none exists |
| Db.ActiveRoleIndex | app/services/animal_service.py:29 | the first active row of the role with the id, or none exists |
| Db.ActiveEmailIndex | app/auth/utils.py:50 | the first active row with the email, or none exists |
| Db.UserIndex | app/api/vets.py:254-256 | the first row with the id, deleted or not, or none exists |
| Db.ActiveAnimalIndex | app/services/animal_service.py:128 | the first active animal with the id, or none exists |
| Db.AnimalIndex | app/api/vets.py:238-242 | the first animal with the id, or none exists |
| Db.Store.constructor | app/models/base.py:10-26 | the store starts empty and valid |
| Db.Store.AddUser | app/models/user.py:33 | a user that clashes with no unique column is appended; the store stays valid and nothing else changes |
| Db.Store.AddAnimal | app/models/animal.py:47 | an animal with a new id and tag is appended; nothing else changes |
| Db.Store.AddRecord | app/models/animal.py:168-172 | a record with a new id is appended; nothing else changes |
| Db.Store.PutUser | app/models/user.py:33 | one user row is replaced by one with the same keys; the store stays valid |
| Db.Store.PutAnimal | app/models/animal.py:47 | one animal row is replaced by one with the same id and tag; the store stays valid |
| OtpService.Issued | app/services/otp_service.py:23-24 | the slot holds the new code and the issue instant; nothing else in the row changes |
| OtpService.Cleared | app/services/otp_service.py:64-65 | code and instant are both empty; nothing else changes |
| OtpService.VerifyOtpOkExactly | app/services/otp_service.py:37-54 | success iff a code is stored, the caller gave exactly that code, and its window is open |
| OtpService.WrongCodeBeforeExpiry | app/auth/utils.py:92-96 | a wrong code is reported as invalid, never as expired, whatever the time |
| OtpService.OnlyLatestCodeValidates | app/auth/utils.py:73-77 | after a new code is issued only that code succeeds; the previous code fails |
| OtpService.IssuedCodeLifetime | app/services/otp_service.py:45-51 | a matching fresh code succeeds until its window closes and is reported expired from then on |
| OtpService.ClearedHasNoOtp | app/auth/utils.py:89-90 | after clearing, every check reports that no code exists |
| OtpService.ResetCodeVerifiesAccount | app/services/otp_service.py:16-28 | the slot does not record what a code is for: a reset code also passes the account-verification check |
| OtpService.OtpRemainingTime | app/services/otp_service.py:82-90 | never negative, and 0 without a timestamp |
| OtpService.RemainingTimeAgreesWithExpiry | app/services/otp_service.py:74-90 | an expired code has no time left, time left means not expired, and the remaining time rounds down by under a second |
| OtpService.LastSecondReportsZero | app/services/otp_service.py:90 | in the last second of its window a code is still valid yet reports 0 seconds left |
| OtpService.GenerateOtpForUser | app/services/otp_service.py:16-28 | a 6-digit code is drawn and stored with the current instant over any earlier code; nothing else changes |
| OtpService.ClearUserOtp | app/services/otp_service.py:61-65 | the user's code and instant are cleared; nothing else changes |
| AuthUtils.Authenticate | app/auth/utils.py:45-68 | success returns a user who can log in and whose email is the lower-cased given email |
| AuthUtils.EmptyCredentialsRefused | app/auth/utils.py:47-48 | an empty email or password is refused before the lookup, whatever the table holds |
| AuthUtils.UnknownEmailLooksLikeWrongPassword | app/auth/utils.py:50-56 | an unknown email and a wrong password give the same message |
| AuthUtils.StatusMessages | app/auth/utils.py:58-66 | with a correct password, pending, inactive and suspended users each get their own message, and an active unverified user gets "Account verification required" |
| AuthUtils.MarkVerified | app/auth/utils.py:113-123 | email is set for 'email'/'both', phone for 'phone'/'both', and status becomes ACTIVE whenever both flags are then set, else stays |
| AuthUtils.VerifyBothActivatesFromAnyStatus | app/auth/utils.py:122-123 | verifying both channels lets the user log in, even a suspended user |
| AuthUtils.VerifiedAccountReactivatedByAnyKind | app/auth/utils.py:122-123 | an already verified user is made ACTIVE by any verification request |
| AuthUtils.SingleChannelKeepsStatus | app/auth/utils.py:115-123 | verifying email alone without a verified phone keeps the status |
| AuthUtils.VerifyUserAccount | app/auth/utils.py:113-130 | the user row becomes MarkVerified of itself; nothing else changes |
| AuthUtils.ResetUserPassword | app/auth/utils.py:133-142 | only the user's credential changes, to the new password |
| AuthUtils.CheckUserPermissions | app/auth/utils.py:145-170 | true iff every required permission is granted: admins through has_permission, others through the role table or 'all'; an empty list always passes |
| AuthUtils.FarmerPermissions | app/auth/utils.py:158-159 | a farmer holds exactly the three farmer permissions |
| UserService.CreatedProfile | app/services/user_service.py:62-69 | the stored profile has exactly the role's descriptive columns |
| UserService.RoleColumns | app/services/user_service.py:56-62 | the subclass row matches the role being registered |
| UserService.CheckInput | app/services/user_service.py:23-44 | input passes only with no missing required field, an email accepted by the format check, a phone whose normalised form is valid, and a password with no strength error |
| UserService.DuplicateMessage | app/services/user_service.py:47-53 | no duplicate is reported only when no account, deactivated ones included, has the lower-cased email or the phone |
| UserService.Admission | app/services/user_service.py:56-78 | the new row has the given id and role, the lower-cased and stripped email, the normalised phone and the password; admins are ACTIVE and verified, farmers and vets PENDING and unverified; no code; it clashes with no unique column |
| UserService.Registration | app/services/user_service.py:19-218 | a registration succeeds only for input that passes every check and no existing account; the created row is as Admission says |
| UserService.RegistrationOrder | app/services/user_service.py:23-40 | missing fields are reported first, then a bad email, then a bad phone, then a weak password |
| UserService.DeactivatedAccountsBlockRegistration | app/services/user_service.py:47-53 | the email of a deactivated account still blocks a new registration |
| UserService.ValidateInput | app/services/user_service.py:23-44 | the input checks as the services run them give CheckInput's result |
| UserService.CreateUser | app/services/user_service.py:19-218 | the result is Registration's; the row is appended exactly on success; the store stays valid |
| UserService.Admit | app/services/user_service.py:56-78 | the insert gives Admission's result and appends the row exactly on success |
| UserService.VerificationNotice | app/services/user_service.py:227-248 | success iff a phone request had its SMS sent or an email request had its email sent |
| UserService.InitiateUserVerification | app/services/user_service.py:221-248 | a fresh code is stored whatever the sends do; the code is returned only when some channel reported success |
| UserService.UnknownKindSendsNothing | app/services/user_service.py:230-248 | an unrecognised kind sends nothing and fails with "Failed to send verification code" |
| UserService.Verified | app/services/user_service.py:264-275 | the row is marked verified as in app/auth/utils.py and its code is cleared |
| UserService.VerifyUserAccount | app/services/user_service.py:255-290 | a failed code check reports its message and changes nothing; success marks the channels, activates a fully verified user and clears the code |
| UserService.VerificationConsumesCode | app/services/user_service.py:275 | after a successful verification the same code finds no code stored |
| UserService.ApplyUpdatesFrame | app/services/user_service.py:296-321 | the loop changes nothing but the name and whitelisted profile columns, records only whitelisted fields and drops no profile key |
| UserService.ApplyUpdatesNothing | app/services/user_service.py:317-328 | a field is recorded iff the request holds a whitelisted one; with none the row is unchanged |
| UserService.UpdateUserProfile | app/services/user_service.py:293-333 | with no whitelisted field: "No valid fields to update" and no change; otherwise the loop's row is stored, or the commit fails and nothing changes |
| UserService.Deactivated | app/services/user_service.py:339-340 | status INACTIVE and is_active false; nothing else changes |
| UserService.Reactivated | app/services/user_service.py:356-361 | is_active true and status ACTIVE if verified, else PENDING |
| UserService.DeactivateIdempotent | app/services/user_service.py:336-350 | deactivating twice is deactivating once, and a deactivated user cannot log in |
| UserService.ReactivateRestoresLogin | app/services/user_service.py:353-366 | a reactivated user can log in iff verified; reactivating a deactivated user who could log in gives the row back |
| UserService.DeactivateUser | app/services/user_service.py:336-350 | the row becomes Deactivated of itself |
| UserService.ReactivateUser | app/services/user_service.py:353-371 | the row becomes Reactivated of itself |
| AnimalService.OptionalEnum | app/services/animal_service.py:57-69 | absent exactly for a falsy value; a parsed value is the lower-cased string's member |
| AnimalService.OptionalDate | app/services/animal_service.py:72-85 | absent exactly for a falsy value; a parsed date is what the date parser returns |
| AnimalService.OptionalText | app/services/animal_service.py:90-109 | a copied text column holds None or a string |
| AnimalService.CopyColumns | app/services/animal_service.py:88-110 | the copied attributes are exactly the listed text and raw columns |
| AnimalService.CheckAnimal | app/services/animal_service.py:23-43 | passes only with tag, species and gender present, an active farmer, and a species and gender that parse case-insensitively |
| AnimalService.CheckStatus | app/services/animal_service.py:55-85 | a falsy health status gives HEALTHY, a falsy production status none, and a given health status its parsed value |
| AnimalService.BuildAnimal | app/services/animal_service.py:88-113 | the row has the stripped tag, the given id and farmer, no vet, the parsed species, gender and statuses, no checkup, is active, and clashes with no id or tag |
| AnimalService.AnimalCreation | app/services/animal_service.py:19-121 | creation succeeds only for an active farmer and an unused tag; the animal is the farmer's, unassigned, HEALTHY and without production status unless valid ones were given |
| AnimalService.TagCheckAndStorageDisagree | app/services/animal_service.py:46-53 | the duplicate check compares the raw tag but the stripped tag is stored and the column is unique table-wide: a clash the check misses ends as a failed commit |
| AnimalService.CreateAnimal | app/services/animal_service.py:19-121 | the result is AnimalCreation's; the animal is appended exactly on success |
| AnimalService.AssignmentTarget | app/services/animal_service.py:127-139 | assignment proceeds iff the animal is active and the vet exists, is not deleted and is ACTIVE |
| AnimalService.UnverifiedVetCanBeAssigned | app/services/animal_service.py:138 | only the vet's status is checked, not verification |
| AnimalService.AssignVeterinarian | app/services/animal_service.py:123-151 | on success only the animal's veterinarian_id changes; on failure nothing changes |
| AnimalService.AnimalUpdatesFrame | app/services/animal_service.py:162-187 | the loop never changes id, tag, farmer, vet, species, gender, dates or the soft-delete state, and records only whitelisted fields |
| AnimalService.AnimalStepFrame | app/services/animal_service.py:170-187 | one pass changes only the enum and descriptive columns and records at most its own whitelisted field |
| AnimalService.AnimalUpdatesAttrs | app/services/animal_service.py:162-187 | descriptive columns change only under whitelisted names and none is dropped |
| AnimalService.AnimalUpdatesNothing | app/services/animal_service.py:189-194 | a loop that records nothing leaves the animal unchanged |
| AnimalService.FalsyHealthBypassesValidation | app/services/animal_service.py:173-187 | a falsy health status skips validation and is assigned raw, so the update fails; an unknown non-empty one is skipped and gives "No valid fields to update" |
| AnimalService.NullProductionClears | app/services/animal_service.py:179-187 | a null production status clears the column and is reported as updated |
| AnimalService.UpdateAnimalProfile | app/services/animal_service.py:153-199 | an inactive or missing animal gives "Animal not found"; otherwise the loop's result is stored, or reported as nothing to update or a failed commit with no change |
| AnimalService.RaisedStaysRaised | app/services/animal_service.py:196-199 | once `.lower()` raises, later items change nothing |
| AnimalService.HealthRecordCreation | app/services/animal_service.py:201-258 | a record needs an active animal; it gets the given id and author, today's date unless one is given, no next checkup unless given, and a condition iff one is given; a missing animal_id is reported first |
| AnimalService.AfterCheckup | app/services/animal_service.py:260-263 | with a condition the animal takes it as health status and the checkup date as last checkup; without one it is unchanged |
| AnimalService.CreateHealthRecord | app/services/animal_service.py:201-273 | on success the record is appended and the animal updated together; on failure neither changes |
| AnimalService.RecordsOf | app/services/animal_service.py:283-285 | exactly the active records of the animal |
| AnimalService.AnimalHealthHistory | app/services/animal_service.py:276-288 | "Animal not found" unless the animal is active; otherwise the animal's active records, latest checkup first, with no record repeated beyond its count in the table (a sub-multiset), exactly `limit` of them when there are more, all of them without a limit |
| AnimalService.HistoryIsLatest | app/services/animal_service.py:283-286 | `order_by(checkup_date.desc()).limit(n)` keeps the latest records: no active record of the animal left out of the history has a later checkup than one kept |
| AnimalService.RecordedCheckupInHistory | app/services/animal_service.py:258-286 | a record just created appears in its animal's history |
| AnimalService.FarmerAnimals | app/services/animal_service.py:302 | exactly the farmer's active animals |
| AnimalService.Bump | app/services/animal_service.py:313 | the key's count goes up by one, other keys are unchanged |
| AnimalService.GetFarmerAnimalsSummary | app/services/animal_service.py:294-341 | "Farmer not found" unless the farmer is active; otherwise the breakdowns map each present species, health and production status to its count, healthy is the healthy count, attention the sick + under-treatment + quarantine count |
| AnimalService.BreakdownStep | app/services/animal_service.py:310-317 | one loop pass keeps the breakdown invariant |
| AnimalService.ProductionBreakdownStep | app/services/animal_service.py:319-322 | one pass keeps the production breakdown, which skips animals without a status |
| AnimalService.SpeciesListedOnce | app/models/animal.py:10-18 | each species is listed once |
| AnimalService.HealthListedOnce | app/models/animal.py:25-32 | each health status is listed once |
| AnimalService.ProductionListedAtMostOnce | app/models/animal.py:34-41 | each production status is listed once and "no status" not at all |
| AnimalService.SpeciesDistinct | app/models/animal.py:10-18 | the species list has no repeats |
| AnimalService.HealthDistinct | app/models/animal.py:25-32 | the health list has no repeats |
| AnimalService.BreakdownsAddUp | app/services/animal_service.py:305-322 | species counts and health counts each sum to the total, production counts to at most the total |
| AnimalService.AttentionIsNeedsAttention | app/services/animal_service.py:330-334 | the attention figure counts exactly the animals that need attention |
| AnimalService.HealthSumUnfolded | app/services/animal_service.py:316-317 | the health breakdown is the sum of the six status counts |
| AnimalService.SummaryFiguresBounded | app/services/animal_service.py:329-334 | healthy + attention never exceeds the total |
| AnimalService.AssignedTo | app/services/animal_service.py:351-353 | exactly the vet's active animals |
| AnimalService.VetAnimals | app/services/animal_service.py:351-354 | the vet's active animals, newest first |
| AnimalService.GetVetAssignedAnimals | app/services/animal_service.py:343-381 | "Veterinarian not found" unless the vet is active; otherwise the animals newest first, their number, the grouping by status and the attention count |
| AnimalService.GroupByStatus | app/services/animal_service.py:356-362 | each present status maps to its animals in list order |
| AnimalService.CountAttention | app/services/animal_service.py:364-368 | the count of animals that need attention |
| AnimalService.GroupStep | app/services/animal_service.py:358-362 | one pass keeps the grouping invariant |
| AnimalService.AttentionStep | app/services/animal_service.py:366-368 | one pass adds one exactly for an animal that needs attention |
| AnimalService.GroupsPartitionAssigned | app/services/animal_service.py:356-362 | every animal is in its own status's group, and the groups account for all animals |
| AnimalService.DeactivateAnimal | app/services/animal_service.py:383-399 | an active animal is soft-deleted; otherwise "Animal not found" and no change |
| AnimalService.DeactivatedAnimalIsGone | app/services/animal_service.py:387-389 | after deactivation the animal is not found, so a second call fails |
| AnimalService.ParseCriteria | app/services/animal_service.py:405-437 | each filter is present iff its parameter is truthy; an unknown species gives "Invalid species" |
| AnimalService.Selection | app/services/animal_service.py:405-437 | exactly the animals that pass every filter |
| AnimalService.SearchAnimals | app/services/animal_service.py:401-449 | the species and health errors first; then "Failed to search animals" when `order_by` is not a string or names an attribute of `Animal` that is not a column; success iff the parameters parse and the ordering step does not raise, and then exactly the active animals matching every filter |
| AnimalService.EmptySearchListsActive | app/services/animal_service.py:405-442 | with no parameters (so ordering by the `created_at` column), exactly the active animals |
| AnimalService.SearchSkipsDeactivated | app/services/animal_service.py:405 | a deactivated animal never appears |
| Http.Fail | app/utils/helpers.py:71-73 | an error reply carries the status and message, no body and no error list |
| Http.FailWith | app/utils/helpers.py:71-73 | an error reply carries the status, the message and the given error list, no body |
| Http.Done | app/utils/helpers.py:66-68 | a success reply carries the status, the message and the body |
| Http.Paged | app/utils/helpers.py:76-92 | a listing succeeds exactly when the page size is non-zero; a zero size raises in `//` and `auth_required` answers 401 "Authentication failed" with the exception's text; the page is `Paginate` of the rows, reports the full row count and holds only given rows |
| Http.LookupFailuresAre404 | app/api/animals.py:318-349 | the "not found" messages of the two summary services are answered with 404 |
| Decorators.AuthRequired | app/utils/decorators.py:10-32 | admits exactly an active account with the token's id that can log in, at its position; no such account gives 401, one that cannot log in 403 |
| Decorators.AdmittedUserCanLogin | app/utils/decorators.py:17-23 | an admitted user has the token's id and is active, ACTIVE and verified by email and phone |
| Decorators.RoleRequired | app/utils/decorators.py:35-54 | admits exactly the users `auth_required` admits whose role is allowed; keeps its refusals and refuses other roles with 403 listing the allowed values |
| Decorators.AdminRequiredExactly | app/utils/decorators.py:57-63 | `admin_required` admits exactly the logged-in admins and refuses others with "Required roles: ['admin']" |
| Decorators.VetOrAdminRequiredExactly | app/utils/decorators.py:84-90 | `vet_or_admin_required` admits exactly the logged-in non-farmers |
| Decorators.VerifiedUserRequired | app/utils/decorators.py:93-107 | keeps every refusal of `auth_required` |
| Decorators.VerifiedCheck | app/utils/decorators.py:100-104 | admits exactly a verified user |
| Decorators.ActiveUserRequired | app/utils/decorators.py:110-128 | keeps every refusal of `auth_required` |
| Decorators.ActiveCheck | app/utils/decorators.py:116-125 | admits exactly a user whose status is ACTIVE |
| Decorators.StatusGatesAddNothing | app/utils/decorators.py:100-125 | `verified_user_required` and `active_user_required` decide exactly as `auth_required` does; their three status messages are distinct but unreachable |
| Decorators.SameUserOrAdminRequired | app/utils/decorators.py:131-148 | admits exactly an authenticated admin or the user whose id is the target; otherwise 403 "own data" |
| Policy.FarmerConfinedToOwnAnimals | app/api/animals.py:130-296 | a farmer may not read, update, assign a vet to, read the records of or delete another farmer's animal |
| Policy.VetConfinedToAssignedAnimals | app/api/animals.py:133-287 | a veterinarian may not touch an animal not assigned to them, and never assigns or deletes |
| Policy.AssignedVetRights | app/api/animals.py:133-263 | the assigned veterinarian may read, update and add records to the animal |
| Policy.FarmersWriteNoRecords | app/api/animals.py:217-218 | a farmer never adds health records |
| Policy.AdminUnrestrictedOnAnimals | app/api/animals.py:136-296 | an admin may perform every animal operation on every animal |
| Policy.AdminDeletionRule | app/api/users.py:321-323 | an admin may delete an account iff it is not an admin's or it is their own |
| Policy.NonAdminsSelfOnly | app/api/users.py:185-314 | a non-admin deletes no account and reads or updates exactly their own |
| Policy.VetsSeeSummariesNotDashboards | app/api/animals.py:312-316 | every veterinarian may see any farmer's summary, and none sees a farmer's dashboard |
| Policy.AdminOnlyOperations | app/api/users.py:196-314 | listing users, changing status, listing farmers, animal statistics and deletion admit only admins |
| AnimalsApi.ViewAccess | app/api/animals.py:130-136 | any refusal is "Access denied" |
| AnimalsApi.ViewAccessIsPolicy | app/api/animals.py:130-264 | for a real actor id, the read/update/records test admits exactly what the policy allows |
| AnimalsApi.NoneTextMatchesUnassigned | app/api/animals.py:134 | comparing `str()` texts, a veterinarian with id "None" passes the test on an unassigned animal though the policy refuses |
| AnimalsApi.OwnerAccess | app/api/animals.py:185-187 | any refusal is "Access denied" |
| AnimalsApi.OwnerAccessIsPolicy | app/api/animals.py:177-296 | the role test plus the ownership test admit exactly what the policy allows for assigning and deleting |
| AnimalsApi.RecordAccess | app/api/animals.py:225-227 | any refusal is "Animal not assigned to you" |
| AnimalsApi.RecordAccessIsPolicy | app/api/animals.py:217-227 | the role test plus the assignment test admit exactly what the policy allows for adding records |
| AnimalsApi.AnimalOwner | app/api/animals.py:21-30 | there is an owner iff the actor is a farmer, or an admin whose body has a truthy `farmer_id` |
| AnimalsApi.OwnerIsPolicy | app/api/animals.py:21-30 | the policy lets the actor create animals for that owner |
| AnimalsApi.CreateAnimal | app/api/animals.py:16-46 | veterinarians get 403, an admin without `farmer_id` 400, an empty body 400; 201 iff the service creates, and then exactly that animal is appended |
| AnimalsApi.ListScope | app/api/animals.py:60-74 | farmers start from their own animals, veterinarians from their assigned ones, admins from all or the given farmer's |
| AnimalsApi.ListFilters | app/api/animals.py:76-97 | each filter is set iff its argument is given, with the lower-cased value; an unknown species or health status is refused |
| AnimalsApi.Listing | app/api/animals.py:99-100 | the rows are a permutation of the selection, newest first |
| AnimalsApi.ListingIsSelection | app/api/animals.py:99-100 | the sorted rows hold every selected animal and only those |
| AnimalsApi.ListedPage | app/api/animals.py:102-118 | 200 iff the page size is non-zero, else `auth_required`'s 401; the page returned is `Paginate` of the newest-first selection, counts the whole selection and holds only selected animals |
| AnimalsApi.ListCriteriaMeaning | app/api/animals.py:59-97 | with known species and health arguments the query is built, and an animal passes it exactly when it is active, in the actor's scope and passes each given filter (species, health, search term) |
| AnimalsApi.ListAnimals | app/api/animals.py:49-118 | 400 "Invalid species", then 400 "Invalid health status"; 200 iff both are known and the page size is non-zero, else `auth_required`'s 401; the page returned is `Paginate` of the listing, and every animal on it is active, in the actor's scope and passes the species, health and search filters |
| AnimalsApi.ListingIsTheQuery | app/api/animals.py:59-100 | the rows paged through are every animal the role scope and the filters let through, and only those |
| AnimalsApi.ListedAnimalsAreReadable | app/api/animals.py:60-74 | whatever the filters, every listed animal is one the actor may read |
| AnimalsApi.GetAnimal | app/api/animals.py:121-138 | 404 without an active animal, 403 when access is refused, else that animal |
| AnimalsApi.UpdateAnimal | app/api/animals.py:141-169 | 404, 403, 400 for an empty body, then the service update replacing exactly that animal, or 400 with its message and no change |
| AnimalsApi.UpdateKeepsIdentity | app/services/animal_service.py:160-186 | an update never changes the owner, tag, species, gender, assigned veterinarian or active state, whatever the body |
| AnimalsApi.AssignVeterinarian | app/api/animals.py:172-209 | veterinarians get 403; success iff the owner check, the body, the required field and the service pass, and then only that animal's vet changes |
| AnimalsApi.CreateHealthRecord | app/api/animals.py:212-246 | farmers get 403; 201 iff the assignment check, the body and the service pass, and then the record (for this animal, by the actor) is appended and the animal updated |
| AnimalsApi.GetAnimalHealthRecords | app/api/animals.py:249-278 | 404, 403, else the animal with exactly its health history for `limit` (latest first, at most `limit`, see `AnimalService.HistoryIsLatest`), all of them its own active records |
| AnimalsApi.DeleteAnimal | app/api/animals.py:281-304 | success iff not a veterinarian, the animal is active and owned (or admin); then it is soft-deleted and no longer found |
| AnimalsApi.SummaryAccessIsPolicy | app/api/animals.py:311-316 | the summary test admits exactly what the policy allows |
| AnimalsApi.GetFarmerAnimalsSummary | app/api/animals.py:307-323 | 403 when refused, 404 without the active farmer; otherwise a summary of exactly the farmer's active animals |
| AnimalsApi.AssignmentsAccessIsPolicy | app/api/animals.py:330-335 | the assignments test admits exactly what the policy allows |
| AnimalsApi.GetVetAssignedAnimals | app/api/animals.py:326-349 | 403, 404 without the active veterinarian; otherwise exactly the assigned active animals, grouped by health, with the attention count |
| AnimalsApi.SearchParams | app/api/animals.py:356-372 | the parameters hold the query arguments, `order_by` defaulting to `created_at`, then the farmer's or veterinarian's own id, or an admin's `farmer_id` |
| AnimalsApi.SearchAnimals | app/api/animals.py:352-385 | 200 or 400, and 400 when `order_by` names an attribute that is not a column; every animal found is active and, for a farmer or veterinarian, their own |
| AnimalsApi.SearchIsScoped | app/services/animal_service.py:405-413 | a truthy `farmer_id` or `veterinarian_id` confines the search to that owner or veterinarian |
| AnimalsApi.ActiveAnimals | app/api/animals.py:394 | only active animals |
| AnimalsApi.GetAnimalsStats | app/api/animals.py:388-430 | the total, one count per species and per health status, the attention, unassigned and healthy counts, all over active animals |
| AnimalsApi.StatsAddUp | app/api/animals.py:397-427 | the species and health counts each add up to the total; attention is sick plus under treatment plus quarantine; healthy plus attention is at most the total |
| UsersApi.Register | app/api/users.py:14-105 | an empty body gives 400; a refused registration gives 400 with the service's message and no change; otherwise 201 with the new account, which is appended (with its first code unless it is an admin) |
| UsersApi.Enrol | app/api/users.py:24-30 | the outcome is exactly the service's registration, and the store grows by exactly the enrolled account on success |
| UsersApi.RegisteredAccountsWaitForVerification | app/api/users.py:24-30 | a newly registered farmer or veterinarian is PENDING, holds a code and cannot log in |
| UsersApi.VerifyUser | app/api/users.py:108-137 | 400 for an empty body or missing fields; success only for the active account of the email whose code checks, which is then marked verified; otherwise nothing changes |
| UsersApi.ResendVerification | app/api/users.py:140-177 | nothing changes unless an unverified active account has the email; then a fresh code is stored, and the reply is 200 or 500 as the notice succeeds; a verified account gets 400 |
| UsersApi.NoticeFailureIsNotDatabaseFailure | app/api/users.py:174-177 | a failed notice is reported with its own message, never the database error text |
| UsersApi.SelfOrAdmin | app/api/users.py:185-186 | any refusal is "Access denied" |
| UsersApi.SelfOrAdminIsPolicy | app/api/users.py:185-250 | the test admits exactly what the policy allows for reading or updating a user |
| UsersApi.GetUser | app/api/users.py:180-192 | 403 when refused, 404 without the active account; 200 iff both pass, with that active account |
| UsersApi.ListQuery | app/api/users.py:201-220 | a type or status filter is set iff its argument is one of the known values (then with that value); a search term iff the argument is non-empty |
| UsersApi.UserSelection | app/api/users.py:205-220 | exactly the active accounts that pass every filter |
| UsersApi.UserRows | app/api/users.py:222-223 | the matching accounts, newest first |
| UsersApi.UserRowsAreTheQuery | app/api/users.py:205-223 | the rows are every matching account, and only those |
| UsersApi.ListUsers | app/api/users.py:195-241 | 200 iff the page size is non-zero, else `auth_required`'s 401 "Authentication failed"; the page returned is `Paginate` of the newest-first matches, counts the whole selection and holds only matching accounts |
| UsersApi.UnknownFiltersIgnored | app/api/users.py:208-213 | an unrecognised type and status are ignored rather than refused |
| UsersApi.UpdateUserProfile | app/api/users.py:244-266 | 403, 400 for an empty body; success only for the active account when some field changed, replacing exactly that row; otherwise nothing changes |
| UsersApi.StatusChanged | app/api/users.py:295-299 | the new status is set; INACTIVE hides the row, ACTIVE and PENDING show it, SUSPENDED keeps its visibility; nothing else changes |
| UsersApi.ActivationSkipsVerification | app/api/users.py:295-299 | making an account ACTIVE does not verify it: it can log in iff it was verified |
| UsersApi.RequestedStatus | app/api/users.py:285-287 | a status is accepted iff it is one of the four values, as a string |
| UsersApi.UpdateUserStatus | app/api/users.py:269-310 | 400 for an empty body or an unknown status; 200 iff the body is valid and the account active, and then exactly that row changes status |
| UsersApi.HiddenAccountIsGone | app/api/users.py:296-297 | with unique ids, a hidden row is no longer found by id |
| UsersApi.InactiveAccountsAreUnreachable | app/api/users.py:289-297 | after a status change to INACTIVE, later lookups of the account find nothing |
| UsersApi.DeletionRefusal | app/api/users.py:321-323 | any refusal is "Cannot delete other admin users" |
| UsersApi.DeletionRefusalIsPolicy | app/api/users.py:321-323 | for an admin, the rule admits exactly what the policy allows |
| UsersApi.DeleteUser | app/api/users.py:313-335 | 404 without the active account; success iff found and not another admin; then the row is deactivated and no longer found |
| UsersApi.ActiveUsers | app/api/users.py:344 | only active accounts |
| UsersApi.GetUserStats | app/api/users.py:338-357 | over the active accounts: the total, and the number with status ACTIVE, with PENDING, of each role, and with both email and phone verified; the role counts add up to the total, active plus pending and the verified count are at most the total |
| UsersApi.RolesAddUp | app/api/users.py:347-349 | the three role counts add up to the number of accounts |
| UsersApi.StatusesBounded | app/api/users.py:345-346 | the active and pending counts add up to at most the number of accounts |
| FarmersApi.FiguresMatchSummary | app/api/farmers.py:46-54 | the animal and healthy counts equal the total and healthy figures of the farmer's summary; healthy never exceeds the total |
| FarmersApi.FarmerSelection | app/api/farmers.py:23-32 | exactly the active farmers matching the search |
| FarmersApi.FarmerRows | app/api/farmers.py:34-35 | a permutation of the selection, newest first |
| FarmersApi.RowsAreSelected | app/api/farmers.py:23-35 | every row is a selected farmer |
| FarmersApi.WithFigures | app/api/farmers.py:40-55 | one entry per farmer of the page, each with that farmer's counts |
| FarmersApi.ListFarmers | app/api/farmers.py:15-70 | 200 iff the page size is non-zero, else `auth_required`'s 401 "Authentication failed"; the page is `Paginate` of the newest-first selection, counts it whole, and each entry carries its farmer's figures |
| FarmersApi.FarmerAccessIsPolicy | app/api/farmers.py:77-113 | the test of `get_farmer` and `get_farmer_animals` admits exactly what the policy allows |
| FarmersApi.GetFarmer | app/api/farmers.py:73-101 | 403 when refused, 404 without the active farmer; otherwise that farmer with their figures |
| FarmersApi.GetFarmerAnimals | app/api/farmers.py:104-163 | 403, 404, 400 for an unknown species, then for an unknown health status; 200 iff all pass and the page size is non-zero, else `auth_required`'s 401; the page returned is `Paginate` of the farmer's filtered active animals, newest first |
| FarmersApi.DashboardAccessIsPolicy | app/api/farmers.py:170-175 | the dashboard test admits exactly what the policy allows |
| FarmersApi.RecentRecords | app/api/farmers.py:186-191 | at most ten active records of the farmer's active animals, newest first |
| FarmersApi.RecentRecordsAreNewest | app/api/farmers.py:191 | a record of the farm is left out only when ten records at least as new are shown |
| FarmersApi.GetFarmerDashboard | app/api/farmers.py:166-212 | 403, 404 without the active farmer; otherwise the summary, the recent records and the animals needing attention |
| FarmersApi.DashboardFigures | app/api/farmers.py:193-209 | the alert count is the summary's attention count; healthy plus alerts is at most the total; the attention list is exactly the farmer's active animals needing attention |
| VetsApi.FiguresMatchAssignments | app/api/vets.py:55-64 | the assigned count is the size of the assignment list; treatments never exceed it, and are zero iff no assigned animal is under treatment |
| VetsApi.ListAccessIsPolicy | app/api/vets.py:20-22 | the directory test admits exactly what the policy allows |
| VetsApi.VetSelection | app/api/vets.py:29-42 | exactly the active, ACTIVE veterinarians matching the search and the specialization |
| VetsApi.VetRows | app/api/vets.py:44-45 | a permutation of the selection, newest first |
| VetsApi.RowsAreSelected | app/api/vets.py:29-45 | every row is a selected veterinarian |
| VetsApi.WithFigures | app/api/vets.py:50-65 | one entry per veterinarian of the page, each with their counts |
| VetsApi.ListVets | app/api/vets.py:16-80 | 403 when refused; 200 iff allowed and the page size is non-zero, else `auth_required`'s 401 "Authentication failed"; the page is `Paginate` of the newest-first selection and every entry is a selected veterinarian with their figures |
| VetsApi.ProfileAccessIsPolicy | app/api/vets.py:87-92 | the profile test admits exactly what the policy allows |
| VetsApi.GetVet | app/api/vets.py:83-111 | 403, 404 without the active veterinarian; otherwise that veterinarian with their figures |
| VetsApi.OwnViewsArePolicy | app/api/vets.py:118-221 | the dashboard, records and schedule tests admit exactly what the policy allows |
| VetsApi.RecordRows | app/api/vets.py:187-190 | exactly the veterinarian's active records, newest first |
| VetsApi.GetVetRecords | app/api/vets.py:169-209 | 403, 404; 200 iff both pass and the page size is non-zero, else `auth_required`'s 401; the page returned is `Paginate` of the veterinarian's active records, newest first |
| VetsApi.DueBetween | app/api/vets.py:238-244 | exactly the checkups of assigned active animals due within the range, soonest first |
| VetsApi.Upcoming | app/api/vets.py:141-148 | at most ten checkups of assigned active animals due today or later, soonest first |
| VetsApi.UpcomingAreSoonest | app/api/vets.py:148 | a due checkup is left out only when ten checkups at least as soon are shown |
| VetsApi.AnimalOf | app/api/vets.py:141-145 | the joined animal is the record's animal, active and assigned to the veterinarian |
| VetsApi.Checkups | app/api/vets.py:155-161 | one entry per upcoming record, each with its own animal |
| VetsApi.BuildVetDashboard | app/api/vets.py:129-164 | the found veterinarian with the assignment summary, the ten newest records and the ten soonest checkups from today on |
| VetsApi.GetVetDashboard | app/api/vets.py:114-166 | 403, 404 without the active veterinarian; with an assigned animal, `auth_required`'s 401 "Authentication failed" carrying the serialisation error; 200 iff access passes, the veterinarian is found and no animal is assigned, and then the dashboard |
| VetsApi.DashboardFigures | app/api/vets.py:129-164 | for the dashboard as built (the one the corrected route sends): the assigned total and attention count agree with the summary; upcoming checkups are of assigned animals; at most ten recent records, all the veterinarian's own |
| VetsApi.UpcomingAreAssigned | app/api/vets.py:141-148 | every upcoming checkup joins to an assigned animal and is due today or later |
| VetsApi.NotesOf | app/api/vets.py:252 | the recommendations when truthy, otherwise the notes |
| VetsApi.AppointmentFor | app/api/vets.py:247-258 | there is an entry iff the animal's farmer row exists; it carries the date, the animal, the notes and that farmer's contact fields |
| VetsApi.Appointments | app/api/vets.py:246-258 | defined iff every checkup has its entry, then one entry per checkup in order |
| VetsApi.DateArg | app/api/vets.py:228-233 | an absent date is today plus the offset; a given one is parsed |
| VetsApi.GetVetSchedule | app/api/vets.py:212-271 | 403, 404, 400 for a bad date; otherwise 200 iff every due checkup's animal has a farmer row (else `animal.farmer.name` raises and `auth_required` answers 401 with the exception's text), with the appointments for exactly the due checkups |
| VetsApi.ScheduleIsOrdered | app/api/vets.py:243-244 | every appointment lies within the range and they come in date order |
| VetsApi.ScheduleIsComplete | app/api/vets.py:238-244 | every checkup of an assigned animal due in the range has an appointment |
| AuthRoutes.AccountOf | app/auth/routes.py:138-142 | the active account with the lower-cased, stripped email, or none |
| AuthRoutes.Login | app/auth/routes.py:18-63 | 400 for an empty body, missing fields or a bad email; 401 with the authentication message; 200 iff authentication succeeds, with an active account of that email and password that can log in |
| AuthRoutes.LoginDoesNotRevealAccounts | app/auth/routes.py:39-44 | an unknown email and a wrong password get the same 401 reply |
| AuthRoutes.VerifyOtp | app/auth/routes.py:124-159 | 400, 404 without the account, 400 with the code check's message; on success the account is marked verified and its code cleared; otherwise nothing changes |
| AuthRoutes.VerifyAndClear | app/auth/routes.py:152-155 | exactly the account's row is marked verified and its code cleared |
| AuthRoutes.VerifiedCodeIsSpent | app/auth/routes.py:152-155 | afterwards any code check finds no code, and a "both" verification leaves an account that can log in |
| AuthRoutes.ResendOtp | app/auth/routes.py:162-203 | 404 without the account, 400 when already verified; otherwise a fresh code is stored; nothing changes unless it succeeds |
| AuthRoutes.ForgotPassword | app/auth/routes.py:206-245 | an unknown email gets the same kind of 200 with no change; a known one gets a fresh code |
| AuthRoutes.ResetPassword | app/auth/routes.py:248-293 | 400 for an empty body, missing fields, a weak password, an unknown account or a failing 30-minute code check; on success the password is set and the code cleared |
| AuthRoutes.ResetAndClear | app/auth/routes.py:283-289 | exactly the account's row gets the new password and an empty code slot |
| AuthRoutes.ResetCodeIsSpent | app/auth/routes.py:283-289 | afterwards the new password checks and the reset code cannot be used again |
| AuthRoutes.ChangePassword | app/auth/routes.py:296-335 | 400 for a wrong current password, a weak new one, or the same one; on success only the credential changes, to a different one |
| AuthRoutes.Refresh | app/auth/routes.py:84-121 | 200 iff the token's active account can log in, returning it; otherwise 401 |
| AuthRoutes.ValidateToken | app/auth/routes.py:350-367 | 200 iff the token's active account can log in; otherwise 401 |
| AuthRoutes.TokensFollowTheAccount | app/auth/routes.py:90-360 | once no active account with the id can log in, both endpoints refuse the token |

## Findings

| source | as written | input that shows it | evidently intended | confidence | as-written member | corrected member |
|---|---|---|---|---|---|---|
| app/api/vets.py:150-164 | the assignment summary goes into the reply with its `Animal` rows unconverted (the comment says the service converts them; it does not), so `jsonify` raises and `auth_required` answers 401 "Authentication failed" | an admin asks for the dashboard of an active veterinarian with one active assigned animal | 200 with the dashboard, its animals converted as the assigned-animals route does at app/api/animals.py:338-344 | high; not executed | VetsApi.GetVetDashboard | VetsApi.BuildVetDashboard |

## Left out

- Password hashing: a stored credential is compared for equality with the offered password (`UserModel.CheckPassword`); werkzeug's salted hashes are a foreign library.
- Email-format validation (the `email_validator` library) is a predicate parameter `emailOk`.
- JWT: issuing, signing, decoding and expiring tokens, the claims in them and the error loaders of the app factory are a foreign library. The decorators and the token endpoints take the token's identity as an input.
- SQLAlchemy: each service call is one atomic step on the store. A failed commit and any exception an `except` branch catches become `Crash`, and the route's reply for it; the text of the exception is not kept.
- The SMS and email senders are I/O: `initiate_user_verification` takes their success flags as inputs, and nothing is sent.
- Randomness and the clock: the code generator draws from a function parameter `draw`, new ids are parameters, and `utcnow`/`date.today()` are the integers `now` (microseconds) and `today` (days).
- Floating point and calendar arithmetic: `get_age_years`, the numeric columns and ISO dates are not computed; dates are day numbers and `strptime` is a parameter returning an optional day.
- `to_dict`, `get_user_profile_data` and the JSON dictionaries the routes build: a reply carries the row itself, not its serialised form. Only the exclusions of `to_dict` are modelled.
- Logging (`log_authentication_event`, `log_user_activity`, `log_api_access`) and `rate_limit_by_user` produce no state the model can observe.
- `ILIKE '%term%'` is a case-folded substring test; `%` and `_` inside a search term are taken literally.
- `order_by` in `search_animals` (the attribute chosen at run time) is dropped: results keep table order. Whether ordering raises is modelled; the attributes of the `Animal` class are a parameter (`attribute`) that tells a column from any other attribute.
- `str.strip` and `re`'s `\s` are modelled on Python's full whitespace set; `str.lower` is modelled on ASCII letters only, so Unicode case mapping (in e-mail normalisation and the enumeration arguments) is not.
- Validators.ValidatePasswordStrength, Helpers.FormatPhoneNumber, Validators.PhoneOfDigits and Validators.AadharWithoutSpaces: the digit class is ASCII `0`-`9`; `str.isdigit` and `re`'s `\d` also accept other Unicode digits (such as Arabic-Indic digits, and superscripts for `isdigit`), which the model rejects. So a password whose only digit is an Arabic-Indic three gets the "at least one digit" error in the model and none in the source.
- UserService.CheckInput, UserService.ValidateInput, UserService.Registration, UserService.CreateUser and UsersApi.Register: a `phone` that is a JSON list or object is refused as a `Crash`. In the source, `filter(str.isdigit, phone)` runs over its string elements (or keys) and joins the all-digit ones, so `["98765", "43210"]` registers with the phone 9876543210.
- UserService.Step, UserService.UpdateUserProfile and UsersApi.UpdateUserProfile: a number or boolean given as `name` is refused as a `Crash` ("Profile update failed", no change), where SQLite's dynamic typing would store it in the text column and the update would succeed.
- AnimalService.AnimalStep, AnimalService.UpdateAnimalProfile and AnimalsApi.UpdateAnimal: an empty string (or other falsy non-NULL value) given as `health_status` or `production_status` is assigned without validation. The model takes the update to fail with no change, as a CHECK constraint on the enumeration column would make it. With SQLAlchemy's default non-native `Enum` on SQLite the commit stores the value and only the reload of the row afterwards raises, so the reply is the same failure but the row would hold the empty string.
- FarmersApi.HealthyCount, FarmersApi.FiguresMatchSummary, VetsApi.TreatmentCount, VetsApi.FiguresMatchAssignments, VetsApi.VetMatches, VetsApi.VetSelection and VetsApi.ListVets: the source filters these enumeration columns with raw lowercase strings (`health_status='healthy'`, `health_status='under_treatment'`, `status='active'`); the model compares with the enumeration member. How the string is bound depends on the database library: SQLAlchemy's default `Enum` stores member names, so on SQLite these filters would match no row and on a backend with native enum types they would raise. The model takes the string to mean the member.
- Request bodies are JSON objects: a top-level list, string or number (which `request.get_json()` returns and `.get` then fails on) is not modelled.
- UserService.AdminPermissions: a number or boolean given as `permissions` is refused as a `Crash`, where SQLite's dynamic typing would store it.
- `generate_secure_token` is unused by the routes and only draws random bytes.
- `logout` and `get_profile` only log or serialise, and are not modelled.
- UsersApi.Register: the reply carries the new account, but not the `verification_initiated` flag, the notice text or the `note` for veterinarians.
- UsersApi.Register: the code echoed back when `FLASK_DEBUG` is set is not modelled; neither is the echo of `resend_otp`, `forgot_password` and `resend_verification` under `DEBUG`.
- AuthRoutes.Login: the "Token creation failed" reply (token creation raising) is not modelled, because tokens are not.
- AuthRoutes.Refresh: the reply carries the account instead of the new access token and its lifetime.
- AuthRoutes.ValidateToken: the claims echoed back come from the token, which is not modelled; the reply carries the identity only.
- AnimalsApi.SearchAnimals: its own contract states only the scope and the active flag; which filters the animals match is stated by `AnimalService.SearchAnimals` and `AnimalsApi.SearchIsScoped`.
- The app factory, configuration, CLI, seed data, debug routes and constant tables hold no logic to verify; the 10- and 30-minute code windows are constants of the model.
- Concurrency: two requests racing on a unique column are out of scope for a sequential model.
