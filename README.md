# Cura-time: a verified model of the booking core

Cura-time is a medical appointment booking application. It has a Django REST
back end (the `reservations` app) and a React front end. This project models
five parts of it in Dafny and proves properties of the model:

- the front end's authenticated HTTP client (`api.ts`): token lookup, the
  request and response interceptors, and the verb methods;
- the navigation header (`Header.tsx`): the home link and the user's initial
  and label;
- the doctor's profile page (`DoctorProfilePage.tsx`): its form state, the load
  from the `me` document, the field update and the submit payload;
- the back end's serializers (`serializers.py`): availability validation, the
  "in the future" rule, user creation, partial user update, and appointment
  creation;
- the back end's views (`views.py`): the three logins, appointment delete, the
  administrator's doctor and specialty views, the doctor's dashboard counts,
  and the password reset by code.

Module layout:

| file | module | models |
|---|---|---|
| wrappers.dfy | Wrappers | `Option` and `Result` |
| js_values.dfy | JsValues | JavaScript values, truthiness, `a \|\| b`, `v.key` and `v?.key` |
| api_client.dfy | ApiClient | `api.ts` |
| header.dfy | Header | `Header.tsx` |
| doctor_profile.dfy | DoctorProfile | `DoctorProfilePage.tsx` |
| dates.dfy | Dates | `strptime("%Y-%m-%d")`, day numbers, weekday, the week around a day |
| records.dfy | Records | the stored rows, `.get()` on a non-key field, `str()` of an integer, responses, the `Database` object |
| serializers.dfy | Serializers | `serializers.py` |
| admin_views.dfy | AdminViews | the administrator's doctor and specialty views |
| auth_views.dfy | AuthViews | the logins and the password reset |
| appointment_views.dfy | AppointmentViews | the doctor's dashboard counts and appointment delete |

Each back-end view that changes state is modelled twice:

- a function from the tables to a `Step`, which is the response together with
  the tables after it; the properties are proved about this function;
- a handler method that performs the same view on a `Database` object, in place.
  Its `ensures` says that the response and the new database are exactly the
  function's `Step`.

The front-end objects that the client code mutates are classes:

- the axios request config;
- `window.location`;
- the profile page's component state.

Their methods state the whole new state.

Inputs from outside the code become parameters:

- the transport and localStorage;
- what `authenticate` returns and the tokens minted for that user;
- the random reset code;
- the settled promises of the profile page's `getMe` and `updateMe` calls;
- the current time.

## Model

| member | source | states |
|---|---|---|
| ApiClient.FirstToken | frontend/src/services/api.ts:22-24 | no token exactly when no listed key holds a non-empty value; otherwise the value of the first key, in order, that holds one |
| ApiClient.ResolveTokenIsFirstToken | frontend/src/services/api.ts:22-24 | the `\|\|` chain over `authToken`, `token`, `access_token` picks the first key holding a non-empty token, and never yields "" |
| ApiClient.ResolveToken | frontend/src/services/api.ts:22-26 | there is no token exactly when none of the three keys holds a non-empty value; a token found is non-empty and is the value stored under one of the keys |
| ApiClient.AuthTokenWins | frontend/src/services/api.ts:22-24 | a non-empty `authToken` is used whatever the legacy keys hold |
| ApiClient.WithAuthorization | frontend/src/services/api.ts:25-29 | with a token, `Authorization` is `Bearer <token>` and every other header is kept; without one, the headers are untouched |
| ApiClient.RequestConfig.constructor | frontend/src/services/api.ts:18-21 | the config holds the verb, url, headers and data it was given |
| ApiClient.TokenStore.constructor | frontend/src/services/api.ts:22-24 | the store holds the given localStorage items |
| ApiClient.InterceptRequest | frontend/src/services/api.ts:18-34 | the same config object comes back with its headers updated by `WithAuthorization`; verb, url and data are unchanged |
| ApiClient.IsProtected | frontend/src/services/api.ts:44-45 | a path is protected exactly when one of the five listed prefixes starts it |
| ApiClient.DoctorsListIsProtected | frontend/src/services/api.ts:44-51 | the test is a plain prefix test, so `/doctors...` counts as protected and a 401 there leads to the doctor login page |
| ApiClient.LoginPageFor | frontend/src/services/api.ts:46-55 | `/admin` paths go to the admin login, other `/doctor` paths to the doctor login, everything else to `/login` |
| ApiClient.RedirectTarget | frontend/src/services/api.ts:42-55 | a redirect happens exactly on a 401 in a protected area, to that area's login page |
| ApiClient.ErrorToast | frontend/src/services/api.ts:59-62 | the payload's `message` wins over its `error`, then the generic text; a 401 with neither raises no toast; any toast shown is truthy |
| ApiClient.PublicUnauthorizedIsSilent | frontend/src/services/api.ts:42-62 | a 401 on a public page with no payload message neither redirects nor raises a toast |
| ApiClient.BrowserLocation.constructor | frontend/src/services/api.ts:44 | the location starts at the given path with nothing assigned |
| ApiClient.InterceptResponseError | frontend/src/services/api.ts:38-65 | the rejection is the same error; the toast is `ErrorToast`; `location.href` is assigned exactly when `RedirectTarget` gives a page |
| ApiClient.PreparedRequest | frontend/src/services/api.ts:6-34 | the request sent keeps verb, url and data; its headers are the instance headers overlaid by the call headers, plus `Authorization: Bearer <token>` exactly when a token resolves |
| ApiClient.Settle | frontend/src/services/api.ts:70-73 | a delivered response resolves with its `data`; a failure rejects with the same error |
| ApiClient.ApiService.constructor | frontend/src/services/api.ts:4-16 | the instance uses the fixed base URL and the JSON content type |
| ApiClient.ApiService.Send | frontend/src/services/api.ts:18-65 | one call goes through both interceptors: the request is `PreparedRequest`, the outcome is `Settle` of the reply, and the toast and redirect are those of the error interceptor |
| ApiClient.ApiService.Get | frontend/src/services/api.ts:70-73 | a GET with no body and no extra headers, settled with `response.data`; on an error the toast and the login redirect are those of the response interceptor |
| ApiClient.ApiService.Post | frontend/src/services/api.ts:75-78 | a POST of the data, settled with `response.data`; on an error the toast and the login redirect are those of the response interceptor |
| ApiClient.ApiService.Put | frontend/src/services/api.ts:80-83 | a PUT of the data, settled with `response.data`; on an error the toast and the login redirect are those of the response interceptor |
| ApiClient.ApiService.Patch | frontend/src/services/api.ts:85-88 | a PATCH of the data, settled with `response.data`; on an error the toast and the login redirect are those of the response interceptor |
| ApiClient.ApiService.Delete | frontend/src/services/api.ts:90-93 | a DELETE with no body, settled with `response.data`; on an error the toast and the login redirect are those of the response interceptor |
| ApiClient.ApiService.UploadFile | frontend/src/services/api.ts:96-103 | a POST whose Content-Type is multipart, overriding the JSON default; settled, toasted and redirected as the other verbs |
| JsValues.Or | frontend/src/pages/Doctor/DoctorProfilePage.tsx:18-30 | `a \|\| b` is its first truthy operand, or `b`; it is truthy exactly when one operand is |
| JsValues.OptionalMember | frontend/src/services/api.ts:59-62 | `v?.key` is defined only for an object's own property, and then is that property |
| JsValues.Member | frontend/src/pages/Doctor/DoctorProfilePage.tsx:18-30 | `v.key` throws exactly when `v` is null or undefined, and otherwise equals `v?.key` |
| Header.HomeTo | frontend/src/components/Layout/Header.tsx:8-12 | doctors go to the doctor dashboard and admins to the admin dashboard, each exactly when the role says so; anyone else goes to `/` |
| Header.CharAt0 | frontend/src/components/Layout/Header.tsx:147 | `charAt(0)` is a prefix of at most one character, and empty only for the empty string |
| Header.AvatarInitial | frontend/src/components/Layout/Header.tsx:147 | the first letter of a non-empty first name, otherwise the first character of the email |
| Header.BeforeFirstAt | frontend/src/components/Layout/Header.tsx:155 | `split('@')[0]` is the longest prefix without '@': it is followed by '@' or ends the string |
| Header.DisplayLabel | frontend/src/components/Layout/Header.tsx:155 | a non-empty first name, otherwise the email's part before the first '@' |
| Header.LocalPartOfAddress | frontend/src/components/Layout/Header.tsx:155 | for `local@domain` with no '@' in `local`, the part before the first '@' is `local`, whatever the domain holds |
| Header.LabelIsLocalPart | frontend/src/components/Layout/Header.tsx:155 | with no first name, a user with address `local@domain` is labelled `local` |
| DoctorProfile.InitialForm | frontend/src/pages/Doctor/DoctorProfilePage.tsx:8-11 | the form starts with exactly the eleven fields, each an empty string |
| DoctorProfile.OrEmpty | frontend/src/pages/Doctor/DoctorProfilePage.tsx:18-30 | `value \|\| ''` keeps a truthy value and turns any falsy one into "" |
| DoctorProfile.LoadedForm | frontend/src/pages/Doctor/DoctorProfilePage.tsx:16-30 | the load fails exactly when `me`, `me.user` or `me.doctor` is null or undefined; otherwise the form has the eleven fields, the user and doctor fields are copied or "", and the password is "" |
| DoctorProfile.ZeroFeeLoadsEmpty | frontend/src/pages/Doctor/DoctorProfilePage.tsx:29 | a consultation fee of 0 loads as "", and any other fee is kept |
| DoctorProfile.SubmitPayload | frontend/src/pages/Doctor/DoctorProfilePage.tsx:48-49 | the payload is the form with `password` dropped exactly when it is falsy; every other field is sent unchanged |
| DoctorProfile.DoctorProfilePage.constructor | frontend/src/pages/Doctor/DoctorProfilePage.tsx:7-11 | the page starts loading, with the initial form |
| DoctorProfile.DoctorProfilePage.Load | frontend/src/pages/Doctor/DoctorProfilePage.tsx:13-38 | afterwards `loading` is false; a good `me` replaces the form with `LoadedForm`; a rejection or a throwing load keeps the form and raises the error toast |
| DoctorProfile.DoctorProfilePage.OnChange | frontend/src/pages/Doctor/DoctorProfilePage.tsx:40-43 | exactly the named field takes the new value; every other field and `loading` are unchanged |
| DoctorProfile.DoctorProfilePage.OnSubmit | frontend/src/pages/Doctor/DoctorProfilePage.tsx:45-55 | the payload handed to `updateMe` is `SubmitPayload` of the form; the success toast is raised exactly when the call resolves; the form state is not changed |
| DoctorProfile.SubmitAfterLoadDropsPassword | frontend/src/pages/Doctor/DoctorProfilePage.tsx:18-30 | submitting right after a load sends the ten loaded fields, because the loaded password is always empty |
| Dates.DaysInMonth | backend/reservations/serializers.py:64-67 | February has 29 days exactly in leap years; April, June, September and November have 30; the others 31 |
| Dates.ParseMonth | backend/reservations/serializers.py:64-67 | the month group yields 1..12 from one or two digits before the '-', the rest being what follows it; a single digit 1-9 followed by '-' is always read |
| Dates.ParseDay | backend/reservations/serializers.py:64-67 | the day group yields 1..31 from the whole one- or two-character rest; its last digit is the value modulo 10, two digits read as a decimal number, and a single digit 1-9 is always read |
| Dates.ParseIsoDate | backend/reservations/serializers.py:64-67 | a string `strptime("%Y-%m-%d")` accepts always denotes a real date in years 1 to 9999 |
| Dates.ParseFormatRoundTrip | backend/reservations/serializers.py:64-67 | every real date, written zero-padded as `YYYY-MM-DD`, is read back as itself |
| Dates.UnpaddedAccepted | backend/reservations/serializers.py:64-67 | the unpadded `YYYY-M-D` form of a single-digit month and day is accepted too |
| Dates.ParseAcceptsExamples | backend/reservations/serializers.py:64-67 | 2024-02-29 and the space-padded day 2024-12- 5 are accepted as those dates |
| Dates.ParseRejectsExamples | backend/reservations/serializers.py:64-67 | 2023-02-29, 2024-4-31, 0000-01-01 and a date followed by a stray character are rejected |
| Dates.DayOf | backend/reservations/views.py:670-672 | the day of an instant is the one whose 86400 seconds contain it |
| Dates.WeekRange | backend/reservations/views.py:675-676 | the week starts on the Monday on or before today and ends six days later; it is absent exactly when its end would pass 9999-12-31 |
| Dates.WeekStartIsTheMonday | backend/reservations/views.py:675 | the week's start is the only Monday among today and the six days before it |
| Dates.WeekOverflowsOnlyAtTheEnd | backend/reservations/views.py:675-676 | only the last five days of year 9999 have a week that overflows |
| Records.AddUserIsFresh | backend/reservations/serializers.py:22-28 | in a valid database a saved user gets an unused id, the users table is the old one plus that row and grows by one, nothing else changes, and the database stays valid |
| Records.AddDoctorIsFresh | backend/reservations/views.py:507-516 | a saved doctor gets an unused id and adds exactly that row; the database stays valid when the doctor's user and specialty exist |
| Records.AddSpecialtyIsFresh | backend/reservations/views.py:625-628 | a saved specialty gets an unused id and adds exactly that row, and the database stays valid |
| Records.AddAppointmentIsFresh | backend/reservations/serializers.py:118-121 | a saved appointment gets an unused id and adds exactly that row; the database stays valid when its doctor and client exist |
| Records.Find | backend/reservations/views.py:488-495 | `.get()` finds nothing for an empty match, the one row for a single match, and fails on two or more |
| Records.DecimalString | backend/reservations/views.py:776-777 | `str()` of a natural number is a non-empty string of digits without a leading zero |
| Records.DecimalRoundTrip | backend/reservations/views.py:776-777 | the digits `str()` prints denote the number again |
| Records.DecimalStringInjective | backend/reservations/views.py:776-777 | two numbers print the same exactly when they are equal |
| Records.IntStringRoundTrip | backend/reservations/views.py:776-777 | `str()` of an integer starts with '-' exactly when it is negative, and the digits after the sign denote its absolute value |
| Records.IntStringInjective | backend/reservations/views.py:776-777 | two integers print the same exactly when they are equal |
| Records.Database.InsertUser | backend/reservations/serializers.py:22-28 | the stored tables become `AddUser` of the old ones, and the id is the new row's |
| Records.Database.InsertDoctor | backend/reservations/views.py:507-516 | the stored tables become `AddDoctor` of the old ones |
| Records.Database.InsertSpecialty | backend/reservations/views.py:625-628 | the stored tables become `AddSpecialty` of the old ones |
| Records.Database.InsertAppointment | backend/reservations/serializers.py:118-121 | the stored tables become `AddAppointment` of the old ones |
| Serializers.EntryError | backend/reservations/serializers.py:63-73 | an entry is accepted exactly when its key is a real date and its value a list of strings; otherwise the date, list and element checks report in that order |
| Serializers.FirstEntryError | backend/reservations/serializers.py:63-73 | the scan over the entries reports no error exactly when every entry is good |
| Serializers.FirstEntryErrorIsFirstBad | backend/reservations/serializers.py:63-73 | a reported error is the error of an entry whose predecessors are all good, so it is the first bad entry in key order |
| Serializers.AvailabilityVerdict | backend/reservations/serializers.py:58-75 | a non-dictionary is rejected; the value is returned unchanged exactly when every entry is good |
| Serializers.ValidateAvailability | backend/reservations/serializers.py:58-75 | the two nested loops with early raises compute `AvailabilityVerdict` |
| Serializers.EmptyAvailabilityAccepted | backend/reservations/serializers.py:58-75 | the empty dictionary is accepted |
| Serializers.BadDateIsReported | backend/reservations/serializers.py:63-67 | an impossible date after only good entries rejects the whole value, naming that key |
| Serializers.ValidateDateTime | backend/reservations/serializers.py:112-116 | a date is rejected exactly when it is strictly before now; now itself is accepted and the value is returned unchanged |
| Serializers.NewUser | backend/reservations/serializers.py:13-29 | the new user is active, has the hashed password and the given fields with '' defaults, and is staff and superuser exactly when the role is admin |
| Serializers.CreateUser | backend/reservations/serializers.py:13-29 | the database gains exactly the `NewUser` row, under the next id |
| Serializers.CreateUserKeepsValid | backend/reservations/serializers.py:13-29 | creating a user keeps a valid database valid and uses a fresh id |
| Serializers.Supplied | backend/reservations/serializers.py:43-50 | an attribute is supplied exactly when some item names it |
| Serializers.SetAttr | backend/reservations/serializers.py:44-48 | one step of the loop never touches the role or the account flags, and only a password item changes the password |
| Serializers.Updated | backend/reservations/serializers.py:43-49 | the attribute loop never changes the role, the active, staff and superuser flags, nor the password unless a password item is given |
| Serializers.SuppliedIsLast | backend/reservations/serializers.py:43-50 | the supplied value is the value of the last item for that attribute |
| Serializers.UpdateChangesExactlySupplied | backend/reservations/serializers.py:43-50 | the update sets each supplied attribute to its last supplied value, hashes a supplied password, and changes nothing else |
| Serializers.ApplyUpdate | backend/reservations/serializers.py:43-49 | the `setattr` loop computes `Updated` |
| Serializers.SaveUpdate | backend/reservations/serializers.py:43-50 | only the requesting user's row changes, to `Updated` of it |
| Serializers.AppointmentErrors | backend/reservations/serializers.py:105-116 | the request has a `doctor` error exactly when no such doctor exists and a `date_time` error exactly when the time is in the past |
| Serializers.CreateAppointment | backend/reservations/serializers.py:105-121 | 201 exactly when the doctor exists and the time is not in the past; then the one new appointment, with the requester as client, is stored under the next id and the body carries id, doctor, date_time and status; otherwise 400 with the field errors and no change |
| Serializers.ClientIsTheRequester | backend/reservations/serializers.py:118-121 | the stored client is the requesting user, whatever client the request named |
| Serializers.CreateAppointmentKeepsValid | backend/reservations/views.py:238-244 | creating an appointment for an existing user keeps a valid database valid |
| Serializers.CreateAppointmentView | backend/reservations/views.py:238-244 | the handler's response and new database are those of `CreateAppointment` |
| AdminViews.ToggleStatus | backend/reservations/views.py:456-474 | 200 exactly when the doctor and their user exist; then only that user's `is_active` flips and the body reports the new state; unknown doctor or no user gives 404, and an error leaves the tables unchanged |
| AdminViews.ToggleTwiceRestores | backend/reservations/views.py:456-474 | toggling twice succeeds both times and restores the tables |
| AdminViews.ToggleKeepsValid | backend/reservations/views.py:456-474 | toggling keeps a valid database valid |
| AdminViews.ToggleStatusView | backend/reservations/views.py:456-474 | the handler's response and new database are those of `ToggleStatus` |
| AdminViews.FirstMissing | backend/reservations/views.py:482-485 | no field is reported exactly when every required field is non-empty; otherwise the first missing one in order is reported |
| AdminViews.CheckRequired | backend/reservations/views.py:482-485 | the loop with its early return computes `FirstMissing` |
| AdminViews.AllGiven | backend/reservations/views.py:482-485 | once no required field is missing, each of them has a non-empty value |
| AdminViews.CreateDoctor | backend/reservations/views.py:476-534 | the guards fire in order (missing field, email taken, unknown specialty); 201 exactly when all pass and the specialty name is unique, and then the tables gain the doctor's user and the doctor row under the next ids and the body carries the new doctor, its specialty name and `is_active` true; a failure leaves the tables unchanged |
| AdminViews.CreateDoctorAddsOneUserAndOneDoctor | backend/reservations/views.py:498-516 | a create adds exactly one active doctor-role user and one doctor linked to it, with phone, fee and bio defaults, touches no other row, and keeps the database valid |
| AdminViews.CreatedDoctorTakesTheForm | backend/reservations/views.py:498-512 | the new user holds the form's names, email and hashed password and is neither staff nor superuser; the new doctor holds the same names and email and points at the specialty the form names |
| AdminViews.CreateDoctorView | backend/reservations/views.py:476-534 | the handler's response and new database are those of `CreateDoctor` |
| AdminViews.OtherUsersWithEmail | backend/reservations/views.py:549-550 | the users holding the email, except the doctor's own user |
| AdminViews.UpdateDoctor | backend/reservations/views.py:536-593 | 404 for an unknown doctor, 400 for the first missing field, 500 when the linked user is gone, 400 when another user holds the email, 400 for an unknown specialty; 200 exactly when every guard passes, and then the tables are the old ones with the linked user renamed and the doctor row updated, and the body carries the updated doctor; any other answer leaves the tables unchanged |
| AdminViews.UpdatedDoctor | backend/reservations/views.py:565-572 | the updated row keeps its user link, points at the found specialty, and takes phone and bio from the form when given and keeps them otherwise, and likewise the fee |
| AdminViews.UpdatedDoctorIdempotent | backend/reservations/views.py:565-572 | applying the same form twice gives the row the first application gave |
| AdminViews.UpdateSyncsLinkedUser | backend/reservations/views.py:558-572 | after a 200 the doctor and its linked user agree on names and email, the user keeps role, password and active flag, and no other user or doctor changes |
| AdminViews.OwnEmailDoesNotBlock | backend/reservations/views.py:549-550 | a doctor may keep their own email: only other users holding it block the update |
| AdminViews.UpdateKeepsValid | backend/reservations/views.py:536-593 | an update keeps a valid database valid |
| AdminViews.UpdateDoctorView | backend/reservations/views.py:536-593 | the handler's response and new database are those of `UpdateDoctor` |
| AdminViews.CreateSpecialty | backend/reservations/views.py:615-630 | 201 exactly when the name is given, non-empty and unused, adding one specialty with no doctors; a missing name and a taken name each get their own 400 message; any 400 leaves the tables unchanged |
| AdminViews.CreatedSpecialtyIsUniqueAndUnused | backend/reservations/views.py:615-630 | after a create the name belongs to exactly the new specialty, no doctor uses it, and the database stays valid |
| AdminViews.CreateSpecialtyView | backend/reservations/views.py:615-630 | the handler's response and new database are those of `CreateSpecialty` |
| AdminViews.DeleteSpecialty | backend/reservations/views.py:635-650 | 404 for an unknown id, 400 with the count while doctors use it, otherwise 200 and exactly that row is removed |
| AdminViews.DeleteSpecialtyKeepsValid | backend/reservations/views.py:635-650 | a delete never leaves a doctor pointing at a removed specialty |
| AdminViews.DeleteSpecialtyView | backend/reservations/views.py:635-650 | the handler's response and new database are those of `DeleteSpecialty` |
| AuthViews.Login | backend/reservations/views.py:111-200 | 401 when authentication fails or the role is not the endpoint's; otherwise the user and tokens, and at the doctor endpoint also the doctor row with that email (404 if none) |
| AuthViews.TokensOnlyForTheRole | backend/reservations/views.py:111-200 | tokens are handed out exactly on a 200, only to a user of the endpoint's role, and a doctor's id names a doctor with the user's email |
| AuthViews.WrongEndpointRejected | backend/reservations/views.py:111-200 | credentials of one role never open another role's endpoint |
| AuthViews.CacheGet | backend/reservations/views.py:772-774 | a code is read exactly while it has not expired; an expired entry is dropped by the read |
| AuthViews.ForgotPassword | backend/reservations/views.py:733-759 | the tables never change; an unknown email gives 404; 200 exactly when one user has the email, storing the code for 300 seconds |
| AuthViews.VerifyCode | backend/reservations/views.py:761-787 | 200 exactly when an unexpired non-zero code prints as the given text and one user has the email; then only that user's password changes and the code is deleted; otherwise the tables are unchanged |
| AuthViews.StoredCodeIsFourDigits | backend/reservations/views.py:745-746 | the stored code is a four-digit number that expires 300 seconds after it was stored |
| AuthViews.ResetWithinTimeout | backend/reservations/views.py:733-787 | asking for a code and giving it back within 300 seconds resets the password and removes the code |
| AuthViews.CodeExpiresAfterTimeout | backend/reservations/views.py:746-774 | a code given back 300 seconds or more later is rejected as expired and the tables are unchanged |
| AuthViews.CodeCannotBeReused | backend/reservations/views.py:772-784 | after a successful reset, any further attempt with that email is rejected as expired |
| AuthViews.CodeComparedAsNumber | backend/reservations/views.py:776-777 | the decimal form of a number opens the reset exactly when it is the stored code |
| AuthViews.WrongCodeChangesNothing | backend/reservations/views.py:776-777 | a wrong code changes neither the password nor the stored code |
| AuthViews.CodeCache.constructor | backend/reservations/views.py:746 | the cache starts empty |
| AuthViews.CodeCache.Get | backend/reservations/views.py:772 | the read and its effect on the entries are those of `CacheGet` |
| AuthViews.CodeCache.Set | backend/reservations/views.py:746 | the entry for the email becomes the code with its expiry, and no other entry changes |
| AuthViews.CodeCache.Delete | backend/reservations/views.py:783 | exactly the email's entry is removed |
| AuthViews.ForgotPasswordView | backend/reservations/views.py:733-759 | the handler's response and new cache are those of `ForgotPassword` |
| AuthViews.VerifyCodeView | backend/reservations/views.py:761-787 | the handler's response, new database and new cache are those of `VerifyCode` |
| AppointmentViews.AppointmentsBetween | backend/reservations/views.py:670-681 | only the doctor's appointments, and none for a range that ends before it starts |
| AppointmentViews.WiderRangeHoldsMore | backend/reservations/views.py:670-681 | a range that contains another counts at least the appointments of the other |
| AppointmentViews.CompletedOf | backend/reservations/views.py:684-687 | only the doctor's appointments are counted as completed |
| AppointmentViews.DoctorStats | backend/reservations/views.py:652-694 | 404 when no doctor has the requester's email; 200 exactly when one does and the week fits in the calendar, with the four counts |
| AppointmentViews.SubsetNoLarger | backend/reservations/views.py:670-687 | a subset has no more elements than its superset |
| AppointmentViews.PatientsNoMoreThanAppointments | backend/reservations/views.py:667 | distinct clients are never more than the appointments they come from |
| AppointmentViews.StatsAreConsistent | backend/reservations/views.py:667-687 | today's count is at most the week's, and neither it, the patients nor the completed ones exceed the doctor's appointments |
| AppointmentViews.DeletableAppointments | backend/reservations/views.py:259-266 | a superuser reaches every appointment; anyone else exactly their own |
| AppointmentViews.DeleteAppointment | backend/reservations/views.py:255-266 | 204 exactly when the appointment is reachable, removing only that row; otherwise 404 and no change |
| AppointmentViews.OthersAppointmentsAreSafe | backend/reservations/views.py:262-266 | a user who is not a superuser can never delete another client's appointment |
| AppointmentViews.DeleteAppointmentKeepsValid | backend/reservations/views.py:255-266 | no row refers to an appointment, so a delete keeps a valid database valid |
| AppointmentViews.DeleteAppointmentView | backend/reservations/views.py:255-266 | the handler's response and new database are those of `DeleteAppointment` |

## Definitions

Some members have no row in the table. Most are plain definitions with no contract of their own; their meaning is stated by the lemmas and the handler contracts that use them. The last entry is model scaffolding:
- Records.AddUser, AddDoctor, AddSpecialty and AddAppointment: a saved row and the next id (backend/reservations/serializers.py:22-28, backend/reservations/views.py:507-516 and 625-628, backend/reservations/serializers.py:118-121).
- Records.UsersWithEmail, DoctorsWithEmail, SpecialtiesNamed and DoctorsOfSpecialty: the `filter` querysets (backend/reservations/views.py:488-495, 640, 661-664).
- Records.IntString: `str()` of an integer (backend/reservations/views.py:776-777).
- AppointmentViews.AppointmentsOf and PatientsOf: the doctor's appointments and their clients (backend/reservations/views.py:667).
- Records.EmptyTables and the Database constructor: an empty, valid database. They are only a starting state for the model and stand for no code in the repository.

## Left out


- The axios transport, URL joining with the base URL, and the network are outside the model. The transport is a function parameter from the request to its reply.
- JavaScript numbers are integers here. NaN, fractions and `-0` are not represented.
- `charAt` and `split` work on UTF-16 code units. The model works on Dafny characters.
- `strptime` accepts Unicode decimal digits through `\d`. The model accepts ASCII digits only.
- Timezones are not modelled. `date_time__date` and `timezone.now().date()` are taken on one local timeline of seconds from 0001-01-01 00:00.
- DRF field validation is not modelled: email format, `CharField` trimming, blank rejection, the unique email of a user. Only the validators written in `serializers.py` are.
- The `create_user` manager is not part of this model. Its email normalisation is left out, and the address and gender defaults are taken as ''.
- The Specialty `description` default is taken as '', and the Appointment `status` comes from the request.
- The doctor form's values are strings plus an integer fee. Other JSON types in those fields are left out.
- Doctor `availability` is validated but not stored. The Doctor row does not carry it.
- `send_mail` is left out, and so is its failure. A reset mail that cannot be sent would be a 500.
- The cache is assumed to be the process-local memory cache.
- AuthViews.CodeCache.Set: the memory cache's cull is not modelled. Past 300 entries it drops a third of them, so a code can vanish before its timeout, and ResetWithinTimeout then does not hold.
- `authenticate` is opaque, including its `is_active` check. Its result is a parameter.
- Tokens are opaque. Login bodies carry the user row instead of the serialized user.
- The text of `str(e)` in 500 bodies is left out. Every such answer is `ServerError`.
- Password hashing is opaque: `Hashed(raw)`.
- DRF's permission classes are left out, and so are the authentication of requests and Swagger's `swagger_fake_view` branches. The handlers take the requesting user's id as given.
- These views are out of scope:
  - RegisterView;
  - the list and detail generic views;
  - the month histogram and recent appointments of the doctor dashboard;
  - the admin statistics, activities, doctors list, doctor count and specialties-for-forms views.
- Toasts are values the methods return, and navigation is not modelled. Both are React and browser effects.
- The React render tree of the header and the profile page is not modelled, nor is DoctorDashboard.tsx.
- AuthViews.Login: the row `authenticate` returns is required to exist in the users table, since it comes from that table.
- AuthViews.ForgotPassword: the code is required to lie in 1000..9999, the range `random.randint(1000, 9999)` draws from.
