# ABD-Motors: a verified model of the folder workflow

ABD-Motors is a car dealership application. Clients browse a catalogue of vehicles for sale or for rent. They open a *folder* (a purchase or rental application with supporting documents), and staff (GESTIONNAIRE or ADMIN users) validate or reject it. A Django REST back end keeps folders, vehicles and users; a React front end drives the catalogue, the creation wizards, the profile page and authentication.

This project models the deciding logic of both halves as pure Dafny functions over immutable data, and proves properties about it:

- **Domain** (`domain.dfy`): the folder, vehicle and user records with their choice lists and string forms.
- **Permissions** (`permissions.dfy`): the permission classes and the order in which the framework applies them (401 before 403, then 404 on lookup, then the object check).
- **Folder API** (`folder_api.dfy`): the permission list, the visible queryset, creation, `change_status` and the whole authorised request. This file also holds the finding below.
- **Dossier API** (`dossier_api.dfy`): the legacy dossier API, compared with the folder rule.
- **Profile page** (`profile.dfy`): status display, the profile validator, the vehicle PATCH sent when a folder is decided, the status-change handler, the folder query, ordering, the action buttons and the client tabs.
- **Catalogue** (`catalogue.dfy`): search, filters, sort, reset, and the previous/next vehicle lookup.
- **Creation wizards**: the navigation shared by the three pages (`wizard.dfy`), and the rental folder (`rental_wizard.dfy`), reservation (`reservation_wizard.dfy`) and purchase (`purchase_wizard.dfy`) wizards. Each is a state machine over events with an invariant kept by every run.
- **Authentication**: the authentication service with its local-storage session (`auth.dfy`), and the registration and login pages (`register_page.dfy`, `login_page.dfy`).

Shared pieces:

- `wrappers.dfy` holds `Option`.
- `json.dfy` holds the JavaScript values read from HTTP bodies, JavaScript truthiness, `?.` and `||`.
- `sorting.dfy` holds an insertion sort by an integer key, proved sorted and a permutation. It stands for `Array.prototype.sort` with a numeric comparator.

Conventions:

- HTTP replies, the clock, `toISOString`, `isValidPhone` and the authentication context's `login`/`register` are parameters of the functions that use them.
- Prices are whole cents, and `null` is `None`.
- Dates are integers (milliseconds).

Where the code and its documentation disagree, the model follows the code. Examples:

- `change_status` is guarded by authentication only (see Findings).
- `createFolder` drops every entry of the FormData the wizards hand it (see Findings); the wizards are modelled with the corrected service.
- The front end's `FOLDER_STATUS.APPROVED` is not a status the back end accepts. `FolderApi.ApprovedIsRefused` states the 400 it gets.
- Folders IN_PROGRESS appear under none of the client's tabs.
- The reservation page's own error alert can never be on screen, because an error replaces the whole page.

## Model

| member | source | states |
|---|---|---|
| Domain.ParseStatus | backend/folder/models.py:6-11 | a code parses to the status it names, and fails exactly when no status has that code |
| Domain.StatusChoicesAreStatuses | backend/folder/models.py:6-11 | a code is in the STATUS choice list iff it parses to a status |
| Domain.ParseStatusCode | backend/folder/models.py:6-11 | every status's code parses back to it |
| Domain.ParseFolderType | backend/folder/models.py:12-15 | a code parses to the folder type it names, or no type has it |
| Domain.FolderTypeChoicesAreTypes | backend/folder/models.py:12-15 | a code is in TYPE_FOLDER iff it parses to a folder type |
| Domain.FolderText | backend/folder/models.py:27-28 | the string form starts with "Folder " and is longer than the prefix |
| Domain.FolderTextInjective | backend/folder/models.py:27-28 | equal string forms mean the same folder type and the same client name |
| Domain.ParseOffer | backend/vehicle/models.py:6-9 | a code parses to the offer type it names, or none has it |
| Domain.ParseState | backend/vehicle/models.py:10-15 | a code parses to the vehicle state it names, or none has it |
| Domain.OfferChoicesAreOffers | backend/vehicle/models.py:6-9 | a code is in TYPES iff it parses to an offer type |
| Domain.StateChoicesAreStates | backend/vehicle/models.py:10-15 | a code is in STATES iff it parses to a vehicle state |
| Domain.VehicleText | backend/vehicle/models.py:31-32 | the string form ends with the offer code in parentheses |
| Domain.VehicleTextDeterminesOffer | backend/vehicle/models.py:31-32 | equal string forms mean the same offer type |
| Domain.VehicleTextCollides | backend/vehicle/models.py:31-32 | two vehicles with different brand and model can share a string form |
| Permissions.GestionnaireOrAdminRoles | backend/user/permissions.py:3-5 | the class admits exactly the GESTIONNAIRE and ADMIN roles, never a CLIENT |
| Permissions.OwnerOrStaffCases | backend/user/permissions.py:7-11 | staff pass whatever the owner; anyone else passes iff they own the object |
| Permissions.CheckPermissions | backend/folder/views.py:18-21 | granted iff every permission holds; 401 only for anonymous callers, 403 only for authenticated ones |
| Permissions.CheckObjectPermissions | backend/user/permissions.py:7-11 | the object check passes iff every permission's object check does |
| FolderApi.FolderPermissions | backend/folder/views.py:18-21 | authentication always comes first; the owner check applies exactly to update, partial_update and destroy; the role check never appears |
| FolderApi.Queryset | backend/folder/views.py:23-27 | staff see every folder; anyone else sees exactly their own folders, unchanged |
| FolderApi.VisibleIffOwnerOrStaff | backend/folder/views.py:23-27 | a folder is visible iff the caller passes the owner-or-staff rule on it |
| FolderApi.PerformCreate | backend/folder/views.py:29-30 | the new folder belongs to the caller; the status defaults to PENDING when not given; creation and modification dates are the moment of the save |
| FolderApi.CreatedFolderIsPendingAndOwned | backend/folder/models.py:20 | without a status the folder is PENDING, and a client named in the payload is ignored |
| FolderApi.StatusLookup | backend/folder/views.py:35-36 | `in dict(...)` is true exactly for a string that is one of the four codes, and raises exactly for a list or an object |
| FolderApi.RequestStatus | backend/folder/views.py:35 | `request.data.get('status')` answers the `status` entry of an object body (a missing key and an empty body read as None) and raises for any other body |
| FolderApi.SetStatus | backend/folder/views.py:36-43 | accepted iff the status is a string among the four codes; then only the status changes and `modification_date` becomes the save time; a list or object status gives 500; any other refusal is 400 "Statut invalide"; a refused folder is untouched |
| FolderApi.ChangeStatus | backend/folder/views.py:33-43 | given the request body: accepted iff it is an object whose `status` is one of the four codes, and then only status and modification date change; a body that is not an object (and not empty) or a list/object status gives 500; every other refusal is 400; a refused folder is untouched |
| FolderApi.BareStatusFails | backend/folder/views.py:35 | a bare JSON string body such as "VALIDATED" fails with 500 and leaves the folder unchanged |
| FolderApi.ApprovedIsRefused | frontend/src/utils/constants.js:1-5 | the front end's APPROVED code gets 400 and changes nothing |
| FolderApi.Authorize | backend/folder/views.py:18-34 | the object is reached iff permissions pass, it is in the caller's queryset and the object checks pass |
| FolderApi.FolderAccess | backend/folder/views.py:18-27 | for every action, a folder is reached iff the caller is authenticated and owns it or is staff; another client's folder answers 404 |
| FolderApi.ChangeStatusRequest | backend/folder/views.py:32-43 | only the addressed folder's status and modification date may change, the date to the save time, the status to the body's `status`; a refused or failed request changes nothing |
| FolderApi.ChangeStatusAsWritten | backend/folder/views.py:18-43 | with the permissions as written, a change succeeds iff the caller is authenticated, owns the folder or is staff, the folder exists and the body is an object whose status is a declared code; the stored status is then the one asked for |
| FolderApi.ClientValidatesOwnFolder | backend/folder/views.py:18-32 | a CLIENT validates their own folder and gets 200 |
| FolderApi.ChangeStatusGuarded | backend/folder/views.py:32 | a successful status change was asked by an authenticated GESTIONNAIRE or ADMIN |
| FolderApi.OnlyStaffChangeStatus | backend/folder/views.py:32-43 | non-staff callers never change a status; staff on a stored folder get the behaviour of `change_status` |
| DossierApi.Queryset | backend/dossiers/views.py:13-17 | a CLIENT sees exactly their own dossiers; every other role sees all of them |
| DossierApi.LegacyRuleAgainstFolderRule | backend/dossiers/views.py:13-17 | for a dossier and a folder under the same key with the same client, the two querysets agree on the three declared roles; any other role sees the dossier but the folder only if it owns it |
| DossierApi.UnlistedRoleSeesAllDossiers | backend/dossiers/views.py:13-17 | a user with an undeclared role sees every dossier but only their own folders |
| DossierApi.PerformCreate | backend/dossiers/views.py:19-20 | the new dossier belongs to the caller |
| DossierApi.ClaimedClientIgnored | backend/dossiers/views.py:19-20 | a client named in the request never becomes the dossier's client: the result equals that of a request naming none |
| Profile.StatusColor | frontend/src/pages/Profile.js:81-92 | PENDING is 'warning', VALIDATED 'success', REJECTED 'error', and every other status 'default' |
| Profile.StatusLabel | frontend/src/pages/Profile.js:94-105 | PENDING is "En attente", VALIDATED "Validé", REJECTED "Refusé", and every other status its raw code |
| Profile.StatusChip | frontend/src/pages/Profile.js:114-123 | each of the four back-end statuses gets its configured colour and label; a key inherited from `Object.prototype` gets neither; any other status gets 'default' and its raw code |
| Profile.StatusDisplayAgrees | frontend/src/pages/Profile.js:81-123 | colour and label fall back together; the chip agrees with the colour where the colour knows the status; every back-end status gets a chip colour, yet IN_PROGRESS has no colour |
| Profile.ValidateProfile | frontend/src/pages/Profile.js:187-199 | valid iff email and both names are present and the phone passes the validator; missing fields are reported first, and a bad phone with all fields present gives the phone error |
| Profile.VehiclePatchFor | frontend/src/pages/Profile.js:227-244 | a vehicle PATCH is sent exactly for VALIDATED and REJECTED; validating a purchase marks it SOLD to the client; a rental is RENTED from now; rejecting frees the vehicle |
| Profile.ApplyField | frontend/src/pages/Profile.js:227-244 | defines how a PATCH key applies: an absent key keeps the value, null clears it, a value replaces it |
| Profile.ValidateThenReject | frontend/src/pages/Profile.js:227-244 | validating hands the vehicle to the client, and rejecting afterwards leaves it available with no holder |
| Profile.FindFolder | frontend/src/pages/Profile.js:224 | the first folder with the id, or none when no folder has it |
| Profile.HandleStatusChange | frontend/src/pages/Profile.js:215-255 | a failed status POST shows the failure and nothing else; the list reloads with the success message iff the POST and any needed PATCH succeed |
| Profile.FolderQuery | frontend/src/pages/Profile.js:290-292 | the query has a status or type parameter exactly when that filter is set, carrying its value, status first |
| Profile.QueryString | frontend/src/pages/Profile.js:290-295 | the query string is empty iff there are no parameters, and a single parameter is written `name=value` |
| Profile.QueryStringConcat | frontend/src/pages/Profile.js:290-295 | two non-empty parameter lists serialize to their strings joined by '&' |
| Profile.FolderQueryText | frontend/src/pages/Profile.js:290-295 | the query for each of the four filter settings: empty, `status=…`, `type_folder=…`, or both joined by '&', status first |
| Profile.SortFolders | frontend/src/pages/Profile.js:297-301 | the result is a permutation of the folders, newest first for 'newest', oldest first otherwise |
| Profile.OfferedTargets | frontend/src/pages/Profile.js:740-769 | an ADMIN is offered each of PENDING, VALIDATED and REJECTED other than the current status; nobody else is offered anything |
| Profile.OfferedTargetsAccepted | frontend/src/pages/Profile.js:740-769 | every offered target is a status `change_status` accepts, and differs from the current one |
| Profile.FoldersByStatus | frontend/src/pages/Profile.js:168-170 | exactly the folders with that status, drawn from the list |
| Profile.FoldersByStatusCount | frontend/src/pages/Profile.js:168-170 | a tab holds every copy of a folder with its status and no copy of any other |
| Profile.FoldersByStatusAppend | frontend/src/pages/Profile.js:168-170 | the tab keeps the list's order: filtering a concatenation concatenates the filtered parts |
| Profile.TabsOfFolder | frontend/src/pages/Profile.js:108-112 | a folder is listed under the tab of its status only, and an IN_PROGRESS folder under none |
| Catalogue.Lower | frontend/src/pages/VehicleList.js:58-59 | same length, every character lower-cased |
| Catalogue.LowerIdempotent | frontend/src/pages/VehicleList.js:58-59 | lower-casing twice equals lower-casing once |
| Catalogue.Includes | frontend/src/pages/VehicleList.js:58-59 | true iff the needle occurs at some position of the text |
| Catalogue.SearchProperties | frontend/src/pages/VehicleList.js:58-59 | the empty term matches every vehicle, and the term's case never matters |
| Catalogue.FilterVehicles | frontend/src/pages/VehicleList.js:56-63 | keeps exactly the vehicles that match search, type and availability, drawn from the list |
| Catalogue.FilterVehiclesCount | frontend/src/pages/VehicleList.js:56-63 | every copy of a matching vehicle is kept and every copy of the others dropped |
| Catalogue.FilterVehiclesAppend | frontend/src/pages/VehicleList.js:56-63 | the filter keeps the list's order: filtering a concatenation concatenates the filtered parts |
| Catalogue.SortVehicles | frontend/src/pages/VehicleList.js:64-79 | a permutation ordered by price up or down (null as 0), by year up, or by year down for any other key |
| Catalogue.NullPriceSortsAsZero | frontend/src/pages/VehicleList.js:64-79 | a vehicle whose offer price is null (allowed by backend/vehicle/models.py:21-22) sorts as price 0: in ascending order only vehicles priced at most 0 precede it and only ones priced at least 0 follow it, reversed in descending order |
| Catalogue.FilteredVehicles | frontend/src/pages/VehicleList.js:56-79 | exactly the matching vehicles, of the chosen type, available when asked, sorted as the sort key asks |
| Catalogue.FilteredVehiclesOrdered | frontend/src/pages/VehicleList.js:64-79 | the page's list is ordered by price up or down (null as 0), by year up, or by year down for any other sort key |
| Catalogue.FilteredVehiclesCount | frontend/src/pages/VehicleList.js:56-79 | the page lists each matching vehicle as many times as the fetched list holds it, and no copy of any other |
| Catalogue.ResetFilters | frontend/src/pages/VehicleList.js:81-86 | every filter returns to the page's initial value |
| Catalogue.ResetShowsEverything | frontend/src/pages/VehicleList.js:36-86 | after a reset the page lists every vehicle, ordered by year, newest first |
| Catalogue.FilterKeepsAll | frontend/src/pages/VehicleList.js:56-63 | filtering with filters every vehicle matches returns the list unchanged |
| Catalogue.FindIndex | frontend/src/services/vehicleService.js:15 | the first index with the id, or -1 when none has it |
| Catalogue.AdjacentVehicles | frontend/src/services/vehicleService.js:13-21 | previous is the id before the current one, next the id after it, null at the ends |
| Catalogue.AdjacentEdgeCases | frontend/src/services/vehicleService.js:15-19 | an empty list has no neighbours; an unknown id has no previous and the first vehicle as next |
| Catalogue.NextThenPrevious | frontend/src/services/vehicleService.js:13-21 | with distinct ids, going to the next vehicle and then back returns to the start |
| Sorting.Insert | frontend/src/pages/VehicleList.js:64-79 | inserting into a sorted list keeps it sorted and adds exactly one element |
| Sorting.SortBy | frontend/src/pages/Profile.js:297-301 | the result is sorted by the key and a permutation of the input |
| Sorting.PermutationKeepsMembers | frontend/src/pages/VehicleList.js:64-79 | a permutation has the same members |
| Wizard.DatePart | frontend/src/pages/FolderCreation.js:77-78 | the text before the first 'T': a prefix with no 'T', followed by 'T' when shorter |
| Wizard.ToIso | frontend/src/pages/FolderCreation.js:77-78 | defines `toISOString` on a picked date: it has an ISO string iff it is a valid date (an Invalid Date throws), and that string is the formatter's |
| Wizard.CreateFolderSendsNothing | frontend/src/services/folderService.js:3-17 | as written, `createFolder` handed a FormData posts an empty body, so it never forwards a non-empty form |
| Wizard.CreateFolder | frontend/src/services/folderService.js:3-17 | corrected: the posted body is exactly the form handed over, entry by entry |
| Wizard.Navigate | frontend/src/pages/FolderCreation.js:228-246 | the step stays in range; the last step has no buttons; the button before it submits iff enabled; the step then advances only on success; Back steps back; Next advances only when enabled |
| RentalWizard.Choose | frontend/src/pages/FolderCreation.js:64-70 | the chosen document is set and the others are unchanged |
| RentalWizard.Payload | frontend/src/pages/FolderCreation.js:72-82 | a body exists iff both dates are set and valid; it carries the route id, the date part of each ISO date, the three documents and status PENDING |
| RentalWizard.PostedBodyCarriesForm | frontend/src/pages/FolderCreation.js:71-83 | with the corrected `createFolder`, the posted body holds the vehicle, status PENDING and the three documents as files, and no `type_folder` |
| RentalWizard.Step | frontend/src/pages/FolderCreation.js:41-246 | the step stays in range; a body is posted only by an enabled confirmation on the step before last, and then iff both dates are valid; an invalid date or a failed post sets the error and keeps the step; success reaches the confirmation step |
| RentalWizard.Run | frontend/src/pages/FolderCreation.js:56-246 | every run keeps the step in range |
| RentalWizard.StepKeepsInv | frontend/src/pages/FolderCreation.js:228-246 | a step keeps the invariant: dates set beyond step 0, documents set on the last step |
| RentalWizard.RunKeepsInv | frontend/src/pages/FolderCreation.js:56-246 | every run from an invariant state keeps the invariant |
| RentalWizard.ReachableSubmitPosts | frontend/src/pages/FolderCreation.js:72-88 | in a reachable state an enabled confirmation posts the body iff both dates are valid; otherwise it shows the error and stays on the step |
| RentalWizard.InvalidDatePassesGuard | frontend/src/pages/FolderCreation.js:100-116 | an Invalid Date satisfies the step-0 presence check, so the wizard moves on to the documents |
| RentalWizard.InitialIsReachable | frontend/src/pages/FolderCreation.js:29-196 | the page starts at step 0 on the loading screen, within the invariant |
| ReservationWizard.ScreenOf | frontend/src/pages/VehicleReservation.js:208-222 | the form is shown iff loading is over, there is no error and a vehicle was loaded; otherwise the error screen once loaded |
| ReservationWizard.Payload | frontend/src/pages/VehicleReservation.js:72-82 | a body exists iff both dates are set and valid; it carries full ISO dates, the documents, and no status |
| ReservationWizard.Step | frontend/src/pages/VehicleReservation.js:41-268 | the step stays in range; a body is posted only by an enabled confirmation on the form; a failed post shows the error screen; once loading is over an error is never cleared |
| ReservationWizard.Run | frontend/src/pages/VehicleReservation.js:41-268 | the step stays in range; once loading is over it never returns, and an error set after loading is kept by every later event |
| ReservationWizard.RunKeepsInv | frontend/src/pages/VehicleReservation.js:56-268 | every run from an invariant state keeps it: dates set beyond step 0, documents set on the last step |
| ReservationWizard.InitialIsReachable | frontend/src/pages/VehicleReservation.js:28-214 | the page starts at step 0 on the spinner, within the invariant |
| ReservationWizard.ErrorIsFinal | frontend/src/pages/VehicleReservation.js:216-222 | once an error is set after loading, every later run keeps it and shows the error screen |
| ReservationWizard.InlineAlertNeverShown | frontend/src/pages/VehicleReservation.js:239-243 | whenever the wizard is on screen there is no error, so its inline alert never shows |
| PurchaseWizard.Choose | frontend/src/pages/PurchaseCreation.js:59-65 | the chosen document is set and the other three are unchanged |
| PurchaseWizard.Payload | frontend/src/pages/PurchaseCreation.js:67-77 | the body carries the route id, type PURCHASE, status PENDING and the four documents as chosen |
| PurchaseWizard.PostedBodyCarriesForm | frontend/src/pages/PurchaseCreation.js:67-79 | with the corrected `createFolder`, the posted body holds the vehicle, type PURCHASE, status PENDING and every document as a file |
| PurchaseWizard.Step | frontend/src/pages/PurchaseCreation.js:36-225 | the step stays 0 or 1; the body is posted only from step 0 with all four documents; success reaches confirmation, failure sets the error |
| PurchaseWizard.Run | frontend/src/pages/PurchaseCreation.js:51-225 | every run keeps the step at 0 or 1 |
| PurchaseWizard.RunKeepsInv | frontend/src/pages/PurchaseCreation.js:51-225 | every run keeps the step in range and reaches confirmation only with all four documents |
| Json.Get | frontend/src/pages/Login.js:33 | defines `?.`: it reads the field of an object that has it, and `undefined` in every other case |
| Json.Or | frontend/src/pages/Login.js:33 | defines the logical OR: it yields its first operand when truthy, else its second |
| AuthService.ResponseData | frontend/src/services/authService.js:45 | defines `error.response?.data`: the error's reply body, or `undefined` when no reply came |
| AuthService.Fields | frontend/src/services/authService.js:32-36 | defines the spread of the `/me` reply: an object's fields are copied; any other reply is given no fields (weaker for arrays and strings, see Left out) |
| AuthService.Stored | frontend/src/services/authService.js:38 | the stored session keeps exactly the defined entries, unchanged |
| AuthService.MakeSession | frontend/src/services/authService.js:32-36 | the session is the user data with access and refresh from the token reply overriding same-named keys |
| AuthService.Login | frontend/src/services/authService.js:4-56 | the token request sends the email as username; /me is asked iff an access token came back; success stores the session under "user"; any failure leaves storage unchanged |
| AuthService.Logout | frontend/src/services/authService.js:82-84 | only the session key is removed |
| AuthService.CurrentUser | frontend/src/services/authService.js:86-89 | the stored session, or null when there is none |
| AuthService.LoginThenCurrentUser | frontend/src/services/authService.js:38-89 | after login the current user is the stored session (the session itself when it has no undefined field); after logout there is none |
| AuthService.FailedLoginKeepsCurrentUser | frontend/src/services/authService.js:40-55 | a failed login leaves the current user as it was |
| AuthService.RegisterBody | frontend/src/services/authService.js:61-69 | the username is the email, the role is CLIENT, and the other fields are copied under their back-end names |
| AuthService.Register | frontend/src/services/authService.js:58-80 | the registration is posted first; a failure stops there; otherwise the outcome is a login with the same email and password |
| AuthService.RegisterLogsInAsRegistered | frontend/src/services/authService.js:61-75 | the login after registering uses the username and password just registered |
| RegisterPage.Change | frontend/src/pages/Register.js:30-38 | only the named field changes, to the new value, and the error is cleared |
| RegisterPage.Validate | frontend/src/pages/Register.js:40-54 | missing fields first, then mismatched passwords, then a password under 8 characters |
| RegisterPage.ValidIff | frontend/src/pages/Register.js:40-54 | valid iff all five fields are filled, the passwords agree and the password has at least 8 characters |
| RegisterPage.Registration | frontend/src/pages/Register.js:65 | the data handed over is the form's fields without the confirmation |
| RegisterPage.RegistrationDropsConfirmation | frontend/src/pages/Register.js:65 | the confirmation never reaches the data handed over |
| RegisterPage.RegisterError | frontend/src/pages/Register.js:70-82 | an email entry gives "already used", else a detail is shown as is, else the generic message; the message is never empty |
| RegisterPage.Submit | frontend/src/pages/Register.js:56-86 | an invalid form shows its error and calls nothing; a valid one is handed over, success goes to /login, failure shows the mapped error |
| RegisterPage.CallsOnlyValidForms | frontend/src/pages/Register.js:59-61 | every registration call carries filled fields, a confirmed password and at least 8 characters |
| RegisterPage.FailureShowsMessage | frontend/src/pages/Register.js:56-86 | whenever the page stays, an error message is on screen |
| LoginPage.LoginError | frontend/src/pages/Login.js:29-34 | 401 gives "Identifiants incorrects"; otherwise the reply's detail, or the generic message; never empty |
| LoginPage.Submit | frontend/src/pages/Login.js:21-36 | the login and password are handed over; success clears the error and goes to /dashboard; failure shows the mapped message |
| LoginPage.ErrorIsReset | frontend/src/pages/Login.js:23 | the outcome of a submit does not depend on an earlier error |
| LoginPage.FailureShowsMessage | frontend/src/pages/Login.js:29-34 | a failed login always shows a message, and a 401 always shows "Identifiants incorrects" |

## Left out

- HTTP plumbing is not modelled: the axios instance and its interceptors, headers, multipart encoding and the `folderService`/`reservationService` wrappers. Replies are inputs (`Outcome`, `postOk`, `accepted`).
- The DRF serializers are not modelled, so whether the back end accepts a wizard's body is an input. As written, `createFolder` forwards nothing of the rental and purchase forms (see Findings), so the server sees neither `vehicle` nor `type_folder` at all. The following mismatches would matter only once the fields reach it:
  - the wizards send `vehicle` where the serializer expects `vehicle_id` (backend/folder/serializers.py:7-20);
  - the rental folder wizard sends no `type_folder`;
  - the serializer lets a caller set `status` at creation.
- The reservation page posts its FormData through `reservationService`, which forwards it unchanged; that service is not part of this model.
- FolderApi.Authorize: `get_object` also applies `filter_queryset` (backend/folder/views.py:15-16), so a `status` or `type_folder` query parameter on a detail route that the folder does not match answers 404; query parameters of detail routes are not modelled.
- AuthService.Login: a `null` token reply makes `tokenData.access` throw `TypeError`; the model reports it as the missing-access-token failure. Both are rethrown and leave storage unchanged.
- FolderApi.ChangeStatus: a form-encoded request body is modelled as an object of strings, and a floating-point status is not modelled; like an integer it is hashable and matches no key, so it gets 400.
- The back end's `perform_create` takes the payload's `status` as given (`FolderApi.PerformCreate`). The default applies only when it is absent.
- An anonymous caller is modelled as having no role, and both permission classes refuse it. The framework's `AnonymousUser` would raise when `role` is read; that error path is not modelled.
- Lower-casing covers ASCII letters only. `toLowerCase` also folds other Unicode letters.
- Password length counts Unicode characters. JavaScript's `length` counts UTF-16 code units.
- Sorting.SortBy: states order and permutation but not stability; `Array.prototype.sort` is stable, and ties between equal keys are left unordered by the contracts.
- Vehicle prices are whole cents. The DecimalField's 10-digit bound and decimal arithmetic are not modelled; no logic of the core depends on them.
- `toISOString` and the clock are parameters. `DatePart` models the `split('T')[0]` applied to the ISO string. A picked date is either a valid instant or an Invalid Date, on which `toISOString` throws `RangeError`; the date pickers' parsing is not modelled.
- `parseInt` of the route id is an `Option<int>` input, and `None` stands for `NaN`.
- JSON is modelled as a map without nesting. `JSON.stringify` also drops undefined entries inside nested objects; the model only drops top-level ones.
- AuthService.Fields: a `/me` reply that is an array or a string spreads in JavaScript to its indices as keys (`"0"`, `"1"`, …) holding its elements or characters; the model gives every non-object reply no fields.
- The authentication context (`useAuth`) is not part of this model. The pages receive its outcome as an input.
- `isValidPhone` (utils/validators) is a parameter.
- JSX rendering, theming, routing, `navigate(-1)` and the loading/error components are left out. Screens are modelled only as far as they decide which events have an effect.
- The GenIA module, the legacy `comptes`/`vehicules` models, migrations, admin registrations and URL routers are left out: they hold no logic of the core.
- `backend/user/views.py` is left out: its outcomes depend on the serializer's validation.
- Profile.HandleStatusChange: the folder's vehicle is a non-null foreign key (backend/folder/models.py:18), so the page's "folder without a vehicle" branch is not modelled. The `rejection_reason` sent with the status is not modelled either; the back end ignores it. The new status is one of the four statuses, because the page's buttons offer no other.
- The profile page sends `owner` and `renter` keys in its vehicle PATCH. The back-end Vehicle model has no such fields, so the model tracks who holds a vehicle only as the PATCH describes it (`Profile.Holding`).
- A GESTIONNAIRE user sees the client's profile layout, because the page tests for ADMIN only. The model keeps that test as written (`Profile.OfferedTargets`).

## Findings

| source | as written | input that shows it | evidently intended | confidence | as-written member | corrected member |
|---|---|---|---|---|---|---|
| frontend/src/services/folderService.js:3-17 | `createFolder` copies `Object.keys(folderData)` into a new FormData. The rental and purchase wizards pass it a FormData, which has no own enumerable keys, so nothing is copied. | Any rental or purchase submission: the form with vehicle, documents and status is replaced by an empty multipart body. | The wizard's form reaches `/folders/` with all its entries, as the reservation page's does through `reservationService`. | not executed | Wizard.CreateFolderSendsNothing | Wizard.CreateFolder |
| backend/folder/views.py:18-32 | `get_permissions` is overridden and returns only `IsAuthenticated` for every action except update, partial_update and destroy. The `permission_classes=[IsGestionnaireOrAdmin]` given to the `change_status` action is therefore never consulted. | A CLIENT user posts `{"status": "VALIDATED"}` to `change_status` for their own folder and receives 200, with the folder validated. | Only GESTIONNAIRE and ADMIN users may change a folder's status (the action's own permission class). | not executed | FolderApi.ClientValidatesOwnFolder | FolderApi.OnlyStaffChangeStatus |
