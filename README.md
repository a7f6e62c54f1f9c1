# Veterinary clinic client: a verified model of its screen logic

The system is a single-page client for a veterinary clinic. Owners, vets and admins sign in and
manage accounts, owners, animals and vaccination records through a REST backend. This project models
the client's own decisions:

- the session store, which holds a persisted bearer token and the identity decoded from it;
- where each screen navigates for a role;
- who may open an animal or an owner record for editing;
- the case-insensitive text searches over lists already fetched;
- the optimistic working-set updates after a confirmed, successful delete or status change;
- the admin's pending account-status changes;
- the form states and the request bodies of the three edit forms;
- the expiry classification of a vaccination, which the report and the on-screen card compute separately.

Modules follow the program's files:

- `Base` holds shared values, requests and the order-preserving `filter`.
- `Text` holds case mapping, `includes`, `split`/`join`, `formatDateForInput` and `prettyLabel`.
- `Entities` holds the records.
- `Routing` holds the role maps and the edit gate.
- `Expiry` holds the expiry classification.
- `Search` holds every screen's search.
- `Session` models `AuthContext.jsx`.
- `LoginScreen` models `Login.jsx`.
- `VaccinationList` models `AllVaccinations.jsx`.
- `AdminPanel` models `AdminDashboard.jsx`.
- `VetPanel` models `VetDashboard.jsx`.
- `OwnerPanel` models `Dashboard.jsx`.
- `AnimalEditing` models `AnimalForm.jsx`.
- `OwnerRegistration` models `Registration.jsx`.
- `VaccinationEditing` models `VaccinationForm.jsx`.

Every screen is a class whose fields are the component's state. Each handler is a method that names
what it may change and states the whole new state.

Some inputs of the real program become parameters of the model:

- the server's answer to each request (`Reply`, `Lookup`, `LoginReply`, or a `succeeded` flag);
- the user's answer to `window.confirm`;
- the token decoder, as a partial function `string -> Option<Claims>`;
- the clock, as `daysUntil`;
- locale date rendering, as `localeDate`;
- `encodeURIComponent`, as `encode`.

Requests the screens send are returned as `Request` values, and navigation is a returned route.

Some behaviours of the code are easy to miss:

- **Expired records.** The card and the report do not classify a record alike. The card shows no
  indicator for an expired record, while the report prints "Expired".
  `Expiry.ReportAndCardAgreeUnlessExpired` states exactly where the two agree.
- **Decode failure at login.** `login` does not fail silently on an undecodable token. It stores the
  token and then throws, and the login screen shows its "unexpected error" message. `Session.AuthStore.Login` and `LoginScreen.LoginForm.HandleSubmit`
  model that.
- **Owners without a name.** The owner search builds the full name with a template literal. A null
  name is therefore spelled "null", so such an owner is also found by "null".
- **A stored height or weight of 0.** The animal form submits height and weight as numbers, but
  prefills them with `pet.height || ''`. A stored 0 is falsy, so it shows as '' and an untouched edit
  resubmits it as `parseFloat('')`, which is NaN and is sent as null. `AnimalEditing.PetForm` and
  `AnimalEditing.StoredZeroResubmittedEmpty` state this.
- **Animal id in the vaccination search.** The `animal_id` of a record is matched without being
  lower-cased, while the search term is lower-cased.

## Model

| member | source | states |
|---|---|---|
| Base.Filter | frontend/src/pages/VetDashboard.jsx:48-52 | `filter` keeps exactly the elements satisfying the test, as an order-preserving subsequence, and keeps the list whole when every element passes |
| Base.RemoveId | frontend/src/pages/AllVaccinations.jsx:48-49 | removing by id keeps exactly the elements with a different id, in order and each with its multiplicity, and changes nothing when no element has that id |
| Base.FilterCount | frontend/src/pages/Dashboard.jsx:47 | after a delete-by-id filter, each element that passes keeps its multiplicity and each removed one occurs zero times |
| Base.FilterCommutes | frontend/src/pages/AllVaccinations.jsx:48-49 | two filters applied in either order give the same list |
| Base.RemoveIdCommutesWithFilter | frontend/src/pages/AllVaccinations.jsx:48-49 | deleting from the searched list gives the search of the list after the delete |
| Base.AsBody | frontend/src/pages/Registration.jsx:80-83 | a form sent as a body has the form's keys, each bound to its text |
| Base.InputsKeepField | frontend/src/pages/Registration.jsx:128 | a run of input events that never names a field keeps that field's value, and adds no key when every input names an existing field |
| Text.Lower | frontend/src/pages/AdminDashboard.jsx:130-131 | lower-casing keeps the length and maps each character through ASCII lower-casing |
| Text.LowerIdempotent | frontend/src/pages/AdminDashboard.jsx:130 | lower-casing twice equals lower-casing once |
| Text.ContainsEmpty | frontend/src/pages/AllVaccinations.jsx:117 | every string includes the empty term |
| Text.Split | frontend/src/pages/AnimalForm.jsx:30 | a split yields at least one piece, and no piece contains the separator |
| Text.JoinSplit | frontend/src/pages/AnimalForm.jsx:114-118 | joining the pieces of a split with the same separator gives back the string |
| Text.SplitHead | frontend/src/pages/AnimalForm.jsx:30 | the first piece of a split is a prefix without the separator, followed by the separator when shorter than the string |
| Text.SplitWithoutSeparator | frontend/src/pages/AnimalForm.jsx:30 | a string without the separator splits into itself alone |
| Text.FormatDateForInput | frontend/src/pages/AnimalForm.jsx:28-31 | a falsy date gives ''; otherwise the result is the longest prefix without 'T' |
| Text.FormatDateIdempotent | frontend/src/pages/AnimalForm.jsx:28-31 | formatting a formatted date changes nothing, and a date without 'T' is kept whole |
| Text.Relabel | frontend/src/pages/AnimalForm.jsx:114-118 | character by character: each '_' is a space and each segment's first character is upper-cased |
| Text.RelabelJoins | frontend/src/pages/AnimalForm.jsx:114-118 | the character-wise label equals joining the capitalised pieces of the split |
| Text.PrettyLabel | frontend/src/pages/AnimalForm.jsx:114-118 | `prettyLabel` as split on '_', capitalise each piece, join with spaces; `Text.PrettyLabelIsRelabel` states its effect character by character |
| Text.PrettyLabelIsRelabel | frontend/src/pages/AnimalForm.jsx:114-118 | `prettyLabel` replaces each '_' by a space and upper-cases the first character of every segment, and changes nothing else |
| Routing.DashboardRoute | frontend/src/pages/AnimalForm.jsx:104-106 | vet goes to `/vet-dashboard`, admin to `/admin-dashboard`, and every other role to `/user-dashboard`, each as an if-and-only-if |
| Routing.LoginRoute | frontend/src/pages/Login.jsx:26-29 | login sends a role to `/signup` iff the role is not admin, vet or owner; otherwise it sends it to that role's dashboard |
| Routing.RegistrationRoute | frontend/src/pages/Registration.jsx:88-96 | saving the owner form sends a role to `/login` iff the role is not admin, vet or owner; otherwise it sends it to that role's dashboard |
| Routing.RoutesAgree | frontend/src/pages/Login.jsx:26-29 | the login map and the owner-form map agree exactly on known roles, and each differs from the dashboard map exactly on unknown roles |
| Routing.MayEdit | frontend/src/pages/Registration.jsx:43 | the edit gate: the record's owning account is the caller's, or the caller is a vet or an admin; `Routing.MayEditCases` states its cases |
| Routing.MayEditCases | frontend/src/pages/AnimalForm.jsx:42 | an unprivileged caller may edit exactly the records of their own account; vets and admins may edit every record |
| Expiry.DaysLeft | frontend/src/pages/AllVaccinations.jsx:75-77 | days left are absent for a falsy `valid_until`; otherwise they are what `daysUntil` gives for that date, absent when it does not parse (NaN in the source); they are present iff the date is truthy and parses |
| Expiry.ReportStatus | frontend/src/pages/AllVaccinations.jsx:79-84 | the report status is "" iff no days are known, "About to expire" iff 0..10 days remain, "Good" iff more than 10 remain, and "Expired" iff fewer than 0 remain; it is the text of the classification |
| Expiry.CardIndicator | frontend/src/pages/AllVaccinations.jsx:233-270 | the card shows red iff 0..10 days remain, green iff more than 10 remain, and nothing for an expired or undated record, so it matches the classification iff the record is not expired |
| Expiry.ReportAndCardAgreeUnlessExpired | frontend/src/pages/AllVaccinations.jsx:233-270 | for every record, report and card agree iff the record is not expired; an expired record reads "Expired" in the report and has no indicator on the card; this assumes one clock reading, while the source reads `new Date()` separately at render and at report time |
| Search.SearchVaccinations | frontend/src/pages/AllVaccinations.jsx:113-122 | the search keeps, in order and with their multiplicity, exactly the records whose name or type (lower-cased) or animal id includes the lower-cased term; an empty term keeps all |
| Search.SearchVaccinationsIgnoresCase | frontend/src/pages/AllVaccinations.jsx:114 | terms equal up to case give the same result |
| Search.SearchAccounts | frontend/src/pages/AdminDashboard.jsx:129-132 | the user table keeps, in order and with their multiplicity, exactly the accounts whose username or role includes the query, ignoring case; an empty query keeps all |
| Search.SearchAccountsIgnoresCase | frontend/src/pages/AdminDashboard.jsx:130-131 | queries equal up to case give the same accounts |
| Search.SearchOwners | frontend/src/pages/AdminDashboard.jsx:134-137 | the owner table keeps, in order and with their multiplicity, exactly the owners whose lower-cased full name includes the lower-cased query; an empty query keeps all |
| Search.OwnerFoundByEitherName | frontend/src/pages/AdminDashboard.jsx:135 | an owner is found by any part of the first or the last name, and an owner without a first name is found by "null" |
| Search.SearchAnimals | frontend/src/pages/AdminDashboard.jsx:140-148 | the animal table keeps, in order and with their multiplicity, exactly the animals with a present nickname, species, breed or microchip number that includes the query, ignoring case |
| Search.EmptyAnimalQuery | frontend/src/pages/AdminDashboard.jsx:143-146 | the empty query keeps an animal iff at least one of the four fields is present; absent fields never match |
| Search.SomeValueContains | frontend/src/pages/VetDashboard.jsx:49-51 | true iff some non-null value's lower-cased text includes the query |
| Search.SearchPets | frontend/src/pages/VetDashboard.jsx:42-55 | an empty query shows every pet; otherwise a pet is kept iff some non-null field includes the lower-cased query, with its multiplicity; always an order-preserving subsequence |
| Session.Restore | frontend/src/context/AuthContext.jsx:16-21 | a token yields no identity iff it fails to decode; otherwise it yields exactly the claims' id, username and role |
| Session.AuthStore.constructor | frontend/src/context/AuthContext.jsx:11 | the store starts with no identity, whatever storage holds |
| Session.AuthStore.Startup | frontend/src/context/AuthContext.jsx:13-23 | a truthy stored token sets the identity to what it restores, with no identity on a decode failure; a missing token changes nothing |
| Session.AuthStore.Login | frontend/src/context/AuthContext.jsx:25-29 | the token is stored in every case; the call throws iff decoding fails, and then the identity is unchanged; otherwise the identity is the claims triple |
| Session.AuthStore.Logout | frontend/src/context/AuthContext.jsx:31-34 | token and identity are both cleared; the new state does not depend on the old, so logging out twice is the same as once |
| Session.ReloadAfterLogin | frontend/src/context/AuthContext.jsx:13-29 | reloading after a login restores the identity the login left, including no identity for an undecodable token |
| LoginScreen.FailureMessage | frontend/src/pages/Login.jsx:31-39 | the message starts with a space iff the error had a response; after the space comes the response's `error`, or its status text when that is falsy; without a response it is "An unexpected error occurred." |
| LoginScreen.LoginForm.constructor | frontend/src/pages/Login.jsx:9-10 | the login screen starts with an empty username and password and no error |
| LoginScreen.LoginForm.HandleChange | frontend/src/pages/Login.jsx:58-68 | each input writes its own field and keeps the other |
| LoginScreen.LoginForm.HandleSubmit | frontend/src/pages/Login.jsx:14-41 | the form is POSTed to `/login` as the body; navigation happens iff a truthy token arrives and decodes; then the session holds it and the route is the role's; a falsy token changes nothing; a decode failure keeps the stored token and shows the unexpected-error message; a refusal shows the failure message |
| VaccinationList.ListEndpoint | frontend/src/pages/AllVaccinations.jsx:27 | the endpoint is `/vaccinations/<id>` under a truthy route id and `/vaccinations` otherwise |
| VaccinationList.DeleteKeepsSearch | frontend/src/pages/AllVaccinations.jsx:48-49 | deleting by id from the searched list gives the search of the loaded list after the same delete |
| VaccinationList.VaccinationScreen.constructor | frontend/src/pages/AllVaccinations.jsx:11-14 | empty lists, empty term, loading |
| VaccinationList.VaccinationScreen.Fetch | frontend/src/pages/AllVaccinations.jsx:24-39 | a response fills both lists (a null body counts as empty); a failure empties both; loading ends |
| VaccinationList.VaccinationScreen.SetSearchTerm | frontend/src/pages/AllVaccinations.jsx:178 | typing replaces only the term |
| VaccinationList.VaccinationScreen.RunSearchEffect | frontend/src/pages/AllVaccinations.jsx:113-122 | after the effect the shown list is the search of the loaded list |
| VaccinationList.VaccinationScreen.HandleDelete | frontend/src/pages/AllVaccinations.jsx:44-53 | a delete is requested only when confirmed; on success both lists lose exactly the records with that id, in order; otherwise neither changes; a shown list that matched the search still does |
| VaccinationList.VaccinationScreen.GoToDashboard | frontend/src/pages/AllVaccinations.jsx:107-111 | the dashboard button sends a vet to `/vet-dashboard`, an admin to `/admin-dashboard` and every other role to `/user-dashboard`, each as an if-and-only-if; this is the map `Routing.DashboardRoute` |
| VaccinationList.VaccinationScreen.ReportRows | frontend/src/pages/AllVaccinations.jsx:74-94 | the report has one row per loaded record, in list order, each the row of its record |
| VaccinationList.ReportRowMeaning | frontend/src/pages/AllVaccinations.jsx:86-93 | a row's status is the text of its record's classification, empty iff no days left are known (no `valid_until`, or one that is not a date); missing name, type, animal id or `valid_until` read "-" |
| VaccinationList.UnparseableDateUnclassified | frontend/src/pages/AllVaccinations.jsx:74-91 | a present `valid_until` that is not a date gets an empty status in the report and no indicator on the card, and its column shows the locale rendering of that text |
| AdminPanel.DisplayedStatus | frontend/src/pages/AdminDashboard.jsx:201 | the select shows the pending value when one is truthy, else the stored `active` |
| AdminPanel.MarkActive | frontend/src/pages/AdminDashboard.jsx:113-115 | exactly the accounts with the id get the new `active`; every other account and field is unchanged; the length is kept |
| AdminPanel.CommitKeepsDisplay | frontend/src/pages/AdminDashboard.jsx:112-120 | committing a pending change and dropping it leaves every row displaying what it displayed before |
| AdminPanel.AdminScreen.constructor | frontend/src/pages/AdminDashboard.jsx:14-27 | empty lists, all loading, no pending changes, empty searches |
| AdminPanel.AdminScreen.Load | frontend/src/pages/AdminDashboard.jsx:30-50 | nothing without a signed-in user id; otherwise three fetches, each list replaced on success and kept on failure, and all loading ends |
| AdminPanel.AdminScreen.FilteredUsers | frontend/src/pages/AdminDashboard.jsx:129-132 | the user table shows an order-preserving subsequence of the accounts, all of them for an empty query |
| AdminPanel.AdminScreen.FilteredOwners | frontend/src/pages/AdminDashboard.jsx:134-137 | the owner table shows an order-preserving subsequence of the owners, all of them for an empty query |
| AdminPanel.AdminScreen.FilteredAnimals | frontend/src/pages/AdminDashboard.jsx:140-148 | the animal table shows an order-preserving subsequence of the animals, each one matching the animal query |
| AdminPanel.AdminScreen.SetUserSearch | frontend/src/pages/AdminDashboard.jsx:169 | the account search bar sets only the account query |
| AdminPanel.AdminScreen.SetOwnerSearch | frontend/src/pages/AdminDashboard.jsx:242 | the owner search bar sets only the owner query |
| AdminPanel.AdminScreen.SetAnimalSearch | frontend/src/pages/AdminDashboard.jsx:295 | the animal search bar sets only the animal query |
| AdminPanel.AdminScreen.HandleActiveChange | frontend/src/pages/AdminDashboard.jsx:57-59 | the pending map gains or overwrites the entry for the account and keeps every other entry |
| AdminPanel.AdminScreen.HandleDeleteUser | frontend/src/pages/AdminDashboard.jsx:60-75 | confirmed and successful: exactly that id leaves the accounts; otherwise no change; owners and animals untouched; the alert matches the outcome |
| AdminPanel.AdminScreen.HandleDeleteOwner | frontend/src/pages/AdminDashboard.jsx:76-87 | the same for owners, leaving accounts and animals untouched |
| AdminPanel.AdminScreen.HandleDeleteAnimal | frontend/src/pages/AdminDashboard.jsx:90-101 | the same for animals, leaving accounts and owners untouched |
| AdminPanel.AdminScreen.HandleSetActive | frontend/src/pages/AdminDashboard.jsx:107-126 | without a pending value no request is made, the alert is "No change detected" and nothing changes; otherwise the value is PATCHed; on success exactly the matching accounts take it and only its entry is dropped; on failure nothing changes; every row displays what it displayed before |
| VetPanel.SearchString | frontend/src/pages/VetDashboard.jsx:61 | the URL search is `?search=<encoded query>` iff the query is non-empty, else '' |
| VetPanel.SearchPetsAfterDelete | frontend/src/pages/VetDashboard.jsx:42-55 | searching after a delete gives the previous search result minus the deleted pet |
| VetPanel.VetScreen.constructor | frontend/src/pages/VetDashboard.jsx:15-18 | empty lists, empty query, loading |
| VetPanel.VetScreen.ReadSearchFromUrl | frontend/src/pages/VetDashboard.jsx:21-25 | the query is the URL's `search` parameter, or '' |
| VetPanel.VetScreen.Load | frontend/src/pages/VetDashboard.jsx:28-39 | nothing without a signed-in user id; otherwise `/animals` is fetched, a response fills both lists, a failure keeps them, and loading ends |
| VetPanel.VetScreen.RunFilterEffect | frontend/src/pages/VetDashboard.jsx:42-55 | after the effect the shown list is the search of the pets: all pets for an empty query, and always an order-preserving subsequence |
| VetPanel.VetScreen.HandleSearch | frontend/src/pages/VetDashboard.jsx:57-63 | the query is stored and navigation targets `/vet-dashboard` with the query's search string |
| VetPanel.VetScreen.HandleDelete | frontend/src/pages/VetDashboard.jsx:78-86 | confirmed and successful: exactly that id leaves the pets; a declined confirm or a failure leaves them unchanged |
| VetPanel.DeleteThenFilter | frontend/src/pages/VetDashboard.jsx:78-86 | a delete followed by the filter effect shows the previously shown list minus the deleted pet |
| OwnerPanel.OwnerScreen.constructor | frontend/src/pages/Dashboard.jsx:11-12 | no pets, loading |
| OwnerPanel.OwnerScreen.Load | frontend/src/pages/Dashboard.jsx:14-26 | a fetch of `/animals/user/<userId>` happens only with a truthy user id; loading ends on success and on failure; with no user nothing changes |
| OwnerPanel.OwnerScreen.HandleDelete | frontend/src/pages/Dashboard.jsx:43-51 | confirmed and successful: exactly the pets with that id are removed, others kept in order; a declined confirm issues nothing; a failure changes nothing |
| AnimalEditing.EmptyForm | frontend/src/pages/AnimalForm.jsx:14-23 | the initial form has exactly the eight fields, all empty |
| AnimalEditing.PetForm | frontend/src/pages/AnimalForm.jsx:50-59 | a loaded animal fills the eight fields with their values, with '' for any falsy one (for height and weight this includes a stored 0) and the birth date cut at 'T' |
| AnimalEditing.StoredZeroResubmittedEmpty | frontend/src/pages/AnimalForm.jsx:57-58 | a stored height or weight of 0 shows as '' and an untouched edit sends `parseFloat('')` for it |
| AnimalEditing.Payload | frontend/src/pages/AnimalForm.jsx:85-94 | the body carries the form's fields as text, height and weight parsed, and `user_id` with the caller's id exactly when the animal is new |
| AnimalEditing.EditPayloadKeepsOwner | frontend/src/pages/AnimalForm.jsx:84-94 | for a form of the animal fields, an edit body has no `user_id` and a create body has one |
| AnimalEditing.AnimalEditor.constructor | frontend/src/pages/AnimalForm.jsx:10-26 | create mode, the empty form, no message, loading |
| AnimalEditing.AnimalEditor.ShowsForm | frontend/src/pages/AnimalForm.jsx:126 | the form is rendered when there is no message or the screen is in create mode |
| AnimalEditing.AnimalEditor.Load | frontend/src/pages/AnimalForm.jsx:33-74 | nothing without a user; no route id only ends loading; a failed fetch sets its message and redirects to `/dashboard`; a denied caller gets the refusal and `/user-dashboard` with form and mode untouched; an allowed caller gets the filled form, edit mode and the original owner |
| AnimalEditing.AnimalEditor.HandleChange | frontend/src/pages/AnimalForm.jsx:76-79 | only the named field changes |
| AnimalEditing.AnimalEditor.HandleSubmit | frontend/src/pages/AnimalForm.jsx:81-112 | POST `/animals` with `user_id` when new, PUT `/animals/<id>` without `user_id` otherwise; success sets the mode's message and the role's dashboard; failure sets the mode's error |
| AnimalEditing.OpenDenied | frontend/src/pages/AnimalForm.jsx:42-47 | a denied caller is left with the empty form in create mode, which is still rendered under the refusal |
| OwnerRegistration.EditableKeys | frontend/src/pages/Registration.jsx:117-118 | the inputs are every form key except `user_id`, in the form's order, each as often as in the form |
| OwnerRegistration.OwnerIdFor | frontend/src/pages/Registration.jsx:37 | the fetched owner id is the route id when present, else the caller's id |
| OwnerRegistration.EmptyForm | frontend/src/pages/Registration.jsx:16-25 | the initial form has exactly the eight owner fields, all empty |
| OwnerRegistration.OwnerForm | frontend/src/pages/Registration.jsx:50-59 | `user_id` is the record's, or the fetched id when falsy; the birth date is cut at 'T'; every other field is its value or '' |
| OwnerRegistration.InputsKeepUserId | frontend/src/pages/Registration.jsx:117-128 | no run of edits through the rendered inputs changes `user_id` |
| OwnerRegistration.OwnerEditor.constructor | frontend/src/pages/Registration.jsx:12-25 | no message, loading, create mode, the empty form |
| OwnerRegistration.OwnerEditor.FetchOwnerData | frontend/src/pages/Registration.jsx:32-74 | nothing without a user; otherwise the chosen owner is fetched and loading ends; a denied caller gets the refusal and a redirect to `/` with the form untouched; an allowed one gets the filled form and edit mode; a 404 sets only `user_id` and create mode; another failure changes nothing |
| OwnerRegistration.OwnerEditor.HandleInput | frontend/src/pages/Registration.jsx:128 | an input writes its own key and never `user_id` |
| OwnerRegistration.OwnerEditor.HandleSubmit | frontend/src/pages/Registration.jsx:76-101 | POST `/owners` when new, otherwise PUT `/owners/<form user_id>`, with the form as body; success sets the mode's message and the role's route; failure sets "Error saving owner." |
| VaccinationEditing.EmptyForm | frontend/src/pages/VaccinationForm.jsx:13-19 | the initial form has exactly the five fields, all empty |
| VaccinationEditing.RecordForm | frontend/src/pages/VaccinationForm.jsx:30-36 | a loaded record fills the five fields with '' defaults and both dates cut at 'T' |
| VaccinationEditing.VaccinationEditor.constructor | frontend/src/pages/VaccinationForm.jsx:8-20 | the route parameters, the empty form, no message |
| VaccinationEditing.VaccinationEditor.IsEditMode | frontend/src/pages/VaccinationForm.jsx:10 | edit mode is the truthiness of the `vaxId` route parameter |
| VaccinationEditing.VaccinationEditor.IsAddMode | frontend/src/pages/VaccinationForm.jsx:11 | add mode is the truthiness of the `animalId` route parameter |
| VaccinationEditing.VaccinationEditor.Load | frontend/src/pages/VaccinationForm.jsx:24-43 | edit mode takes precedence: it fetches the record and replaces the whole form on success; add mode sets only `animal_id`; with neither nothing happens |
| VaccinationEditing.VaccinationEditor.HandleChange | frontend/src/pages/VaccinationForm.jsx:45-48 | only the named field changes, and `animal_id` keeps its value |
| VaccinationEditing.VaccinationEditor.HandleSubmit | frontend/src/pages/VaccinationForm.jsx:50-65 | PUT `/vaccinations/<vaxId>` in edit mode, otherwise POST `/vaccinations`, with the form as body; the message depends on mode and outcome; success returns to `/vaccinations` |
| VaccinationEditing.EditsKeepAnimalId | frontend/src/pages/VaccinationForm.jsx:74-82 | edits through the enabled inputs never change `animal_id` |

## Left out

- JSX rendering and styling (spinners, cards, tables, headings) are presentation. Only the render conditions that decide what is shown are modelled (`AnimalEditor.ShowsForm`, the card indicator). The owner form's own `(!message || isNew)` gate (Registration.jsx) is one of the render conditions left out.
- The PDF layout (`jsPDF`, `autoTable`, fonts, coordinates, `doc.save`) consists of foreign library calls. Only the list of report rows is modelled.
- Date arithmetic (`new Date`, `Math.ceil`, `toLocaleDateString`) depends on floating point, the clock and the locale. It becomes the parameters `daysUntil` and `localeDate`. `daysUntil` is partial: `None` stands for the NaN of a text that is not a date.
- `parseFloat` of height and weight is kept symbolic as `ParsedFloat(text)`.
- `jwtDecode` is a foreign library. It is the partial function `decode` given to the session store.
- Axios and the request interceptor (the base origin and the bearer header) are network plumbing. `frontend/src/api/axiosConfig.js` is not part of this model. Each request is a returned `Request` and its outcome is an input.
- `window.confirm`, `alert`, `setTimeout` and `navigate` are browser effects. Confirm is a boolean input; alerts, messages and routes are returned or stored values; the delay before a redirect is not modelled.
- `encodeURIComponent` is the parameter `encode`.
- Async interleaving, the order in which responses arrive, and updates after unmount are concurrency the code does not handle. Each handler runs to completion in the model.
- `toLowerCase` (`Text.LowerChar`) and `toUpperCase` (`Text.UpperChar`, used by `prettyLabel`) are modelled on ASCII letters only. Full Unicode case mapping is not modelled; `toUpperCase` is only applied to the fixed ASCII field names.
- `frontend/src/App.js` (the route table), `frontend/src/context/SearchBar.jsx` (it forwards its input) and `frontend/src/pages/SignUp.jsx` (a single POST of its form) are not part of this model.
- Logout buttons and the plain navigation buttons (`handleLogout`, `handleViewVacc`, `handleSettings`, `handleEdit`, `handleAdd`) are left out. They only call `logout`, modelled as `Session.AuthStore.Logout`, and navigate to fixed routes.
- Ids are modelled as their text. JavaScript strict equality between a numeric id and a string route parameter can differ from the model's string equality: `pet.user_id !== user.userId`, `v.id !== delId`, and the numeric `animal_id` that the vaccination search turns into a string. A numeric id of 0 is falsy in the source but present in the model: the user-id guards of the three dashboards, `ownerData.user_id || ownerId`, `vaccine.animal_id || "-"`, `(v.animal_id || '')` and `vax.animal_id || ''` would treat it as missing.
- Search.SearchPets: `Object.values` of a backend record may include fields the client does not know. The model searches the ten known fields of `Animal` only.
- AnimalEditing.AnimalEditor.HandleSubmit and OwnerRegistration.OwnerEditor.HandleSubmit take the signed-in user as a present value. The screens only render their forms after a load that required a user, so the model does not cover a null user at submit.
- VaccinationList.VaccinationScreen.GoToDashboard takes the signed-in user as a present value. With no user, `user.role` throws in the source.
- Search.SearchOwners: an owner record whose name key is absent renders as "undefined" in the template literal. The model has one missing value, the null one, so it spells every missing name "null".
- AdminPanel.AdminScreen.Load, VetPanel.VetScreen.Load and OwnerPanel.OwnerScreen.Load take a successful reply to carry a list. The source stores `res.data` unguarded, so a null body would make the next `filter` or `map` throw; the model does not cover that crash.
- Search.AccountMatches, and with it Search.SearchAccounts, assumes every account has a username and a role. The source calls `toLowerCase` on both, which throws on a null field.
- LoginScreen.FailureMessage assumes a response carries an error body. The source reads `err.response.data.error`, which throws inside the `catch` block when `data` is null.
