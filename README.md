# Administration dashboard of the parish: a Dafny model of its client-side rules

The dashboard is a React single-page application. Staff use it to manage a
parish's museum, rentals, monastery, inventory, sales and finances. Every
screen is guarded on the client by a permission resolver:

- the logged-in user's role carries one permission row per module, with
  `canRead`, `canWrite`, `canEdit` and `canDelete` flags;
- the module catalogue, fetched from the backend, maps module names to ids;
- `useModulePermission(name, action)` answers with default-deny semantics.

The model covers that resolver and the rules it depends on:

- the catalogue fetch gate;
- the normalisation of the two role shapes the login endpoint sends;
- the conversions of permission rows between frontend and backend (`canEdit` ↔ `canUpdate`).

It also covers the validators and list-shaping helpers that sit in the
actions and screens:

- the rental payload validator;
- the customer form;
- the museum entrance schema;
- the create-visitor and edit-visitor dialogs of the museum;
- the places and locations response normalisation;
- the rentals pagination bar;
- the customer search of the new-rental dialog;
- the monastery screen's gating, row derivation, filters and statistics.

## How the model is built

There is one module per core source file.

Shared modules:
- `Wrappers` holds Option and Result.
- `Js` holds the JavaScript value semantics the code relies on:
  - numbers with NaN and the infinities;
  - JSON values with objects as ordered key lists;
  - truthiness;
  - `trim`, ASCII `toLowerCase` and `includes`;
  - the UUID regular expression;
  - `parseInt`, and decimal printing of integers.
- `AccessTypes` holds the permission, role and user records.

Pure code becomes datatypes, functions and lemmas: the resolver, the converters and the schemas.

Code that updates state in steps becomes imperative Dafny:
- Each screen or dialog whose React state the handlers update is a `class`:
  `AuthStore`, `AuthToken`, `RentalsScreen`, `NewRentalDialog`,
  `CustomerDialog`, `VisitorCreateDialog`, `VisitorEditDialog` and
  `MonasteryScreen`. Its handlers are methods with `modifies this`.
- Code that pushes into an array or reassigns a `let` is a method proved
  against a specification function: `renderPageNumbers`, `createRental`,
  `validateForm`, `fetchLocations`, the create-visitor submit chain and the
  monastery filter chains.

Network calls, the store and the clock are not modelled. Their results are
parameters: `Result` values for responses, `tokenUserId` for the decoded
token, `parsedMonto` for `parseFloat(monto)`, and `now` for `Date.now()`.

## Model

| member | source | states |
|---|---|---|
| ModulesMap.UseModulesMap | src/core/utils/useModulesMap.ts:20-95 | a closed access gate yields no modules, empty maps, no loading, no error and not ready; an open gate passes the query's data, loading flag and error through; ready implies an open gate and loaded data; every key of the name map is the name of some catalogue module |
| ModulesMap.AccessGateShapes | src/core/utils/useModulesMap.ts:20-33 | with `role.permissions` present the gate is "some row has canRead" over those rows; otherwise it is the same test over `Role.Permissions`, and no user has no access |
| ModulesMap.HasModuleAccess | src/core/utils/useModulesMap.ts:20-33 | an open gate needs a user with `role` or `Role` present |
| ModulesMap.ShapeCoalescing | src/core/utils/useModulesMap.ts:20-33 | a role with the same permission rows gives the same gate, maps and every `useModulePermission` answer whether it arrives as `role` or as `Role` |
| ModulesMap.ShapeCoalescingMissingArray | src/core/utils/useModulesMap.ts:22 | a `role` without a `permissions` array falls through to `Role.Permissions`: the answers are those of the `Role` shape |
| ModulesMap.EmptyCamelCaseClosesGate | src/core/utils/useModulesMap.ts:22-25 | an empty `role.permissions` array is used as is (`||` does not skip it), so the gate is closed even if `Role.Permissions` grants reads |
| ModulesMap.GateMonotone | src/core/utils/useModulesMap.ts:20-33 | a user whose permission rows include another user's rows has access whenever the other does |
| ModulesMap.Index | src/core/utils/useModulesMap.ts:36-52 | the key set of each reduced map is exactly the set of catalogue names (or ids) |
| ModulesMap.KeysInOrder | src/core/utils/useModulesMap.ts:78-80 | the key list holds exactly the keys of the reduced map, each once |
| ModulesMap.OpenGateMaps | src/core/utils/useModulesMap.ts:36-52 | with an open gate and a loaded catalogue, the two maps are the name→id and id→name reductions of the catalogue and the key order is the first-seen order of the names |
| ModulesMap.LastWins | src/core/utils/useModulesMap.ts:38-42 | with duplicate keys the last module in catalogue order decides the stored value |
| ModulesMap.EntryStored | src/core/utils/useModulesMap.ts:38-51 | with unique keys every module's own value is stored under its key |
| ModulesMap.GetModuleId | src/core/utils/useModulesMap.ts:57-59 | defined exactly for the names in the name map, giving the stored id |
| ModulesMap.GetModuleName | src/core/utils/useModulesMap.ts:64-66 | defined exactly for the ids in the id map, giving the stored name |
| ModulesMap.NameIdRoundTrip | src/core/utils/useModulesMap.ts:57-66 | with unique names and ids, `getModuleName(getModuleId(n)) == n` |
| ModulesMap.IdNameRoundTrip | src/core/utils/useModulesMap.ts:57-66 | with unique names and ids, `getModuleId(getModuleName(i)) == i` |
| ModulesMap.ModuleExistsAsWritten | src/core/utils/useModulesMap.ts:71-73 | the `in` test as written holds for every name the name map resolves and for every name inherited from `Object.prototype`, and for no other name |
| ModulesMap.ModuleExists | src/core/utils/useModulesMap.ts:71-73 | a name exists exactly when the name map resolves it |
| ModulesMap.GetAvailableModules | src/core/utils/useModulesMap.ts:78-80 | with the key list formed from the map, it lists exactly the names `moduleExists` accepts, each once |
| ModulesMap.AvailableModulesExact | src/core/utils/useModulesMap.ts:71-80 | `getAvailableModules` lists exactly the names `moduleExists` accepts, each once |
| ModulesMap.PrototypeNameExists | src/core/utils/useModulesMap.ts:71-73 | with an empty catalogue, "toString" exists as written but is neither an own key nor an available module |
| ModulesMap.FindRow | src/core/utils/useModulesMap.ts:154-156 | `find` gives the index of the first row with the module id, or none when no row has it |
| ModulesMap.UseModulePermission | src/core/utils/useModulesMap.ts:132-172 | a closed gate gives no permission, no module id and not loading; an open gate resolves the id through the name map and loads while the map is not ready |
| ModulesMap.DefaultDeny | src/core/utils/useModulesMap.ts:142-160 | no permission when the gate is closed, the name does not resolve, the rows are absent or no row has the resolved id |
| ModulesMap.FirstRowDecides | src/core/utils/useModulesMap.ts:154-162 | otherwise the answer is the requested flag of the first row with the resolved id |
| ModulesMap.GrantedHasWitnesses | src/core/utils/useModulesMap.ts:142-163 | a granted permission implies an open gate, a catalogue module with that name and a row for its id whose flag is set |
| ModuleFetch.QueryFn | src/modules/modules/hook/useModules.ts:19-41 | without read permission the result is `[]` and nothing is requested; a 403 failure becomes `[]`; any other failure is rethrown unchanged; a success is returned as fetched |
| ModuleFetch.FetchGateIsAccessGate | src/modules/modules/hook/useModules.ts:11-15 | the fetch gate and the query's `enabled` flag equal the resolver's access gate |
| ModuleFetch.Enabled | src/modules/modules/hook/useModules.ts:11-15 | the query's `enabled` flag is true exactly when the resolver's access gate is open |
| ModuleFetch.ForbiddenIsEmptyCatalogue | src/modules/modules/hook/useModules.ts:32-35 | a 403 failure is indistinguishable from an empty catalogue |
| ModuleFetch.Retry | src/modules/modules/hook/useModules.ts:44-51 | never after a 403 and never once two failures have happened; otherwise always |
| ModuleFetch.ShouldLogUpdateError | src/modules/modules/hook/useModules.ts:77-82 | the update error is logged exactly when its message contains neither "403" nor "Forbidden" at any position |
| ModuleFetch.IsForbidden | src/modules/modules/hook/useModules.ts:32-35 | a failure is the forbidden case exactly when its status is 403; one without a status never is |
| ModuleFetch.MentionOf403NotLogged | src/modules/modules/hook/useModules.ts:77-82 | an update error whose message contains "403" anywhere is not logged |
| ModuleFetch.MentionOfForbiddenNotLogged | src/modules/modules/hook/useModules.ts:77-82 | an update error whose message contains "Forbidden" anywhere is not logged |
| Login.UserToSave | src/modules/auth/hook/useLogin.ts:45-54 | the saved user has an empty password, keeps id, name, email, role id and status, and defaults dni and phone number to "" |
| Login.AuthStore.OnLoginSuccess | src/modules/auth/hook/useLogin.ts:18-58 | a non-empty token is saved, otherwise the old one stays; with a user in the response the store holds the saved user and the normalised user, otherwise both stay |
| Login.AuthToken.constructor | src/modules/auth/hook/useLogin.ts:92-97 | the token starts as the stored value when that is non-empty, else null |
| Login.AuthToken.SaveToken | src/modules/auth/hook/useLogin.ts:99-102 | after `saveToken(t)` both the state and storage hold `t` |
| Login.AuthToken.RemoveToken | src/modules/auth/hook/useLogin.ts:104-107 | after `removeToken()` both are null |
| Login.NormalizedRolePresence | src/modules/auth/hook/useLogin.ts:35-42 | the normalised role is absent exactly when both `role` and `Role` are absent |
| Login.NormalizedPermissions | src/modules/auth/hook/useLogin.ts:40 | the normalised permissions are `role.permissions`, else `Role.Permissions`, else `[]`, and never absent |
| Login.NormalizedRoleFields | src/modules/auth/hook/useLogin.ts:36-39 | id, name and description come from `role` when non-empty, else from `Role`; the status is always true |
| Login.NormalizeUser | src/modules/auth/hook/useLogin.ts:31-43 | every field but `role` is copied from the payload; permission rows found under `role` or `Role` are the normalised rows, and a user with neither gets no rows or `[]` |
| Login.NormalizeIdempotent | src/modules/auth/hook/useLogin.ts:31-43 | normalising twice gives the same user as normalising once |
| Login.NormalizePreservesAccess | src/modules/auth/hook/useLogin.ts:31-43 | normalisation changes neither the access gate nor any `useModulePermission` answer |
| PermissionActions.BackendToFrontend | src/modules/roles/action/permissions.ts:5-18 | every backend field is kept, `canUpdate` equals `canEdit`, and the timestamps are dropped |
| PermissionActions.FrontendToBackend | src/modules/roles/action/permissions.ts:20-32 | the backend row holds the module id and the four flags, with `canEdit` taken from `canUpdate` |
| PermissionActions.RowRoundTrip | src/modules/roles/action/permissions.ts:5-32 | backend → frontend → backend keeps the module id and all four flags |
| PermissionActions.FormRoundTrip | src/modules/roles/action/permissions.ts:5-32 | frontend → backend → frontend gives back the form row |
| PermissionActions.ListRoundTrip | src/modules/roles/action/permissions.ts:60-70 | the round trip over a whole list keeps its length and each row's write fields |
| PermissionActions.MapToFrontend | src/modules/roles/action/permissions.ts:60-70 | the converted list has the same length and converts each row in place |
| PermissionActions.GetPermissionsByRole | src/modules/roles/action/permissions.ts:45-94 | an array from the primary endpoint is converted; a primary failure gives `[]`; otherwise the fallback endpoint's array is converted, and anything else gives `[]` |
| PermissionActions.FallbackOrder | src/modules/roles/action/permissions.ts:60-89 | when the primary call gives an array or throws, the fallback's answer is irrelevant |
| PermissionActions.ConvertUpdatePayload | src/modules/roles/action/permissions.ts:115-118 | the other payload fields are kept and every permission is mapped through the frontend→backend converter |
| PermissionActions.MapToBackend | src/modules/roles/action/permissions.ts:117 | an absent list stays absent; a present one keeps its length and converts each row in place |
| RoleActions.ConvertRolePayload | src/modules/roles/action/role.ts:43-52 | other fields kept; an absent list stays absent; a present list keeps its length and order, each row with `canEdit := canUpdate` |
| RoleActions.SameAsPermissionUpdate | src/modules/roles/action/role.ts:43-52 | the role update converts its payload exactly as `updatePermission` does |
| Rentals.CreateRental | src/modules/rentals/action/rentals.ts:18-106 | rejected exactly when the error list is non-empty, with that list; otherwise both dates are valid and the six-field body is posted and the post's result returned |
| Rentals.FailingMembers | src/modules/rentals/action/rentals.ts:57-63 | the reported fields are exactly the checked fields whose check fails |
| Rentals.FailingFields | src/modules/rentals/action/rentals.ts:57-63 | no more fields than were checked, each one whose check fails |
| Rentals.FailingInOrder | src/modules/rentals/action/rentals.ts:57-63 | the failing fields keep the order they are checked in |
| Rentals.ReportedIffInvalid | src/modules/rentals/action/rentals.ts:18-63 | a field is reported exactly when its check (UUID, valid date, positive amount) fails |
| Rentals.ValidationErrors | src/modules/rentals/action/rentals.ts:18-63 | at most six fields, each one whose check fails |
| Rentals.ErrorsInOrder | src/modules/rentals/action/rentals.ts:57-63 | the errors appear in the order customerId, placeId, userId, startDate, endDate, amount |
| Rentals.SameChecksSameErrors | src/modules/rentals/action/rentals.ts:57-63 | two payloads passing the same checks get the same error list |
| Rentals.AmountMustBePositive | src/modules/rentals/action/rentals.ts:50-63 | a zero, negative or NaN amount is reported |
| Rentals.PostedOnlyWhenValid | src/modules/rentals/action/rentals.ts:65-90 | a clean payload passes every check, has valid dates, and `status` does not reach the body |
| RentalsView.RenderPageNumbers | src/modules/rentals/components/rentals-component-view.tsx:85-104 | the loop's pushes produce the page window: optional `1, …`, the numbers start..end, optional `…, last` |
| RentalsView.Range | src/modules/rentals/components/rentals-component-view.tsx:94-97 | the numbers from start to end inclusive, one per position |
| RentalsView.PageWindow | src/modules/rentals/components/rentals-component-view.tsx:85-104 | at most nine items, and every number shown is 1 or a page between 1 and the page count |
| RentalsView.TotalPages | src/modules/rentals/components/rentals-component-view.tsx:52 | the page count is the ceiling of count/20, and 0 exactly for no places |
| RentalsView.CurrentPlaces | src/modules/rentals/components/rentals-component-view.tsx:53-55 | a page holds at most 20 places, the k-th being place (page-1)·20+k, and is full except possibly the last |
| RentalsView.PlaceOnOnePage | src/modules/rentals/components/rentals-component-view.tsx:52-55 | every place is shown on page i/20+1 at position i mod 20, and on no other page or position |
| RentalsView.PagesCoverPlaces | src/modules/rentals/components/rentals-component-view.tsx:52-55 | the pages 1..totalPages, laid end to end, are exactly the place list |
| RentalsView.PagesPrefix | src/modules/rentals/components/rentals-component-view.tsx:53-55 | the first n pages are the first min(20n, count) places |
| RentalsView.WindowNumbers | src/modules/rentals/components/rentals-component-view.tsx:86-97 | at most 5 numbers are shown, and the current page is among them when it is in range |
| RentalsView.LeadingEllipsis | src/modules/rentals/components/rentals-component-view.tsx:91-93 | the bar starts with `1, …` exactly when the window starts after 1 |
| RentalsView.TrailingEllipsis | src/modules/rentals/components/rentals-component-view.tsx:98-101 | for a current page between 1 and the page count, the bar ends with `…, last` exactly when the window ends before the last page |
| RentalsView.WindowIncreasing | src/modules/rentals/components/rentals-component-view.tsx:91-101 | the page numbers shown strictly increase |
| RentalsView.RentalsScreen.constructor | src/modules/rentals/components/rentals-component-view.tsx:30-33 | page 1, no location, refetch key 0 |
| RentalsView.RentalsScreen.HandlePageChange | src/modules/rentals/components/rentals-component-view.tsx:79-83 | the page changes only to a page between 1 and the page count |
| RentalsView.RentalsScreen.HandleSelectLocation | src/modules/rentals/components/rentals-component-view.tsx:57-76 | selecting a location stores it, bumps the refetch key and returns to page 1 |
| RentalsView.RentalsScreen.HandleDeletePlace | src/modules/rentals/components/rentals-component-view.tsx:110-130 | the delete is called exactly when permitted (or admin) and confirmed; a successful delete returns to page 1 |
| RentalsView.AdminOverridesDefaultDeny | src/modules/rentals/components/rentals-component-view.tsx:44 | with the answer of `useModulePermission`, an admin by `role.name` or `Role.name` is allowed whatever it says; anyone else is allowed exactly when it grants, so never without module access |
| RentalsView.IsAdmin | src/modules/rentals/components/rentals-component-view.tsx:44 | an admin has `role` or `Role` present |
| RentalsView.AdminWithoutRows | src/modules/rentals/components/rentals-component-view.tsx:44 | a role named "Admin" with no permission rows is denied by the resolver and still allowed on this screen |
| RentalsView.AdminSurvivesNormalization | src/modules/rentals/components/rentals-component-view.tsx:44 | normalising the login payload keeps the admin test unchanged |
| NewRentalModal.FilteredCustomers | src/modules/rentals/components/modals/new-rental-modal.tsx:47-50 | keeps exactly the customers whose lower-cased name contains the lower-cased query or whose decimal DNI contains the query |
| NewRentalModal.EmptyQueryMatchesAll | src/modules/rentals/components/modals/new-rental-modal.tsx:47-50 | the empty query keeps every customer, in order |
| NewRentalModal.FilterSplits | src/modules/rentals/components/modals/new-rental-modal.tsx:47-50 | filtering a list is filtering its two halves and concatenating: the order is kept |
| NewRentalModal.QueryCaseIrrelevant | src/modules/rentals/components/modals/new-rental-modal.tsx:47-50 | two queries with the same lower-case form keep the same customers |
| NewRentalModal.NewRentalDialog.constructor | src/modules/rentals/components/modals/new-rental-modal.tsx:28-39 | the empty form with status true, no query, no dropdown |
| NewRentalModal.NewRentalDialog.SyncSeller | src/modules/rentals/components/modals/new-rental-modal.tsx:55-70 | a non-empty user name fills the seller field; nothing else changes |
| NewRentalModal.NewRentalDialog.HandleChange | src/modules/rentals/components/modals/new-rental-modal.tsx:98-103 | one input is written; nothing else changes |
| NewRentalModal.NewRentalDialog.HandleSubmit | src/modules/rentals/components/modals/new-rental-modal.tsx:72-96 | submits exactly when the five text fields are filled, with the form's values; then resets the form with the user's name as seller and clears the query; otherwise nothing changes |
| NewRentalModal.ResetIsIncomplete | src/modules/rentals/components/modals/new-rental-modal.tsx:86-94 | the form after a submit cannot be submitted again unchanged |
| NewRentalModal.NewRentalDialog.HandleCustomerSearch | src/modules/rentals/components/modals/new-rental-modal.tsx:105-114 | the dropdown shows exactly for a non-empty query; clearing the query clears the customer |
| NewRentalModal.NewRentalDialog.HandleCustomerSelect | src/modules/rentals/components/modals/new-rental-modal.tsx:116-120 | the customer's id is stored, its name becomes the query and the dropdown closes |
| NewRentalModal.NewRentalDialog.ToggleStatus | src/modules/rentals/components/modals/new-rental-modal.tsx:317 | the status flips and nothing else changes |
| CustomerForm.FormErrors | src/modules/rentals/components/modals/modal-create-customer.tsx:49-68 | the error record holds exactly the fields that have an error, each with its message |
| CustomerForm.CollectErrors | src/modules/rentals/components/modals/modal-create-customer.tsx:50-69 | the record filled by the four `if`s is exactly the form's error record |
| CustomerForm.CustomerDialog.ValidateForm | src/modules/rentals/components/modals/modal-create-customer.tsx:49-72 | the record built field by field is the form's error record, and the result is true exactly when it is empty |
| CustomerForm.RequiredTextFields | src/modules/rentals/components/modals/modal-create-customer.tsx:52-62 | full name and phone have an error exactly when their trimmed value is empty |
| CustomerForm.DniMustBePositive | src/modules/rentals/components/modals/modal-create-customer.tsx:56-58 | the DNI has an error exactly when it is not positive |
| CustomerForm.EmailMessages | src/modules/rentals/components/modals/modal-create-customer.tsx:64-68 | "required" exactly for a blank address, "invalid" exactly for a non-blank one without the pattern, no error exactly when the pattern matches |
| CustomerForm.EmailExamples | src/modules/rentals/components/modals/modal-create-customer.tsx:66 | the unanchored pattern accepts "ana@mail.com" and "x a@b.c y" and rejects "ana@mail" |
| CustomerForm.ValidFormShape | src/modules/rentals/components/modals/modal-create-customer.tsx:49-72 | a valid form has a name, a positive DNI, a phone and an `@` followed later by a `.` |
| CustomerForm.DniInput | src/modules/rentals/components/modals/modal-create-customer.tsx:40 | the DNI input reads back every integer typed in decimal and gives 0 for text without digits |
| CustomerForm.CustomerDialog.HandleChange | src/modules/rentals/components/modals/modal-create-customer.tsx:30-47 | one input is written and then the name effect as written runs, so a non-empty `initialName` is put back; only that input's shown error is cleared, and the name is left settled |
| CustomerForm.CustomerDialog.HandleClose | src/modules/rentals/components/modals/modal-create-customer.tsx:88-97 | the form is emptied (DNI 0) with the name prefilled from `initialName` by the effect, and the errors cleared |
| CustomerForm.CustomerDialog.HandleSubmit | src/modules/rentals/components/modals/modal-create-customer.tsx:74-86 | the mutation receives the form exactly when it is valid; the created customer is handed on and the dialog closes, refilled from `initialName`, exactly when the mutation succeeds; otherwise the form stays with its errors shown |
| CustomerForm.CustomerDialog.constructor | src/modules/rentals/components/modals/modal-create-customer.tsx:19-34 | the empty form with the full name prefilled from `initialName`, no errors, and the name settled |
| CustomerForm.CustomerDialog.SyncInitialName | src/modules/rentals/components/modals/modal-create-customer.tsx:29-34 | a new `initialName` prop runs the name effect as written: a non-empty prop replaces the name, an empty one leaves it; the errors stay |
| CustomerForm.InitialNameEffectAsWritten | src/modules/rentals/components/modals/modal-create-customer.tsx:29-34 | only the name can change; a non-empty `initialName` becomes the name, an empty one changes nothing |
| CustomerForm.InitialNameEffect | src/modules/rentals/components/modals/modal-create-customer.tsx:29-34 | only the name can change; it becomes `initialName` when that prop is non-empty and differs from the value it last ran for, and nothing changes otherwise |
| CustomerForm.SettledEffectIsNoOp | src/modules/rentals/components/modals/modal-create-customer.tsx:30-34 | after the effect the name is settled, and the effect changes a form exactly when its name is not settled |
| CustomerForm.NameEditRevertedAsWritten | src/modules/rentals/components/modals/modal-create-customer.tsx:30-34 | as written, any edit of the name is put back to a non-empty `initialName` |
| CustomerForm.NameEditRevertedExample | src/modules/rentals/components/modals/modal-create-customer.tsx:30-34 | prefilled "Juan", typing "Juan Perez" leaves "Juan" |
| CustomerForm.NameEditKept | src/modules/rentals/components/modals/modal-create-customer.tsx:29-34 | with the effect keyed on the prop, an edit survives while the prop is unchanged, and a new prop still replaces the name |
| PlaceActions.RawPlaces | src/modules/rentals/action/placeActions.ts:12-19 | `data.data` when it is an array, else `data` when it is an array, else no rows |
| PlaceActions.TransformRow | src/modules/rentals/action/placeActions.ts:22-31 | name and area fall back to "", the location id is `locationId || location_id`, the other fields are copied |
| PlaceActions.TransformAll | src/modules/rentals/action/placeActions.ts:22-31 | every row is transformed in place |
| PlaceActions.FetchPlaces | src/modules/rentals/action/placeActions.ts:5-38 | a failure or an unexpected body gives `[]`; otherwise the transformed rows |
| PlaceActions.FilterRows | src/modules/rentals/action/placeActions.ts:59-62 | keeps exactly the rows whose `locationId || location_id` is the requested id |
| PlaceActions.SelectPlaces | src/modules/rentals/action/placeActions.ts:59-62 | picks exactly the places whose location id is the requested one |
| PlaceActions.FetchPlacesByLocation | src/modules/rentals/action/placeActions.ts:41-84 | a failure or an unexpected body gives `[]` |
| PlaceActions.ByLocationIsSublist | src/modules/rentals/action/placeActions.ts:41-84 | the per-location list is the full list with the other locations' places taken out, in the same order |
| PlaceActions.FilterThenTransform | src/modules/rentals/action/placeActions.ts:59-74 | filtering rows then transforming equals transforming then picking the location's places |
| PlaceActions.FallbacksAreEmpty | src/modules/rentals/action/placeActions.ts:16-37 | a failed request, an unexpected body or a `null` row gives `[]` from both fetches |
| PlaceActions.RowDefaults | src/modules/rentals/action/placeActions.ts:25-27 | the fallbacks of name, area and location id, case by case |
| PlaceActions.CreatePlaceBody | src/modules/rentals/action/placeActions.ts:94-98 | the body has exactly three fields: name, area and location id |
| PlaceActions.SavePlace | src/modules/rentals/action/placeActions.ts:100-125 | a failure is rethrown; a success gives `data.data` when truthy, else `data` |
| PlaceActions.UnwrapSaved | src/modules/rentals/action/placeActions.ts:103-106 | `data.data` when both are truthy, else `data`; only a missing body gives nothing, and a changed value is the `data` property of the body |
| PlaceActions.SavedUnwrapping | src/modules/rentals/action/placeActions.ts:103-106 | `{data: place}` is unwrapped and a bare place is kept |
| LocationActions.FetchLocations | src/modules/rentals/action/locationActions.ts:4-40 | a failure is rethrown; on success the loop's result is the case analysis of the body |
| LocationActions.LocationsOf | src/modules/rentals/action/locationActions.ts:9-35 | a bare array is used as is, a scalar or missing body gives `[]`, and a non-empty list drawn from an object is the array held by one of its properties |
| LocationActions.FirstArrayPropertyIsFirst | src/modules/rentals/action/locationActions.ts:26-32 | the key scan finds nothing exactly when no key holds an array, and otherwise the first key that does |
| LocationActions.FirstArrayProperty | src/modules/rentals/action/locationActions.ts:26-32 | a list found by the key scan is the array held by one of the object's properties |
| LocationActions.CaseOrder | src/modules/rentals/action/locationActions.ts:12-22 | `data.data` wins over `data.locations`, whatever order the keys come in, which wins over a bare array |
| LocationActions.KeyScan | src/modules/rentals/action/locationActions.ts:24-33 | for an object without those arrays the list is the first array-valued property, else `[]` |
| LocationActions.ScalarBody | src/modules/rentals/action/locationActions.ts:9-35 | a missing or scalar body gives `[]` |
| VisitorCreate.ClampQuantity | src/modules/museum/components/visitor/modal-create-visitor.tsx:80-83 | the corrected clamp: the stored quantity is at least 1, the whole part of any finite value of at least 1, and 1 otherwise |
| VisitorCreate.ClampQuantityAsWritten | src/modules/museum/components/visitor/modal-create-visitor.tsx:81 | never negative; the whole part of any finite positive value, 1 for anything else, and 0 exactly for a value strictly between 0 and 1 |
| VisitorCreate.FractionFailsQuantityCheck | src/modules/museum/components/visitor/modal-create-visitor.tsx:80-151 | after a quantity change the submit stops at the quantity check exactly when the value typed lies strictly between 0 and 1 |
| VisitorCreate.QuantityBelowOne | src/modules/museum/components/visitor/modal-create-visitor.tsx:81 | a quantity of 0.5 is stored as 0 as written and as 1 by the corrected clamp |
| VisitorCreate.ClampsAgree | src/modules/museum/components/visitor/modal-create-visitor.tsx:81 | both clamps agree on every input outside (0, 1) |
| VisitorCreate.VisitorCreateDialog.constructor | src/modules/museum/components/visitor/modal-create-visitor.tsx:35-41 | every choice empty, today's date, quantity 1 and no total |
| VisitorCreate.VisitorCreateDialog.HandleCantidadChange | src/modules/museum/components/visitor/modal-create-visitor.tsx:80-83 | only the quantity changes, to the clamp as written |
| VisitorCreate.VisitorCreateDialog.HandleGratisChange | src/modules/museum/components/visitor/modal-create-visitor.tsx:76-78 | only the "free" answer changes, to the value chosen |
| VisitorCreate.VisitorCreateDialog.RecomputeMonto | src/modules/museum/components/visitor/modal-create-visitor.tsx:55-69 | "Si" forces "0.00"; otherwise the selected type's total, or "" when the type is unknown |
| VisitorCreate.ResolveUserId | src/modules/museum/components/visitor/modal-create-visitor.tsx:88-128 | the store id, else the token's claim, checked against the loaded list |
| VisitorCreate.ResolvedUserId | src/modules/museum/components/visitor/modal-create-visitor.tsx:88-128 | with a loaded list the submission stops exactly when the list is empty, and a resolved id is one of the listed ids; without a list a resolved id is non-empty |
| VisitorCreate.UserIdFallback | src/modules/museum/components/visitor/modal-create-visitor.tsx:108-127 | a store or token id found in the list is kept; one not found is replaced by the first user; an empty list, or no list and no id, stops the submission |
| VisitorCreate.ResolvedIdOrigin | src/modules/museum/components/visitor/modal-create-visitor.tsx:88-128 | a resolved id comes from the store, the token or the list |
| VisitorCreate.RunChecks | src/modules/museum/components/visitor/modal-create-visitor.tsx:133-160 | the chain of early returns reports the first failing check in the dialog's order |
| VisitorCreate.FirstFailureIsFirst | src/modules/museum/components/visitor/modal-create-visitor.tsx:133-160 | the reported check fails and every one before it passes; no report means every check passes |
| VisitorCreate.ChecksInOrder | src/modules/museum/components/visitor/modal-create-visitor.tsx:133-160 | the same over the fixed order tipoVisitante, canalVenta, tipoPago, fecha, cantidad, monto, gratis |
| VisitorCreate.PayloadOf | src/modules/museum/components/visitor/modal-create-visitor.tsx:162-172 | the payload carries the form's fields, `free` exactly when gratis is "Si", the parsed total and a "V-" sale number |
| VisitorCreate.VisitorCreateDialog.HandleSubmit | src/modules/museum/components/visitor/modal-create-visitor.tsx:85-193 | stops without a user; else stops at the first failing check; else sends the payload and, on success, clears every field but the date and sets the quantity to 1 |
| VisitorCreate.AcceptedPayloadMeetsSchema | src/modules/museum/components/visitor/modal-create-visitor.tsx:133-172 | a payload past every check meets every entrance-schema constraint except the UUID shape of the ids |
| VisitorEdit.VisitorEditDialog.Populate | src/modules/museum/components/visitor/modal-edit-visitor.tsx:45-65 | the form is filled from the entrance, or reset when there is none |
| VisitorEdit.VisitorEditDialog.constructor | src/modules/museum/components/visitor/modal-edit-visitor.tsx:27-33 | every field empty and quantity 1 before the entrance is loaded |
| VisitorEdit.PopulateShapes | src/modules/museum/components/visitor/modal-edit-visitor.tsx:46-63 | gratis becomes "Si"/"No" from `free`, the quantity is `cantidad ?? 1`, and no entrance resets every field |
| VisitorEdit.Populated | src/modules/museum/components/visitor/modal-edit-visitor.tsx:45-65 | with an entrance the form takes its type, `cantidad ?? 1` and "Si" or "No", and keeps the total; without one every field is reset and the quantity is 1 |
| VisitorEdit.MontoAfterEffect | src/modules/museum/components/visitor/modal-edit-visitor.tsx:68-90 | "Si" forces "0.00"; else the selected type's total; else the entrance's own total, or "" without one |
| VisitorEdit.VisitorEditDialog.RecomputeMonto | src/modules/museum/components/visitor/modal-edit-visitor.tsx:68-90 | only the amount changes, as the effect computes it |
| VisitorEdit.VisitorEditDialog.HandleCantidadChange | src/modules/museum/components/visitor/modal-edit-visitor.tsx:101-104 | only the quantity changes, to the clamp as written shared with the create dialog |
| VisitorEdit.VisitorEditDialog.HandleGratisChange | src/modules/museum/components/visitor/modal-edit-visitor.tsx:97-99 | only the "free" answer changes, to the value chosen |
| VisitorEdit.FractionQuantityDropped | src/modules/museum/components/visitor/modal-edit-visitor.tsx:101-121 | as written, a fraction below one stores quantity 0, which the diff drops, so the save leaves the entrance's quantity as it was |
| VisitorEdit.KeyCount | src/modules/museum/components/visitor/modal-edit-visitor.tsx:138 | the payload has no keys exactly when it is the empty diff, and at most seven |
| VisitorEdit.BuildDiff | src/modules/museum/components/visitor/modal-edit-visitor.tsx:116-127 | each field is in the payload exactly when its new value is set and differs from the entrance's, with the new value |
| VisitorEdit.DiffAgainst | src/modules/museum/components/visitor/modal-edit-visitor.tsx:116-127 | every field a diff carries differs from the entrance's value; an empty text field and a quantity of 0 are never sent |
| VisitorEdit.VisitorEditDialog.HandleSubmit | src/modules/museum/components/visitor/modal-edit-visitor.tsx:106-146 | stops exactly when gratis is empty; "no changes" only for an empty diff; a save carries a non-empty payload, the diff with an entrance and all seven fields without one |
| VisitorEdit.DiffUnique | src/modules/museum/components/visitor/modal-edit-visitor.tsx:116-127 | the diff of a form against an entrance is unique |
| VisitorEdit.ApplyDiff | src/modules/museum/components/visitor/modal-edit-visitor.tsx:116-127 | applying the diff to the entrance gives each set form value, keeps the rest and the id |
| VisitorEdit.UntouchedFormNoChange | src/modules/museum/components/visitor/modal-edit-visitor.tsx:45-127 | a freshly populated form with an unchanged total yields the empty diff |
| VisitorEdit.MissingQuantitySent | src/modules/museum/components/visitor/modal-edit-visitor.tsx:51-121 | an entrance without a quantity gets quantity 1 sent, so its diff is never empty |
| VisitorEdit.FreeEntranceKeepsFree | src/modules/museum/components/visitor/modal-edit-visitor.tsx:52-126 | a free entrance of total 0 sends neither `free` nor a total |
| EntranceSchema.Issues | src/modules/museum/schemas/entranceSchema.ts:3-13 | the issues are exactly the fields whose constraint fails |
| EntranceSchema.ValidIffNoIssues | src/modules/museum/schemas/entranceSchema.ts:3-13 | a payload passes the schema exactly when it raises no issue |
| EntranceSchema.NumberConstraints | src/modules/museum/schemas/entranceSchema.ts:7-10 | the quantity must be a whole number of at least 0; the total must be a number of at least 0, never NaN |
| MonasteryView.ScreenShown | src/modules/monastery/components/monastery-component-view.tsx:328-372 | the loading screen exactly while permissions load and the user is not an admin; the content exactly when not loading (or admin), no 403 from either query, and viewing is allowed |
| MonasteryView.AdminGate | src/modules/monastery/components/monastery-component-view.tsx:334-357 | an admin sees the content unless a query answered 403 |
| MonasteryView.AdminNarrowerThanRentals | src/modules/monastery/components/monastery-component-view.tsx:62 | this screen's admin test implies the rentals one, and a user who is admin only through `Role` is admin there but not here |
| MonasteryView.IsAdmin | src/modules/monastery/components/monastery-component-view.tsx:62 | an admin has `role` present with the name "Admin"; a user whose role arrives only as `Role` is never an admin here |
| MonasteryView.Filter | src/modules/monastery/components/monastery-component-view.tsx:156 | `filter` keeps exactly the elements satisfying the test, a sub-multiset of the input |
| MonasteryView.OverheadRows | src/modules/monastery/components/monastery-component-view.tsx:147-162 | `[]` off the overheads tab or without an array; otherwise exactly the rows with `status === true` |
| MonasteryView.ActiveRowsInOrder | src/modules/monastery/components/monastery-component-view.tsx:156 | the active rows keep their order |
| MonasteryView.StrictStatus | src/modules/monastery/components/monastery-component-view.tsx:156 | a status of "true" or 1 does not count as active |
| MonasteryView.ExpenseRows | src/modules/monastery/components/monastery-component-view.tsx:165-177 | `[]` off the expenses tab; an array is used as is, `{data: array}` is unwrapped, and anything else gives `[]` |
| MonasteryView.FilterOverheads | src/modules/monastery/components/monastery-component-view.tsx:180-210 | the successive filters keep exactly the rows that pass every filter set, in their order (the one-pass filter of the rows by every test); nothing off the tab |
| MonasteryView.FilterExpenses | src/modules/monastery/components/monastery-component-view.tsx:227-262 | the same for expenses, with search, category, dates and amounts: the result is the one-pass filter of the rows by every test |
| MonasteryView.NoFilterKeepsAll | src/modules/monastery/components/monastery-component-view.tsx:227-262 | with no filter set every row is kept |
| MonasteryView.CategoryIsExact | src/modules/monastery/components/monastery-component-view.tsx:242-244 | the category filter compares exactly: "Luz" does not keep "luz" |
| MonasteryView.SearchIgnoresCase | src/modules/monastery/components/monastery-component-view.tsx:234-239 | the search gives the same answer whatever the case of the term or of the row's name and description |
| MonasteryView.StatsOf | src/modules/monastery/components/monastery-component-view.tsx:279-300 | the count is the number of rows, the total is their sum, and the average is 0 for no rows and total/count otherwise |
| MonasteryView.SumOfConcat | src/modules/monastery/components/monastery-component-view.tsx:280-292 | the sum of two lists laid end to end is the sum of the sums |
| MonasteryView.SumIgnoresOrder | src/modules/monastery/components/monastery-component-view.tsx:280-292 | two lists with the same elements have the same sum |
| MonasteryView.StatsIgnoreOrder | src/modules/monastery/components/monastery-component-view.tsx:211-300 | the statistics do not depend on the order the sort leaves the rows in |
| MonasteryView.EmptyStats | src/modules/monastery/components/monastery-component-view.tsx:279-300 | no rows give count 0, total 0 and average 0 |
| MonasteryView.MonasteryScreen.constructor | src/modules/monastery/components/monastery-component-view.tsx:64-123 | the expenses tab, no access-denied notice, nothing selected, every dialog closed |
| MonasteryView.MonasteryScreen.HandleAccessDenied | src/modules/monastery/components/monastery-component-view.tsx:84-87 | the notice shows with the action named; nothing else changes |
| MonasteryView.MonasteryScreen.OpenEditOverhead | src/modules/monastery/components/monastery-component-view.tsx:375-382 | when allowed the overhead is selected and its edit dialog opens; otherwise only the notice for "editar este gasto general" shows |
| MonasteryView.MonasteryScreen.OpenDeleteOverhead | src/modules/monastery/components/monastery-component-view.tsx:384-391 | the same for the delete dialog |
| MonasteryView.MonasteryScreen.ConfirmDeleteOverhead | src/modules/monastery/components/monastery-component-view.tsx:393-437 | the delete is called, with the selected id, exactly when something is selected and the permission still holds; a success or a 403 closes the dialog and clears the selection, the 403 with the "revoked" notice; another failure changes nothing |
| MonasteryView.MonasteryScreen.OpenCreateExpense | src/modules/monastery/components/monastery-component-view.tsx:439-445 | when allowed the create dialog opens; otherwise only the notice shows |
| MonasteryView.MonasteryScreen.OpenEditExpense | src/modules/monastery/components/monastery-component-view.tsx:447-455 | when allowed the expense is selected and its edit dialog opens; otherwise only the notice shows |
| MonasteryView.MonasteryScreen.OpenDeleteExpense | src/modules/monastery/components/monastery-component-view.tsx:457-465 | the same for its delete dialog |
| MonasteryView.MonasteryScreen.ConfirmDeleteExpense | src/modules/monastery/components/monastery-component-view.tsx:467-503 | as for overheads: the permission is checked again before the delete, and the outcome decides the dialog, the selection and the notice |
| MonasteryView.IsPermissionError | src/modules/monastery/components/monastery-component-view.tsx:418-422 | a status of 403 is a permission error; otherwise it is one exactly when the message contains "403" or "Forbidden" at some position |
| Js.ToLower | src/modules/rentals/components/modals/new-rental-modal.tsx:48 | `toLowerCase` keeps the length and lower-cases each character |
| Js.Includes | src/modules/rentals/components/modals/new-rental-modal.tsx:48-49 | `includes` holds exactly when the needle occurs at some position |
| Js.TrimEmptyIffBlank | src/modules/rentals/components/modals/modal-create-customer.tsx:52 | `trim()` is empty exactly for a string of white space only |
| Js.UuidFromGroups | src/modules/rentals/action/rentals.ts:23 | five hex groups of 8-4-4-4-12 digits joined by dashes match the UUID pattern |
| Js.UuidToGroups | src/modules/rentals/action/rentals.ts:23 | every string matching the pattern is such a join |
| Js.ParseIntOfIntToString | src/modules/rentals/components/modals/modal-create-customer.tsx:40 | `parseInt` reads back any integer printed in decimal |

## Left out

- ModulesMap.GetModuleId: looks up own keys only. The source's `modulesMap[name]` also returns inherited members for names such as "toString", and `useModulePermission` then reports that member as the module id. No permission row matches it, so `hasPermission` is the same either way.
- HTTP calls, React Query (caching, `staleTime`, invalidation, refetch) and the Zustand store: responses are `Result` parameters and store values are inputs.
- localStorage is a field of `AuthToken`/`AuthStore`; decoding the JWT in the create-visitor dialog is not modelled, and its claim is the `tokenUserId` input.
- `parseFloat`, `Number(...)`, `toFixed(2)` and floating-point arithmetic: the parsed amount and the computed totals are inputs. Numbers are exact reals with NaN and the infinities, so IEEE rounding is not captured.
- Dates: `new Date`, `getTime`, `toISOString` and `Date.now()` are inputs. Rental dates are a valid-or-invalid time value, and the sale number takes `now` as a parameter.
- MonasteryView.FilterOverheads: the date and amount filters are abstract tests passed by the caller. The final date sort is not modelled: the contract gives the rows kept in their original order, before the sort. StatsIgnoreOrder shows that the figures do not depend on the order.
- MonasteryView.FilterExpenses: the same as FilterOverheads. That sort also runs in place on the memoised row list when no filter is set; this is not captured.
- `localeCompare` and the locale-dependent order of the sorts: not modelled.
- `toLowerCase` is modelled on ASCII letters only. `String(x)` comparisons of user ids are modelled as string equality.
- Object key order: JSON objects are ordered key lists. `Object.keys` is taken to list them in that order, so integer-like keys are not moved to the front as JavaScript does.
- `parseInt` is modelled without a radix argument: leading white space, one sign, an optional `0x` prefix for hexadecimal, then the longest run of digits. The numbers are unbounded, so precision loss on long inputs is not captured.
- Rendering, alerts, `confirm`, toasts, `console` output and `setTimeout`: not modelled. The order in which React runs effects is taken as: the handler first, then the effects it triggers.
- The monastery create/edit modals themselves, and the other screens' repetitions of the `hasPermission || isAdmin` test: the test is modelled once, in RentalsView.AllowedOrAdmin and MonasteryView.Allowed.
- Rentals.ValidationErrors: the errors are field tags in checking order. The message strings, and the single message `createRental` throws by joining them, are not modelled.
- `convertBackendToFrontend` on a `null` element of a permissions array: it throws, and the fetch then gives `[]`. Permission lists here hold no `null` elements, so this path is not modelled.
- Js.Lookup: takes the first property with a given key. `JSON.parse` keeps the last of duplicate keys, so bodies with duplicate keys are not captured.
- The entrance schema's UUID check on ids: the create-visitor dialog does not run the schema, so AcceptedPayloadMeetsSchema leaves the two id fields out.

## Findings

| source | as written | input that shows it | evidently intended | confidence | as-written member | corrected member |
|---|---|---|---|---|---|---|
| src/core/utils/useModulesMap.ts:71-73 | `moduleName in modulesMap` also sees the names every object inherits | an empty catalogue and `moduleExists("toString")` gives true | true only for names of the catalogue, as `getAvailableModules` lists them | not executed | ModulesMap.PrototypeNameExists | ModulesMap.ModuleExists |
| src/modules/rentals/components/modals/modal-create-customer.tsx:30-34 | the name effect also depends on `fullName`, so it runs after every keystroke and puts `initialName` back | prefilled "Juan", typing "Juan Perez" leaves "Juan" | the name follows `initialName` when the prop changes, and the user's edits survive otherwise | not executed | CustomerForm.NameEditRevertedExample | CustomerForm.NameEditKept |
| src/modules/museum/components/visitor/modal-create-visitor.tsx:80-83 | `value > 0 ? Math.floor(value) : 1` floors values under 1 to 0 (the edit dialog, lines 101-104, does the same) | `handleCantidadChange(0.5)` stores 0, and the submit then stops at the quantity check | a quantity of at least 1 always | not executed | VisitorCreate.QuantityBelowOne | VisitorCreate.ClampQuantity |
