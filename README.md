# schoolManage-front, modelled in Dafny

This project models the logic of the school-management web client: the rooms ("salles") feature, the notification centre, the authentication hooks and forms, the validators, the JWT role resolver, and the status badge.

- **Rooms.** The model covers:
  - the REST service on `/salles`;
  - the shared HTTP client, which attaches the bearer token and normalises errors;
  - the store slice with its pending, fulfilled and rejected reducers;
  - the room form with its three required checks;
  - the management page with its filters, the list of types, the counters and the handlers.
- **Notifications.** The model covers:
  - the notification service with its id guard and error normalisation;
  - the bell dropdown with its badge, the five-item preview and the reload after a mutation;
  - the full list with its endpoint choice, banner, decorations, relative ages, heading and counter.
- **Authentication.** The model covers:
  - the signup validators;
  - the login, signup and password-reset hooks;
  - the reset-password form;
  - the signup form with its success panel and resend message.
- **Roles.** The model covers:
  - the compact-token shape check (section 7.1 of RFC 7515);
  - the base64url to base64 rewrite (section 5 of RFC 4648);
  - the `exp` check (section 4.1.4 of RFC 7519);
  - role sanitising and the mapping onto a user type.
- **Badge.** The model covers the upper-cased status lookup of the status badge.

## Design

There is one Dafny module per source file. Two shared modules carry the helpers:
- `Ascii` holds trimming, case mapping, `includes` and number rendering;
- `Seqs` holds `filter`, `slice`, the `Set` de-duplication, `reduce`, and `split`/`join`.

Stateful code is modelled as classes:
- the store, the hooks, the components' `useState` variables and the services are classes whose methods assign fields in the source's order;
- every handler is a method whose `ensures` gives the whole new state;
- the pure parts (validators, lookups, error normalisation, filters) are functions whose properties are stated as postconditions and lemmas.

Anything the model cannot see is a parameter:
- the server, the network and Firebase are parameters holding the answer (`Result`, `CallOutcome`, `AuthResponse`);
- the clock is a parameter holding the current second;
- the JSON and base64 decoding is a function-valued parameter;
- requests are recorded in a `log` field so that the contracts can state which request was sent, with which headers.

Decisions worth knowing:
- **How the two HTTP clients fail.**
  - The room client rejects every failure with a plain `Error` (`src/services/api.ts:35`). `toSalleError` therefore never sees an axios error, and a failed room operation always reports its fallback text; `SalleService.ServerMessageDiscarded` proves this.
  - The notification client has no response interceptor. Its `handleError` turns every failure into an `Error`, so none of the list's four fallback messages can reach the banner (`NotificationList.FallbacksUnreachable`).
- **Token expiry.** A token whose `exp` equals the current second is still accepted, because the test is `exp < now` (`Auth.ExpiryProperties`). Section 4.1.4 of RFC 7519 asks for rejection from that second on. The model follows the code.
- **A redundant trim.** The `trim()` inside `sanitizeRole` changes nothing: the letter filter removes white space anyway (`Auth.TrimIsRedundant`).
- **Dead badge entries.** The badge's lower-case entries can never be found, because the key is always upper-cased. `active` is displayed as `active` on the default variant, never as "Actif" (`Badge.LowerKeysUnreachable`, `Badge.ActiveFallsBack`).
- **The email blank test.** `validateEmail` tests `!email.trim()`. This is modelled as "the email is all white space", which is exactly when `Trim` is empty (`Ascii.Trim`'s postcondition).
- **Absent strings.** An optional string field of a response that is absent is modelled as `""`. Every consumer tests it with `||` or for truthiness, so the two are indistinguishable.
- **Notification ids.** The ids given to `markAsRead` and `deleteNotification` are `real`, because the guard admits positive fractional ids (`NotificationService.IdGuardBoundary`).

## Model

| member | source | states |
|---|---|---|
| Api.WithBearer | src/services/api.ts:12-19 | with a non-empty stored token, `Authorization` is `Bearer <token>`, and the stored token reads back as the header minus the `Bearer ` prefix; without one the headers are unchanged; no other header is touched |
| Api.ErrorMessage | src/services/api.ts:29-33 | the normalised message is the body's `error`, else its `message`, else the transport message, else "Unexpected error"; it is never empty |
| Api.Rejection | src/services/api.ts:35 | every failure is rejected as a plain `Error` carrying that message, never as an axios error |
| Api.ItemsAfterFailure | src/services/api.ts:25-27 | a 401 removes the token and keeps every other stored key; any other failure leaves the storage as it is |
| Api.ApiClient.Send | src/services/api.ts:5-37 | a request is logged with the interceptor's headers; a success passes through; a failure purges the token on 401 and rejects with the normalised `Error` |
| Storage.LocalStorage.RemoveItem | src/services/api.ts:26 | `removeItem('token')` removes that key and nothing else |
| SalleService.PathOf | src/services/salleservice.tsx:5-55 | list and create address `/salles`; get, update and delete address `/salles/<id>`; every path starts with `/salles` |
| SalleService.FallbacksDistinct | src/services/salleservice.tsx:9-55 | the five operations have five different fallback texts |
| SalleService.ToSalleError | src/services/salleservice.tsx:58-67 | for an axios error: body `error`, else body `message`, else its own message, else the fallback; any other value gives the fallback |
| SalleService.ServerMessageDiscarded | src/services/salleservice.tsx:58-67 | after the shared client's rejection, `toSalleError` always yields the fallback, even when the server sent its own error text |
| SalleService.Call | src/services/salleservice.tsx:9-55 | each operation logs its verb and path through the shared client; it returns the server's value, or `Err(fallback)` on any failure |
| SalleSlice.FindIndex | src/store/slices/salleslice.tsx:131 | `findIndex`: -1 exactly when no room has the id, otherwise the first position holding it |
| SalleSlice.ReplaceFirst | src/store/slices/salleslice.tsx:131-134 | the first room with the payload's id becomes the payload; every other position is kept; with no match the list is unchanged |
| SalleSlice.ReplaceFirstOnly | src/store/slices/salleslice.tsx:131-134 | a later room with the same id is not replaced |
| SalleSlice.RemoveId | src/store/slices/salleslice.tsx:151 | the result has no room with the id, and every other room keeps exactly as many copies as it had in the input |
| SalleSlice.RemoveIdKeepsOrder | src/store/slices/salleslice.tsx:151 | the remaining rooms keep their order (a subsequence), and deleting an absent id changes nothing |
| SalleSlice.DeleteThunk | src/store/slices/salleslice.tsx:58-68 | the delete thunk fulfils with the id it was given exactly when the service succeeds, and otherwise rejects with the service's message |
| SalleSlice.SalleStore.constructor | src/store/slices/salleslice.tsx:6-11 | no rooms, no selection, not loading, no error |
| SalleSlice.SalleStore.Pending | src/store/slices/salleslice.tsx:83-86 | loading and the error cleared; list and selection untouched |
| SalleSlice.SalleStore.Rejected | src/store/slices/salleslice.tsx:91-94 | not loading and the error set to the payload; list and selection untouched |
| SalleSlice.SalleStore.FetchAllFulfilled | src/store/slices/salleslice.tsx:87-90 | the list becomes the payload |
| SalleSlice.SalleStore.FetchByIdFulfilled | src/store/slices/salleslice.tsx:101-104 | only the selection changes, to the payload |
| SalleSlice.SalleStore.CreateFulfilled | src/store/slices/salleslice.tsx:115-118 | the payload is appended to the list |
| SalleSlice.SalleStore.UpdateFulfilled | src/store/slices/salleslice.tsx:129-138 | the list is `ReplaceFirst` of the old list; the selection is refreshed when it has the payload's id |
| SalleSlice.SalleStore.DeleteFulfilled | src/store/slices/salleslice.tsx:149-155 | the list is `RemoveId` of the old list; the selection is cleared when it has the deleted id |
| SalleSlice.SalleStore.RunFetchAll | src/store/slices/salleslice.tsx:14-23 | a GET `/salles` is logged; on success the list is the server's, and on failure the error is the fetch fallback and the list is kept; only a 401 failure removes the stored token |
| SalleSlice.SalleStore.RunFetchById | src/store/slices/salleslice.tsx:25-34 | a GET `/salles/<id>` is logged; on success the selection is the room, and on failure the error is set and the selection is kept; only a 401 failure removes the stored token |
| SalleSlice.SalleStore.RunCreate | src/store/slices/salleslice.tsx:36-45 | a POST is logged; on success the room is appended, and on failure the error is set and the list is kept; only a 401 failure removes the stored token |
| SalleSlice.SalleStore.RunUpdate | src/store/slices/salleslice.tsx:47-56 | a PUT `/salles/<id>` is logged; on success the list and selection are updated, and on failure only the error changes; only a 401 failure removes the stored token |
| SalleSlice.SalleStore.RunDelete | src/store/slices/salleslice.tsx:58-68 | a DELETE `/salles/<id>` is logged; on success the room leaves the list and the selection, and on failure only the error changes; only a 401 failure removes the stored token |
| SalleSlice.SalleStore.SetSelectedSalle | src/store/slices/salleslice.tsx:74-76 | only the selection changes |
| SalleSlice.SalleStore.ClearError | src/store/slices/salleslice.tsx:77-79 | only the error changes, to none |
| SalleSlice.UpdateRefreshesSelection | src/store/slices/salleslice.tsx:135-137 | the selection changes exactly when it has the updated id, and then becomes the new room; an update never creates or drops a selection |
| SalleSlice.DeleteClearsSelection | src/store/slices/salleslice.tsx:151-154 | the selection is cleared exactly when it has the deleted id, and the list no longer mentions the id |
| SalleForm.ValidationErrors | src/components/salle/salleForm.tsx:40-57 | one key per failed check (blank name, capacity not positive, blank type), holding that check's message; the map is empty exactly when the data is acceptable |
| SalleForm.Submission | src/components/salle/salleForm.tsx:59-65 | `onSubmit` receives the form data exactly when it is acceptable, and receives it unchanged |
| SalleForm.ApplyChange | src/components/salle/salleForm.tsx:67-73 | a typed value replaces exactly the named field; availability is untouched |
| SalleForm.ClearFieldError | src/components/salle/salleForm.tsx:75-78 | the edited field's message is blanked when present; the keys and every other message are kept |
| SalleForm.SalleFormState.constructor | src/components/salle/salleForm.tsx:11-38 | the form starts from the room's four fields, or from the new-room defaults, with no errors, and remembers the room's id as the effect's dependency |
| SalleForm.SalleFormState.SalleChanged | src/components/salle/salleForm.tsx:21-38 | the data is reloaded from the room exactly when `salle?.id` differs from the id the effect last ran with; a new object with the same id keeps the typed data; the errors are kept |
| SalleForm.SalleFormState.ValidateForm | src/components/salle/salleForm.tsx:40-57 | the errors become `ValidationErrors` of the data; the result is true exactly for acceptable data; the data and the remembered room id are kept |
| SalleForm.SalleFormState.HandleSubmit | src/components/salle/salleForm.tsx:59-65 | the submitted value is `Submission` of the data, and the errors are refreshed; the data and the remembered room id are kept |
| SalleForm.SalleFormState.HandleChange | src/components/salle/salleForm.tsx:67-79 | the data becomes `ApplyChange`, and only the field's error is blanked; the remembered room id is kept, so a refreshed room with the same id keeps the typed data |
| SalleForm.SalleFormState.HandleCheckboxChange | src/components/salle/salleForm.tsx:81-87 | only availability changes; the errors and the remembered room id are kept |
| SalleForm.UntouchedNewFormRejected | src/components/salle/salleForm.tsx:12-57 | an untouched new form is not submitted: name and capacity fail, and the type does not |
| SalleForm.EditRoundTrip | src/components/salle/salleForm.tsx:21-65 | submitting an acceptable edited room unchanged hands back exactly its four fields |
| SalleForm.ClearFieldErrorIdempotent | src/components/salle/salleForm.tsx:75-78 | blanking twice equals blanking once, and blanking never creates a message |
| SallePage.FilteredSalles | src/pages/salle.tsx:84-94 | exactly the rooms passing the search, type and availability filters, each with as many copies as in the input, in their original order |
| SallePage.NoFilterShowsEverything | src/pages/salle.tsx:84-94 | with an empty search and both filters on "all", every room is shown |
| SallePage.UnknownAvailabilityHidesAll | src/pages/salle.tsx:88-91 | an availability filter other than all, disponible or indisponible hides every room |
| SallePage.TypesOf | src/pages/salle.tsx:97 | the types of the rooms, position by position |
| SallePage.UniqueTypes | src/pages/salle.tsx:97 | every room type exactly once, nothing else, in order of first occurrence |
| SallePage.AvailableCount | src/pages/salle.tsx:200 | at most the number of rooms; all of them when all are available, none when none is |
| SallePage.TotalCapacity | src/pages/salle.tsx:206 | non-negative when every capacity is |
| SallePage.StatsAfterCreate | src/pages/salle.tsx:193-207 | after a creation, the count grows by one, the available count by the room's availability and the total capacity by its capacity |
| SallePage.Page.constructor | src/pages/salle.tsx:29-33 | form closed, not editing, empty search, both filters on "all" |
| SallePage.Page.Mount | src/pages/salle.tsx:35-37 | mounting sends a GET `/salles` and fetches the rooms into the store: the server's list on success, the fetch fallback as the error on failure; loading ends false and the selection is kept |
| SallePage.Page.HandleAddNew | src/pages/salle.tsx:48-52 | the form opens in creation mode with no selection |
| SallePage.Page.HandleEdit | src/pages/salle.tsx:54-58 | the form opens in edition mode on the room |
| SallePage.Page.HandleCancel | src/pages/salle.tsx:78-81 | the form closes and the selection is cleared; the editing flag is kept |
| SallePage.Page.HandleDelete | src/pages/salle.tsx:60-62 | sends a DELETE `/salles/<id>`; on success the room leaves the list and the selection and the error is cleared, on failure the error is set and list and selection are kept; loading ends false |
| SallePage.Page.HandleSubmit | src/pages/salle.tsx:64-76 | an update of the selected room while editing, a creation otherwise, with its request logged; only a success closes the form and clears the selection; the search and both filters are kept |
| Auth.CompactTokenAccepted | src/utils/auth.ts:17-20 | every `header.payload.signature` with non-empty, dot-free parts passes the format check, and its payload part is the second |
| Auth.ValidTokenIsCompact | src/utils/auth.ts:17-20 | a token passing the check is its three parts joined by two dots |
| Auth.EmptyTokenRejected | src/utils/auth.ts:17-20 | the empty token never passes |
| Auth.Base64UrlToBase64 | src/utils/auth.ts:36 | the rewrite maps each character, `-` to `+` and `_` to `/`, keeping the length |
| Auth.Base64UrlRewrite | src/utils/auth.ts:36 | base64url text becomes base64 text; no `-` or `_` remains; the rewrite is idempotent and is undone by the reverse rewrite |
| Auth.ExpiryProperties | src/utils/auth.ts:23-27 | once expired, always expired; a zero `exp` never expires; a token is accepted during its `exp` second |
| Auth.DecodeToken | src/utils/auth.ts:30-59 | a malformed token is undecodable; a decoded payload came from the rewritten payload segment and is not expired; an expired one decoded but is past its `exp` |
| Auth.DecodeJwtPayload | src/utils/auth.ts:30-59 | returns the payload exactly when it decodes and is not expired; only an expired payload removes the token |
| Auth.SanitizeRole | src/utils/auth.ts:62-64 | the sanitised role holds only the letters a to z |
| Auth.SanitizeKeepsLowerAlpha | src/utils/auth.ts:62-64 | a role made of lower-case letters is left unchanged |
| Auth.SanitizeIdempotent | src/utils/auth.ts:62-64 | sanitising twice equals sanitising once |
| Auth.TrimIsRedundant | src/utils/auth.ts:63 | the result is the same without the trim |
| Auth.RoleOfPayload | src/utils/auth.ts:77-88 | a non-empty string `role` wins; otherwise a string first element of a non-empty `roles` array is used; otherwise there is no role |
| Auth.RoleFromItems | src/utils/auth.ts:67-95 | without a stored token, or with one that is malformed, undecodable or expired, there is no role; a decoded, unexpired token gives `RoleOfPayload` of its payload; a role found is made of lower-case letters |
| Auth.GetUserRoleFromToken | src/utils/auth.ts:67-95 | returns `RoleFromItems` of the storage before the call; the token is removed only when it decoded as expired |
| Auth.MapRoleToUserType | src/utils/auth.ts:98-110 | a role naming a user type gives that type; any other role, and no role, gives `etudiant` |
| Auth.UserTypeRoundTrip | src/utils/auth.ts:98-110 | each of the six names maps back to its own type and survives sanitising |
| Validator.PatternAccepts | src/utils/validator.tsx:8 | every local@domain.suffix built from runs without white space or `@` matches the email pattern |
| Validator.PatternShape | src/utils/validator.tsx:8 | a matching address has exactly one `@` and no white space |
| Validator.ValidateEmail | src/utils/validator.tsx:17-25 | "" exactly on a match; "required" exactly when blank; "invalid" exactly when not blank and not matching |
| Validator.ValidateNom | src/utils/validator.tsx:32-43 | "" exactly for a trimmed length of at least 2 and a raw length of at most 100, both counted in UTF-16 code units as JavaScript's `length` does; each of the three messages exactly in its own case |
| Validator.ValidatePassword | src/utils/validator.tsx:50-77 | "" exactly for a strong password (8 to 128 UTF-16 code units, with an upper-case letter, a lower-case letter and a digit); each message exactly when it is the first failed rule |
| Validator.JsLength | src/utils/validator.tsx:36-39 | a string's `length` in UTF-16 code units: between its number of characters and twice that, zero only for "", and equal to the number of characters when none lies outside the Basic Multilingual Plane |
| Validator.LengthsCountCodeUnits | src/utils/validator.tsx:54-57 | a six-character password of three ASCII characters and three characters outside the Basic Multilingual Plane has length 9 and is accepted |
| Validator.ValidatePasswordConfirmation | src/utils/validator.tsx:85-96 | "" exactly when the confirmation is non-empty and equal; "required" when empty; "differ" otherwise |
| Validator.ValidateSignupForm | src/utils/validator.tsx:103-122 | a field's key is set exactly when its validator complains, and holds that message |
| Validator.HasFormErrors | src/utils/validator.tsx:129-131 | true exactly when some key holds a non-empty message |
| Validator.SignupFormPasses | src/utils/validator.tsx:103-131 | a form passes exactly when all four validators accept it, i.e. the name length is right, the email matches, the password is strong and the confirmation repeats it |
| Validator.EmptyFormFailsEverywhere | src/utils/validator.tsx:103-122 | the empty form fails all four fields |
| NotificationService.IdGuardBoundary | src/services/notificationservice.tsx:101-103 | the guard rejects exactly the non-positive ids; a positive fractional id passes it |
| NotificationService.HandleError | src/services/notificationservice.tsx:51-57 | always an `Error`: an axios error's body `message`, else its own message; an `Error` rethrown as it is; anything else the generic message |
| NotificationService.ServiceErrorsAreErrors | src/services/notificationservice.tsx:51-57 | a caller's `instanceof Error` fallback is never used; normalising is idempotent; the body's `error` field is ignored |
| NotificationService.Service.Issue | src/services/notificationservice.tsx:16-25 | a request is logged with the bearer headers; a success passes, and a failure goes through `handleError` |
| NotificationService.Service.CreateNotification | src/services/notificationservice.tsx:60-67 | a POST on the collection, with the failure normalised |
| NotificationService.Service.GetAllNotifications | src/services/notificationservice.tsx:70-77 | a GET `/all`, with the failure normalised |
| NotificationService.Service.GetMyNotifications | src/services/notificationservice.tsx:80-87 | a GET `/me`, with the failure normalised |
| NotificationService.Service.GetMyUnreadNotifications | src/services/notificationservice.tsx:90-97 | a GET `/me/unread`, with the failure normalised |
| NotificationService.Service.MarkAsRead | src/services/notificationservice.tsx:100-109 | a rejected id fails with "ID de notification invalide" and sends nothing; otherwise a PATCH `/<id>/read` |
| NotificationService.Service.MarkAllAsRead | src/services/notificationservice.tsx:112-118 | a PATCH `/me/read-all`, with the failure normalised |
| NotificationService.Service.DeleteNotification | src/services/notificationservice.tsx:121-130 | the same guard as for marking; otherwise a DELETE `/<id>` |
| NotificationService.Service.GetUnreadCount | src/services/notificationservice.tsx:133-140 | the length of the unread list, or 0 on any failure |
| NotificationDropdown.BadgeLabel | src/components/notifications/NotificationDropdown.tsx:73-77 | a badge exactly when the count is positive: "9+" above nine, otherwise one digit that reads back as the count |
| NotificationDropdown.MarkAllOffered | src/components/notifications/NotificationDropdown.tsx:93 | "mark all as read" is offered exactly when the badge is shown |
| NotificationDropdown.PanelAge | src/components/notifications/NotificationDropdown.tsx:54-64 | "Just now" under a minute; whole minutes under an hour; whole hours under a day; the calendar date from a day on; never days |
| NotificationDropdown.Dropdown.constructor | src/components/notifications/NotificationDropdown.tsx:10-13 | closed, empty, count 0, not loading |
| NotificationDropdown.Dropdown.LoadNotifications | src/components/notifications/NotificationDropdown.tsx:15-26 | on success, the first five unread items and the total count; on failure the previous ones; loading ends false; at most five items, never more than the count |
| NotificationDropdown.Dropdown.Toggle | src/components/notifications/NotificationDropdown.tsx:69 | the panel flips and nothing else changes |
| NotificationDropdown.Dropdown.Close | src/components/notifications/NotificationDropdown.tsx:88-155 | the backdrop, an item click and the full-list link close the panel |
| NotificationDropdown.Dropdown.HandleMarkAsRead | src/components/notifications/NotificationDropdown.tsx:35-43 | a rejected id sends nothing; otherwise a PATCH `/<id>/read`, followed by a GET `/me/unread` and the reload only when the mark succeeded; otherwise the items, count and loading flag are kept |
| NotificationDropdown.Dropdown.HandleMarkAllAsRead | src/components/notifications/NotificationDropdown.tsx:45-52 | a PATCH `/me/read-all`, followed by a GET `/me/unread` and the reload only when it succeeded; otherwise the items, count and loading flag are kept |
| NotificationDropdown.ShownIsPrefix | src/components/notifications/NotificationDropdown.tsx:19 | what is shown is a prefix of at most five items, and the whole list when it has five or fewer |
| NotificationList.Icon | src/components/notifications/NotificationList.tsx:64-79 | each of the five known types gets its own icon; the default icon exactly for a type outside them |
| NotificationList.Color | src/components/notifications/NotificationList.tsx:81-96 | each of the five known types gets its own colour classes; the default classes exactly for a type outside them |
| NotificationList.DecorationsDistinguishKinds | src/components/notifications/NotificationList.tsx:64-96 | two types share an icon, or a colour, exactly when they are equal or both unknown; the match is case-sensitive |
| NotificationList.ListAge | src/components/notifications/NotificationList.tsx:98-109 | whole days from one day to under a week; the calendar date from a week on |
| NotificationList.AgesAgreeWithinADay | src/components/notifications/NotificationList.tsx:98-109 | the list and the dropdown word ages the same under a day and from a week on; between the two, the list counts days where the dropdown shows a date |
| NotificationList.Heading | src/components/notifications/NotificationList.tsx:123-129 | each of the six user types gets its own heading text; any other value gets the content administrator's |
| NotificationList.HeadingsDistinguishUsers | src/components/notifications/NotificationList.tsx:123-129 | two of the six user types share a heading exactly when they are the same |
| NotificationList.CountLabel | src/components/notifications/NotificationList.tsx:132 | the number, which reads back as the count, then the noun, ending in `s` exactly when the count is not one |
| NotificationList.ItemActions | src/components/notifications/NotificationList.tsx:208-221 | "mark as read" exactly for an unread notification; "delete" always, last; both act on that notification's id |
| NotificationList.List.constructor | src/components/notifications/NotificationList.tsx:9-12 | empty list, all notifications, loading, no error |
| NotificationList.List.Load | src/components/notifications/NotificationList.tsx:14-28 | the unread endpoint when filtering, `/me` otherwise; on success the list is replaced and the banner cleared; on failure the banner holds the service's message |
| NotificationList.List.ToggleUnreadOnly | src/components/notifications/NotificationList.tsx:136-144 | the filter flips, and the list reloads from the other endpoint |
| NotificationList.List.HandleMarkAsRead | src/components/notifications/NotificationList.tsx:34-42 | a rejected id sends nothing and shows the guard's message; a failed PATCH shows the service's message; a success is followed by a GET on the current endpoint, whose list or failure message then shows; the loading flag ends false only after a reload |
| NotificationList.List.HandleMarkAllAsRead | src/components/notifications/NotificationList.tsx:44-52 | a failed PATCH shows the service's message; a success is followed by a GET on the current endpoint, whose list or failure message then shows; the loading flag ends false only after a reload |
| NotificationList.List.HandleDelete | src/components/notifications/NotificationList.tsx:54-62 | a rejected id sends nothing and shows the guard's message; a failed DELETE shows the service's message; a success is followed by a GET on the current endpoint, whose list or failure message then shows; the loading flag ends false only after a reload |
| NotificationList.FallbacksUnreachable | src/components/notifications/NotificationList.tsx:22-62 | none of the four fallback messages can reach the banner |
| UseLogin.LoginErrors | src/hooks/useLogin.ts:54-57 | the email key holds the email validator's complaint exactly when the email does not match; the password key holds "required" exactly when the password is empty; no other key is set |
| UseLogin.LoginCheckPasses | src/hooks/useLogin.ts:54-63 | the local check passes exactly for a matching email and a non-empty password, with no strength rule |
| UseLogin.MergeLaws | src/hooks/useLogin.ts:42-47 | the spread merge: an empty patch changes nothing, it is idempotent, and a later patch wins field by field |
| UseLogin.FailureMessage | src/hooks/useLogin.ts:84 | the provider's error, else "Connexion impossible"; never empty |
| UseLogin.LoginHook.constructor | src/hooks/useLogin.ts:35-40 | the empty form, no errors, not loading, no user, verified |
| UseLogin.LoginHook.UpdateFormData | src/hooks/useLogin.ts:42-47 | the form becomes the merge with the patch; nothing else changes |
| UseLogin.LoginHook.ResetForm | src/hooks/useLogin.ts:109-113 | form, errors and banner are cleared |
| UseLogin.LoginHook.Settle | src/hooks/useLogin.ts:65-93 | the provider's answer: unverified user, verified user (reset and dashboard), refusal, or exception, each with its banner and state |
| UseLogin.LoginHook.HandleLogin | src/hooks/useLogin.ts:49-97 | the provider is called exactly when the local check passes; otherwise only the errors change; loading always ends false |
| UseLogin.LoginHook.ResendVerification | src/hooks/useLogin.ts:99-107 | true exactly when the provider answers true |
| UseSignup.MergeLaws | src/hooks/useSignup.ts:42-47 | the spread merge: an empty patch changes nothing, it is idempotent, and a one-field patch sets exactly that field |
| UseSignup.SignupFailure | src/hooks/useSignup.ts:62 | the provider's error, else "Signup failed"; never empty |
| UseSignup.SignupHook.constructor | src/hooks/useSignup.ts:35-40 | the empty form, no errors, no user, nothing sent |
| UseSignup.SignupHook.UpdateFormData | src/hooks/useSignup.ts:42-47 | the form becomes the merge with the patch |
| UseSignup.SignupHook.ResetForm | src/hooks/useSignup.ts:74-78 | form, errors and banner are cleared |
| UseSignup.SignupHook.HandleSignup | src/hooks/useSignup.ts:49-72 | the form is sent as it is; success with a user resets it and marks the email sent; a refusal or an exception sets the banner |
| UseResetPassword.OrElse | src/hooks/useResetPassword.ts:40 | `a \|\| b` on strings: empty exactly when both are |
| UseResetPassword.VerifiedEmail | src/hooks/useResetPassword.ts:57-60 | the email only for a success with a non-empty message |
| UseResetPassword.ResetPasswordHook.constructor | src/hooks/useResetPassword.ts:21-24 | not loading, no messages, no email |
| UseResetPassword.ResetPasswordHook.SendEmail | src/hooks/useResetPassword.ts:26-47 | an address the validator refuses is never sent; exactly one of error and success is set afterwards |
| UseResetPassword.ResetPasswordHook.VerifyCode | src/hooks/useResetPassword.ts:49-64 | returns `VerifiedEmail` of the answer and stores it; otherwise the banner is set |
| UseResetPassword.ResetPasswordHook.ResetPassword | src/hooks/useResetPassword.ts:66-86 | a weak password is never sent; exactly one of error and success is set afterwards |
| ResetPasswordForm.ErrorBanner | src/components/forms/ResetPasswordForm.tsx:34-47 | shown exactly when either error is set; the local error takes precedence |
| ResetPasswordForm.SuccessBanner | src/components/forms/ResetPasswordForm.tsx:49-62 | shown exactly when there is a success message |
| ResetPasswordForm.Form.constructor | src/components/forms/ResetPasswordForm.tsx:14-18 | both inputs and the local error start empty |
| ResetPasswordForm.Form.SetPassword | src/components/forms/ResetPasswordForm.tsx:69 | only the password changes |
| ResetPasswordForm.Form.SetConfirmPassword | src/components/forms/ResetPasswordForm.tsx:80 | only the confirmation changes |
| ResetPasswordForm.Form.OnSubmit | src/components/forms/ResetPasswordForm.tsx:20-30 | different entries show the mismatch and call nothing, leaving the hook's loading flag as it was; equal ones go to the hook, whose loading flag ends false, and the banners show its outcome; the hook's reset email is kept |
| SignupForm.NoGraveNoSuccess | src/components/forms/SignupForm.tsx:138 | a message without `è` never contains "succès" |
| SignupForm.ResendStylingAgrees | src/components/forms/SignupForm.tsx:138-159 | the `includes('succès')` styling test holds exactly for the success message |
| SignupForm.ClearOnInput | src/components/forms/SignupForm.tsx:49-55 | the typed field's message is blanked when set; other fields are untouched |
| SignupForm.Form.constructor | src/components/forms/SignupForm.tsx:23-37 | the empty form, no errors, nothing sent |
| SignupForm.Form.HandleInputChange | src/components/forms/SignupForm.tsx:42-61 | the field takes the value, its error is blanked and the banner cleared; loading, the panel, the resend state, the submissions and both notice lists are kept |
| SignupForm.Form.Settle | src/components/forms/SignupForm.tsx:79-116 | success empties the form and shows the panel; a refusal or an exception sets the banner and notifies |
| SignupForm.Form.HandleSubmit | src/components/forms/SignupForm.tsx:66-117 | an invalid form only shows the validators' errors and is never sent; a valid one is sent, then success empties the form and shows the panel, while a refusal or an exception sets the banner and notifies, leaving form, errors, email and the success notices as they were; loading ends false |
| SignupForm.Form.Resend | src/components/forms/SignupForm.tsx:154-160 | the resend message is the success or the failure text and resend loading ends false; the form, errors, banner, loading, panel, submissions and notices are kept |
| SignupForm.SentFormsAreValid | src/components/forms/SignupForm.tsx:72-77 | every form sent has a valid name, email, password and confirmation |
| Badge.KeysArePartitioned | src/common/Badge.tsx:59-75 | the table's keys are the three upper-case and the eight lower-case ones |
| Badge.LowerKeysUnreachable | src/common/Badge.tsx:65-77 | no upper-cased status is ever a lower-case key |
| Badge.Lookup | src/common/Badge.tsx:77 | a candidature entry for an upper-case key; otherwise the default variant with the status as given; never the info variant |
| Badge.LookupIgnoresCase | src/common/Badge.tsx:77 | statuses equal up to case get the same entry when known, and always the same variant |
| Badge.AccepteeIsAccepted | src/common/Badge.tsx:61-77 | any case of "acceptee" gives success and "Acceptée" |
| Badge.ActiveFallsBack | src/common/Badge.tsx:65-77 | "active" and "lu" fall back to the default variant with their own text |

## Left out

- HTTP, Firebase and the browser are parameters; the model does not include them:
  - network transport, axios configuration (base URL, timeout);
  - request and response bodies (the DTOs sent on create and update are not modelled);
  - `authservice` internals (`loginUser`, `signupUser`, `sendVerificationEmailTo`, the Firebase reset calls);
  - the decoding inside `decodeJwtPayload` (`atob`, percent-decoding, `JSON.parse`).
- Time:
  - the 30-second polling of the dropdown;
  - the 5-second timer that clears the room page's error (its effect is `SalleSlice.SalleStore.ClearError`);
  - `Date` parsing and `toLocaleDateString`. The relative ages take a whole number of seconds and represent the calendar date as one value.
- JavaScript numbers and characters:
  - `NaN` and non-integer numbers are not modelled. `exp` and the room fields are integers, and a notification id is a `real`, not a JavaScript number.
  - `Number()` parsing of the capacity input is not modelled: the input arrives as an integer.
  - `trim`, `\s`, `toLowerCase` and `toUpperCase` are ASCII-only. Unicode white space and case mapping are not modelled. String lengths, by contrast, are counted in UTF-16 code units (`Validator.JsLength`).
- Not in the model:
  - `typeof window` and the development-only console logging;
  - the `onNotificationClick` callback;
  - `navigate('/login')` on the signup panel;
  - `setErrors` exported by the hooks (it only assigns);
  - the badge's class strings and sizes;
  - every purely presentational component.
- React scheduling: the model does not cover render scheduling, concurrency or stale closures. Each handler runs to completion on the state it starts from.
- UseResetPassword.ResetPasswordHook.SendEmail: a provider call that throws is not modelled; in the source it would leave `isLoading` true, because there is no `finally`.
- SignupForm.Form.Resend: a throwing `sendVerificationEmailTo` is not modelled; in the source it leaves `resendLoading` true.
- SallePage.TotalCapacity: only its sign is stated; its growth is stated by `SallePage.StatsAfterCreate`.
