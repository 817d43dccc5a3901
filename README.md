# Helpdesk tickets: status workflow and role-scoped access

This project models the core of a helpdesk ticket tracker in Dafny:

- **Ticket and enumerations** (`CoreModels`): the `Status` choices (open, in
  progress, resolved, canceled) and the `Priority` choices (low, medium, high,
  critical), in declaration order. A ticket row has its defaults (open, medium,
  no description) and needs an attendant. Its title holds at most 255 characters.
- **Users** (`AuthModels`): the `attendant`/`technician` profile. A user
  record holds an id, a profile and the staff/superuser/active flags.
  `create_superuser` sets the two flags and leaves the profile at its default,
  `attendant`.
- **Ticket table** (`Store`): rows keyed by primary key, an auto-increment
  counter, and an abstract clock.
  - `TicketStore` is a class whose methods change those fields.
  - Each method is proved against a function on table snapshots (`Db`).
  - `save()` refreshes `updated_at` from the clock.
- **API** (`Views`):
  - List scope: superusers and technicians see every ticket. Anyone else sees only the tickets where they are the attendant.
  - Case-insensitive search over title and description.
  - The `update_status` action runs its checks in the source's order: authentication (401), scoped lookup (404), role (403), payload (400), transition (400). Only then does it write.
  - The fixed workflow graph: open → in progress / canceled; in progress → resolved / canceled; resolved → in progress; canceled → open.
  - Replay lemmas over any sequence of `update_status` calls.
- **Admin** (`Admin`):
  - Its own, narrower list scope: only superusers see everything; technicians see only their own tickets.
  - The add, change and delete permissions.
  - The fieldsets shown on creation.
  - The status choices offered to attendant-profile users.
  - The save-time guard against such users resolving a ticket.
- **Frontend router** (`Router`): the route table, the `/` → `/login` redirect,
  and the global `beforeEach` guard.

Behaviour of the code that is easy to misread (the model follows the code):

- The admin list scope shows technicians only their own tickets. It does not agree with the API scope; `AdminScopeWithinApiScope` and `ScopesDifferForTechnicians` state the relation.
- A ticket's attendant may delete it. Deletion is not limited to superusers.
- Add permission only needs an authenticated user, active or not.
- The attendant restrictions in the admin key on `profile`, not on `is_superuser`. A superuser made by `create_superuser` is therefore restricted too (`DefaultSuperuserIsRestricted`).
- An admin edit is not checked against the transition table (`AdminEditBypassesWorkflow`).

## Model

| member | source | states |
|---|---|---|
| `AuthModels.CreateUser` | backend/authentication/models.py:6-13 | every keyword argument given reaches the user record; absent ones take the field defaults: profile `attendant`, not staff, not superuser, active |
| `AuthModels.CreateSuperuser` | backend/authentication/models.py:15-19 | staff and superuser flags default to true and keep a value the caller gives; the user is active unless told otherwise; the profile stays `attendant` unless given |
| `CoreModels.StatusChoices` | backend/core/models.py:21-25 | exactly four (value, label) pairs, open, in_progress, resolved, canceled in that order |
| `CoreModels.PriorityChoices` | backend/core/models.py:14-18 | exactly four (value, label) pairs, low, medium, high, critical in that order |
| `CoreModels.ParseStatus` | backend/core/serializers.py:28 | a raw value is accepted iff it is the stored value of some status, and decodes to that status |
| `CoreModels.ParsePriority` | backend/core/models.py:14-18 | a raw value is accepted iff it is the stored value of some priority, and decodes to it |
| `CoreModels.ChoicesRoundTrip` | backend/core/models.py:14-25 | each enumeration lists every member once; encoding then decoding gives the member back |
| `CoreModels.NewTicket` | backend/core/models.py:28-43 | creation succeeds iff an attendant is given and the title fits 255 characters; a missing attendant is an error; defaults are open, medium, null description |
| `CoreModels.CreationDefaults` | backend/core/models.py:29-41 | a ticket given only title and attendant is open, medium, without description; 255 characters accepted, 256 refused |
| `Store.SaveRow` | backend/core/models.py:5-8 | saving an existing row replaces only that row and stamps a strictly later `updated_at`; table invariant kept |
| `Store.InsertRow` | backend/core/models.py:5-8 | a new row gets a fresh key not in use, both timestamps from a later clock reading; other rows untouched |
| `Store.CreateResult` | backend/core/models.py:28-43 | create stores exactly one new row equal to the defaulted ticket, or raises and changes nothing |
| `Store.TicketStore.Save` | backend/core/models.py:5-8 | the method's new table is `SaveRow` of the old one |
| `Store.TicketStore.Insert` | backend/core/models.py:5-8 | the method's key and new table are those of `InsertRow` |
| `Store.TicketStore.Create` | backend/core/models.py:28-43 | the method's result and new table are those of `CreateResult` |
| `Views.HttpStatus` | backend/core/views.py:55-71 | 401 exactly for an unauthenticated caller, 404 exactly for not found, 403 exactly for a refused role, 400 exactly for a bad payload, an illegal transition or a refused filter value; all errors are 4xx |
| `Views.ApiQueryset` | backend/core/views.py:38-48 | a ticket is in scope iff it is in the table and the user is superuser, technician or its attendant |
| `Views.ApiScopeByRole` | backend/core/views.py:43-48 | superusers and technicians get the whole table; attendants get exactly their own tickets |
| `Views.GetObject` | backend/core/views.py:52 | the lookup finds the ticket iff it exists and is in scope, otherwise answers not found |
| `Views.CanUpdateStatus` | backend/core/views.py:78-82 | only non-superuser attendant-profile users are refused |
| `Views.IsValidStatusTransition` | backend/core/views.py:84-92 | accepted exactly on the six edges of the table; never a self-transition |
| `Views.ParsePayload` | backend/core/views.py:61-65 | a missing or unknown status value is rejected; a valid one decodes to its status |
| `Views.UpdateStatusResult` | backend/core/views.py:50-76 | anonymous → 401; out of scope → 404; role refused → 403 whatever the payload; bad payload → 400; illegal edge → 400; success iff all pass, changing only status and `updated_at` |
| `Views.ApplyUpdateStatus` | backend/core/views.py:73-74 | on any error the table is unchanged; on success exactly the answered row is written |
| `Views.UpdateStatus` | backend/core/views.py:50-76 | the method's response and new table are those of `ApplyUpdateStatus` |
| `Views.RejectionIsRepeatable` | backend/core/views.py:55-71 | a refused call leaves the table as it was, so the same call is refused the same way again |
| `Views.NoTerminalStatus` | backend/core/views.py:85-90 | every status has a legal successor |
| `Views.EveryStatusReachable` | backend/core/views.py:85-90 | every status reaches every status by a run of one to four transitions |
| `Views.ResolvedOnlyFromInProgress` | backend/core/views.py:85-90 | in any run the status just before resolved is in progress |
| `Views.OnlyStaffRolesChangeTickets` | backend/core/views.py:55-59 | any sequence of calls by non-technician non-superusers leaves the table unchanged |
| `Views.ReplayFollowsWorkflow` | backend/core/views.py:67-74 | across any sequence of calls a ticket's status stays or moves along an edge, and all fields but status and `updated_at` are kept |
| `Views.ReopenAndResolveAgain` | backend/core/views.py:84-92 | open, in progress, resolved, in progress, resolved is a run; resolved→open, resolved→canceled, open→resolved are refused |
| `Views.Contains` | backend/core/views.py:25-28 | the left-to-right scan is true iff the needle occurs at some position |
| `Views.SearchFilter` | backend/core/views.py:25-28 | a ticket is kept iff the value occurs, ignoring case, in its title or in its non-null description |
| `Views.SearchIgnoresCase` | backend/core/views.py:25-28 | the result does not depend on the case of the value |
| `Views.EmptySearchKeepsAll` | backend/core/views.py:25-28 | the empty value keeps every ticket |
| `Views.LowerStringIdempotent` | backend/core/views.py:25-28 | folding twice equals folding once |
| `Views.Strip` | backend/core/views.py:19 | the cleaned value is the raw one with only whitespace cut from each end, and neither end of a non-empty result is whitespace |
| `Views.StripBlank` | backend/core/views.py:19 | stripping gives the empty value exactly when the raw value is all whitespace |
| `Views.StripPadded` | backend/core/views.py:19 | whitespace around a value that has none at its ends is removed again, giving the value back |
| `Views.CleanedSearch` | backend/core/views.py:19 | the filter is applied iff the parameter is present with some non-whitespace character, and then with the stripped value |
| `Views.ListTickets` | backend/core/views.py:19-48 | anonymous → 401; a cleaned search value holding a null character → 400; otherwise a list of exactly the in-scope tickets, unchanged, narrowed by the stripped search value when it is not blank |
| `Views.StripKeeps` | backend/core/views.py:19 | stripping never removes a non-whitespace character |
| `Views.NullCharSearchRefused` | backend/core/views.py:19 | a search value with a null character anywhere is answered 400 |
| `Views.BlankSearchListsScope` | backend/core/views.py:19 | an empty or whitespace-only search lists the caller's whole scope |
| `Views.PaddedSearchSameList` | backend/core/views.py:19-28 | whitespace typed around a search value gives the same list as the bare value |
| `Admin.AdminQueryset` | backend/core/admin.py:66-70 | a ticket is listed iff the user is superuser or its attendant |
| `Admin.AdminScopeWithinApiScope` | backend/core/admin.py:66-70 | the admin lists a subset of the API scope; the two agree except for technicians, who see only their own tickets |
| `Admin.ScopesDifferForTechnicians` | backend/core/admin.py:66-70 | a technician sees another user's ticket through the API but not in the admin |
| `Admin.HasAddPermission` | backend/core/admin.py:72-73 | permission iff the user is authenticated, whatever the active and superuser flags |
| `Admin.HasChangePermission` | backend/core/admin.py:75-80 | true iff superuser, no object, or the user is the ticket's attendant |
| `Admin.HasDeletePermission` | backend/core/admin.py:82-87 | true iff superuser, or an object exists whose attendant is the user; on an object it equals change permission |
| `Admin.RemoveFirst` | backend/core/admin.py:27-29 | drops exactly the first occurrence and keeps the rest in order |
| `Admin.GetFieldsets` | backend/core/admin.py:24-39 | with an object the declared fieldsets; on creation two sections, none containing `attendant` |
| `Admin.CreationFieldsets` | backend/core/admin.py:14-39 | on creation the basic fields are title, priority, status, description and the system section created_at, updated_at |
| `Admin.WithoutResolved` | backend/core/admin.py:47-48 | a choice is kept iff it was present and its value is not `resolved` |
| `Admin.WithoutResolvedAppend` | backend/core/admin.py:47-48 | the filter distributes over concatenation, so order is preserved |
| `Admin.FormStatusChoices` | backend/core/admin.py:44-49 | for an attendant profile on an existing ticket all but `resolved`; otherwise all choices |
| `Admin.RestrictedStatusChoices` | backend/core/admin.py:44-49 | restricted model choices are exactly open, in_progress, canceled in that order |
| `Admin.GetForm` | backend/core/admin.py:41-51 | the status field, when present, ends with `FormStatusChoices` of its old choices; a missing field is left alone |
| `Admin.SaveModelResult` | backend/core/admin.py:53-64 | creation inserts with the acting user as attendant whatever was given; an attendant profile moving a not-yet-resolved ticket to resolved is refused with nothing written; otherwise the object is saved as given |
| `Admin.SaveModel` | backend/core/admin.py:53-64 | the method's outcome and new table are those of `SaveModelResult` |
| `Admin.DefaultSuperuserIsRestricted` | backend/core/admin.py:44-62 | a superuser from `create_superuser` is not offered `resolved` and is refused a move into it |
| `Admin.AdminEditBypassesWorkflow` | backend/core/admin.py:56-64 | a technician can save an open ticket as resolved in the admin, a move the API refuses |
| `Router.Match` | frontend/src/router/index.ts:9-32 | `/login`, `/tickets` and every `/tickets/<id>` match their own records; every match is a declared record; any other path matches nothing |
| `Router.Resolve` | frontend/src/router/index.ts:10-13 | `/` lands on `/login`, which needs no login; other paths keep their path |
| `Router.BeforeEach` | frontend/src/router/index.ts:35-45 | protected route while signed out → `/login`; `/login` while signed in → `/tickets`; otherwise proceed |
| `Router.GuardRedirectPasses` | frontend/src/router/index.ts:15-45 | the page the guard redirects to always passes the guard: no redirect loop |
| `Router.Navigate` | frontend/src/router/index.ts:35-45 | a navigation ends where the guard proceeds: never a protected page when signed out, never `/login` when signed in |
| `Router.RootAndProtectedRoutes` | frontend/src/router/index.ts:10-45 | `/` ends on `/login` signed out and on `/tickets` signed in; `/tickets` signed out ends on `/login` |
| `Router.DetailPagesNeedLogin` | frontend/src/router/index.ts:26-45 | a `/tickets/<id>` page ends on `/login` when signed out and opens when signed in |

## Left out

- JWT login and token refresh (backend/authentication/views.py): the authenticated user is an input (`Requester`). Rejection of inactive users by the token layer is not modelled.
- User creation beyond field defaults: e-mail normalisation and uniqueness, password hashing, and the required-email check are framework calls.
- HTTP wiring, URL routing, the path-prefix middleware and the serializers. The one exception is the status choice validation of the status-update serializer. Error responses are reduced to their kind and HTTP code; message texts are not modelled.
- The `status`, `priority`, `attendant` and date filters of the ticket filter, list ordering and pagination: library behaviour over a database. These filters are also left out of the `Views.GetObject` lookup of the status update, where the same filter backend would apply them (a non-matching `search` there answers not found, an invalid `status` answers 400 before the role check). Querysets are maps keyed by primary key, so their order is not modelled. The model assumes `DjangoFilterBackend` is the configured filter backend, since `filterset_class` has no effect otherwise; the project settings are not part of this model.
- Wall-clock time: `created_at` and `updated_at` are readings of an abstract clock that advances on every write.
- Concurrency: two simultaneous status updates and the lack of locking around `save()` are not modelled. Each call is one atomic step.
- Frontend API service, stores and type declarations: I/O plumbing.
- Admin display settings: `list_display`, `list_filter`, `search_fields`, `readonly_fields`, `Ticket.__str__`, verbose names.
- The admin message store: the refusal in `save_model` is an outcome value, not a message.
- Views.Strip: only the ASCII whitespace characters of `str.isspace` are stripped; Unicode whitespace above 127 is not.
- Views.Contains: case folding covers ASCII letters only. Unicode case folding by the database is not modelled.
- Views.IsValidStatusTransition: the stored status is one of the four enum members. A stored value outside them cannot be represented, so the lookup's empty-list default is kept but never reached.
- Views.CanUpdateStatus: every user record has a profile, so the `hasattr(user, 'profile')` test is always true.
- Admin.SaveModel, Admin.SaveModelResult: both require that an edited object still exists. A row deleted between loading the form and saving it is not modelled: neither the lookup error for an attendant-profile user, nor the re-insertion that `save()` performs for any other user, who is never looked up.
- CoreModels.NewTicket: the 255-character limit is treated as enforced at creation. Whether the database enforces it depends on the backend. A missing attendant is reported before an over-long title.
- Router.Match: vue-router's trailing-slash and case-insensitive matching, query strings and hashes are not modelled. A path no record matches has no `requiresAuth` flag.
