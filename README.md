# E-Government Portal client: session, access gate, request lists and page controllers

This project models the client-side core of the E-Government Portal web client and proves properties of that model:

- **The session store.** `AuthProvider` holds an in-memory `user`, a `loading` flag and two local-storage keys (`token`, `user`).
- **The axios client.** It attaches a bearer token, clears the session on 401 and alerts when the backend is unreachable. The `authAPI` wrappers turn every outcome into a `{success, data | message}` record.
- **The route table and its `ProtectedRoute` guard.**
- **The request-list logic.** This covers the two-pass status/text filter, the progress steps, the status counters, the five most recent requests and the badge maps.
- **The page controllers.** These are the service application form, the officer's approve/reject decision, the department and service create/edit modal, the profile editor, the registration form and the admin sign-in.

## How the model is built

**Backend calls.** Every backend call is modelled as an input outcome: `Api.Outcome` is either a response with a body, or an error. An error carries an HTTP status with an optional message, or no response at all.

**Pages and the session store.** Each page is a class whose fields are the component's state variables. Its methods are the handlers. A method takes the outcomes of the calls it makes and states the whole new state. An `effects` log records, in order, what the user or the backend observes: calls, navigations, toasts and uncaught exceptions. A `Window` holds the browser's local storage, its location and its alerts.

**Pure logic.** The pure logic (the guard, the filter, the counts, the payloads) is written as functions. The lemmas about those functions carry the properties.

**Behaviour the model follows exactly as the code has it:**
- **A failed login or registration never reports the server's message.**
  - `authAPI` resolves on failure instead of rejecting.
  - `AuthContext` then reads `response.data.data` and throws a TypeError, which its own `catch` handles.
  - So the error is always "Login failed" or "Registration failed" (`AuthContext.LoginLosesServerMessage`).
- **A 401 clears storage and sets the location to "/", but leaves the in-memory `user` as it was.** The interceptor does not touch React state. The page load that follows is not modelled.
- **A stored token must be truthy.** An empty-string token neither gets a bearer header nor restores the session at start-up.
- **A non-admin sign-in on the admin page is not reported.** The page calls `toast` without importing it, so the call throws. The model records this as an `Uncaught` effect. There is no navigation, and the non-admin session stays stored (`AdminLogin.OfficerOnAdminPage`).
- **Request-list calls do not pass through the modelled client.** The `requestsAPI`, `departmentsAPI` and `servicesAPI` groups the pages import are not defined in src/services/api.js. The model treats them as abstract calls with their own outcome, so a 401 from a request-list call does not clear the session here.

## Model

| member | source | states |
|---|---|---|
| App.ProtectedRoute | src/App.jsx:36-57 | waiting exactly while loading; the children exactly when loaded with a user whose role is allowed, or with no role list; otherwise a redirect to "/" |
| App.TableGuards | src/App.jsx:66-179 | every route is public exactly when it is "/" or a sign-in page; every other route allows exactly the one role of its area |
| App.Dispatch | src/App.jsx:64-183 | the path is resolved by the public routes first and then only by the routes of the area its first segment names; the other areas' routes never match it |
| App.SearchByArea | src/App.jsx:64-183 | for any four route lists whose last three are each confined to one area, searching them in order is searching the first, then only the list of the path's area |
| App.FindAppend | src/App.jsx:64-183 | searching two route lists one after the other finds the first list's match, and the second's only when the first has none |
| App.NotSignIn | src/App.jsx:66-70 | a path that is not "/" and not a two-segment path ending in "login" or "register" matches no public route |
| App.GuardedPathNeedsAreaRole | src/App.jsx:73-179 | any guarded path resolves to a route whose only allowed role is the role of the path's first segment |
| App.AccessByArea | src/App.jsx:36-179 | once loading is over, a guarded path renders exactly for a user holding its area's role; everyone else is redirected to "/" |
| App.PublicPagesUnguarded | src/App.jsx:66-70 | the landing and sign-in routes render whatever the session |
| App.SignInPagesRouted | src/App.jsx:66-70 | "/", "/citizen/login", "/citizen/register", "/officer/login" and "/admin/login" route to their pages unguarded |
| App.UnmatchedIsNotFound | src/App.jsx:182 | a path matching no entry renders NotFound |
| App.FindRoute | src/App.jsx:64-183 | a route is chosen only when it is a table entry whose pattern matches the path; none is chosen only when no entry matches |
| App.FindFirst | src/App.jsx:64-183 | the route chosen is the first entry in table order whose pattern matches the path |
| App.MatchesSegmentwise | src/App.jsx:66-182 | a path matches a route pattern exactly when it has as many segments as the pattern and each segment is accepted: a literal only by itself, ":id" by any non-empty segment |
| App.LookupContract | src/App.jsx:64-183 | the route rendered is a table entry that matches the path, or the catch-all NotFound route exactly when no table entry matches |
| App.Access | src/App.jsx:36-183 | a public route renders its page whatever the session; a guarded route waits exactly while loading, renders exactly for a loaded user whose role its list allows, and otherwise redirects to "/" |
| App.MatchesPair | src/App.jsx:66-179 | a two-segment pattern matches only two-segment paths whose second segment it accepts |
| App.RequestDetailRouted | src/App.jsx:123-130 | "/officer/request/<id>" renders RequestDetail for officers only |
| App.CitizenScenario | src/App.jsx:73-80 | a citizen session reaches "/citizen/dashboard" and is redirected from "/admin/dashboard" |
| AuthContext.Restore | src/context/AuthContext.jsx:13-21 | start-up restores a user exactly when a truthy token and a stored user are present, and then restores the stored user |
| AuthContext.RestoreAfterSignIn | src/context/AuthContext.jsx:29-30 | what a sign-in writes is restored by start-up as the same user |
| AuthContext.RestoreAfterClear | src/context/AuthContext.jsx:42-47 | after logout (or a 401) start-up restores nobody |
| AuthContext.RestoreAfterUpdate | src/context/AuthContext.jsx:65-68 | after `updateUser` start-up restores the new user whenever the token is still there |
| AuthContext.LoginResultContract | src/context/AuthContext.jsx:23-40 | login succeeds exactly when the backend issued a session, with its user; every other outcome fails with "Login failed" |
| AuthContext.RegisterResultContract | src/context/AuthContext.jsx:49-63 | the same for registration, with "Registration failed" |
| AuthContext.LoginLosesServerMessage | src/context/AuthContext.jsx:35-39 | a 400 carrying "Invalid credentials" is wrapped with that message by `authAPI`, yet login reports "Login failed" |
| AuthContext.Credentials | src/context/AuthContext.jsx:23-26 | the login body holds only the email and the password, so no role can be passed |
| AuthContext.AuthProvider.Init | src/context/AuthContext.jsx:13-21 | the user becomes the restorable stored user, if any; loading ends |
| AuthContext.AuthProvider.Login | src/context/AuthContext.jsx:23-40 | on an issued session both keys are written, the user is set and a welcome toast shows; otherwise the user is kept and storage changes only through a 401; the location and alerts change only by the interceptor; `loading` is untouched; the request sent carries the current bearer token |
| AuthContext.AuthProvider.Register | src/context/AuthContext.jsx:49-63 | the same contract as login for the registration endpoint and the given user data, including `loading` left untouched |
| AuthContext.AuthProvider.Logout | src/context/AuthContext.jsx:42-47 | both keys removed and the user forgotten, whatever the prior state |
| AuthContext.AuthProvider.UpdateUser | src/context/AuthContext.jsx:65-68 | the in-memory and the stored user are replaced; the token is untouched |
| AuthContext.AuthProvider.IsAuthenticated | src/context/AuthContext.jsx:79 | holds exactly when a user is set |
| AuthContext.LogoutTwice | src/context/AuthContext.jsx:42-47 | logging out twice leaves the logged-out state, which start-up does not restore |
| AuthContext.ReloadAfterLogin | src/context/AuthContext.jsx:14-19 | after a successful login, a new store on the same browser restores the logged-in user |
| AuthContext.ReloadAfterRegister | src/context/AuthContext.jsx:52-55 | the same after a successful registration |
| Api.WithBearer | src/services/api.js:15-18 | the Authorization header is "Bearer " + token exactly when a truthy token is stored; no other header changes |
| Api.Http.constructor | src/services/api.js:4-11 | the base URL is the environment's, or the local default when it is missing or empty |
| Api.Http.AttachToken | src/services/api.js:14-21 | the config's headers gain the bearer header as above; verb, URL and data are untouched |
| Api.Http.HandleResponse | src/services/api.js:24-35 | a response passes through; a missing response alerts; a 401 empties storage and moves to "/"; every error is re-thrown unchanged |
| Api.Http.Send | src/services/api.js:7-35 | the request is logged with the base URL, the JSON header and the bearer header from the stored token; the call settles as the backend answered; the window changes only as the response interceptor says |
| Api.AuthRecordContract | src/services/api.js:39-73 | register and login resolve for every outcome: success exactly for a response; the server message or the per-operation default on either path |
| Api.ProfileRecordContract | src/services/api.js:75-91 | the profile wrappers resolve for every outcome, with the server message or the default on failure |
| Api.Login | src/services/api.js:57-73 | one POST to /auth/login with the bearer header; the record as above; the interceptor's effects on the window |
| Api.Register | src/services/api.js:39-55 | one POST to /auth/register, likewise |
| Api.GetProfile | src/services/api.js:75-82 | one GET of /auth/profile, likewise |
| Api.UpdateProfile | src/services/api.js:84-91 | one PUT of /auth/profile with the form, likewise |
| RequestList.TwoPassesSelect | src/pages/citizen/RequestTracking.jsx:77-93 | the status pass followed by the search pass keeps exactly the requests meeting both criteria, in order |
| RequestList.FilteredMembership | src/pages/citizen/RequestTracking.jsx:80-90 | a request is shown exactly when it was fetched, its status is the chosen one (or "all" is chosen) and the term is empty or matches |
| RequestList.FilteredIsSubsequence | src/pages/citizen/RequestTracking.jsx:78-92 | the shown list is an order-preserving subsequence of the fetched list |
| RequestList.FilteredIdempotent | src/pages/citizen/RequestTracking.jsx:77-93 | filtering the shown list again with the same criteria changes nothing |
| RequestList.NoCriteriaShowsAll | src/pages/citizen/RequestTracking.jsx:80-90 | "all" with an empty term shows every request |
| RequestList.ContainedTermMatches | src/pages/citizen/RequestTracking.jsx:87 | a field containing the term verbatim matches it after lower-casing |
| RequestList.SearchIgnoresTermCase | src/pages/citizen/RequestTracking.jsx:87-88 | the term's case never changes what matches |
| RequestList.FilterLengthIsCount | src/pages/officer/OfficerDashboard.jsx:102-104 | the length of a status filter is the number of requests with that status |
| RequestList.ThreeCountsBounded | src/pages/officer/OfficerDashboard.jsx:100-105 | counts of three different statuses add up to at most the list's length |
| RequestList.StatusBadge | src/pages/citizen/RequestTracking.jsx:95-104 | each of the five known statuses gets its own badge, anything else the pending badge |
| RequestTracking.ShownMembership | src/pages/citizen/RequestTracking.jsx:80-90 | shown exactly when the status fits and the service name or description contains the term, ignoring case; missing fields never match |
| RequestTracking.CitizenNameIgnored | src/pages/citizen/RequestTracking.jsx:85-89 | this page's search never looks at the citizen name |
| RequestTracking.ProgressSteps | src/pages/citizen/RequestTracking.jsx:106-113 | four steps named pending, processing, approved, completed; a step is completed exactly when the status is that step or a later one |
| RequestTracking.StepsCompletedInOrder | src/pages/citizen/RequestTracking.jsx:108-112 | completed steps form a prefix |
| RequestTracking.UnknownStatusNoProgress | src/pages/citizen/RequestTracking.jsx:108-112 | a status outside the four steps, such as "rejected", completes none |
| RequestTracking.TrackingPage.FilterRequests | src/pages/citizen/RequestTracking.jsx:77-93 | the shown list becomes the selection of the fetched list; nothing else changes |
| RequestTracking.TrackingPage.SetSearchTerm | src/pages/citizen/RequestTracking.jsx:34-36 | a new term re-filters, keeping the shown list equal to the selection |
| RequestTracking.TrackingPage.SetStatusFilter | src/pages/citizen/RequestTracking.jsx:34-36 | a new status re-filters likewise |
| RequestTracking.TrackingPage.FetchRequests | src/pages/citizen/RequestTracking.jsx:38-75 | the received list (empty when missing), or the three samples with an error toast; loading ends; the shown list is re-filtered |
| RequestTracking.FailedFetchShowsSamples | src/pages/citizen/RequestTracking.jsx:43-71 | with no criteria a failed fetch shows the three samples in order |
| OfficerDashboard.CitizenNameFinds | src/pages/officer/OfficerDashboard.jsx:77-84 | searching a request's citizen name finds it, whatever its other fields |
| OfficerDashboard.WiderThanNameAndDescription | src/pages/officer/OfficerDashboard.jsx:78-83 | whatever the tracking search matches, the officer search matches too |
| OfficerDashboard.StatsOf | src/pages/officer/OfficerDashboard.jsx:100-105 | total is the list's length; pending, processing and approved are the exact status counts; their sum is at most the total |
| OfficerDashboard.SampleStats | src/pages/officer/OfficerDashboard.jsx:38-64 | the sample data counts 3, 1, 1, 1 |
| OfficerDashboard.OfficerDashboardPage.CurrentStats | src/pages/officer/OfficerDashboard.jsx:100-101 | the counters are StatsOf the whole fetched list (exact status counts), not of the shown one |
| OfficerDashboard.OfficerDashboardPage.FilterRequests | src/pages/officer/OfficerDashboard.jsx:70-87 | the shown list becomes the selection with the three-field search |
| OfficerDashboard.OfficerDashboardPage.SetSearchTerm | src/pages/officer/OfficerDashboard.jsx:151 | the term becomes the typed text and the shown list is re-derived from it, with the list, the status filter, loading and effects unchanged |
| OfficerDashboard.OfficerDashboardPage.SetStatusFilter | src/pages/officer/OfficerDashboard.jsx:160 | the status filter becomes the chosen value and the shown list is re-derived, with the list, the term, loading and effects unchanged |
| OfficerDashboard.OfficerDashboardPage.FetchRequests | src/pages/officer/OfficerDashboard.jsx:29-68 | the received list or the samples with an error toast; loading ends; re-filtered |
| CitizenDashboard.StatsOf | src/pages/citizen/CitizenDashboard.jsx:49-54 | total, pending, approved and rejected are the length and exact counts of the whole list; the three counts fit in the total |
| CitizenDashboard.FallbackMatchesSamples | src/pages/citizen/CitizenDashboard.jsx:59-74 | the fixed fallback counters {2, 1, 1, 0} are the counts of the two samples |
| CitizenDashboard.MissingListCountsNothing | src/pages/citizen/CitizenDashboard.jsx:45-54 | a body without `requests` lists nothing and counts zeros |
| CitizenDashboard.RecentArePrefix | src/pages/citizen/CitizenDashboard.jsx:46 | at most five requests are listed, the first ones in order, all of them when there are at most five |
| CitizenDashboard.CitizenDashboardPage.FetchRequests | src/pages/citizen/CitizenDashboard.jsx:41-78 | the first five received requests with the counters of all of them, or the samples and fixed counters with an error toast; loading ends |
| ServiceApplication.Payload | src/pages/citizen/ServiceApplication.jsx:93-99 | service id, then description, then one "documents" entry per file in order |
| ServiceApplication.PayloadOmitsDepartment | src/pages/citizen/ServiceApplication.jsx:93-99 | no payload entry carries the department |
| ServiceApplication.BuildPayload | src/pages/citizen/ServiceApplication.jsx:93-99 | the append loop builds exactly the payload above |
| ServiceApplication.OnlyDepartmentLoadsServices | src/pages/citizen/ServiceApplication.jsx:41-45 | services load only when the department changes to a non-empty value |
| ServiceApplication.ApplicationPage.HandleChange | src/pages/citizen/ServiceApplication.jsx:41-45 | only the named field changes; a department change to a truthy value fetches that department's services (or the samples) |
| ServiceApplication.ApplicationPage.FetchDepartments | src/pages/citizen/ServiceApplication.jsx:47-59 | the received departments, or the two samples |
| ServiceApplication.ApplicationPage.HandleFileChange | src/pages/citizen/ServiceApplication.jsx:79-82 | new files go after the old ones, which are unchanged |
| ServiceApplication.ApplicationPage.RemoveFile | src/pages/citizen/ServiceApplication.jsx:84-86 | exactly the file at the index is removed; an out-of-range index changes nothing |
| ServiceApplication.RemoveKeepsOthers | src/pages/citizen/ServiceApplication.jsx:85 | every other file keeps its order |
| ServiceApplication.AttachThenRemove | src/pages/citizen/ServiceApplication.jsx:79-86 | attaching one file and removing it restores the list |
| ServiceApplication.ApplicationPage.HandleSubmit | src/pages/citizen/ServiceApplication.jsx:88-110 | the payload is posted; success toasts and goes to /citizen/requests, failure only toasts; loading ends false |
| RequestDetail.StatusUpdate | src/pages/officer/RequestDetail.jsx:61-98 | approval always sends "approved" with the notes, even empty ones; rejection sends "rejected" only with non-empty notes |
| RequestDetail.DecisionEffects | src/pages/officer/RequestDetail.jsx:61-98 | without a call only the missing-reason toast; navigation to the officer dashboard exactly on a successful update |
| RequestDetail.DetailBadge | src/pages/officer/RequestDetail.jsx:100-108 | agrees with the list badge except that "completed" gets the pending badge |
| RequestDetail.RequestDetailPage.FetchRequestDetail | src/pages/officer/RequestDetail.jsx:35-59 | the received request (possibly missing), or the sample carrying the route id; loading ends |
| RequestDetail.RequestDetailPage.SetNotes | src/pages/officer/RequestDetail.jsx:273 | the notes become the typed text and nothing else changes |
| RequestDetail.RequestDetailPage.HandleApprove | src/pages/officer/RequestDetail.jsx:61-76 | the decision's effects for approval; actionLoading false afterwards |
| RequestDetail.RequestDetailPage.HandleReject | src/pages/officer/RequestDetail.jsx:78-98 | without notes only the toast and actionLoading untouched; otherwise the decision's effects and actionLoading false |
| RequestDetail.FailedFetchOffersReview | src/pages/officer/RequestDetail.jsx:261 | the review card is shown for a pending request, such as the sample |
| AdminCatalog.EmptyForm | src/pages/admin/ManageServices.jsx:24-29 | the form of a catalog has exactly its fields, all empty |
| AdminCatalog.SubmitCall | src/pages/admin/ManageDepartments.jsx:65-71 | an update of the edited record's id with the form when editing, a creation with the form otherwise |
| AdminCatalog.SaveEffects | src/pages/admin/ManageServices.jsx:86-97 | the call, then the success toast and the refetch, or the error toast |
| AdminCatalog.CatalogPage.OpenModal | src/pages/admin/ManageDepartments.jsx:93-97 | the modal shows, editing the given record with a copy of it as the form, or creating from the empty form |
| AdminCatalog.CatalogPage.CloseModal | src/pages/admin/ManageServices.jsx:122-126 | hidden, nothing edited, the empty form |
| AdminCatalog.CatalogPage.SetField | src/pages/admin/ManageDepartments.jsx:190-203 | only the named field of the open form changes |
| AdminCatalog.CatalogPage.HandleSubmit | src/pages/admin/ManageDepartments.jsx:60-79 | success refetches and closes; failure keeps the modal, the record and the form; loading false on both paths |
| AdminCatalog.CatalogPage.HandleDelete | src/pages/admin/ManageServices.jsx:103-112 | no effect at all without confirmation; otherwise the delete, then the toast and refetch or the error toast |
| AdminCatalog.CatalogPage.FetchItems | src/pages/admin/ManageDepartments.jsx:39-58 | the received records or the catalog's samples |
| AdminCatalog.CatalogPage.FetchDepartmentChoices | src/pages/admin/ManageServices.jsx:70-80 | the service form's department choices: the received departments or the two samples |
| CitizenProfile.ProfileForm | src/pages/citizen/CitizenProfile.jsx:22-27 | name, email, phone and address from the user, each "" when missing |
| CitizenProfile.SavedUserContract | src/pages/citizen/CitizenProfile.jsx:47-48 | the page has a user to save exactly when the backend answered, and it is the returned user |
| CitizenProfile.ProfilePage.HandleChange | src/pages/citizen/CitizenProfile.jsx:38-40 | only the named field changes |
| CitizenProfile.ProfilePage.StartEditing | src/pages/citizen/CitizenProfile.jsx:78 | edit mode is entered with the form, loading and effects unchanged |
| CitizenProfile.ProfilePage.HandleSubmit | src/pages/citizen/CitizenProfile.jsx:42-57 | success replaces the session user and leaves edit mode; failure keeps both; the location and alerts change only through a 401 or an unreachable server; the form is sent as it stands; loading false |
| CitizenProfile.ProfilePage.Cancel | src/pages/citizen/CitizenProfile.jsx:171-178 | leaves edit mode with the form rebuilt from the session user |
| CitizenRegister.RegistrationPayload | src/pages/auth/CitizenRegister.jsx:33-36 | every form field, the confirmation included, with the role set to "citizen" |
| CitizenRegister.RoleCannotBeChosen | src/pages/auth/CitizenRegister.jsx:33-36 | whatever role the form holds, a citizen is registered |
| CitizenRegister.RegisterPage.HandleChange | src/pages/auth/CitizenRegister.jsx:20-22 | only the named field changes |
| CitizenRegister.RegisterPage.HandleSubmit | src/pages/auth/CitizenRegister.jsx:24-42 | a mismatch alerts and sends nothing, changing neither session nor loading; otherwise the payload is registered, storage holds the issued session (or is cleared by a 401, or kept), the location and alerts follow the interceptor, loading ends false and the dashboard is reached exactly on success |
| AdminLogin.AfterLogin | src/pages/auth/AdminLogin.jsx:20-26 | navigation to the admin dashboard exactly for a successful admin login; another role throws; a failure does nothing |
| AdminLogin.AdminLoginPage.HandleSubmit | src/pages/auth/AdminLogin.jsx:14-27 | loading set and never cleared; the effects above; an issued session is stored whatever its role; otherwise the user is kept and storage is cleared only by a 401; the login request, location, alerts, the store's toast and its loading carry through from the store's login |
| AdminLogin.AdminLoginPage.SetEmail | src/pages/auth/AdminLogin.jsx:55 | the email becomes the typed text; the password, loading and effects are unchanged |
| AdminLogin.AdminLoginPage.SetPassword | src/pages/auth/AdminLogin.jsx:70 | the password becomes the typed text; the email, loading and effects are unchanged |
| AdminLogin.OfficerOnAdminPage | src/pages/auth/AdminLogin.jsx:21-23 | an officer signing in here is not let in but keeps a session that start-up restores and the officer area accepts |

## Left out

- Rendering, CSS, animation, icons and charts are not modelled. The landing, not-found and notification pages, the layout and the reports and users pages have no rules beyond rendering.
- CitizenLogin and OfficerLogin are not modelled. Each one calls `login` and navigates on success. The role they pass is dropped, which `AuthContext.Credentials` shows.
- Promises and timing are not modelled. Each handler runs to completion with the outcomes of its calls given as inputs. Interleavings of concurrent handlers, and responses that arrive after a page is gone, are not modelled. In the admin pages the unawaited refetch is applied at once, before the modal closes and before loading ends.
- Router matching details are not modelled. Paths are given as lists of segments. Splitting a URL, trailing slashes and case-insensitive matching are left out. Routes are tried in table order. React Router ranks routes by specificity instead. The two orders agree on this table, because no path matches two of its patterns, but the model does not prove that.
- The hard page load that follows `window.location.href = "/"` is not modelled. The model records the new location and leaves the in-memory state as it was.
- The `requestsAPI`, `departmentsAPI` and `servicesAPI` groups are abstract calls. The request-list and admin modules record the call and take its outcome; they do not run these calls through the bearer and 401 interceptors. Only `authAPI` goes through `Api.Http`.
- JSON serialisation of the stored user is not modelled. The stored user is the identity itself, and parse failures at start-up do not arise.
- Lower-casing is ASCII only. Unicode case folding and locale formatting are not modelled, and neither are dates.
- Api.AuthData, Api.ProfileBody: backend bodies are assumed to carry the fields the code reads. A login or registration payload always has `token` and `user`, and a profile body always has `user`. When a field is missing, the code does several things the model does not capture. `updateUser(undefined)` stores the string "undefined". A login writes the token and "undefined", and then throws on `userData.name`. The catch block reports "Login failed" while storage stays written. A null response body throws inside the `try` of `authAPI`, so a 2xx answer becomes a failure record.
- The response body of `getAll` is assumed to be an object. A missing `requests` field is modelled, but a missing `response.data` is not.
- Badge maps are modelled as lookups of the five or four status keys. Inherited object keys such as "constructor" are not modelled.
- `confirm` is modelled as a boolean input, and `alert` as an entry of the window's alert list.
- Only the create, update and filter operations that the core uses are modelled. The other endpoint groups (users, notifications, reports, payments) are not part of this model.
