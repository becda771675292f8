# LMS front end: decision rules and session state

A Dafny model of the logic inside the React front end of a learning-management site: the
rewriting of YouTube links into embeddable player URLs, the role-based route guard and the
route table, the authentication context with its copy of the user and the bearer token in
local storage, the request interceptor that attaches that token, the sign-in / sign-up form,
and enrollment on the course catalogue page.

Every network call is an input: a `Result` that is either the response's `data` or an
`HttpError` carrying the server's optional message. Methods that issue a request return the
request (path and body) as a value. Where the source awaits a call, the state in force while
the request is outstanding (the `loading` and `isLoading` flags, the `enrolling` marker) is
returned as a ghost out-parameter, so "true during the call, false after it" is stated.

Modules, one per source file, plus four shared ones:

- `Wrappers`: `Option` (JavaScript null/undefined) and `Result` (a resolved or rejected call).
- `Records`: the user record, `HttpError`, JavaScript truthiness of optional strings and the
  `m || fallback` idiom.
- `Storage`: `localStorage` as a class over a `map<string, string>`, and the two keys
  `lms_user` and `token`.
- `Serial`: a reversible text encoding of the user record. It stands in for
  `JSON.stringify`/`JSON.parse` but is not JSON: decoding accepts exactly the texts that its
  own encoder produces (an escape before an ordinary character is malformed), so the
  initialiser rejects any other stored text (see "## Left out").
- `Youtube` (src/lib/youtube.js), `ProtectedRoute`, `App` (the route table), `AuthContext`,
  `Api`, `AuthForm` (src/pages/authpage.jsx) and `Courses` (src/pages/courses.jsx).
- `Session`: how `AuthContext` and `Api` interact through the shared store.

Pure source code is written as functions and lemmas. Code that updates state is written as
classes whose methods have `modifies` clauses naming only the fields the source assigns:
`AuthProvider`, `Client`, `RequestConfig`, `AuthPage`, `CoursesPage` and `LocalStorage`.

## Model

| member | source | states |
|---|---|---|
| `Youtube.IncludesMeansSubstring` | src/lib/youtube.js:5-9 | `includes` holds exactly when the name occurs as a contiguous substring of the host |
| `Youtube.QueryGet` | src/lib/youtube.js:10 | the result is None exactly when no pair has the key; otherwise it is the value of the first pair with that key |
| `Youtube.EmbedUrl` | src/lib/youtube.js:1-18 | an input the URL parser rejected yields null, and every non-null result starts with `https://www.youtube.com/embed` |
| `Youtube.ShortLinkKeepsPath` | src/lib/youtube.js:5-6 | a host containing `youtu.be` yields the embed prefix followed by the pathname verbatim, whatever the query and whatever else the host contains |
| `Youtube.WatchPageUsesFirstV` | src/lib/youtube.js:9-14 | a `youtube.com` host that is not a short-link host yields `.../embed/` plus the first `v` value when it is non-empty, and null when `v` is missing or empty |
| `Youtube.OtherHostYieldsNothing` | src/lib/youtube.js:5-14 | a host containing neither name yields null |
| `Youtube.EmbedExactlyWhen` | src/lib/youtube.js:5-14 | a parsed URL gets an embed URL if and only if its host contains `youtu.be`, or contains `youtube.com` and has a non-empty first `v` |
| `Youtube.ShortLinkBeforeWatchPage` | src/lib/youtube.js:5-11 | for every URL whose host contains both "youtu.be" and "youtube.com", the short-link rule wins: the result is the path form and `v` is ignored |
| `Youtube.ContainmentExample` | src/lib/youtube.js:5-9 | host matching is containment, not equality: "www.youtu.be.youtube.com", equal to neither name, is accepted and takes the path form |
| `ProtectedRoute.Decide` | src/components/ProtectedRoute.jsx:4-14 | the outcome is admission or a redirect to "/"; it admits exactly a signed-in user whose role is in the list, or any signed-in user when the list is omitted (an empty list admits nobody) |
| `ProtectedRoute.MoreRolesAdmitMore` | src/components/ProtectedRoute.jsx:9 | adding roles to the list never turns an admission into a redirect |
| `ProtectedRoute.OmittedRolesAdmitMost` | src/components/ProtectedRoute.jsx:9-13 | whoever some role list admits is admitted when the list is omitted |
| `App.FirstMatch` | src/App.jsx:12-30 | a found route matches the path, and a list ending in the catch-all always yields a route |
| `App.FirstMatchIsListed` | src/App.jsx:12-30 | a found route is one of the routes searched |
| `App.FirstMatchNoneExactly` | src/App.jsx:12-30 | no route is found exactly when no route of the list matches the path |
| `App.Lookup` | src/App.jsx:12-30 | every path selects a route that matches it (the catch-all makes this total) |
| `App.Show` | src/App.jsx:12-30 | an unguarded route shows its target; a guarded route shows its target exactly to a signed-in user whose role is listed (any signed-in user when the list is omitted) and otherwise redirects to "/" |
| `App.Visit` | src/App.jsx:12-30 | visiting a path shows the selected route's target or redirects to "/"; without a user every guarded route redirects to "/" |
| `App.PatternsAreDisjoint` | src/App.jsx:13-27 | no path matches two routes in front of the catch-all, so declaration order among them is immaterial |
| `App.RootShowsAuthScreen` | src/App.jsx:13 | "/" is unguarded and shows the auth page to everyone |
| `App.MemberPages` | src/App.jsx:15-19 | `/home`, `/courses` and `/course/:courseId` show their page to every signed-in user and redirect to "/" without a user |
| `App.StudentDashboard` | src/App.jsx:21-23 | `/dashboard/student` shows the dashboard exactly to users with role "student" and redirects to "/" otherwise |
| `App.TeacherDashboard` | src/App.jsx:25-27 | `/dashboard/teacher` shows the dashboard exactly to users with role "educator" and redirects to "/" otherwise |
| `App.UnmatchedGoesHome` | src/App.jsx:29 | a path the table does not name redirects to "/", signed in or not |
| `App.RedirectsGoToRoot` | src/App.jsx:13-29 | every redirect, from a guard or from the catch-all, targets "/" |
| `App.AtMostOneRedirect` | src/App.jsx:13-29 | following a redirect lands on the auth page, so resolving a path takes at most one redirect |
| `Storage.GetItem` | src/lib/api.js:12 | reading a key yields a value exactly when the key is present, and then the stored value |
| `Storage.LocalStorage.Get` | src/lib/api.js:12 | `getItem` yields a value exactly when the store holds the key |
| `Storage.LocalStorage.Set` | src/context/AuthContext.jsx:17-18 | the store afterwards maps the key to the value and is otherwise unchanged |
| `Storage.LocalStorage.Remove` | src/context/AuthContext.jsx:20-21 | the store afterwards lacks the key and is otherwise unchanged |
| `Serial.ParseStringify` | src/context/AuthContext.jsx:10 | decoding the stored text of a user yields that same user |
| `Serial.ParseOnlyEncodings` | src/context/AuthContext.jsx:10 | a text that decodes to a user is exactly that user's encoding, so decoding accepts nothing else |
| `Serial.RedundantEscapeRejected` | src/context/AuthContext.jsx:10 | the redundantly escaped text `\a;b;c;-` does not decode |
| `AuthContext.PersistedStore` | src/context/AuthContext.jsx:14-23 | with a user and a non-empty token both keys are written with the encoded user and the token, otherwise both are removed; either way the keys end up paired and no other key changes |
| `AuthContext.InitialUser` | src/context/AuthContext.jsx:8-11 | an absent or empty `lms_user` gives no user; a present one gives the user it decodes to, or the unreadable-cached-user error carrying the stored text when it does not decode |
| `AuthContext.ForeignTextRejected` | src/context/AuthContext.jsx:8-11 | a non-empty cached text that is no user's encoding makes the initialiser report that text as unreadable |
| `AuthContext.ReloadRestoresUser` | src/context/AuthContext.jsx:8-17 | after persisting a user with a token, the initialiser yields that user |
| `AuthContext.ReloadAfterClearIsSignedOut` | src/context/AuthContext.jsx:8-21 | after a clearing persist, the initialiser yields no user |
| `AuthContext.NoCachedUserStartsSignedOut` | src/context/AuthContext.jsx:8-11 | without `lms_user` the initial user is null |
| `AuthContext.InitialUserIgnoresToken` | src/context/AuthContext.jsx:8-11 | writing or removing the `token` key does not change the initial user |
| `AuthContext.UseAuth` | src/context/AuthContext.jsx:69-73 | inside a provider the context value is returned; outside one the hook throws its fixed message |
| `AuthContext.AuthProvider.constructor` | src/context/AuthContext.jsx:8-12 | a new provider starts with the initial user read from the store and `loading` false |
| `AuthContext.AuthProvider.Mount` | src/context/AuthContext.jsx:8-11 | mounting succeeds exactly when the initialiser does not throw, and then yields the initial user; otherwise it reports the unreadable text |
| `AuthContext.AuthProvider.PersistUser` | src/context/AuthContext.jsx:14-23 | the in-memory user becomes the argument whatever the token, and the store becomes `PersistedStore` of the old store |
| `AuthContext.AuthProvider.Login` | src/context/AuthContext.jsx:25-34 | posts email and password to `/auth/{role}/login`; `loading` is true during the call and false after; success persists and returns the user, failure changes neither user nor store and returns the error |
| `AuthContext.AuthProvider.Register` | src/context/AuthContext.jsx:36-45 | posts name, email, password and grade (no role) to `/auth/{role}/register`; same loading, success and failure behaviour as sign-in |
| `AuthContext.AuthProvider.Logout` | src/context/AuthContext.jsx:47-55 | posts to `/auth/logout`; whether or not that fails, the user is null, both keys are gone and no other key changed |
| `Api.WithBearer` | src/lib/api.js:11-17 | a non-empty token sets Authorization to exactly "Bearer " + token; an absent or empty token leaves the headers as they were; no other header changes |
| `Api.Client.Json` | src/lib/api.js:3-9 | the JSON client has base URL `/api`, sends credentials and has Content-Type `application/json` |
| `Api.Client.Multipart` | src/lib/api.js:20-26 | the multipart client has the same base URL and credentials and differs only in Content-Type `multipart/form-data` |
| `Api.Client.Intercept` | src/lib/api.js:28-34 | only the config's headers change, and they become `WithBearer` of the old headers and the token stored when the request is made; both clients run this one interceptor |
| `Session.NoBearerAfterClear` | src/lib/api.js:12-13 | once `persistUser` has cleared the store, the interceptor adds no Authorization header |
| `Session.BearerAfterSignIn` | src/lib/api.js:12-14 | after persisting a user with a token, requests carry exactly that token |
| `Session.LogoutThenRequest` | src/context/AuthContext.jsx:47-54 | after logout, even a failed one, a request through a client on the same store leaves with its headers untouched |
| `Session.FreshRequestAfterLogout` | src/lib/api.js:11-17 | after logout, even a failed one, a new request config built without headers leaves with no Authorization header |
| `Session.SignInThenRequest` | src/lib/api.js:12-14 | a sign-in made after the client was created is seen by the next request, because the token is read per request |
| `AuthForm.Changed` | src/pages/authpage.jsx:29-31 | the named field takes the new value and every other field keeps its value |
| `AuthForm.Payload` | src/pages/authpage.jsx:37-48 | sign-in carries exactly email, password and role; sign-up takes its name from fullName and carries the grade exactly when the role is student |
| `AuthForm.Destination` | src/pages/authpage.jsx:50 | the target is "/dashboard/teacher" exactly for the educator role and "/dashboard/student" exactly for the student role |
| `AuthForm.DestinationAdmitted` | src/pages/authpage.jsx:50 | the dashboard chosen after a successful submit is one the route table admits for a user of the selected role |
| `AuthForm.DestinationNeedsMatchingRole` | src/pages/authpage.jsx:50 | a user whose role is neither student nor educator is redirected from whichever dashboard is chosen |
| `AuthForm.AuthPage.constructor` | src/pages/authpage.jsx:18-27 | the page starts as student, in sign-up mode, not loading, with grade "1st" and empty text fields |
| `AuthForm.AuthPage.SelectRole` | src/pages/authpage.jsx:118-129 | the toggle buttons set the role and nothing else |
| `AuthForm.AuthPage.ToggleMode` | src/pages/authpage.jsx:240 | the link flips the mode and nothing else, so toggling twice restores it |
| `AuthForm.AuthPage.HandleChange` | src/pages/authpage.jsx:29-31 | the form becomes `Changed` of the old form, nothing else changes |
| `AuthForm.AuthPage.HandleSubmit` | src/pages/authpage.jsx:33-58 | sends the payload for the mode and role; `isLoading` is true during the call and false after; success navigates to the role's dashboard and persists the session, failure alerts the server message or "Connection failed. Please try again." and leaves the session alone |
| `Courses.QueryFor` | src/pages/courses.jsx:27-33 | a student with a non-empty grade gets the grade-filtered course query, everybody else the unfiltered one |
| `Courses.CourseIds` | src/pages/courses.jsx:24 | the set holds exactly the course ids of the enrollments |
| `Courses.EnrollButton` | src/pages/courses.jsx:130-148 | the button is shown only to students; it is disabled exactly when the course is enrolling or enrolled; the label is "Enrolling..." first, then "Enrolled", else "Enroll Now" (exactly when enabled); the text shown is "Enroll Now" exactly when the button is enabled and "Enrolling..." while that course is enrolling |
| `Courses.CoursesPage.constructor` | src/pages/courses.jsx:12-17 | the page starts with empty lists, an empty enrolled set and empty markers |
| `Courses.CoursesPage.FetchData` | src/pages/courses.jsx:20-40 | issues the enrolled-courses request for students only, then the course query of `QueryFor`, then the educators; the first failure stops the rest and sets its message or "Failed to load courses"; the enrolled set is seeded only for students |
| `Courses.CoursesPage.Enroll` | src/pages/courses.jsx:44-57 | clears error and message and marks the course as enrolling during the call; success adds the id and shows the server message or "Enrolled", failure keeps the set and shows the server message or "Failed to enroll"; the marker is "" afterwards; a successful enrollment removes no id, and re-enrolling an enrolled id leaves the set unchanged |
| `Courses.EmptyIdLooksEnrolling` | src/pages/courses.jsx:133-142 | because "" is also the not-enrolling marker, a course whose id is "" reads "Enrolling..." and is disabled while nothing is under way |
| `Courses.ButtonAfterEnroll` | src/pages/courses.jsx:133-147 | during the call the button reads "Enrolling..." and is disabled; after success it reads "Enrolled" and stays disabled |
| `Courses.ButtonAfterFailedEnroll` | src/pages/courses.jsx:133 | after a failed enrollment the button is disabled exactly when the course was already enrolled |

## Left out

- Rendering, CSS classes, icons and layout, and the pages and components that only present
  fetched data: src/pages/home.jsx, src/components/Navbar.jsx, src/pages/course-details.jsx,
  src/pages/dashboard.jsx and src/components/DoubtSolver.jsx. Their role-based choices are the
  same rule as `AuthForm.Destination` and `Courses.IsStudent`.
- Real HTTP and the server: each call's outcome is a parameter. The requests that the auth
  context sends are returned as values and are not themselves passed through
  `Api.Client.Intercept`; axios's merging of instance defaults into each request config is not
  modelled; `axios.defaults.withCredentials` is not modelled.
- `new URL` and `URLSearchParams` decoding: `Youtube.EmbedUrl` takes the parse result
  (`None` when the parser throws) with the query already decoded into ordered pairs.
- `Serial`: stands in for `JSON.stringify`/`JSON.parse` and is not JSON. The source's
  initialiser throws only on stored text that is not valid JSON; the model's initialiser
  reports `UnreadableCachedUser` for every stored text its own encoder did not produce, which
  includes every JSON text (for example `{"name":"a","email":"b","role":"student"}`, which the
  source reads as a user, and `"null"`). Only texts written by the persist step are read back
  (`Serial.ParseOnlyEncodings`, `AuthContext.ForeignTextRejected`).
- `Courses.ButtonAfterEnroll` and `Courses.ButtonAfterFailedEnroll` require a non-empty course
  id: with the id "" the button reads "Enrolling..." and stays disabled whatever happened,
  because "" is also the not-enrolling marker; `Courses.EmptyIdLooksEnrolling` states this case.
- `encodeURIComponent`: `Courses.CourseQuery` carries the grade itself, not its encoded form.
- react-router: the matcher handles exact paths, one dynamic segment after `/course/`, and the
  catch-all. Case-insensitive matching, trailing slashes, percent-decoding of paths, the value
  of `:courseId` and the `replace` history mode are not modelled.
- `handleChange` for an input name other than the form's four fields, which would add a new
  key to the form object.
- React scheduling: every state setter takes effect at once, and `fetchData` and `enroll` are
  never interleaved. The functional update of the enrolled set is sequential set insertion.
- `e.preventDefault()`, `console.error`, and `alert`, which becomes the `Alerted` outcome.
- Course, educator and enrollment records keep only the fields the logic reads.
