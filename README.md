# Assignment portal front end — a Dafny model

This project models the client-side logic of the assignment portal, a React
single-page application for teachers and students. It covers:

- the session store (`AuthContext`): rehydrating a session from `localStorage`,
  signing in and signing out;
- the axios request interceptor, which adds the bearer token;
- the route table and its role guard;
- the login and registration pages;
- the two dashboards. On the teacher's, assignments are listed with status
  counts, created or updated, deleted, toggled between draft and published,
  and the submissions for one assignment can be shown in a modal. On the
  student's, assignments are listed along with the latest submission of each,
  and new submissions are made.

Every backend call is an input of the model. The handler gets the call's
reply (`Reply<T>`: `Ok(value)` or `Fail(HttpError(message, errMessage))`).
It returns `sent`, the ordered sequence of requests it issued, and alerts
are appended to an `alerts` field. `localStorage` is a `map<string, string>`.
JavaScript values that may be `undefined` or `null` are `Option`s, and JS
truthiness of such a value is `Common.Truthy` (a non-empty `Some`). The
components' state hooks become the fields of a `class`, one per component,
and each event handler becomes a method with a `modifies` frame.

Modules, by source file:

| module | file | models |
|---|---|---|
| `Common` | — | `Option`, JS truthiness, `a \|\| b`, `String.prototype.trim` |
| `LocalStorage` | — | `getItem` / `setItem` / `removeItem` |
| `Http` | — | the request, reply and error shapes shared by the handlers |
| `Entities` | — | assignments and submissions as the backend returns them |
| `Auth` | `src/context/AuthContext.jsx` | `AuthProvider`: rehydration, `login`, `logout` |
| `Api` | `src/api.js` | the request interceptor |
| `Routes` | `src/App.jsx` | `Protected` and the route table |
| `Login` | `src/pages/LoginPage.jsx` | `handleSubmit` |
| `Register` | `src/pages/RegisterPage.jsx` | the initial form, `handleChange`, `handleSubmit` |
| `Student` | `src/pages/StudentDashboard.jsx` | student id, `loadAll` and its reducer, the modal, submitting, signing out |
| `Teacher` | `src/pages/TeacherDashboard.jsx` | `loadAssignments`, `applyList`, save, delete, edit, toggle, the submissions modal |

Observations the model makes explicit:

- A session user never carries `_id` or `id`. This holds both for one built
  from `localStorage` and for one set by `login`, which stores only
  `{ token, role, name }`. So the teacher and student ids come only from the
  `userId` key in `localStorage` (`Auth.SessionUserIdComesFromStorage`), and no
  file here writes that key. For the same reason a saved assignment never
  carries `createdBy` (`Teacher.SessionSaveHasNoCreator`).
- After registering, the page navigates by the role chosen in the form, not
  by the role that `login` returns.
- In the student reducer, a submission whose `assignment` is a populated
  document without `_id` is keyed by the document itself, which becomes the
  property key `"[object Object]"`.

## Model

| member | source | states |
|---|---|---|
| Common.OrElse | src/pages/TeacherDashboard.jsx:120-121 | `a \|\| fallback` on a string: the value when it is truthy, otherwise the fallback; never empty when the fallback is not |
| Common.Trim | src/pages/LoginPage.jsx:17 | `trim()`: the result is the input with an all-whitespace prefix and suffix removed, it has no whitespace at either end when non-empty, and it is empty exactly when the input is all whitespace |
| Common.TrimStart | src/pages/LoginPage.jsx:17 | the result is a suffix of the input, and the part removed is all whitespace |
| Common.TrimEnd | src/pages/LoginPage.jsx:17 | the result is a prefix of the input, and the part removed is all whitespace |
| Common.TrimOfTrimmed | src/pages/LoginPage.jsx:17 | a string with no whitespace at either end trims to itself |
| Common.TrimIdempotent | src/pages/LoginPage.jsx:17 | trimming twice equals trimming once |
| LocalStorage.GetItem | src/context/AuthContext.jsx:9-11 | `getItem` is `null` exactly for an absent key, and otherwise is the stored value |
| LocalStorage.SetItem | src/context/AuthContext.jsx:18-20 | `setItem` stores the value under the key, adds the key, and leaves other keys as they were |
| LocalStorage.RemoveItem | src/context/AuthContext.jsx:26-28 | `removeItem` drops the key and leaves other keys as they were |
| Http.MessageOr | src/pages/LoginPage.jsx:22 | `err.response?.data?.message \|\| fallback` |
| Http.MessageOrErrorOr | src/pages/StudentDashboard.jsx:119 | the backend message, else the error's own message, else the fallback |
| Auth.Rehydrate | src/context/AuthContext.jsx:8-13 | a user exists exactly when the stored token is truthy; it holds the stored token, role and name, and no `_id` or `id` |
| Auth.StoreSession | src/context/AuthContext.jsx:18-20 | `token`, `role` and `name` are set to the login reply; every other key is unchanged |
| Auth.ClearSession | src/context/AuthContext.jsx:26-28 | the three session keys are removed and the rest is unchanged; afterwards rehydration finds no user |
| Auth.ResolveUserId | src/pages/StudentDashboard.jsx:8 | `user?._id \|\| user?.id \|\| localStorage.getItem("userId") \|\| null`, branch by branch; never an empty string |
| Auth.AuthProvider.constructor | src/context/AuthContext.jsx:8-13 | the initial user is the rehydrated one |
| Auth.AuthProvider.Login | src/context/AuthContext.jsx:15-23 | one `POST /auth/login` with the credentials; on success the session is stored, the user is set and the role is returned; on failure the error propagates and nothing changes |
| Auth.AuthProvider.Logout | src/context/AuthContext.jsx:25-30 | storage is the cleared session and the user is `null` |
| Auth.LoginThenRehydrate | src/context/AuthContext.jsx:8-23 | a reload after login rehydrates exactly the user login set (when the token is non-empty) |
| Auth.LogoutIdempotent | src/context/AuthContext.jsx:25-30 | signing out twice is the same as signing out once |
| Auth.LoginThenLogout | src/context/AuthContext.jsx:15-30 | login followed by logout leaves storage as logout alone would, with no session |
| Auth.SessionUserIdComesFromStorage | src/pages/StudentDashboard.jsx:8 | for any session user, the resolved id is the truthy `userId` storage entry or nothing |
| Api.RequestConfig.constructor | src/api.js:9 | a request config holds the given url, verb and headers |
| Api.WithBearer | src/api.js:10-14 | with no token the headers are untouched; with one, `Authorization` is `Bearer <token>`, created headers hold only it, and existing headers keep their other entries |
| Api.Intercept | src/api.js:9-16 | the same config object comes back, its headers updated by `WithBearer` |
| Routes.Protected | src/App.jsx:15-20 | renders the view exactly when there is a user and the role is absent or matches; every other case redirects to `/login` |
| Routes.Route | src/App.jsx:30-53 | `/login` and `/register` always render; the teacher and student views render exactly for a matching session; `/teacher` or `/student` with no session or another role redirects to `/login`, and so does every other path |
| Routes.RolesSeparated | src/App.jsx:34-50 | a teacher never gets the student dashboard, and a student never gets the teacher's |
| Routes.NoSessionOnlyPublicViews | src/App.jsx:30-53 | without a session only the login and registration views render |
| Login.DashboardFor | src/pages/LoginPage.jsx:18-19 | `/teacher` exactly for the role `teacher`, `/student` for any other |
| Login.LoginError | src/pages/LoginPage.jsx:22 | the backend message when present, else "Invalid email or password"; never empty |
| Login.LoginPage.constructor | src/pages/LoginPage.jsx:7-9 | email, password and error start empty |
| Login.LoginPage.HandleSubmit | src/pages/LoginPage.jsx:13-24 | logs in with the trimmed email and the raw password; success navigates by the returned role with no error; failure shows the message and does not navigate |
| Register.Initial | src/pages/RegisterPage.jsx:8-13 | every text field is empty and the role is `student` |
| Register.HandleChange | src/pages/RegisterPage.jsx:19-22 | the named field takes the new value and the others are unchanged |
| Register.RegisterPage.constructor | src/pages/RegisterPage.jsx:8-15 | the initial form, no error, not loading |
| Register.RegisterPage.Change | src/pages/RegisterPage.jsx:19-22 | the form becomes `HandleChange` of the old form |
| Register.RegisterPage.HandleSubmit | src/pages/RegisterPage.jsx:24-44 | register is posted first; login is called only after it succeeds, with the form's email and password; both succeeding navigates by the form's role; either failing sets the backend message or "Registration failed" and leaves the session as it was; loading ends false |
| Student.AssignmentKey | src/pages/StudentDashboard.jsx:48-49 | the reducer's `aid`, case by case: a non-empty id string is the key; an empty one falls back to the truthy `assignmentId`; a populated assignment gives its truthy `_id`, else `"[object Object]"`; with no `assignment` the key is the truthy `assignmentId` or none; never empty |
| Student.LatestKeys | src/pages/StudentDashboard.jsx:45-54 | the map's keys are exactly the keys of the keyed submissions |
| Student.LatestIndex | src/pages/StudentDashboard.jsx:50-53 | each map entry is the submission with that key and the greatest `createdAt`, the first such on ties |
| Student.LatestEntries | src/pages/StudentDashboard.jsx:45-54 | every map entry is such a latest submission |
| Student.LatestAtUnique | src/pages/StudentDashboard.jsx:50-53 | the latest submission for a key is unique |
| Student.BuildSubmissionsMap | src/pages/StudentDashboard.jsx:46-54 | the `forEach` loop computes the fold `Latest`: the latest submission per assignment, with exactly the keyed assignments as keys |
| Student.StudentLoad | src/pages/StudentDashboard.jsx:26-65 | `GET /assignments` first; its failure empties both lists; submissions are fetched only with a student id; their failure, or no id, leaves the map empty while keeping the assignments |
| Student.DecideSubmit | src/pages/StudentDashboard.jsx:90-103 | the submit guards, each exactly: no assignment; no student id and no token; an existing submission under the assignment's id; otherwise send with `_id \|\| id` |
| Student.DuplicateNeverSent | src/pages/StudentDashboard.jsx:96-103 | an assignment already in the map is never submitted again |
| Student.StudentDashboard.constructor | src/pages/StudentDashboard.jsx:8-19 | the student id is resolved; every list is empty and every modal is closed |
| Student.StudentDashboard.LoadAll | src/pages/StudentDashboard.jsx:26-65 | the dashboard shows `StudentLoad`'s lists and loading ends false |
| Student.StudentDashboard.OpenSubmissionModal | src/pages/StudentDashboard.jsx:67-72 | open in submit mode for the assignment with empty content; not viewing |
| Student.StudentDashboard.OpenViewSubmission | src/pages/StudentDashboard.jsx:74-79 | open in view mode for the submission; no current assignment |
| Student.StudentDashboard.CloseSubmissionModal | src/pages/StudentDashboard.jsx:81-86 | closed, with all four modal fields reset |
| Student.StudentDashboard.HandleSubmitAssignment | src/pages/StudentDashboard.jsx:88-124 | per `DecideSubmit`: with no current assignment nothing happens; without a student id or token it alerts and sends nothing; a duplicate alerts, sends nothing and closes the modal; a send posts `{assignmentId, content}` once, and on success reloads, alerts and closes; on failure it alerts the message and keeps the modal; submitting ends false; view and submit mode never coexist |
| Student.StudentDashboard.SignOut | src/pages/StudentDashboard.jsx:134-140 | `token`, `role`, `name` and `userId` are gone, the user is `null`, and the browser goes to `/login` |
| Teacher.CountStatus | src/pages/TeacherDashboard.jsx:63-65 | at most the list's length, and zero exactly when no assignment has that status |
| Teacher.CountIsIndicesWith | src/pages/TeacherDashboard.jsx:63-65 | the count equals the number of positions holding that status |
| Teacher.CountsBounded | src/pages/TeacherDashboard.jsx:62-65 | draft + published + completed never exceeds total |
| Teacher.StatsOf | src/pages/TeacherDashboard.jsx:60-67 | total is the length, and the three status counts sum to at most total |
| Teacher.StatsCountPositions | src/pages/TeacherDashboard.jsx:62-66 | each count in the stats is the number of positions in the list holding that status |
| Teacher.Query | src/pages/TeacherDashboard.jsx:34 | empty exactly for the filter `all`, otherwise `?status=` followed by the filter |
| Teacher.ScopedIsNotGeneral | src/pages/TeacherDashboard.jsx:39-49 | the teacher endpoint and the general fallback are different paths |
| Teacher.TeacherLoad | src/pages/TeacherDashboard.jsx:30-58 | with a teacher id the scoped endpoint is tried first; the general one is hit exactly when there is no id or the scoped call fails; the list is the first successful reply, else empty |
| Teacher.AllFailedLoadIsEmpty | src/pages/TeacherDashboard.jsx:52-54 | when every endpoint fails the list is empty and all counts are zero |
| Teacher.ToggledStatus | src/pages/TeacherDashboard.jsx:130 | always `draft` or `published`, and `draft` exactly when the status was `published` |
| Teacher.ToggleTwice | src/pages/TeacherDashboard.jsx:130 | toggling twice restores a draft or published status |
| Teacher.CreatedBy | src/pages/TeacherDashboard.jsx:75 | `user?._id \|\| user?.id \|\| undefined`: the truthy `_id`, else the truthy `id`, else none (also without a user) |
| Teacher.SavePayload | src/pages/TeacherDashboard.jsx:75-77 | the form's four fields, with `createdBy` equal to `CreatedBy(user)`, present exactly when the user has a truthy `_id` or `id` |
| Teacher.SessionSaveHasNoCreator | src/pages/TeacherDashboard.jsx:75-77 | for a rehydrated session the payload has no `createdBy` |
| Teacher.SaveRequest | src/pages/TeacherDashboard.jsx:79-86 | `PUT /assignments/<id>` when editing, otherwise `POST /assignments`, with the payload |
| Teacher.BlankTitleIsTrimTest | src/pages/TeacherDashboard.jsx:72 | the title test `!title \|\| title.trim() === ""` is the all-whitespace test |
| Teacher.EditForm | src/pages/TeacherDashboard.jsx:119-124 | title and description default to "", the due date to "" when missing (otherwise its ISO day), the status to `draft` |
| Teacher.TeacherDashboard.constructor | src/pages/TeacherDashboard.jsx:9-22 | empty list, zero counts, filter `all`, the default form, everything closed |
| Teacher.TeacherDashboard.ApplyList | src/pages/TeacherDashboard.jsx:60-67 | the list is shown and the counts are recomputed from it |
| Teacher.TeacherDashboard.LoadAssignments | src/pages/TeacherDashboard.jsx:30-58 | issues `TeacherLoad`'s requests and shows its list; the counts match the list; loading ends false |
| Teacher.TeacherDashboard.HandleCreate | src/pages/TeacherDashboard.jsx:70-98 | a blank title alerts "Title required" and changes nothing else; any other title behaves as `Save` |
| Teacher.TeacherDashboard.Save | src/pages/TeacherDashboard.jsx:73-97 | one save request; on success the reload's requests follow it, the list is the reloaded one, the form is reset, the editor is closed and the editing id is cleared after an update; on failure it alerts "Save failed: …" and keeps the form, the editor and the list; loading ends false |
| Teacher.TeacherDashboard.DeleteAssignment | src/pages/TeacherDashboard.jsx:101-114 | declining changes nothing; otherwise one `DELETE`; success alerts and reloads; failure alerts the message or "Delete failed" |
| Teacher.TeacherDashboard.OpenEdit | src/pages/TeacherDashboard.jsx:117-126 | the editing id is `_id \|\| id`, the form is `EditForm`, and the editor opens |
| Teacher.TeacherDashboard.ToggleStatus | src/pages/TeacherDashboard.jsx:129-142 | declining changes nothing; otherwise `PUT {status}` with the toggled status, then a reload; failure alerts the message or "Could not change status" |
| Teacher.TeacherDashboard.FetchSubmissions | src/pages/TeacherDashboard.jsx:145-157 | one `GET /submissions/assignment/<id>`; the reply's list, or empty on failure; not loading afterwards |
| Teacher.TeacherDashboard.OpenSubmissionsModal | src/pages/TeacherDashboard.jsx:159-164 | the modal opens for the assignment and fetches its submissions by `_id \|\| id` |
| Teacher.TeacherDashboard.CloseSubmissionsModal | src/pages/TeacherDashboard.jsx:166-170 | the modal closes with no current assignment and an empty list |

## Left out

- Rendering: JSX, styles, the `StatCard` component, the tables and forms' markup. Only state and handlers are modelled.
- The shared page header (`src/components/Header.jsx`) is not part of this model.
- Transport: axios itself, the base URL and the network are replaced by reply inputs. The duck typing of response shapes (`Array.isArray(data) ? data : data.assignments || …`) is left out, and a reply is the list itself.
- Dates: `createdAt` is an integer timestamp. `new Date` parsing, invalid dates (where every comparison is false) and time zones are not modelled. `openEdit`'s `toISOString().slice(0, 10)` is the input `isoDay`, and the `RangeError` an unparsable due date would raise is not modelled.
- Browser dialogs and navigation: `window.confirm` is the input `confirmed`; `alert` text goes to the `alerts` field; `navigate` is the returned `nav`; assigning `window.location` is the returned `location`.
- `console.warn` and `console.error` logging.
- React scheduling: effects (the load on mount and the filter effect that re-runs `loadAssignments`), batching of state updates, and interleaving of concurrent async handlers. In particular, `openSubmissionsModal` does not await `fetchSubmissions`, but the model runs the fetch to completion within the call, and state writes after unmount are not modelled.
- The router's case-insensitive and trailing-slash path matching; paths are compared exactly.
- Api.Intercept: headers are a value, so aliasing of a headers object shared with other configs is not modelled.
- Register.HandleChange: a change event whose `name` is not one of the four fields (which would add an extra key to the form) is not modelled.
- Student.BuildSubmissionsMap: the reducer's map is a plain JavaScript object in the source, so a key such as `constructor`, `toString` or `__proto__` already reads as truthy and is never stored, and the submit guard then always reports "already submitted". The model's map has no inherited keys; ids are assumed to be backend ObjectIds, which never collide with these names.
- Entities.IdText: `null` and `undefined` are both `None`, and an absent id is always rendered as `"undefined"`. A `null` id would give the text `"null"` (in `/assignments/null` or as a map key) and be sent as `assignmentId: null`. Ids from the backend are assumed never to be `null`.
- Auth.LoginData: the login reply is three strings. A reply missing `token`, `role` or `name` would store the text `"undefined"` while the user holds `undefined`, so `LoginThenRehydrate` holds only for replies that carry all three strings, as the backend's always do.
- Backend fields of non-string types (numeric ids, a `status` that is not a string) are not modelled; ids and statuses are optional strings.
- Register.RegisterPage.HandleSubmit: `loading` is true while the requests are in flight, but the contract states only that it is false at the end.
- Login.LoginPage and Register.RegisterPage: the input `onChange` setters for the login fields are plain field assignments and are not modelled as separate methods.
- `useAuth() || {}` on the student dashboard with no provider mounted: the model always has a provider.
