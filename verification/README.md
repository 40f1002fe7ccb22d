# Barbershop site: admin gate, greeting, time stamps and appointment log

A Dafny model of the logic in `app.rb` of a small Sinatra booking site. The rest of the
file is routes that only render a template.

- **Admin gate** (`gate.dfy`, module `Gate`). The session holds two optional entries,
  `identity` and `previous_url`. Every request to `/admin` runs the `before '/admin'`
  filter first, whatever its HTTP method. The filter halts an anonymous visitor with a
  warning-styled login form and records the request path as `previous_url`. A request it
  lets through gets the admin view for GET (and HEAD, which Sinatra's `get` also answers)
  and finds no route (not found) for any other method. POST /login/attempt accepts exactly the username
  `admin` with the password `admin`. On success it stores the username as `identity`
  and redirects with `to(previous_url)`, or `to('/admin')` when none is recorded. On failure it
  re-renders the form with a danger-styled error and leaves the session alone. GET /logout
  deletes `identity` only. Every request is a pure function from the old session to a
  `Response`: the new session plus an `Outcome` (render admin, render the login form with
  error text and two style classes, redirect, render logout, not found).
- **Request sequences** (`traces.dfy`, module `Traces`). `Serve` threads one session
  through a sequence of requests. The lemmas describe what the gate allows over time.
  Starting anonymous, request `i` gets the admin view exactly when it is an admin visit
  and an earlier good login has not been undone by a logout. `previous_url` is the
  request path of the last request the admin filter blocked (GET or not), or its starting
  value when none was blocked, so a good login redirects back to that path.
- **Session routes in place** (`session_store.dfy`, module `AdminRoutes`). Class
  `SessionStore` holds the two session entries as fields. Its methods assign them the
  way the routes do, and each method's postcondition ties the new state and the answer
  to the pure transition in `Gate`.
- **Time stamps** (`timestamp.dfy`, module `TimeFormat`). `time_stamp` formats a clock
  reading with `%Y%m%d-%H%M%S`; the clock fields are parameters. The model proves the
  shape: fifteen characters for a four-digit year, a `-` seven from the end, digits
  everywhere else. It proves that parsing a stamp gives back the clock reading. It also
  proves that stamps with four-digit years sort as strings in the order of their clock
  readings, compared field by field.
- **Appointment log** (`appointments.dfy`, module `Appointments`). The submit route
  copies four parameters into a record. `save_appointment` appends one line to
  `customers.jsonl`. Each line is the single-key entry `{stamp => record}`. Class
  `CustomersLog` holds the file as a sequence of lines. `Logged` and `LoggedAppends`
  show that N submissions add exactly N lines in order and leave earlier lines unchanged.

Two facts about `app.rb` that the model keeps:
- The record has exactly four fields: name, phone, date, time.
- Logout deletes only `identity`; `previous_url` survives logout and a successful login.

## Model

| member | source | states |
|---|---|---|
| Gate.AdminFilter | app.rb:48-56 | The filter lets the route run, with the session unchanged, exactly when `identity` is present. Otherwise it halts with the login form: the error "Sorry, in order to visit '<path>' you must log in", styles `bg-warning`/`text-dark`. It sets `previous_url` to the request path and leaves `identity` absent. |
| Gate.VisitAdmin | app.rb:44-56 | GET /admin renders the admin view if and only if the session is authenticated, and then leaves the session unchanged. An anonymous session gets the warning form for the request path and `previous_url` set to that path. |
| Gate.OtherMethodAdmin | app.rb:48-56 | A request to `/admin` with a method other than GET or HEAD finds no route exactly when the session is logged in, and then leaves it unchanged. From an anonymous session it is blocked like GET: the warning form, and `previous_url` set to its path. |
| Gate.Login | app.rb:58-71 | A login succeeds if and only if both username and password are present and equal "admin". On success `identity` becomes the submitted username, `previous_url` is kept, and the redirect target is `previous_url` if recorded, else `/admin`. On failure the session is unchanged and the outcome is the form with "Wrong username or password", `bg-danger`/`text-white`. |
| Gate.Logout | app.rb:39-42 | Logout leaves no identity, keeps `previous_url` and renders the logout view. |
| Gate.Step | app.rb:39-71 | Dispatch: the admin view comes only from an authenticated admin visit, a redirect only from a login, the login ends only by a logout, and `previous_url` changes only when the admin filter blocks a request, GET or not, and is then that request's path. |
| Gate.Username | app.rb:74-76 | The greeting is the stored identity when present, otherwise "Hello stranger". |
| Gate.LogoutIdempotent | app.rb:39-42 | Logging out twice gives the same session and outcome as logging out once. |
| Gate.LogoutBlocksAdmin | app.rb:39-56 | After logout, the next admin visit, at any path, gets the warning login form instead of the admin view. |
| Gate.BlockedThenLoginReturns | app.rb:48-64 | From an anonymous session, a blocked admin visit at any request path followed by a good login redirects with `to` applied to that path, whatever was recorded before, and leaves the session authenticated. |
| Gate.OtherMethodRetargets | app.rb:48-64 | After a blocked GET at one path, an anonymous request to `/admin` with another method at another path makes the next good login redirect with `to` applied to the second path. |
| Gate.UsernameAcrossLogin | app.rb:58-76 | After a good login the greeting is "admin". After logout it is "Hello stranger". |
| Traces.Serve | app.rb:39-71 | Serving a sequence of requests answers each one: one outcome per request. |
| Traces.ServeAt | app.rb:39-71 | The answer to request `i` is the single-step answer in the session left by the requests before it. |
| Traces.ServeKeepsAdminIdentity | app.rb:58-62 | From a session whose `identity` is absent or "admin", no request sequence stores any other identity. |
| Traces.PreviousUrlUntouched | app.rb:48-56 | With no request blocked by the admin filter among the first `k` requests, `previous_url` still has its starting value. |
| Traces.PreviousUrlIsLastBlocked | app.rb:48-56 | After the first `k` requests, `previous_url` is exactly the request path of the last request among them that reached the admin filter, with any method, while anonymous: the last write wins, and requests from a logged-in session write nothing. |
| Traces.RedirectToLastBlocked | app.rb:58-64 | A good login redirects with `to` applied to the request path of the last request the admin filter blocked before it. |
| Traces.RedirectWithoutBlocked | app.rb:58-64 | A good login with no request blocked by the admin filter before it redirects with `to` applied to the starting `previous_url`, or to `/admin` when none was recorded. |
| Traces.BlockedWrongThenRight | app.rb:48-71 | From an anonymous session, a blocked visit at some path, a wrong login and a good login are answered with the warning form, the danger form, and a redirect with `to` applied to that path. |
| Traces.AuthenticatedIff | app.rb:39-71 | Starting anonymous, the session is authenticated after `k` requests if and only if one of them was a good login with no logout after it. |
| Traces.AdminViewIff | app.rb:39-71 | Starting anonymous, request `i` is answered with the admin view if and only if it is an admin visit and an earlier good login has not been undone by a logout. |
| AdminRoutes.SessionStore.constructor | app.rb:6-8 | A new session holds neither entry. |
| AdminRoutes.SessionStore.BeforeAdmin | app.rb:48-56 | The filter in place: it returns no halt exactly when authenticated, and then changes nothing. Otherwise it assigns `previous_url` the path and returns the warning form. Its result agrees with `Gate.AdminFilter`. |
| AdminRoutes.SessionStore.GetAdmin | app.rb:44-56 | The filter plus the route in place for a given request path: the outcome is the admin view if and only if the old session was authenticated, and the new state agrees with `Gate.VisitAdmin`. |
| AdminRoutes.SessionStore.OtherMethodToAdmin | app.rb:48-56 | The filter in place for a request to `/admin` with a method other than GET or HEAD: not found if and only if the old session was logged in, and the new state agrees with `Gate.OtherMethodAdmin`. |
| AdminRoutes.SessionStore.PostLoginAttempt | app.rb:58-71 | Redirect if and only if both credentials are "admin". On success `identity` is assigned and `previous_url` kept. On failure the state is unchanged and the danger form is shown. Agrees with `Gate.Login`. |
| AdminRoutes.SessionStore.GetLogout | app.rb:39-42 | Removes `identity`, keeps `previous_url`. Agrees with `Gate.Logout`. |
| AdminRoutes.SessionStore.Handle | app.rb:39-71 | Dispatching a request in place agrees with `Gate.Step`. |
| AdminRoutes.AdminRoundTrip | app.rb:39-71 | A new visitor visits the admin page at some path, logs in, visits it again, logs out and visits it again. The outcomes are: blocked, a redirect with `to` applied to that path, admin view, logout view, blocked. |
| TimeFormat.YearWidth | app.rb:80 | `%Y` prints exactly four digits when the year is below 10000. Otherwise it prints exactly the year's own digits, with no padding. |
| TimeFormat.TimeStamp | app.rb:78-81 | The stamp has the year's width plus 11 characters, which is 15 exactly for four-digit years. It has `-` seven characters from the end and digits in both halves. |
| TimeFormat.TimeStampRoundTrip | app.rb:78-81 | Parsing a stamp gives back the clock reading it was made from, so distinct readings give distinct stamps. |
| TimeFormat.TimeStampOrder | app.rb:78-81 | For four-digit years, one stamp is lexicographically smaller than another if and only if its clock reading is earlier. |
| Appointments.Param | app.rb:20-23 | A parameter is present, with its string value, exactly when the parameter map holds its key. Otherwise it is nil. |
| Appointments.AppointmentRecord | app.rb:20-28 | Each record field is present exactly when the parameter of its own name is, and then holds that parameter's value: name from `customer_name`, phone from `customer_phone`, date from `appointment_date`, time from `appointment_time`. |
| Appointments.RecordIgnoresOtherParams | app.rb:20-28 | The record depends only on the four form fields: adding, changing or removing any other parameter leaves it unchanged. |
| Appointments.Logged | app.rb:83-88 | Saving a run of submissions adds exactly one line per submission. |
| Appointments.LoggedAppends | app.rb:83-88 | N submissions add exactly N lines. The earlier lines are unchanged, and the `i`-th new line is the stamp-keyed record of submission `i`. |
| Appointments.LoggedConcat | app.rb:83-88 | Logging one run of submissions and then another gives the same file as logging both runs together. |
| Appointments.CustomersLog.constructor | app.rb:84 | The log opened in append mode starts with the lines already in the file. |
| Appointments.CustomersLog.SaveAppointment | app.rb:83-88 | Appends exactly one line, `{time_stamp => data}`, after the existing lines. |
| Appointments.CustomersLog.SubmitAppointment | app.rb:18-33 | Logs the record built from the four parameters as one submission, and renders the success page titled "Success!" with that record. |
| Appointments.TwoSubmissions | app.rb:18-33 | Two submit calls against an existing file leave it as `Logged` of both submissions, in order. |

## Left out

- ERB templates and every GET route that only renders one (`/`, `/appointment/form`, `/login/form`): renders are `Outcome` or `Page` values.
- Sinatra's session storage, cookies and expiry: the session is an explicit value, or a `SessionStore` object, per browser.
- `halt` and `redirect` are outcome values. `Redirect(target)` holds the argument passed to Sinatra's `to`. `to` puts the scheme, the host and `request.script_name` in front of that argument. The browser therefore lands on the recorded path only when the app is mounted at the root. Under a mount prefix such as `/shop`, the recorded `previous_url` is `/shop/admin` and the redirect goes to `/shop/shop/admin`. The model does not capture that prefix.
- Sinatra's route matching: which request paths reach the `/admin` filter and route is not modelled. The filter runs for every method, while the route answers GET and HEAD only. A request to `/admin` carries its `request.path` as a parameter, because that path can differ from `/admin`, for example under a mount prefix or in percent-encoded form.
- Request parameters are strings. Rack's nested array and hash parameters (`customer_name[]=…`) and keys sent without a value (which read as nil) are not modelled.
- `Time.now`: the clock reading is a parameter. Its fields are assumed to lie in the ranges Ruby's `Time` keeps them in. Negative years are not modelled.
- TimeFormat.TimeStampOrder: proved only for years below 10000. At 10000 the year field grows to five digits and string order no longer follows time order.
- File I/O (`File.open`, `write`, `close`) and their failures: the file is a sequence of lines.
- `to_json`: a line is the datatype `Line(stamp, record)`, not JSON text, so escaping and serialization are not modelled.
- Two submissions within the same second get the same stamp. They are still two separate lines; the model does not merge them.
- Concurrent requests appending to the file or sharing a session are not modelled.
