# Task-list client: page controllers as a state machine

This project models the decision logic of the two client pages of the
task-tracking front end that talk to the backend:

- the **task-list page** (`TodosPage`): its state `{todos, newTodoTitle,
  error, isLoading}`, the mount effect that loads the list (`fetchTodos`),
  the add-task form handler (`handleAddTodo`) and the title input;
- the **login page** (`LoginPage`): its state `{formData, error,
  isLoading}`, the input handler (`handleInputChange`) and the submit
  handler (`handleLogin`).

Each handler is one atomic, total function from (page state, token slot,
outcome of the network call) to a `Step`: the new page state and the list
of effects the handler issued, in order. The effects are the request
itself (`Fetch`, with method, path, `Authorization` header and JSON body),
`Navigate` for `router.push`, and `RemoveToken` / `SaveToken` for the
writes to the `'token'` key of `localStorage`. The token slot after a step
is `Browser.Storage(slot, effects)`, the fold of the step's effects.

A network call's outcome is `Answered(status, body)` or `FetchThrew(t)`.
The body is what `res.json()` yields: `Json(data, error)`, the parsed body
seen as the value the success branch reads and through its `error`
property, or `JsonThrew(t)` when parsing throws. A thrown value is an
`ErrorObject(message)` (an `Error` instance) or a `NonError`.

The JavaScript semantics the handlers rely on are written out in module
`Js`: truthiness of a string-or-missing value (`!token`, `data.error ||
…`, `if (data.token)`), `Response.ok` (status 200–299), the `catch`
clause's message choice, and `String.prototype.trim` over the ECMAScript
WhiteSpace and LineTerminator characters.

Modules: `Wrappers` (Option), `Js`, `Browser` (effects, outcomes, the
token slot), `Todos` (task-list page), `Login` (login page).

## Model

| member | source | states |
|---|---|---|
| Js.TrimStart | app/todos/page.tsx:67 | the leading part `trim` drops is all whitespace, and what it keeps is a suffix of the input that starts with a non-whitespace character |
| Js.TrimEnd | app/todos/page.tsx:67 | the trailing part `trim` drops is all whitespace, and what it keeps is a prefix of the input that ends with a non-whitespace character |
| Js.Trim | app/todos/page.tsx:67 | the trimmed title is empty exactly when every character of the title is whitespace; a non-empty result has no whitespace at either end |
| Js.Or | app/todos/page.tsx:46 | the or-operator fallback on `data.error`: a truthy `error` wins, otherwise the fallback; with a non-empty fallback the message is never empty |
| Js.CaughtMessage | app/todos/page.tsx:51-56 | the `catch` clause's message: an `Error`'s own message, `'An unexpected error occurred.'` for any other thrown value |
| Todos.FilledIsTrimTruthy | app/todos/page.tsx:67 | the add-task guard used by the model holds exactly when `newTodoTitle.trim()` is non-empty |
| Browser.Storage | app/todos/page.tsx:38-42 | the token slot after a handler's effects: unchanged when no effect writes storage, absent when the last effect is the removal, the stored value when the last effect is a save |
| Browser.StorageSettledBy | app/login/page.tsx:41-43 | effects after the last storage write (such as the redirect) do not change the token slot |
| Todos.FetchTodos | app/todos/page.tsx:26-60 | mount: no truthy token redirects to `/login` with no request and leaves the state as it was, so `isLoading` stays true; otherwise one GET with `Bearer <token>` is issued and `isLoading` ends false on every outcome; 401/403 empties the token slot and redirects to `/login`, keeping `error` and `todos`; every other outcome keeps the token and does not redirect; another failure status sets `error` to the body's truthy `error` or `'Failed to fetch todos'`; a thrown value sets the catch message; success sets `todos` to the server array exactly |
| Todos.MountWithoutToken | app/todos/page.tsx:27-31 | a first mount without a token issues only the redirect to `/login`, makes no request, and leaves the page loading with no tasks |
| Todos.CreateSettle | app/todos/page.tsx:75-100 | after the POST: the old list is always a prefix of the new one, at most one longer, and one longer exactly when the server confirmed; a confirmed record is appended and `newTodoTitle` and `error` are cleared; any failure status, 401 and 403 included, only sets `error` to the body's truthy `error` or `'Failed to create todo'`; a thrown value only sets the catch message |
| Todos.AddTodo | app/todos/page.tsx:65-101 | a title that trims to nothing gives no request and no state change; a missing token only redirects to `/login`; otherwise the only effect is a POST carrying the untrimmed title; the token slot is never written and `isLoading` never changes |
| Todos.TypeTitle | app/todos/page.tsx:126 | typing changes only the input buffer |
| Todos.RunOnlyAppends | app/todos/page.tsx:65-101 | over any sequence of typing and submissions with any server answers, the list only grows at its end, the token slot is unchanged and `isLoading` is unchanged |
| Todos.ConfirmedCreatesAppendInOrder | app/todos/page.tsx:91 | with a token, N non-blank submissions that the server confirms append exactly their N records, in order, after the old list |
| Login.InputChange | app/login/page.tsx:19-21 | the named field takes the new value, every other field keeps its value, the field set grows only by the name, `error` and `isLoading` unchanged |
| Login.Begin | app/login/page.tsx:25-26 | a submission first resets `error` to `''` and sets `isLoading` to true, keeping the form |
| Login.HandleLogin | app/login/page.tsx:23-57 | one POST of the whole form without a token; a 2xx with a truthy token saves it and redirects to `/todos`, leaving no error; every other outcome has the request as its only effect; a failure status with a parsed body sets the body's truthy `error` or `'Failed to log in'`; a 2xx without a token sets `'No token received from server'`; a fetch or parse throw sets the catch message; `isLoading` ends false and the form is kept |
| Login.LoginTokenSlot | app/login/page.tsx:41-43 | after a submission the token slot holds the received token when the login succeeded, and is untouched otherwise |
| Login.FillFormKeys | app/login/page.tsx:20 | after any sequence of input changes the fields are the old ones plus those named by some change |
| Login.InitialFieldsStay | app/login/page.tsx:14-21 | from the first render, `email` and `password` are present after any sequence of changes and hold their last typed value, or `''` if never typed in |
| Login.FieldHoldsLastChange | app/login/page.tsx:19-21 | after any sequence of input changes, each field holds the value of its own last change, a field never changed keeps its value, and `error` and `isLoading` are unchanged |

## Behaviour worth noting

- Only the list load treats 401 and 403 specially. The create handler
  sends them down its generic failure branch: the token is kept, there is
  no redirect, and the message is the body's `error` or `'Failed to create
  todo'` (`Todos.CreateSettle`, `Todos.AddTodo`).
- There is no liveness or unmount guard. A handler's result is always
  applied.
- The fallback messages differ by call site: `'Failed to fetch todos'`,
  `'Failed to create todo'`, `'Failed to log in'`,
  `'No token received from server'`, and `'An unexpected error occurred.'`
  for a thrown non-`Error`.
- The create request carries the title as typed, not trimmed.
- An `Error` thrown with an empty message leaves `error` empty. The
  fallback strings guarantee a non-empty message only on the failure-status
  paths.
- The login handler parses the body before it looks at the status. A
  failure status with an unparseable body therefore shows the parse error's
  message, not `'Failed to log in'`.
- An empty stored token counts as absent (`!token`): the page redirects
  without a request.

## Left out

- JSX rendering, CSS classes, and the loading and empty-list markup:
  presentation only.
- Each submission is modelled as one atomic transition, so the
  `disabled={isLoading}` guard against re-submission has no state in which
  it could fire.
- The `API_URL` choice between server and browser hosts: environment
  plumbing. Paths are modelled without a host.
- The real `fetch`, `res.json()`, `localStorage` and `router.push`: they
  are replaced by outcome inputs and effect outputs as described above.
- Async interleaving of concurrent creates and effects after unmount: each
  handler is one atomic transition, and sequences of handlers run one after
  the other (`Todos.Run`).
- JSON values other than strings or missing in the `error` and `token`
  properties (a number, an object), and a `null` body, whose property
  access throws a `TypeError`: the model types those properties as
  optional strings.
- A 2xx list or create body that is not a task array or task record: the
  source's declared types assume it is, and the model types the body
  accordingly.
- `app/page.tsx` (static marketing markup) and
  `app/components/navbar.tsx` (a menu toggle with no data logic).
