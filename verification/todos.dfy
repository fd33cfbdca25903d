/**
 * The task-list page: its state, the mount effect that loads the list, the
 * add-task form handler and the title input. Each handler is one atomic
 * transition from (page, token slot, fetch outcome) to a `Step`.
 */
module Todos {
  import opened Wrappers
  import opened Js
  import opened Browser

  /** A task as the server returns it. */
  datatype Todo = Todo(id: int, title: string, userId: int)

  datatype Page = Page(todos: seq<Todo>, newTodoTitle: string, error: string, isLoading: bool)

  const FetchFailed: string := "Failed to fetch todos"
  const CreateFailed: string := "Failed to create todo"

  /** The page as first rendered: no tasks, empty input, no error, loading. */
  function Initial(): Page {
    Page([], "", "", true)
  }

  /** The statuses the list load treats as a lost session. */
  predicate Unauthorized(status: int) {
    status == 401 || status == 403
  }

  /** A create outcome the server confirmed with a parsed record. */
  predicate Confirms(o: Outcome<Todo>) {
    o.Answered? && IsOk(o.status) && o.body.Json?
  }

  /** The add-task guard: the input holds a non-whitespace character. */
  predicate Filled(page: Page) {
    !Blank(page.newTodoTitle)
  }

  /** The guard is the source's `newTodoTitle.trim()` being truthy, that is, non-empty. */
  lemma FilledIsTrimTruthy(page: Page)
    ensures Filled(page) <==> Trim(page.newTodoTitle) != ""
  {
  }

  predicate IsPrefix(a: seq<Todo>, b: seq<Todo>) {
    |a| <= |b| && a == b[..|a|]
  }

  /**
   * The mount effect. Without a truthy token it only redirects, before its
   * `try`, so `isLoading` keeps its value. Otherwise it issues the GET and,
   * whatever comes back, ends with `isLoading` false: 401/403 clears the
   * token and redirects, another failure status sets the server's message or
   * the load fallback, a thrown value sets the catch message, and success
   * replaces the list by the server's array.
   */
  function FetchTodos(page: Page, slot: Option<string>, outcome: Outcome<seq<Todo>>): (r: Step<Page>)
    ensures r.state.newTodoTitle == page.newTodoTitle
    ensures !Truthy(slot) ==> r == Step(page, [Navigate(LoginRoute)])
    ensures Truthy(slot) ==>
      && r.effects != []
      && r.effects[0] == Fetch(Get, TodosEndpoint, Some(Bearer(slot.value)), NoBody)
      && !Requests(r.effects[1..])
      && !r.state.isLoading
    // a rejected session: token gone, back to the login page, nothing else shown
    ensures Truthy(slot) && outcome.Answered? && Unauthorized(outcome.status) ==>
      && Storage(slot, r.effects) == None
      && NavigatesTo(r.effects, LoginRoute)
      && r.state.todos == page.todos
      && r.state.error == page.error
    // every other outcome keeps the token and stays on the page
    ensures Truthy(slot) && !(outcome.Answered? && Unauthorized(outcome.status)) ==>
      && NoStorageEffect(r.effects)
      && !Navigates(r.effects)
    ensures Truthy(slot) && outcome.Answered? && !Unauthorized(outcome.status) && !IsOk(outcome.status)
            && outcome.body.Json? ==>
      && r.state.error == Or(outcome.body.error, FetchFailed)
      && r.state.error != ""
      && r.state.todos == page.todos
    ensures Truthy(slot) && !(outcome.Answered? && Unauthorized(outcome.status)) && Raised(outcome).Some? ==>
      && r.state.error == CaughtMessage(Raised(outcome).value)
      && r.state.todos == page.todos
    ensures Truthy(slot) && outcome.Answered? && IsOk(outcome.status) && outcome.body.Json? ==>
      && r.state.todos == outcome.body.data
      && r.state.error == page.error
  {
    if !Truthy(slot) then
      Step(page, [Navigate(LoginRoute)])
    else
      var request := Fetch(Get, TodosEndpoint, Some(Bearer(slot.value)), NoBody);
      var settled := page.(isLoading := false);
      match outcome
      case FetchThrew(t) =>
        Step(settled.(error := CaughtMessage(t)), [request])
      case Answered(status, body) =>
        if Unauthorized(status) then
          Step(settled, [request, RemoveToken, Navigate(LoginRoute)])
        else
          match body
          case JsonThrew(t) =>
            Step(settled.(error := CaughtMessage(t)), [request])
          case Json(data, err) =>
            if !IsOk(status) then
              Step(settled.(error := Or(err, FetchFailed)), [request])
            else
              Step(settled.(todos := data), [request])
  }

  /**
   * A first mount without a token: the redirect is issued, nothing is
   * requested, and the page stays in its first state, loading with no tasks.
   */
  lemma MountWithoutToken(slot: Option<string>, outcome: Outcome<seq<Todo>>)
    requires !Truthy(slot)
    ensures FetchTodos(Initial(), slot, outcome).state.isLoading
    ensures FetchTodos(Initial(), slot, outcome).state.todos == []
    ensures !Requests(FetchTodos(Initial(), slot, outcome).effects)
    ensures FetchTodos(Initial(), slot, outcome).effects == [Navigate(LoginRoute)]
  {
  }

  /**
   * What the add-task handler's `try`/`catch` does to the page once the POST
   * has been issued. A confirmed record is appended and the input and the
   * error are cleared; every failure, 401 and 403 included, only sets
   * `error`.
   */
  function CreateSettle(page: Page, outcome: Outcome<Todo>): (r: Page)
    ensures r.isLoading == page.isLoading
    ensures IsPrefix(page.todos, r.todos) && |r.todos| <= |page.todos| + 1
    ensures |r.todos| == |page.todos| + 1 <==> Confirms(outcome)
    ensures Confirms(outcome) ==>
      r == page.(todos := page.todos + [outcome.body.data], newTodoTitle := "", error := "")
    ensures outcome.Answered? && !IsOk(outcome.status) && outcome.body.Json? ==>
      r == page.(error := Or(outcome.body.error, CreateFailed))
    ensures Raised(outcome).Some? ==>
      r == page.(error := CaughtMessage(Raised(outcome).value))
  {
    match outcome
    case FetchThrew(t) =>
      page.(error := CaughtMessage(t))
    case Answered(status, JsonThrew(t)) =>
      page.(error := CaughtMessage(t))
    case Answered(status, Json(data, err)) =>
      if !IsOk(status) then
        page.(error := Or(err, CreateFailed))
      else
        assert (page.todos + [data])[..|page.todos|] == page.todos;
        page.(todos := page.todos + [data], newTodoTitle := "", error := "")
  }

  /**
   * The add-task handler. A title that trims to nothing does nothing; a
   * missing token redirects. Otherwise it posts the title as typed, not
   * trimmed, and settles as `CreateSettle` says. It never writes the token
   * slot, never redirects after a request, and never changes `isLoading`.
   */
  function AddTodo(page: Page, slot: Option<string>, outcome: Outcome<Todo>): (r: Step<Page>)
    ensures NoStorageEffect(r.effects)
    ensures r.state.isLoading == page.isLoading
    ensures !Filled(page) ==> r == Step(page, [])
    ensures Filled(page) && !Truthy(slot) ==> r == Step(page, [Navigate(LoginRoute)])
    ensures Filled(page) && Truthy(slot) ==>
      && r.effects == [Fetch(Post, TodosEndpoint, Some(Bearer(slot.value)), TitleBody(page.newTodoTitle))]
      && r.state == CreateSettle(page, outcome)
  {
    if !Filled(page) then
      Step(page, [])
    else if !Truthy(slot) then
      Step(page, [Navigate(LoginRoute)])
    else
      var request := Fetch(Post, TodosEndpoint, Some(Bearer(slot.value)), TitleBody(page.newTodoTitle));
      Step(CreateSettle(page, outcome), [request])
  }

  /** The title input's `onChange`: only the input buffer changes. */
  function TypeTitle(page: Page, text: string): (r: Page)
    ensures r.newTodoTitle == text
    ensures r.todos == page.todos && r.error == page.error && r.isLoading == page.isLoading
  {
    page.(newTodoTitle := text)
  }

  /** A user action on the mounted page, with the server's answer for a submission. */
  datatype Action = Type(text: string) | Submit(outcome: Outcome<Todo>)

  /** One action. */
  function React(page: Page, slot: Option<string>, a: Action): Step<Page> {
    match a
    case Type(text) => Step(TypeTitle(page, text), [])
    case Submit(o) => AddTodo(page, slot, o)
  }

  /**
   * A sequence of actions, each one atomic, the token slot threaded through
   * the effects of the earlier ones. The effects are concatenated in order.
   */
  function Run(page: Page, slot: Option<string>, actions: seq<Action>): Step<Page>
    decreases |actions|
  {
    if actions == [] then
      Step(page, [])
    else
      var first := React(page, slot, actions[0]);
      var rest := Run(first.state, Storage(slot, first.effects), actions[1..]);
      Step(rest.state, first.effects + rest.effects)
  }

  /**
   * Whatever the user types and whatever the server answers, the page only
   * ever appends to its list, never writes the token slot, and never changes
   * `isLoading`.
   */
  lemma {:induction false} RunOnlyAppends(page: Page, slot: Option<string>, actions: seq<Action>)
    ensures IsPrefix(page.todos, Run(page, slot, actions).state.todos)
    ensures NoStorageEffect(Run(page, slot, actions).effects)
    ensures Storage(slot, Run(page, slot, actions).effects) == slot
    ensures Run(page, slot, actions).state.isLoading == page.isLoading
    decreases |actions|
  {
    if actions != [] {
      var first := React(page, slot, actions[0]);
      RunOnlyAppends(first.state, Storage(slot, first.effects), actions[1..]);
      var rest := Run(first.state, Storage(slot, first.effects), actions[1..]);
      assert Run(page, slot, actions).effects == first.effects + rest.effects;
      forall i | 0 <= i < |first.effects + rest.effects|
        ensures !TouchesStorage((first.effects + rest.effects)[i])
      {
        if i >= |first.effects| {
          assert (first.effects + rest.effects)[i] == rest.effects[i - |first.effects|];
        }
      }
    }
  }

  /** Running a non-empty sequence is running its first action, then the rest. */
  lemma RunFirst(page: Page, slot: Option<string>, a: Action, rest: seq<Action>)
    ensures Run(page, slot, [a] + rest).state
         == Run(React(page, slot, a).state, Storage(slot, React(page, slot, a).effects), rest).state
  {
    assert ([a] + rest)[0] == a;
    assert ([a] + rest)[1..] == rest;
  }

  /** The page after a confirmed create of `record`. */
  function Appended(page: Page, record: Todo): Page {
    page.(todos := page.todos + [record], newTodoTitle := "", error := "")
  }

  /** Type each title, then submit it; the server confirms it with `status` and the matching record. */
  function Script(titles: seq<string>, records: seq<Todo>, status: int): seq<Action>
    requires |titles| == |records|
    decreases |titles|
  {
    if titles == [] then []
    else [Type(titles[0]), Submit(Answered(status, Json(records[0], None)))] + Script(titles[1..], records[1..], status)
  }

  /** Typing a non-blank title and having its submission confirmed appends exactly that record. */
  lemma TypeThenConfirm(page: Page, slot: Option<string>, title: string, o: Outcome<Todo>, rest: seq<Action>)
    requires Truthy(slot) && !Blank(title) && Confirms(o)
    ensures Run(page, slot, [Type(title), Submit(o)] + rest).state == Run(Appended(page, o.body.data), slot, rest).state
  {
    var typed := TypeTitle(page, title);
    assert React(page, slot, Type(title)) == Step(typed, []);
    assert Storage(slot, []) == slot;
    var added := AddTodo(typed, slot, o);
    assert React(typed, slot, Submit(o)) == added;
    assert Filled(typed);
    assert added.state == Appended(page, o.body.data);
    assert Storage(slot, added.effects) == slot;
    assert [Type(title), Submit(o)] + rest == [Type(title)] + ([Submit(o)] + rest);
    RunFirst(page, slot, Type(title), [Submit(o)] + rest);
    RunFirst(typed, slot, Submit(o), rest);
  }

  /**
   * With a token present, N non-blank submissions the server confirms add
   * exactly their N records to the end of the list, in confirmation order:
   * none dropped, none duplicated, the old list untouched.
   */
  lemma {:induction false} ConfirmedCreatesAppendInOrder(
    page: Page, slot: Option<string>, titles: seq<string>, records: seq<Todo>, status: int)
    requires Truthy(slot) && IsOk(status)
    requires |titles| == |records|
    requires forall i | 0 <= i < |titles| :: !Blank(titles[i])
    ensures Run(page, slot, Script(titles, records, status)).state.todos == page.todos + records
    ensures |Run(page, slot, Script(titles, records, status)).state.todos| == |page.todos| + |titles|
    decreases |titles|
  {
    if titles != [] {
      var rest := Script(titles[1..], records[1..], status);
      var o := Answered(status, Json(records[0], None));
      assert Script(titles, records, status) == [Type(titles[0]), Submit(o)] + rest;
      TypeThenConfirm(page, slot, titles[0], o, rest);
      var next := Appended(page, records[0]);
      assert forall i | 0 <= i < |titles[1..]| :: titles[1..][i] == titles[i + 1];
      ConfirmedCreatesAppendInOrder(next, slot, titles[1..], records[1..], status);
      assert next.todos + records[1..] == page.todos + records;
    }
  }
}
