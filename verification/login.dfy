/**
 * The login page: its form state, the input `onChange` handler, and the
 * submit handler. The submit handler is split at its only `await` boundary:
 * `Begin` is what happens synchronously on submission, `Settle` what happens
 * once the login request has been answered.
 */
module Login {
  import opened Wrappers
  import opened Js
  import opened Browser

  /** `formData` is keyed by the inputs' `name` attributes. */
  datatype Page = Page(formData: map<string, string>, error: string, isLoading: bool)

  const LoginFailed: string := "Failed to log in"
  const NoTokenReceived: string := "No token received from server"

  /** The page as first rendered: empty email and password, no error, not loading. */
  function Initial(): Page {
    Page(map["email" := "", "password" := ""], "", false)
  }

  /**
   * The input `onChange` handler: the field named by the input takes the
   * typed value, every other field keeps its value, nothing else changes.
   */
  function InputChange(page: Page, name: string, value: string): (r: Page)
    ensures r.formData.Keys == page.formData.Keys + {name}
    ensures r.formData[name] == value
    ensures forall k | k in page.formData && k != name :: r.formData[k] == page.formData[k]
    ensures r.error == page.error && r.isLoading == page.isLoading
  {
    page.(formData := page.formData[name := value])
  }

  /** The synchronous start of a submission: the error is reset and the page is loading. */
  function Begin(page: Page): (r: Page)
    ensures r.error == "" && r.isLoading
    ensures r.formData == page.formData
  {
    page.(error := "", isLoading := true)
  }

  /** An answer that logs the user in: a 2xx status with a parsed body holding a truthy `token`. */
  predicate LoggedIn(o: Outcome<Option<string>>) {
    o.Answered? && IsOk(o.status) && o.body.Json? && Truthy(o.body.data)
  }

  /**
   * The rest of a submission, once the POST of the whole form has been
   * answered. The body is parsed before the status is looked at, so a parse
   * failure always surfaces its own message.
   */
  function Settle(pending: Page, outcome: Outcome<Option<string>>): Step<Page> {
    var request := Fetch(Post, LoginEndpoint, None, FormBody(pending.formData));
    var settled := pending.(isLoading := false);
    match outcome
    case FetchThrew(t) =>
      Step(settled.(error := CaughtMessage(t)), [request])
    case Answered(status, JsonThrew(t)) =>
      Step(settled.(error := CaughtMessage(t)), [request])
    case Answered(status, Json(token, err)) =>
      if !IsOk(status) then
        Step(settled.(error := Or(err, LoginFailed)), [request])
      else if Truthy(token) then
        Step(settled, [request, SaveToken(token.value), Navigate(TodosRoute)])
      else
        Step(settled.(error := NoTokenReceived), [request])
  }

  /**
   * The submit handler: it posts the whole form without a token. Only a 2xx
   * answer with a truthy token writes the token slot (overwriting whatever
   * was there) and redirects to the task list, with no error left showing.
   * Every other answer leaves the slot alone, stays on the page and shows a
   * message: the server's `error` or the fallback for a failure status, the
   * missing-token message for a 2xx without a token, the catch message for a
   * thrown value. `isLoading` ends false on every path and the form is kept.
   */
  function HandleLogin(page: Page, outcome: Outcome<Option<string>>): (r: Step<Page>)
    ensures r.effects != [] && r.effects[0] == Fetch(Post, LoginEndpoint, None, FormBody(page.formData))
    ensures !r.state.isLoading && r.state.formData == page.formData
    ensures LoggedIn(outcome) ==>
      && r.effects == [r.effects[0], SaveToken(outcome.body.data.value), Navigate(TodosRoute)]
      && r.state.error == ""
    ensures !LoggedIn(outcome) ==> r.effects == [r.effects[0]]
    ensures LoggedIn(outcome) <==> NavigatesTo(r.effects, TodosRoute)
    ensures LoggedIn(outcome) <==> !NoStorageEffect(r.effects)
    ensures Raised(outcome).Some? ==> r.state.error == CaughtMessage(Raised(outcome).value)
    ensures outcome.Answered? && outcome.body.Json? && !IsOk(outcome.status) ==>
      r.state.error == Or(outcome.body.error, LoginFailed) && r.state.error != ""
    ensures outcome.Answered? && outcome.body.Json? && IsOk(outcome.status) && !Truthy(outcome.body.data) ==>
      r.state.error == NoTokenReceived
  {
    var r := Settle(Begin(page), outcome);
    assert LoggedIn(outcome) ==> TouchesStorage(r.effects[1]);
    r
  }

  /** A sequence of `onChange` events, each naming a field and carrying its new value. */
  function FillForm(page: Page, changes: seq<(string, string)>): Page
    decreases |changes|
  {
    if changes == [] then page
    else FillForm(InputChange(page, changes[0].0, changes[0].1), changes[1..])
  }

  /** The value the last change to field `name` carried, if any changed it. */
  function LastValue(changes: seq<(string, string)>, name: string): Option<string>
    decreases |changes|
  {
    if changes == [] then None
    else if changes[|changes| - 1].0 == name then Some(changes[|changes| - 1].1)
    else LastValue(changes[..|changes| - 1], name)
  }

  /** The fields a sequence of changes names. */
  function Named(changes: seq<(string, string)>): set<string> {
    set i | 0 <= i < |changes| :: changes[i].0
  }

  /** Folding one more change is applying it to the fold of the earlier ones. */
  lemma {:induction false} FillFormSnoc(page: Page, init: seq<(string, string)>, last: (string, string))
    ensures FillForm(page, init + [last]) == InputChange(FillForm(page, init), last.0, last.1)
    decreases |init|
  {
    if init == [] {
      assert [] + [last] == [last];
    } else {
      assert (init + [last])[1..] == init[1..] + [last];
      FillFormSnoc(InputChange(page, init[0].0, init[0].1), init[1..], last);
    }
  }

  /** One more change names one more field. */
  lemma NamedSnoc(init: seq<(string, string)>, last: (string, string))
    ensures Named(init + [last]) == Named(init) + {last.0}
  {
    var changes := init + [last];
    forall n | n in Named(changes) ensures n in Named(init) + {last.0} {
      var i :| 0 <= i < |changes| && changes[i].0 == n;
      if i < |init| { assert init[i] == changes[i]; }
    }
    forall n | n in Named(init) ensures n in Named(changes) {
      var i :| 0 <= i < |init| && init[i].0 == n;
      assert changes[i] == init[i];
    }
    assert changes[|init|] == last;
  }

  /** The fields after a sequence of changes are the old ones plus those the changes name. */
  lemma {:induction false} FillFormKeys(page: Page, changes: seq<(string, string)>)
    ensures FillForm(page, changes).formData.Keys == page.formData.Keys + Named(changes)
    decreases |changes|
  {
    if changes == [] {
      assert Named(changes) == {};
    } else {
      var last := changes[|changes| - 1];
      var init := changes[..|changes| - 1];
      assert changes == init + [last];
      FillFormSnoc(page, init, last);
      FillFormKeys(page, init);
      NamedSnoc(init, last);
    }
  }

  /**
   * Whatever order the user types in, each field holds the value of its own
   * last change, a field nobody changed keeps its value, and the error and
   * loading flag are untouched.
   */
  lemma {:induction false} FieldHoldsLastChange(page: Page, changes: seq<(string, string)>, name: string)
    ensures LastValue(changes, name).Some? ==>
      name in FillForm(page, changes).formData &&
      FillForm(page, changes).formData[name] == LastValue(changes, name).value
    ensures LastValue(changes, name).None? && name in page.formData ==>
      name in FillForm(page, changes).formData &&
      FillForm(page, changes).formData[name] == page.formData[name]
    ensures FillForm(page, changes).error == page.error
    ensures FillForm(page, changes).isLoading == page.isLoading
    decreases |changes|
  {
    if changes != [] {
      var last := changes[|changes| - 1];
      var init := changes[..|changes| - 1];
      assert changes == init + [last];
      FillFormSnoc(page, init, last);
      FieldHoldsLastChange(page, init, name);
    }
  }

  /**
   * The token slot after a submission: overwritten with the received token
   * when the user is logged in, untouched otherwise.
   */
  lemma LoginTokenSlot(page: Page, outcome: Outcome<Option<string>>, slot: Option<string>)
    ensures Storage(slot, HandleLogin(page, outcome).effects)
         == if LoggedIn(outcome) then Some(outcome.body.data.value) else slot
  {
    var effects := HandleLogin(page, outcome).effects;
    if LoggedIn(outcome) {
      StorageSettledBy(slot, effects, 2);
      assert effects[..2][1] == SaveToken(outcome.body.data.value);
    }
  }

  /**
   * Starting from the first render, the `email` and `password` fields the
   * inputs display are present after any sequence of changes, and each shows
   * its last typed value or, if never typed in, the empty string.
   */
  lemma InitialFieldsStay(changes: seq<(string, string)>, name: string)
    requires name == "email" || name == "password"
    ensures name in FillForm(Initial(), changes).formData
    ensures FillForm(Initial(), changes).formData[name]
         == if LastValue(changes, name).Some? then LastValue(changes, name).value else ""
  {
    FillFormKeys(Initial(), changes);
    FieldHoldsLastChange(Initial(), changes, name);
  }
}
