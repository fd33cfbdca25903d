/**
 * The browser services the pages call, turned into data: a `fetch` call is
 * an input outcome plus an emitted request, `localStorage` writes and
 * `router.push` are emitted effects, and the `'token'` storage key is a
 * single slot whose content after a step is the fold of the step's effects.
 */
module Browser {
  import opened Wrappers
  import opened Js

  datatype Method = Get | Post

  /** The JSON body a request carries. */
  datatype Payload =
    | NoBody
    | TitleBody(title: string)                   // `{ title }`
    | FormBody(fields: map<string, string>)      // the login form object, every field

  /** What a handler asks the browser to do. */
  datatype Effect =
    | Fetch(verb: Method, path: string, authorization: Option<string>, payload: Payload)
    | Navigate(path: string)                     // `router.push(path)`
    | RemoveToken                                // `localStorage.removeItem('token')`
    | SaveToken(token: string)                   // `localStorage.setItem('token', token)`

  /** The backend endpoints the pages call, relative to the API host. */
  const LoginEndpoint: string := "/login"
  const TodosEndpoint: string := "/todos"

  /** The client routes the pages redirect to. */
  const LoginRoute: string := "/login"
  const TodosRoute: string := "/todos"

  /** The `Authorization` header value the pages attach to a token. */
  function Bearer(token: string): string {
    "Bearer " + token
  }

  /**
   * What `await res.json()` yields: the parsed body, seen both as the value
   * the success branch reads (`data`) and through its `error` property, or the
   * value the parse throws.
   */
  datatype Json<T> = Json(data: T, error: Option<string>) | JsonThrew(thrown: Thrown)

  /** What `await fetch(...)` yields: a response with a status and a body, or a thrown value. */
  datatype Outcome<T> = Answered(status: int, body: Json<T>) | FetchThrew(thrown: Thrown)

  /** A handler's result: the page state after it and the effects it issued, in order. */
  datatype Step<S> = Step(state: S, effects: seq<Effect>)

  predicate TouchesStorage(e: Effect) {
    e.RemoveToken? || e.SaveToken?
  }

  predicate NoStorageEffect(effects: seq<Effect>) {
    forall i | 0 <= i < |effects| :: !TouchesStorage(effects[i])
  }

  /** The handler asks for a navigation to `path`. */
  predicate NavigatesTo(effects: seq<Effect>, path: string) {
    Navigate(path) in effects
  }

  /** The handler asks for some navigation. */
  predicate Navigates(effects: seq<Effect>) {
    exists i | 0 <= i < |effects| :: effects[i].Navigate?
  }

  /** The handler issues some network request. */
  predicate Requests(effects: seq<Effect>) {
    exists i | 0 <= i < |effects| :: effects[i].Fetch?
  }

  /** The token slot after one effect. */
  function Store(slot: Option<string>, e: Effect): Option<string> {
    match e
    case RemoveToken => None
    case SaveToken(t) => Some(t)
    case _ => slot
  }

  /**
   * The token slot after a sequence of effects, applied in order. The last
   * storage effect decides the slot; without one the slot is unchanged.
   */
  function Storage(slot: Option<string>, effects: seq<Effect>): (r: Option<string>)
    ensures NoStorageEffect(effects) ==> r == slot
    ensures effects != [] && effects[|effects| - 1] == RemoveToken ==> r == None
    ensures effects != [] && effects[|effects| - 1].SaveToken? ==> r == Some(effects[|effects| - 1].token)
    decreases |effects|
  {
    if effects == [] then slot
    else Store(Storage(slot, effects[..|effects| - 1]), effects[|effects| - 1])
  }

  /** Effects after the last storage effect do not change the slot. */
  lemma {:induction false} StorageSettledBy(slot: Option<string>, effects: seq<Effect>, k: nat)
    requires k <= |effects|
    requires NoStorageEffect(effects[k..])
    ensures Storage(slot, effects) == Storage(slot, effects[..k])
    decreases |effects|
  {
    if k < |effects| {
      var init := effects[..|effects| - 1];
      assert init[k..] == effects[k..|effects| - 1];
      assert effects[|effects| - 1] == effects[k..][|effects| - 1 - k];
      StorageSettledBy(slot, init, k);
      assert init[..k] == effects[..k];
    } else {
      assert effects[..k] == effects;
    }
  }

  /** The exception a step's `catch` clause receives from a failed `fetch` or `res.json()`. */
  function Raised<T>(o: Outcome<T>): Option<Thrown> {
    match o
    case FetchThrew(t) => Some(t)
    case Answered(_, JsonThrew(t)) => Some(t)
    case Answered(_, Json(_, _)) => None
  }
}
