/** The values the outgoing-correlation mechanism passes around. */
module Types {

  /** A JavaScript value the core only stores and forwards (a handler's
      result, an error object, a payload field). */
  type Value = string

  datatype Option<+T> = None | Some(value: T)

  /** An outgoing event. `id` is the `__id` property: absent (`None`) until a
      send wrapper stamps it. `payload` holds the platform-specific fields
      the correlation mechanism never looks at. */
  datatype Event = Event(
    id: Option<string>,
    platform: string,
    eventType: string,
    payload: map<string, Value>)

  /** The eventual outcome of a handler's promise: fulfilled with a value or
      rejected with an error. */
  datatype Outcome = Ok(value: Value) | Err(error: Value)

  /** The two callbacks a pending entry holds. */
  datatype Callback = Resolve | Reject

  /** One call of a stored callback: which entry, which callback, what argument. */
  datatype Settlement = Settlement(id: string, callback: Callback, arg: Value)

  /** A pending entry: the built message. Its `resolve` and `reject` are the
      callbacks of the promise returned to the caller of the send wrapper;
      calling one is recorded as a `Settlement` carrying the entry's key. */
  datatype Resolver = Resolver(event: Event)

  /** The pending-correlation table, keyed by message id. */
  type Table = map<string, Resolver>

  /** JavaScript truthiness of an `__id`: present and not the empty string. */
  predicate Truthy(id: Option<string>) {
    id.Some? && id.value != ""
  }

  /** `.then(setValue('resolve'), setValue('reject'))`: a fulfilled promise
      calls `resolve` with its value, a rejected one `reject` with its error. */
  function SettlementFor(id: string, o: Outcome): (s: Settlement)
    ensures s.id == id
    ensures s.callback == Resolve <==> o.Ok?
    ensures o.Ok? ==> s.arg == o.value
    ensures o.Err? ==> s.arg == o.error
  {
    match o
    case Ok(v) => Settlement(id, Resolve, v)
    case Err(e) => Settlement(id, Reject, e)
  }

  /** The set of ids a settlement log mentions. */
  function LoggedIds(log: seq<Settlement>): set<string> {
    set i | 0 <= i < |log| :: log[i].id
  }

  /** No id is settled twice in `log`. */
  predicate Distinct(log: seq<Settlement>) {
    forall i, j | 0 <= i < j < |log| :: log[i].id != log[j].id
  }
}
