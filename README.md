# Outgoing-message correlation of the botpress Slack connector

This project models how the Slack connector for botpress matches outgoing
messages with their delivery outcomes. It also proves properties of that
model. It has four parts:

- **Send wrappers.** Each message-building action `createX` has a wrapper
  `sendX`. The wrapper builds the message and stamps it with a fresh `__id`.
  It stores a resolver `{event, resolve, reject}` under that id in the
  pending table `outgoingPending`. Then it submits the message to the
  outgoing pipeline.
- **Outgoing middleware.** It defers events for other platforms with `next()`.
  It fails slack events of an unknown type with
  `next('Unsupported event type: ' + type)`. Other events go to the handler
  for their type. A slack event of type `pending` makes it throw.
- **Settlement closure `setValue`.** When the handler's promise completes, it
  calls the stored `resolve` or `reject` of the entry under the event's id.
  Then it deletes that entry. It does nothing when the id is falsy or has no
  entry.
- **Send-name rewrite.** `name.replace(/^create/, 'send')`.

Modules:

- `Types` (types.dfy) holds the data: `Event` (the `__id`, platform, type and
  an opaque payload), the handler `Outcome` (`Ok(value)` or `Err(error)`),
  `Resolver`, the `Table`, and `Settlement`. A `Settlement` records one call
  of a stored callback: the id, `Resolve` or `Reject`, and the argument.
- `Correlation` (correlation.dfy) gives registration and settlement as pure
  functions on the table. It also gives the caller-visible status of each
  send's promise (`StatusOf`) and a run of settlements in any order
  (`SettleAll`), with lemmas about each.
- `Dispatch` (dispatch.dfy) gives the classification the middleware makes
  and the effect of one middleware pass.
- `Naming` (naming.dfy) gives the `create` to `send` rewrite.
- `Integration` (integration.dfy) has the class `Outgoing`. The class holds
  the pending table as a `map` that its methods update in place, the sequence
  of submitted messages, and two ghost fields. One is the log of callback
  calls. The other is the set of ids already issued. `Valid()` states the
  table's invariant: every entry is keyed by its own message's id and belongs
  to a submitted message, no id is settled twice, and a settled id is no
  longer pending. The method `Integration.SendAndDeliver` is an end-to-end
  scenario of the class. It sends a message, handles it, then delivers a late
  second completion and a message for another platform. Its assertions show
  what a caller can conclude from the contracts alone.

Three things in the code are inputs of the model:

- The handler's eventual outcome is an input value, and settlement is a
  method call.
- The set of message types that have a handler is a `set<string>` parameter.
- The generated `__id` is a parameter.

Registering an id that already has an entry does not fail:
`outgoingPending[msg.__id] = resolver` (src/index.js:75) silently overwrites
it, and `Correlation.Register` does the same. `Integration.Outgoing.Send`
requires an id that no earlier send used, because generated ids are unique.

The pending table is `outgoing.pending` (src/index.js:12), a key of the same
`outgoing` module in which handlers are looked up. So a slack event of type
`pending` passes the check at src/index.js:19, and the call at line 30 then
throws a `TypeError`. The model states this case as `Dispatch.NotCallable`:
the middleware throws, calls no `next` and settles nothing.

## Model

| member | source | states |
|---|---|---|
| Types.SettlementFor | src/index.js:31 | a fulfilled outcome calls `resolve` with its value and a rejected one calls `reject` with its error, for the given id |
| Correlation.Stamp | src/index.js:67 | the registered message carries the new id as `__id`; its platform, type and payload are those of the built message |
| Correlation.Register | src/index.js:68-75 | after registration the key set gains exactly the new id, which maps to a resolver for the stamped message; every other key keeps its entry |
| Correlation.Settle | src/index.js:23-28 | a callback fires iff the id is truthy and present; it then carries the handler's value or error and removes exactly that key; otherwise the table is unchanged; the result never adds or alters an entry |
| Correlation.SettleAtMostOnce | src/index.js:25-26 | a second settlement for the same id fires nothing and leaves the table alone, whatever its outcome |
| Correlation.SettleNoCrossTalk | src/index.js:26 | settling one id neither adds, removes nor changes the entry of any other id |
| Correlation.SettleCommutes | src/index.js:23-28 | two settlements that do not name the same truthy id give the same table and the same callback calls in either order; this includes a falsy-id completion racing with a real one |
| Correlation.SettleUndoesRegister | src/index.js:24-26 | settling a freshly registered non-empty id fires that entry's callback with the outcome and restores the table from before the send |
| Correlation.EmptyIdNeverSettles | src/index.js:24 | an entry under the falsy id `""` is never settled by its own message |
| Correlation.OutcomeOf | src/index.js:70-73 | the outcome a callback call hands to the caller's promise; it is the inverse of `SettlementFor` |
| Correlation.OutcomeRoundTrip | src/index.js:31 | the caller's promise sees exactly the outcome the handler's promise took |
| Correlation.StatusOf | src/index.js:70-79 | a send's promise is waiting iff its id is pending; it is unknown iff the id is neither pending nor settled |
| Correlation.SettleStatus | src/index.js:23-31 | while no id is both pending and settled, one settlement moves the settled id to exactly the handler's outcome and leaves every other id's status unchanged |
| Correlation.SettleAllSound | src/index.js:23-28 | over any sequence of completions, in any order and with repeats: no id is settled twice, the settled ids are exactly the pending ids that were named, and the final table is the initial one minus the named ids |
| Correlation.SettleAllFirstWins | src/index.js:24-26 | in such a run, every callback call carries the outcome of the first completion that named its id |
| Dispatch.Classify | src/index.js:12-30 | defer iff the platform is not `"slack"`; not callable iff slack and the type is `pending`, the key that holds the table; unsupported iff slack, another type, and no handler for it, with message `'Unsupported event type: ' + type`; handle iff slack, another type, and a handler for it |
| Dispatch.Middleware | src/index.js:12-32 | a deferred event calls `next()` and an unsupported one calls `next(message)`; a `pending`-typed slack event throws and calls no `next`; in these cases no handler runs and the table is unchanged; a handled event makes no `next` call of its own, runs the handler and settles the event's entry |
| Dispatch.PendingTypeThrows | src/index.js:12-30 | a sent slack message of type `pending` makes the middleware throw, whatever the handlers; it calls no `next`, runs no handler and leaves its entry pending |
| Dispatch.UnsupportedLeavesPending | src/index.js:19-21 | a sent slack message of an unhandled type fails the stage and leaves its entry pending with its resolver intact |
| Dispatch.OtherPlatformDefers | src/index.js:15-17 | a message for another platform calls `next()`, runs no handler and leaves the table as it was |
| Dispatch.SendThenHandle | src/index.js:66-77 | a send followed by a handled pass settles that send's promise with the handler's outcome and restores the prior table |
| Naming.SendName | src/index.js:63 | the name changes iff it starts with `create`; a changed name starts with `send`, followed by the rest of the original unchanged |
| Naming.SendNameRoundTrip | src/index.js:63 | putting `create` back before what follows `send` gives the action's name |
| Naming.SendNameIdempotent | src/index.js:63 | rewriting a rewritten name changes nothing |
| Naming.SendNameInjectiveOnCreate | src/index.js:63 | two distinct `create` actions get distinct send names |
| Naming.SendNameExamples | src/index.js:63 | `createText` becomes `sendText`; `getUsers` and `recreateText` are unchanged |
| Integration.Outgoing.constructor | src/index.js:12 | the table starts empty, with nothing submitted, settled or issued |
| Integration.Outgoing.IsPending | src/index.js:24 | reports whether an entry for the id is in the table |
| Integration.Outgoing.Send | src/index.js:64-80 | keeps `Valid()`; returns the stamped message, stores its resolver under the id (the only table change), then appends it to the submitted messages; its promise is waiting and every other status is unchanged |
| Integration.Outgoing.SettleEvent | src/index.js:23-28 | keeps `Valid()`; changes the table and log exactly as `Settle` does; the event's id becomes settled with the outcome if it was pending, and every other promise's status is unchanged |
| Integration.Outgoing.Process | src/index.js:14-32 | keeps `Valid()`; its `next` call, whether it throws, the new table and the new log are those of `Middleware`; a handled event's pending id becomes settled with the outcome, and every other promise's status is unchanged |

## Left out

- Promises, bluebird and asynchronous scheduling are not modelled. The
  handler's eventual outcome is an input, and settlement happens within the
  middleware call. A handler whose promise never completes is therefore not
  modelled. Interleavings of completions are covered instead by
  `SettleCommutes` and `SettleAllSound`.
- The concrete handlers in `outgoing` and the builders in `actions` are not
  part of this model. A handler's own calls to `next` are not modelled. A
  builder that throws is not modelled either; through `Promise.method` it
  would reject the send without registering an entry.
- Id generation from the clock and `Math.random()` is left out, because it
  depends on time and randomness. The id is a parameter.
- Integration.Outgoing.Send: requires an id no earlier send used. The code,
  running with generated ids, does not check this. A reused key would
  overwrite the pending entry, as `Correlation.Register` shows.
- `checkVersion`, middleware registration and the `forIn` loop that fills the
  `bp.slack` namespace are host-framework glue. Only the name rewrite inside
  that loop is modelled. Two actions whose send names collide, such as
  `createText` and `sendText`, are not modelled.
- For an action whose name does not start with `create`, `SendName` returns
  the name unchanged. Line 64 then overwrites the raw builder that line 62
  stored under that key, so such an action is reachable only as a send
  wrapper. The `bp.slack` namespace is not part of this model, so this is
  not stated as a lemma.
- The pending table is shared with the `outgoing` module, which exports it
  as `outgoing.pending`, and is assumed to start empty: its initial contents
  come from that module, which is not part of this model. Handlers in that
  module could read or change the table, and could also change the `__id`
  of the event object they are given. `setValue` reads `event.__id` only when
  the handler's promise completes (src/index.js:24), so such a change would
  send the settlement to a different entry. `Middleware` and `Process` always
  settle under the id the event carried when it was handed over.
  The class's invariant assumes that only `Send` and `SettleEvent` change
  it. `handlers` excludes the key `pending`, because the source throws on
  that type; this is stated as `Dispatch.NotCallable`.
- The `bp.slack.get*` pass-throughs, the HTTP routes, config loading and
  saving, and the Slack connection are I/O or forwarding to the `Slack`
  class. That class is not part of this model.
- The `config` schema is static data.
- JavaScript property lookup is modelled as exact map membership. Keys
  inherited from `Object.prototype`, such as `toString`, are not modelled;
  they would make the truthiness checks pass for ids or types that were
  never registered.
- `__id` is modelled as absent or a string. Its falsy values are therefore
  only "absent" and `""`. Non-string ids and an undefined `type` are not
  modelled.
- Submitted messages are recorded in order. The host pipeline that would
  feed them back to the middleware is not modelled: `Process` takes the
  event as an argument.
