/** The decision `outgoingMiddleware` takes for one outgoing event, and the
    effect of one pass of the middleware on the pending table. */
module Dispatch {
  import opened Types
  import opened Correlation

  /** The platform tag this integration serves. */
  const PLATFORM: string := "slack"

  /** The text that precedes the type in the unsupported-type error. */
  const UNSUPPORTED: string := "Unsupported event type: "

  /** The key under which the `outgoing` module exports the pending table.
      `outgoing[type]` is looked up among that module's keys, so a slack event
      of this type finds the table, a truthy object that is not a function. */
  const PENDING_KEY: string := "pending"

  /** Defer to the next stage, fail the stage, throw because the value found
      for the type cannot be called, or hand the event to the handler
      registered for its type. */
  datatype Decision = Defer | Unsupported(message: string) | NotCallable | Handle

  /** The choice of `outgoingMiddleware`: wrong platform defers; a slack event
      of type `pending` finds the pending table and the call of it throws; a
      slack event whose type has no handler fails with the type named in the
      message; anything else is handled. `handlers` is the set of types the
      `outgoing` module has a handler function for. */
  function Classify(e: Event, handlers: set<string>): (d: Decision)
    ensures d == Defer <==> e.platform != PLATFORM
    ensures d == NotCallable <==> e.platform == PLATFORM && e.eventType == PENDING_KEY
    ensures d.Unsupported? <==>
      e.platform == PLATFORM && e.eventType != PENDING_KEY && e.eventType !in handlers
    ensures d.Unsupported? ==> d.message == UNSUPPORTED + e.eventType
    ensures d == Handle <==>
      e.platform == PLATFORM && e.eventType != PENDING_KEY && e.eventType in handlers
  {
    if e.platform != PLATFORM then Defer
    else if e.eventType == PENDING_KEY then NotCallable
    else if e.eventType !in handlers then Unsupported(UNSUPPORTED + e.eventType)
    else Handle
  }

  /** The call the middleware itself makes to `next`: `next()`, `next(err)`,
      or none (a handled event is passed to the handler together with `next`,
      and the handler decides). */
  datatype NextCall = NoCall | Next(arg: Option<string>)

  /** The effect of one pass: the middleware's own `next` call, whether a
      handler ran, whether the middleware threw (`TypeError`: the value found
      for the type is not a function), and the settlement step. */
  datatype Effect = Effect(next: NextCall, handlerRan: bool, threw: bool, step: Step)

  /** One pass of `outgoingMiddleware` for event `e`, where `o` is the outcome
      the handler's promise eventually takes. */
  function Middleware(t: Table, e: Event, handlers: set<string>, o: Outcome): (r: Effect)
    ensures r.handlerRan <==> Classify(e, handlers) == Handle
    ensures r.threw <==> e.platform == PLATFORM && e.eventType == PENDING_KEY
    ensures e.platform != PLATFORM ==> r.next == Next(None)
    ensures r.threw ==> r.next == NoCall
    ensures e.platform == PLATFORM && e.eventType != PENDING_KEY && e.eventType !in handlers ==>
      r.next == Next(Some(UNSUPPORTED + e.eventType))
    ensures r.handlerRan ==> r.next == NoCall && r.step == Settle(t, e.id, o)
    ensures !r.handlerRan ==> r.step == Step(t, None)
  {
    match Classify(e, handlers)
    case Defer => Effect(Next(None), false, false, Step(t, None))
    case Unsupported(msg) => Effect(Next(Some(msg)), false, false, Step(t, None))
    case NotCallable => Effect(NoCall, false, true, Step(t, None))
    case Handle => Effect(NoCall, true, false, Settle(t, e.id, o))
  }

  /** A sent slack message of type `pending` makes the middleware throw: it
      calls no `next`, runs no handler and its entry stays pending, whatever
      `handlers` holds. */
  lemma PendingTypeThrows(t: Table, msg: Event, id: string, handlers: set<string>, o: Outcome)
    requires msg.platform == PLATFORM && msg.eventType == PENDING_KEY
    ensures var registered := Register(t, msg, id);
      var r := Middleware(registered, Stamp(msg, id), handlers, o);
      && r.threw && r.next == NoCall && !r.handlerRan
      && r.step == Step(registered, None)
      && registered[id] == Resolver(Stamp(msg, id))
  {
  }

  /** A slack message whose type has no handler is failed with the type in
      the message, and the entry its send registered stays pending with its
      resolver untouched: the caller's promise is never settled. */
  lemma UnsupportedLeavesPending(t: Table, msg: Event, id: string, handlers: set<string>, o: Outcome)
    requires msg.platform == PLATFORM && msg.eventType != PENDING_KEY && msg.eventType !in handlers
    ensures var registered := Register(t, msg, id);
      var r := Middleware(registered, Stamp(msg, id), handlers, o);
      && r.next == Next(Some(UNSUPPORTED + msg.eventType))
      && !r.handlerRan && !r.threw
      && r.step.fired == None
      && id in r.step.table && r.step.table[id] == Resolver(Stamp(msg, id))
  {
  }

  /** A message for another platform is deferred with `next()`, runs no
      handler and leaves the table as it was. */
  lemma OtherPlatformDefers(t: Table, e: Event, handlers: set<string>, o: Outcome)
    requires e.platform != PLATFORM
    ensures Middleware(t, e, handlers, o) == Effect(Next(None), false, false, Step(t, None))
  {
  }

  /** End to end: a send registers its message under a fresh id; when the
      middleware handles that message, the handler's outcome reaches exactly
      that entry's callback, the caller's promise takes that outcome, and the
      table returns to what it was before the send. */
  lemma SendThenHandle(t: Table, log: seq<Settlement>, msg: Event, id: string,
                       handlers: set<string>, o: Outcome)
    requires id !in t && id != "" && id !in LoggedIds(log)
    requires LoggedIds(log) !! t.Keys
    requires msg.platform == PLATFORM && msg.eventType != PENDING_KEY && msg.eventType in handlers
    ensures var registered := Register(t, msg, id);
      var r := Middleware(registered, Stamp(msg, id), handlers, o);
      && r.next == NoCall
      && r.step == Step(t, Some(SettlementFor(id, o)))
      && StatusOf(registered, log, id) == Waiting
      && StatusOf(r.step.table, log + Fired(r.step), id) == Settled(o)
  {
    var registered := Register(t, msg, id);
    SettleUndoesRegister(t, msg, id, o);
    assert LoggedIds(log) !! registered.Keys;
    SettleStatus(registered, log, Some(id), o, id);
  }
}
