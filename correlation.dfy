/** The pending-correlation table as values: registering a message under its
    id, settling an entry once, and what a whole run of settlements does. */
module Correlation {
  import opened Types

  /** The message a send wrapper registers: the built message with `__id`
      set to the new id, every other field as the builder made it. */
  function Stamp(msg: Event, id: string): (e: Event)
    ensures e.id == Some(id)
    ensures e.platform == msg.platform && e.eventType == msg.eventType
    ensures e.payload == msg.payload
  {
    msg.(id := Some(id))
  }

  /** `outgoingPending[msg.__id] = resolver`: afterwards `id` maps to a
      resolver for the stamped message, the other keys keep their entries.
      Like the assignment in the source, an existing entry under `id` is
      overwritten. */
  function Register(t: Table, msg: Event, id: string): (r: Table)
    ensures r.Keys == t.Keys + {id}
    ensures r[id] == Resolver(Stamp(msg, id))
    ensures forall k | k in t && k != id :: r[k] == t[k]
  {
    t[id := Resolver(Stamp(msg, id))]
  }

  /** The result of one settlement attempt: the new table and the callback
      call it made, if any. */
  datatype Step = Step(table: Table, fired: Option<Settlement>)

  /** The calls a step made, as a log fragment. */
  function Fired(s: Step): seq<Settlement> {
    if s.fired.Some? then [s.fired.value] else []
  }

  /** The `setValue` closure: when the event's `__id` is truthy and names an
      entry, call that entry's `resolve` or `reject` with the outcome's
      value or error and delete the key; otherwise do nothing. */
  function Settle(t: Table, id: Option<string>, o: Outcome): (r: Step)
    ensures r.fired.Some? <==> Truthy(id) && id.value in t
    ensures r.fired.Some? ==> r.fired.value == SettlementFor(id.value, o)
    ensures r.fired.Some? ==> r.table.Keys == t.Keys - {id.value}
    ensures r.fired.None? ==> r.table == t
    ensures forall k | k in r.table :: k in t && r.table[k] == t[k]
  {
    if Truthy(id) && id.value in t then
      Step(t - {id.value}, Some(SettlementFor(id.value, o)))
    else
      Step(t, None)
  }

  /** A second settlement for the same id finds no entry and changes nothing,
      whatever its outcome. */
  lemma SettleAtMostOnce(t: Table, id: Option<string>, first: Outcome, second: Outcome)
    ensures var s := Settle(t, id, first);
      Settle(s.table, id, second) == Step(s.table, None)
  {
  }

  /** Settling one id leaves every other entry as it was. */
  lemma SettleNoCrossTalk(t: Table, id: Option<string>, o: Outcome, k: string)
    requires !(Truthy(id) && id.value == k)
    ensures var s := Settle(t, id, o);
      (k in s.table <==> k in t) && (k in t ==> s.table[k] == t[k])
  {
  }

  /** Out-of-order settlement: two settlements that do not name the same
      truthy id (different ids, or at least one falsy id) give the same table
      and make the same calls in either order. */
  lemma SettleCommutes(t: Table, i: Option<string>, oi: Outcome, j: Option<string>, oj: Outcome)
    requires !(Truthy(i) && Truthy(j) && i == j)
    ensures var a := Settle(t, i, oi); var b := Settle(a.table, j, oj);
      var b' := Settle(t, j, oj); var a' := Settle(b'.table, i, oi);
      b.table == a'.table && a.fired == a'.fired && b.fired == b'.fired
  {
  }

  /** Registering a fresh id and then settling it calls that entry's callback
      with the outcome and gives back the original table. */
  lemma SettleUndoesRegister(t: Table, msg: Event, id: string, o: Outcome)
    requires id !in t && id != ""
    ensures Settle(Register(t, msg, id), Some(id), o) == Step(t, Some(SettlementFor(id, o)))
  {
  }

  /** An entry registered under the empty id is never settled: `""` is falsy,
      so the guard of `setValue` rejects it. */
  lemma EmptyIdNeverSettles(t: Table, msg: Event, o: Outcome)
    ensures var r := Register(t, msg, "");
      Settle(r, Stamp(msg, "").id, o) == Step(r, None)
  {
  }

  // ---------------------------------------------------------------------
  // The caller-visible state of a send's promise.

  /** What the promise of the send that used an id shows. */
  datatype Status = Unknown | Waiting | Settled(outcome: Outcome)

  /** The outcome a callback call hands to the caller's promise. */
  function OutcomeOf(s: Settlement): (o: Outcome)
    ensures SettlementFor(s.id, o) == s
  {
    match s.callback
    case Resolve => Ok(s.arg)
    case Reject => Err(s.arg)
  }

  /** The promise sees exactly the outcome the handler produced. */
  lemma OutcomeRoundTrip(id: string, o: Outcome)
    ensures OutcomeOf(SettlementFor(id, o)) == o
  {
  }

  /** The first call recorded for `id` in `log`. */
  function Find(log: seq<Settlement>, id: string): (r: Option<Settlement>)
    ensures r.Some? <==> id in LoggedIds(log)
    ensures r.Some? ==> r.value in log && r.value.id == id
    ensures r.Some? ==>
      exists i | 0 <= i < |log| :: log[i] == r.value && forall j | 0 <= j < i :: log[j].id != id
  {
    if log == [] then None
    else if log[0].id == id then Some(log[0])
    else
      var r := Find(log[1..], id);
      assert LoggedIds(log) == {log[0].id} + LoggedIds(log[1..]) by {
        LoggedIdsCons(log);
      }
      assert r.Some? ==> exists i | 0 <= i < |log| :: log[i] == r.value && forall j | 0 <= j < i :: log[j].id != id by {
        if r.Some? {
          var i :| 0 <= i < |log[1..]| && log[1..][i] == r.value && forall j | 0 <= j < i :: log[1..][j].id != id;
          assert log[i + 1] == r.value;
          forall j | 0 <= j < i + 1 ensures log[j].id != id {
            if j > 0 { assert log[j] == log[1..][j - 1]; }
          }
        }
      }
      r
  }

  lemma LoggedIdsCons(log: seq<Settlement>)
    requires log != []
    ensures LoggedIds(log) == {log[0].id} + LoggedIds(log[1..])
  {
  }

  lemma {:induction false} LoggedIdsAppend(a: seq<Settlement>, b: seq<Settlement>)
    ensures LoggedIds(a + b) == LoggedIds(a) + LoggedIds(b)
  {
    forall x | x in LoggedIds(a + b) ensures x in LoggedIds(a) + LoggedIds(b) {
      var i :| 0 <= i < |a + b| && (a + b)[i].id == x;
      if i >= |a| {
        assert b[i - |a|] == (a + b)[i];
      }
    }
    forall x | x in LoggedIds(a) ensures x in LoggedIds(a + b) {
      var i :| 0 <= i < |a| && a[i].id == x;
      assert (a + b)[i] == a[i];
    }
    forall x | x in LoggedIds(b) ensures x in LoggedIds(a + b) {
      var i :| 0 <= i < |b| && b[i].id == x;
      assert (a + b)[|a| + i] == b[i];
    }
  }

  /** Appending calls for other ids does not change the first call for `id`. */
  lemma {:induction false} FindAppend(log: seq<Settlement>, more: seq<Settlement>, id: string)
    ensures Find(log + more, id) == if Find(log, id).Some? then Find(log, id) else Find(more, id)
  {
    if log != [] {
      assert (log + more)[0] == log[0];
      assert (log + more)[1..] == log[1..] + more;
      FindAppend(log[1..], more, id);
    } else {
      assert log + more == more;
    }
  }

  /** The status of the promise of the send that used `id`, given the table
      and the calls made so far. */
  function StatusOf(t: Table, log: seq<Settlement>, id: string): (s: Status)
    ensures s == Waiting <==> id in t
    ensures s == Unknown <==> id !in t && id !in LoggedIds(log)
  {
    if id in t then Waiting
    else match Find(log, id)
      case None => Unknown
      case Some(c) => Settled(OutcomeOf(c))
  }

  /** One settlement step moves the settled id from waiting to exactly the
      handler's outcome and leaves the status of every other id alone,
      provided no id is both pending and already settled. */
  lemma SettleStatus(t: Table, log: seq<Settlement>, id: Option<string>, o: Outcome, k: string)
    requires LoggedIds(log) !! t.Keys
    ensures var s := Settle(t, id, o);
      StatusOf(s.table, log + Fired(s), k) ==
        if s.fired.Some? && k == id.value then Settled(o) else StatusOf(t, log, k)
  {
    var s := Settle(t, id, o);
    FindAppend(log, Fired(s), k);
    if s.fired.Some? && k == id.value {
      assert k !in LoggedIds(log);
      OutcomeRoundTrip(k, o);
    }
  }

  // ---------------------------------------------------------------------
  // A run of settlements, in any order.

  /** One completion observed by the table: the event's `__id` and the
      handler's outcome. */
  datatype Request = Request(id: Option<string>, outcome: Outcome)

  /** The table after a run of settlements and the calls the run made. */
  datatype Run = Run(table: Table, log: seq<Settlement>)

  /** Settle each request in turn. */
  function SettleAll(t: Table, reqs: seq<Request>): (r: Run)
    decreases |reqs|
  {
    if reqs == [] then Run(t, [])
    else
      var s := Settle(t, reqs[0].id, reqs[0].outcome);
      var rest := SettleAll(s.table, reqs[1..]);
      Run(rest.table, Fired(s) + rest.log)
  }

  /** The truthy ids a run of requests names. */
  function RequestedIds(reqs: seq<Request>): set<string> {
    set i | 0 <= i < |reqs| && Truthy(reqs[i].id) :: reqs[i].id.value
  }

  /** The ids the first request names, as a set. */
  function HeadIds(req: Request): set<string> {
    if Truthy(req.id) then {req.id.value} else {}
  }

  lemma RequestedIdsCons(reqs: seq<Request>)
    requires reqs != []
    ensures RequestedIds(reqs) == HeadIds(reqs[0]) + RequestedIds(reqs[1..])
  {
  }

  /** Whatever the order and however often an id recurs: every pending id
      named by the run is settled exactly once, nothing else is settled, and
      the final table is the initial one without exactly those ids. */
  lemma {:induction false} SettleAllSound(t: Table, reqs: seq<Request>)
    ensures var r := SettleAll(t, reqs);
      && Distinct(r.log)
      && LoggedIds(r.log) == t.Keys * RequestedIds(reqs)
      && r.table == t - RequestedIds(reqs)
    decreases |reqs|
  {
    if reqs == [] {
      assert t - {} == t;
    } else {
      var s := Settle(t, reqs[0].id, reqs[0].outcome);
      var rest := SettleAll(s.table, reqs[1..]);
      var h := HeadIds(reqs[0]);
      var more := RequestedIds(reqs[1..]);
      SettleAllSound(s.table, reqs[1..]);
      RequestedIdsCons(reqs);
      LoggedIdsAppend(Fired(s), rest.log);
      assert s.table == t - h;
      if s.fired.Some? {
        assert Fired(s)[0].id in LoggedIds(Fired(s));
      }
      assert LoggedIds(Fired(s)) == t.Keys * h;
      assert rest.table == t - (h + more);
      forall i, j | 0 <= i < j < |Fired(s) + rest.log|
        ensures (Fired(s) + rest.log)[i].id != (Fired(s) + rest.log)[j].id
      {
        if i < |Fired(s)| {
          assert (Fired(s) + rest.log)[j] == rest.log[j - 1];
          assert rest.log[j - 1].id in LoggedIds(rest.log);
        } else {
          assert (Fired(s) + rest.log)[i] == rest.log[i - |Fired(s)|];
          assert (Fired(s) + rest.log)[j] == rest.log[j - |Fired(s)|];
        }
      }
    }
  }

  /** The outcome of the first request naming `id`. */
  function FirstOutcome(reqs: seq<Request>, id: string): Outcome
    requires id in RequestedIds(reqs)
    decreases |reqs|
  {
    RequestedIdsCons(reqs);
    if Truthy(reqs[0].id) && reqs[0].id.value == id then reqs[0].outcome
    else FirstOutcome(reqs[1..], id)
  }

  /** The first completion for an id wins: every call a run makes carries the
      outcome of the first request that named its id. */
  lemma {:induction false} SettleAllFirstWins(t: Table, reqs: seq<Request>, i: nat)
    requires i < |SettleAll(t, reqs).log|
    ensures var c := SettleAll(t, reqs).log[i];
      c.id in RequestedIds(reqs) && c == SettlementFor(c.id, FirstOutcome(reqs, c.id))
    decreases |reqs|
  {
    var s := Settle(t, reqs[0].id, reqs[0].outcome);
    var rest := SettleAll(s.table, reqs[1..]);
    RequestedIdsCons(reqs);
    if i < |Fired(s)| {
      assert SettleAll(t, reqs).log[i] == s.fired.value;
    } else {
      var c := rest.log[i - |Fired(s)|];
      assert SettleAll(t, reqs).log[i] == c;
      SettleAllFirstWins(s.table, reqs[1..], i - |Fired(s)|);
      SettleAllSound(s.table, reqs[1..]);
      assert c.id in LoggedIds(rest.log);
      assert c.id in s.table;
    }
  }
}
