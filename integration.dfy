/** The integration object: the pending-correlation table it mutates in
    place, the send wrappers that register entries, and the outgoing
    middleware that settles them. */
module Integration {
  import opened Types
  import opened Correlation
  import opened Dispatch

  class Outgoing {
    /** `outgoingPending`: message id to resolver. */
    var pending: Table
    /** The messages handed to `bp.middlewares.sendOutgoing`, in order. */
    var submitted: seq<Event>
    /** Every call of a stored `resolve` or `reject`, in order. */
    ghost var log: seq<Settlement>
    /** Every id a send wrapper has used. */
    ghost var issued: set<string>

    /** Each entry is keyed by its own message's id and belongs to a message
        that was submitted; no id is settled twice, and a settled id is no
        longer pending. */
    ghost predicate Valid()
      reads this
    {
      && pending.Keys <= issued
      && LoggedIds(log) <= issued
      && LoggedIds(log) !! pending.Keys
      && Distinct(log)
      && (forall k | k in pending :: pending[k].event.id == Some(k) && pending[k].event in submitted)
    }

    /** The caller-visible status of the promise of the send that used `id`. */
    ghost function Status(id: string): Status
      reads this
    {
      StatusOf(pending, log, id)
    }

    constructor ()
      ensures Valid()
      ensures pending == map[] && submitted == [] && log == [] && issued == {}
    {
      pending := map[];
      submitted := [];
      log := [];
      issued := {};
    }

    /** Whether an entry for `id` is waiting to be settled. */
    method IsPending(id: string) returns (b: bool)
      ensures b <==> id in pending
    {
      b := id in pending;
    }

    /** The `send*` wrapper for a built message `msg`: stamp it with the new
        id, store a resolver for it under that id, then submit it. `id`
        stands for the generated `__id`, which is never reused. */
    method Send(msg: Event, id: string) returns (sent: Event)
      requires Valid()
      requires id !in issued
      modifies this
      ensures Valid()
      ensures sent == Stamp(msg, id)
      ensures pending == Register(old(pending), msg, id)
      ensures submitted == old(submitted) + [sent]
      ensures log == old(log) && issued == old(issued) + {id}
      ensures Status(id) == Waiting
      ensures forall k | k != id :: Status(k) == old(Status(k))
    {
      sent := msg.(id := Some(id));
      pending := pending[id := Resolver(sent)];
      submitted := submitted + [sent];
      issued := issued + {id};
    }

    /** The `setValue` closure for event `e` and the handler's outcome `o`. */
    method SettleEvent(e: Event, o: Outcome)
      requires Valid()
      modifies this
      ensures Valid()
      ensures var s := Settle(old(pending), e.id, o);
        pending == s.table && log == old(log) + Fired(s)
      ensures submitted == old(submitted) && issued == old(issued)
      ensures forall k ::
                Status(k) == if Truthy(e.id) && k == e.id.value && k in old(pending)
                             then Settled(o) else old(Status(k))
    {
      ghost var t0, log0 := pending, log;
      if Truthy(e.id) && e.id.value in pending {
        var key := e.id.value;
        log := log + [SettlementFor(key, o)];
        pending := pending - {key};
        LoggedIdsAppend(log0, [SettlementFor(key, o)]);
        assert SettlementFor(key, o).id == key;
        assert LoggedIds([SettlementFor(key, o)]) == {key} by {
          assert [SettlementFor(key, o)][0].id == key;
        }
        forall i, j | 0 <= i < j < |log| ensures log[i].id != log[j].id {
          if j == |log| - 1 {
            assert log[i] == log0[i];
            assert log0[i].id in LoggedIds(log0);
          }
        }
      }
      forall k ensures Status(k) ==
        if Truthy(e.id) && k == e.id.value && k in t0 then Settled(o) else StatusOf(t0, log0, k)
      {
        SettleStatus(t0, log0, e.id, o, k);
      }
    }

    /** `outgoingMiddleware` for event `e`: classify it, and for a handled
        event run the handler (whose outcome is `o`) and settle its entry. */
    method Process(e: Event, handlers: set<string>, o: Outcome) returns (next: NextCall, threw: bool)
      requires Valid()
      modifies this
      ensures Valid()
      ensures var r := Middleware(old(pending), e, handlers, o);
        next == r.next && threw == r.threw
        && pending == r.step.table && log == old(log) + Fired(r.step)
      ensures submitted == old(submitted) && issued == old(issued)
      ensures forall k ::
                Status(k) == if Classify(e, handlers) == Handle && Truthy(e.id)
                                && k == e.id.value && k in old(pending)
                             then Settled(o) else old(Status(k))
    {
      if e.platform != PLATFORM {
        return Next(None), false;
      }
      if e.eventType == PENDING_KEY {
        return NoCall, true;
      }
      if e.eventType !in handlers {
        return Next(Some(UNSUPPORTED + e.eventType)), false;
      }
      SettleEvent(e, o);
      next, threw := NoCall, false;
    }
  }

  /** A send followed by the middleware handling the sent message settles
      that send's promise with the handler's outcome; a second completion for
      the same message changes nothing. */
  method SendAndDeliver(o: Outcome, late: Outcome, handlers: set<string>)
    requires "text" in handlers
  {
    var id := "2017-01-01T00:00:00.000Z0.5";
    var out := new Outgoing();
    var msg := Event(None, PLATFORM, "text", map["text" := "hello"]);
    var sent := out.Send(msg, id);
    assert out.Status(id) == Waiting;
    var waiting := out.IsPending(id);
    assert waiting;
    var next, threw := out.Process(sent, handlers, o);
    assert next == NoCall && !threw;
    assert out.Status(id) == Settled(o);
    waiting := out.IsPending(id);
    assert !waiting && out.pending == map[];
    out.SettleEvent(sent, late);
    assert out.Status(id) == Settled(o);
    var other, otherThrew := out.Process(msg.(platform := "other"), handlers, o);
    assert other == Next(None) && !otherThrew;
  }
}
