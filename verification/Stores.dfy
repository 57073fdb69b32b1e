/** The gateway's durable tables: jobs, provider messages and the event log. */
module Stores {
  import opened Messages

  /** The delivery states shared by the gateway and the history records. */
  datatype Status = Waiting | Queued | Processing | Submitted | Acknowledged | Failed

  predicate Terminal(s: Status) { s.Submitted? || s.Acknowledged? }

  /** The JSON kept with a job: its identity, the confirmed ids and the two markers. */
  datatype Result = Result(fp: Fingerprint, ids: seq<string>, inflight: bool, reconciliation: bool, success: bool)

  datatype Job = Job(tenant: string, status: Status, attempts: nat, result: Result)

  datatype MessageRow = MessageRow(tenant: string, key: string)

  datatype Event = Event(id: nat, tenant: string, key: string, status: Status)

  datatype Store = Store(jobs: map<string, Job>, messages: map<string, MessageRow>, events: seq<Event>)

  /** Rows returned by one read of the event log. */
  const PAGE: nat := 200

  /** Insert, or on conflict rewrite everything but the tenant. */
  function Upsert(s: Store, key: string, tenant: string, status: Status, result: Result, increment: bool): Store {
    var step := if increment then 1 else 0;
    var job := if key in s.jobs
               then s.jobs[key].(status := status, attempts := s.jobs[key].attempts + step, result := result)
               else Job(tenant, status, step, result);
    s.(jobs := s.jobs[key := job])
  }

  function WithMessage(s: Store, id: string, tenant: string, key: string): Store {
    s.(messages := s.messages[id := MessageRow(tenant, key)])
  }

  /** Ids come from an autoincrementing column and nothing deletes events. */
  function WithEvent(s: Store, tenant: string, key: string, status: Status): Store {
    s.(events := s.events + [Event(|s.events| + 1, tenant, key, status)])
  }

  /** The tenant's events with an id above `after`, in id order. */
  function Newer(events: seq<Event>, tenant: string, after: nat): seq<Event> {
    if events == [] then []
    else
      var e := events[|events| - 1];
      Newer(events[..|events| - 1], tenant, after)
      + if e.tenant == tenant && e.id > after then [e] else []
  }

  function Page(events: seq<Event>, tenant: string, after: nat): seq<Event> {
    var all := Newer(events, tenant, after);
    if |all| <= PAGE then all else all[..PAGE]
  }

  class GatewayStore {
    var jobs: map<string, Job>
    var messages: map<string, MessageRow>
    var events: seq<Event>

    ghost function View(): Store
      reads this
    {
      Store(jobs, messages, events)
    }

    constructor ()
      ensures View() == Store(map[], map[], [])
    {
      jobs, messages, events := map[], map[], [];
    }

    method GetJob(key: string) returns (r: Option<Job>)
      ensures r == if key in jobs then Some(jobs[key]) else None
    {
      if key in jobs { return Some(jobs[key]); }
      r := None;
    }

    method UpdateJob(key: string, tenant: string, status: Status, result: Result, increment: bool)
      modifies this
      ensures View() == Upsert(old(View()), key, tenant, status, result, increment)
      ensures key in jobs && jobs[key].status == status && jobs[key].result == result
      ensures jobs[key].tenant == if key in old(jobs) then old(jobs)[key].tenant else tenant
      ensures var before := if key in old(jobs) then old(jobs)[key].attempts else 0;
        jobs[key].attempts == before + if increment then 1 else 0
      ensures forall k | k != key :: (k in jobs <==> k in old(jobs)) && (k in jobs ==> jobs[k] == old(jobs)[k])
      ensures messages == old(messages) && events == old(events)
    {
      var step := if increment then 1 else 0;
      if key in jobs {
        var job := jobs[key];
        jobs := jobs[key := job.(status := status, attempts := job.attempts + step, result := result)];
      } else {
        jobs := jobs[key := Job(tenant, status, step, result)];
      }
    }

    method AddMessage(id: string, tenant: string, key: string)
      modifies this
      ensures View() == WithMessage(old(View()), id, tenant, key)
      ensures messages == old(messages)[id := MessageRow(tenant, key)] && jobs == old(jobs) && events == old(events)
    {
      messages := messages[id := MessageRow(tenant, key)];
    }

    method JobForMessage(id: string) returns (r: Option<MessageRow>)
      ensures r == if id in messages then Some(messages[id]) else None
    {
      if id in messages { return Some(messages[id]); }
      r := None;
    }

    method AddEvent(tenant: string, key: string, status: Status)
      modifies this
      ensures View() == WithEvent(old(View()), tenant, key, status)
      ensures events == old(events) + [Event(|old(events)| + 1, tenant, key, status)]
      ensures jobs == old(jobs) && messages == old(messages)
    {
      events := events + [Event(|events| + 1, tenant, key, status)];
    }

    /** Scans in id order and stops after a page. */
    method EventsAfter(tenant: string, after: nat) returns (page: seq<Event>)
      ensures page == Page(events, tenant, after)
      ensures exists n | 0 <= n <= |events| ::
        && (n == |events| || |page| == 200)
        && forall e :: e in page <==> e in events[..n] && e.tenant == tenant && e.id > after
      ensures |page| <= 200
    {
      hide Newer;
      page := [];
      var i := 0;
      NothingRead(tenant, after);
      while i < |events| && |page| < PAGE
        invariant 0 <= i <= |events|
        invariant |page| <= PAGE
        invariant page == Newer(events[..i], tenant, after)
      {
        NewerStep(events, i, tenant, after);
        if events[i].tenant == tenant && events[i].id > after {
          page := page + [events[i]];
        }
        i := i + 1;
      }
      NewerExtends(events, i, tenant, after);
      assert events[..|events|] == events;
      NewerExactly(events[..i], tenant, after);
    }
  }

  lemma NothingRead(tenant: string, after: nat)
    ensures Newer([], tenant, after) == []
  {
  }

  lemma NewerStep(events: seq<Event>, i: nat, tenant: string, after: nat)
    requires i < |events|
    ensures Newer(events[..i + 1], tenant, after) == Newer(events[..i], tenant, after)
         + if events[i].tenant == tenant && events[i].id > after then [events[i]] else []
  {
    assert events[..i + 1][..i] == events[..i];
  }

  lemma {:induction false} NewerExactly(events: seq<Event>, tenant: string, after: nat)
    ensures forall e :: e in Newer(events, tenant, after) <==> e in events && e.tenant == tenant && e.id > after
  {
    if events == [] {
    } else {
      NewerExactly(events[..|events| - 1], tenant, after);
      assert events == events[..|events| - 1] + [events[|events| - 1]];
    }
  }

  /** Reading more of the log only appends to what was read. */
  lemma {:induction false} NewerExtends(events: seq<Event>, i: nat, tenant: string, after: nat)
    requires i <= |events|
    ensures Newer(events[..i], tenant, after) <= Newer(events, tenant, after)
  {
    if i == |events| {
      assert events[..i] == events;
    } else {
      assert events[..|events| - 1][..i] == events[..i];
      NewerExtends(events[..|events| - 1], i, tenant, after);
    }
  }
}
