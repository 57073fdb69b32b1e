/** Event synchronisation: every event once, in order, and stale events cannot undo a delivery. */
module DeliverySync {
  import opened Messages
  import opened Stores
  import opened History
  import opened DeliverySystem
  import opened DeliveryInvariants
  import G = GatewayProtocol
  import S = GatewaySafety

  // ---- reading the log ----

  predicate Numbered(events: seq<Event>) {
    forall i | 0 <= i < |events| :: events[i].id == i + 1
  }

  /** The tenant's events with an id up to `last`, in id order. */
  function Upto(events: seq<Event>, tenant: string, last: nat): seq<Event> {
    if events == [] then []
    else
      var e := events[|events| - 1];
      Upto(events[..|events| - 1], tenant, last) + if e.tenant == tenant && e.id <= last then [e] else []
  }

  lemma {:induction false} NothingNewer(events: seq<Event>, tenant: string, after: nat)
    requires Numbered(events) && after >= |events|
    ensures Newer(events, tenant, after) == []
  {
    if events == [] {
    } else {
      NothingNewer(events[..|events| - 1], tenant, after);
    }
  }

  /** Increasing ids in a range. */
  predicate Ascending(n: seq<Event>, after: nat, top: nat) {
    && (forall i | 0 <= i < |n| :: after < n[i].id <= top)
    && (forall i, j | 0 <= i < j < |n| :: n[i].id < n[j].id)
  }

  lemma {:induction false} NewerAscending(events: seq<Event>, tenant: string, after: nat)
    requires Numbered(events)
    ensures Ascending(Newer(events, tenant, after), after, |events|)
  {
    if events == [] {
    } else {
      var front := events[..|events| - 1];
      NewerAscending(front, tenant, after);
      var nf := Newer(front, tenant, after);
      assert Ascending(nf, after, |front|);
      assert Newer(events, tenant, after) == nf || Newer(events, tenant, after) == nf + [events[|events| - 1]];
    }
  }

  /** The id up to which the first `m` events of a reading go. */
  function Mark(n: seq<Event>, after: nat, m: nat): nat
    requires m <= |n|
  {
    if m == 0 then after else n[m - 1].id
  }

  /** Everything in the log is what was read and what is newer. */
  lemma {:induction false} UptoAll(events: seq<Event>, tenant: string, after: nat, last: nat)
    requires Numbered(events) && last >= |events|
    ensures Upto(events, tenant, last) == Upto(events, tenant, after) + Newer(events, tenant, after)
  {
    if events == [] {
    } else {
      var front, e := events[..|events| - 1], events[|events| - 1];
      UptoAll(front, tenant, after, last);
      if e.id <= after {
        NothingNewer(front, tenant, after);
        assert Newer(events, tenant, after) == [];
      } else {
        assert Upto(events, tenant, after) == Upto(front, tenant, after);
        assert e.tenant == tenant ==> Newer(events, tenant, after) == Newer(front, tenant, after) + [e];
      }
    }
  }

  /** Having read the first `m` events after the cursor, the rest are the ones after the last of them. */
  lemma {:induction false} ReadingSplits(events: seq<Event>, tenant: string, after: nat, m: nat)
    requires Numbered(events) && m <= |Newer(events, tenant, after)|
    ensures var n := Newer(events, tenant, after);
      && Newer(events, tenant, Mark(n, after, m)) == n[m..]
      && Upto(events, tenant, Mark(n, after, m)) == Upto(events, tenant, after) + n[..m]
  {
    if events == [] {
    } else {
      var front, e := events[..|events| - 1], events[|events| - 1];
      var n, nf := Newer(events, tenant, after), Newer(front, tenant, after);
      NewerAscending(front, tenant, after);
      if m <= |nf| {
        ReadingSplits(front, tenant, after, m);
        ReadingSplitsFront(events, tenant, after, m);
      } else {
        assert n == nf + [e] && n[..m] == n && n[m..] == [];
        NothingNewer(events, tenant, |events|);
        UptoAll(events, tenant, after, |events|);
      }
    }
  }

  /** The step of `ReadingSplits` when the last event of the log is not among the first `m`. */
  lemma ReadingSplitsFront(events: seq<Event>, tenant: string, after: nat, m: nat)
    requires Numbered(events) && events != []
    requires var nf := Newer(events[..|events| - 1], tenant, after);
      && Ascending(nf, after, |events| - 1) && m <= |nf|
      && Newer(events[..|events| - 1], tenant, Mark(nf, after, m)) == nf[m..]
      && Upto(events[..|events| - 1], tenant, Mark(nf, after, m))
         == Upto(events[..|events| - 1], tenant, after) + nf[..m]
    ensures var n := Newer(events, tenant, after);
      && m <= |n|
      && Newer(events, tenant, Mark(n, after, m)) == n[m..]
      && Upto(events, tenant, Mark(n, after, m)) == Upto(events, tenant, after) + n[..m]
  {
    var front, e := events[..|events| - 1], events[|events| - 1];
    var n, nf := Newer(events, tenant, after), Newer(front, tenant, after);
    assert e.id == |events|;
    if e.tenant == tenant && e.id > after {
      assert n == nf + [e];
      assert n[..m] == nf[..m] && n[m..] == nf[m..] + [e];
      assert Mark(n, after, m) == Mark(nf, after, m) < e.id;
    } else {
      assert n == nf;
      assert e.tenant == tenant ==> m == 0;
    }
  }

  lemma {:induction false} AdvancedIsMark(n: seq<Event>, after: nat, top: nat, m: nat)
    requires m <= |n| && Ascending(n, after, top)
    ensures Advanced(after, n[..m]) == Mark(n, after, m)
  {
    if m == 0 {
    } else {
      AdvancedIsMark(n, after, top, m - 1);
      assert n[..m][..m - 1] == n[..m - 1];
    }
  }

  /** A page applied: the cursor is the last id read, and exactly the page has moved from new to read. */
  lemma PageRead(events: seq<Event>, tenant: string, cursor: nat, p: seq<Event>)
    requires Numbered(events) && cursor <= |events| && p <= Newer(events, tenant, cursor)
    ensures var later := Advanced(cursor, p);
      && cursor <= later <= |events|
      && p + Newer(events, tenant, later) == Newer(events, tenant, cursor)
      && Upto(events, tenant, later) == Upto(events, tenant, cursor) + p
  {
    hide Newer, Upto, Advanced;
    var n := Newer(events, tenant, cursor);
    var m := |p|;
    assert n[..m] == p;
    NewerAscending(events, tenant, cursor);
    ReadingSplits(events, tenant, cursor, m);
    AdvancedIsMark(n, cursor, |events|, m);
    assert p + n[m..] == n;
    assert Mark(n, cursor, m) == Advanced(cursor, p);
  }

  lemma {:induction false} ApplyInTwo(rows: seq<Row>, p: seq<Event>, q: seq<Event>)
    ensures ApplyEvents(ApplyEvents(rows, p), q) == ApplyEvents(rows, p + q)
  {
    if q == [] {
      assert p + q == p;
    } else {
      ApplyInTwo(rows, p, q[..|q| - 1]);
      assert (p + q)[..|p + q| - 1] == p + q[..|q| - 1];
    }
  }

  /** Draining the log page by page. */
  function Drain(rows: seq<Row>, cursor: nat, events: seq<Event>, tenant: string): (seq<Row>, nat)
    requires Numbered(events) && cursor <= |events|
    decreases |Newer(events, tenant, cursor)|
  {
    var p := Page(events, tenant, cursor);
    if p == [] then (rows, cursor)
    else
      PageRead(events, tenant, cursor, p);
      Drain(ApplyEvents(rows, p), Advanced(cursor, p), events, tenant)
  }

  lemma {:induction false} AdvancedInTwo(cursor: nat, p: seq<Event>, q: seq<Event>)
    ensures Advanced(Advanced(cursor, p), q) == Advanced(cursor, p + q)
  {
    if q == [] {
      assert p + q == p;
    } else {
      AdvancedInTwo(cursor, p, q[..|q| - 1]);
      assert (p + q)[..|p + q| - 1] == p + q[..|q| - 1];
    }
  }

  /** Any number of pages gives the same history and cursor as the whole log at once. */
  lemma {:induction false} DrainIsFold(rows: seq<Row>, cursor: nat, events: seq<Event>, tenant: string)
    requires Numbered(events) && cursor <= |events|
    ensures var n := Newer(events, tenant, cursor);
      Drain(rows, cursor, events, tenant) == (ApplyEvents(rows, n), Advanced(cursor, n))
    decreases |Newer(events, tenant, cursor)|
  {
    var p := Page(events, tenant, cursor);
    if p == [] {
    } else {
      PageRead(events, tenant, cursor, p);
      var rest := Newer(events, tenant, Advanced(cursor, p));
      DrainIsFold(ApplyEvents(rows, p), Advanced(cursor, p), events, tenant);
      ApplyInTwo(rows, p, rest);
      AdvancedInTwo(cursor, p, rest);
    }
  }

  // ---- exactly once, in order ----

  predicate SyncInv(s: System) {
    var events := s.gateway.store.events;
    && s.cursor <= |events|
    && s.applied == Upto(events, s.site, s.cursor)
    && (s.page.Some? ==> s.page.value <= Newer(events, s.site, s.cursor))
  }

  /** The log only grows at its end. */
  lemma LogGrows(s: System, a: Action)
    requires Enabled(s, a)
    ensures var events, later := s.gateway.store.events, GatewayAfter(s, a).store.events;
      later == events || (later != [] && later[..|later| - 1] == events)
    ensures s.gateway.webhooked <= GatewayAfter(s, a).webhooked
  {
    hide Enabled, G.Step, G.Enabled;
    GatewayMoves(s, a);
    match GatewayAction(s, a)
    case Some(g) => S.StepLogs(s.gateway, g);
    case None =>
  }

  lemma PageKeepsSync(s: System)
    requires Enabled(s, ApplyPage) && S.LogInv(s.gateway) && SyncInv(s)
    ensures SyncInv(Step(s, ApplyPage)) && s.cursor <= Step(s, ApplyPage).cursor
  {
    hide RowsAfter, RunsAfter, JournalAfter, InboxAfter;
    PageRead(s.gateway.store.events, s.site, s.cursor, s.page.value);
  }

  lemma SyncKept(s: System, h: System)
    requires SyncInv(s) && Numbered(h.gateway.store.events)
    requires h.cursor == s.cursor && h.applied == s.applied && h.site == s.site
    requires h.page == s.page || h.page == None || h.page == Some(Page(s.gateway.store.events, s.site, s.cursor))
    requires var events, later := s.gateway.store.events, h.gateway.store.events;
      later == events || (later != [] && later[..|later| - 1] == events)
    ensures SyncInv(h)
  {
  }

  lemma StepKeepsSync(s: System, a: Action)
    requires Enabled(s, a) && S.LogInv(s.gateway) && SyncInv(s) && S.LogInv(Step(s, a).gateway)
    ensures SyncInv(Step(s, a))
    ensures s.cursor <= Step(s, a).cursor
  {
    hide Enabled, RowsAfter, RunsAfter, JournalAfter, InboxAfter, GatewayAfter, Page, Upto, Newer, Advanced;
    if a.ApplyPage? {
      PageKeepsSync(s);
    } else {
      LogGrows(s, a);
      SyncKept(s, Step(s, a));
    }
  }

  // ---- what a page means for a record ----

  /** The status of the last event for a key. */
  function LastFor(events: seq<Event>, key: string): Option<Status> {
    if events == [] then None
    else if events[|events| - 1].key == key then Some(events[|events| - 1].status)
    else LastFor(events[..|events| - 1], key)
  }

  /** A page gives each record the status of the last event for its key and changes nothing else. */
  lemma {:induction false} PageMeaning(rows: seq<Row>, events: seq<Event>, i: nat)
    requires UniqueKeys(rows) && i < |rows|
    ensures ApplyEvents(rows, events)[i] ==
      match LastFor(events, rows[i].identity.key)
      case Some(status) => rows[i].(status := status)
      case None => rows[i]
  {
    if events == [] {
    } else {
      var front := events[..|events| - 1];
      PageMeaning(rows, front, i);
      EventsKeepIdentities(rows, front);
    }
  }

  lemma {:induction false} LastForMember(events: seq<Event>, key: string)
    ensures LastFor(events, key).Some? ==>
      exists e | e in events :: e.key == key && LastFor(events, key) == Some(e.status)
  {
    if events == [] {
    } else if events[|events| - 1].key == key {
      assert events[|events| - 1] in events;
    } else {
      LastForMember(events[..|events| - 1], key);
    }
  }

  lemma {:induction false} LastForInTwo(first: seq<Event>, second: seq<Event>, key: string)
    ensures LastFor(first + second, key) ==
      if LastFor(second, key).Some? then LastFor(second, key) else LastFor(first, key)
  {
    if second == [] {
      assert first + second == first;
    } else {
      LastForInTwo(first, second[..|second| - 1], key);
      assert (first + second)[..|first + second| - 1] == first + second[..|second| - 1];
    }
  }

  // ---- stale events cannot undo a delivery ----

  /** The last of the events for the key is a submission or an acknowledgement. */
  predicate EndsTerminal(events: seq<Event>, key: string) {
    LastFor(events, key).Some? && Terminal(LastFor(events, key).value)
  }

  /** A record whose last applied event is a submission or an acknowledgement is terminal. */
  predicate Kept(s: System, i: nat) {
    i < |s.rows| && EndsTerminal(s.applied, s.rows[i].identity.key) ==> Terminal(s.rows[i].status)
  }

  /** How a terminal record can stop being terminal. */
  predicate Loses(s: System, a: Action, i: nat)
    requires Enabled(s, a) && i < |s.rows|
  {
    match a
    case ApplyPage => LastFor(s.page.value, s.rows[i].identity.key) == Some(Failed)
    case Begin(r, now) => r.row == i && Decide(r.seen, r.primary, now).Exhaust?
    case Retry(claim, _) => claim.row == i && !AtLimit(claim)
    case Release(j) => j == i
    case Abort(j) => j == i
    case Conclude(j, _) => j == i && Committed(s, a).value.1.Error?
    case _ => false
  }

  /** A writer other than a page takes a record out of its terminal status. */
  predicate Overwrites(s: System, a: Action, i: nat)
    requires Enabled(s, a) && i < |s.rows|
  {
    Terminal(s.rows[i].status) && !a.ApplyPage? && Loses(s, a, i)
  }

  lemma PageKeeps(s: System, i: nat)
    requires s.page.Some? && GoodRows(s.rows) && Kept(s, i) && i < |s.rows|
    ensures var rows := ApplyEvents(s.rows, s.page.value);
      && rows[i].identity == s.rows[i].identity
      && (EndsTerminal(s.applied + s.page.value, s.rows[i].identity.key) ==> Terminal(rows[i].status))
  {
    hide ApplyEvents, LastFor;
    PageMeaning(s.rows, s.page.value, i);
    LastForInTwo(s.applied, s.page.value, s.rows[i].identity.key);
  }

  /** Events name only keys of records that already exist. */
  lemma AppliedKeysIssued(s: System, e: Event)
    requires Base(s) && SyncInv(s) && e in s.applied
    ensures exists i | 0 <= i < |s.rows| :: s.rows[i].identity.key == e.key
  {
    UptoMembers(s.gateway.store.events, s.site, s.cursor);
    var k := e.key;
    assert S.Owned(s.gateway.store, k, s.site);
    assert Issued(s, k, s.gateway.store.jobs[k].result.fp);
    var t :| 0 <= t < |s.owners| && s.owners[t] < |s.rows| && Ticketed(s, t).key == k;
    assert s.rows[s.owners[t]].identity.key == k;
  }

  /** A key with applied events belongs to no new record. */
  lemma NewRowsUnreported(s: System, later: seq<Row>, i: nat)
    requires Base(s) && SyncInv(s) && SameIdentities(s.rows, later) && GoodRows(later) && |s.rows| <= i < |later|
    ensures LastFor(s.applied, later[i].identity.key).None?
  {
    if LastFor(s.applied, later[i].identity.key).Some? {
      LastForMember(s.applied, later[i].identity.key);
      var e :| e in s.applied && e.key == later[i].identity.key;
      AppliedKeysIssued(s, e);
      assert false;
    }
  }

  lemma WriterLosesExactly(s: System, a: Action, i: nat)
    requires Enabled(s, a) && !a.ApplyPage? && i < |s.rows| && Terminal(s.rows[i].status)
    ensures !Terminal(RowAfter(s, a, i).status) <==> Loses(s, a, i)
  {
  }

  lemma KeptExactly(s: System, a: Action, i: nat)
    requires Enabled(s, a) && Kept(s, i) && !a.ApplyPage? && i < |s.rows|
    ensures !Overwrites(s, a, i) ==> Kept(Step(s, a), i)
    ensures EndsTerminal(s.applied, s.rows[i].identity.key) ==> (Kept(Step(s, a), i) <==> !Overwrites(s, a, i))
  {
    hide Enabled, RowsAfter, RunsAfter, JournalAfter, InboxAfter, GatewayAfter, RowAfter, Loses, EndsTerminal;
    RowsKeepIdentities(s, a);
    RowByRow(s, a, i);
    if Terminal(s.rows[i].status) {
      WriterLosesExactly(s, a, i);
    }
  }

  /** As long as the last applied event of its key is a submission or an acknowledgement, a record
      stays terminal until a writer other than a page overwrites it, and no longer. */
  lemma StepKeptExactly(s: System, a: Action, i: nat)
    requires Enabled(s, a) && Base(s) && SyncInv(s) && Kept(s, i)
    ensures (i < |s.rows| ==> !Overwrites(s, a, i)) ==> Kept(Step(s, a), i)
    ensures i < |s.rows| && !a.ApplyPage? && EndsTerminal(s.applied, s.rows[i].identity.key)
      ==> (Kept(Step(s, a), i) <==> !Overwrites(s, a, i))
  {
    hide Enabled, RowsAfter, RunsAfter, JournalAfter, InboxAfter, GatewayAfter, S.Inv, Requests, Origins;
    if i < |s.rows| {
      if a.ApplyPage? {
        PageRows(s);
        PageKeeps(s, i);
      } else {
        KeptExactly(s, a, i);
      }
    } else if i < |RowsAfter(s, a)| {
      RowsKeepIdentities(s, a);
      RowsKeepGood(s, a);
      NewRowsUnreported(s, RowsAfter(s, a), i);
    }
  }

  lemma PageRows(s: System)
    requires Enabled(s, ApplyPage)
    ensures s.page.Some? && RowsAfter(s, ApplyPage) == ApplyEvents(s.rows, s.page.value)
  {
  }

  // ---- the log shows no relapse ----

  /** In the log a key's failures come before its terminal events. */
  lemma NoLateFailure(g: G.Gateway, e: Event, f: Event)
    requires S.LogInv(g) && e in g.store.events && f in g.store.events
    requires e.key == f.key && e.key !in g.webhooked && Terminal(e.status) && e.id < f.id
    ensures Terminal(f.status)
  {
    var events := g.store.events;
    var i :| 0 <= i < |events| && events[i] == e;
    var j :| 0 <= j < |events| && events[j] == f;
    assert S.Ordered(events[i], events[j], g.webhooked);
  }

  predicate ReportedIn(events: seq<Event>, key: string) {
    exists e | e in events :: e.key == key && Terminal(e.status)
  }

  /** After a terminal event of the key only terminal events of it follow. */
  predicate NoRelapse(events: seq<Event>, key: string) {
    forall x, y | 0 <= x < y < |events| && events[x].key == key && events[y].key == key && Terminal(events[x].status) ::
      Terminal(events[y].status)
  }

  lemma {:induction false} UptoAscends(events: seq<Event>, tenant: string, last: nat)
    requires Numbered(events)
    ensures Ascending(Upto(events, tenant, last), 0, |events|)
  {
    if events == [] {
    } else {
      var front := events[..|events| - 1];
      UptoAscends(front, tenant, last);
      var uf := Upto(front, tenant, last);
      assert Ascending(uf, 0, |front|);
      assert Upto(events, tenant, last) == uf || Upto(events, tenant, last) == uf + [events[|events| - 1]];
    }
  }

  lemma {:induction false} UptoMembers(events: seq<Event>, tenant: string, last: nat)
    ensures forall e | e in Upto(events, tenant, last) :: e in events && e.tenant == tenant && e.id <= last
  {
    if events == [] {
    } else {
      UptoMembers(events[..|events| - 1], tenant, last);
    }
  }

  /** The log shows no relapse of a key that no webhook reports on. */
  lemma ReadingsHaveNoRelapse(g: G.Gateway, tenant: string, last: nat, key: string)
    requires S.LogInv(g) && key !in g.webhooked
    ensures NoRelapse(Upto(g.store.events, tenant, last), key)
  {
    var read := Upto(g.store.events, tenant, last);
    UptoAscends(g.store.events, tenant, last);
    UptoMembers(g.store.events, tenant, last);
    forall x, y | 0 <= x < y < |read| && read[x].key == key && read[y].key == key && Terminal(read[x].status)
      ensures Terminal(read[y].status)
    {
      assert read[x] in read && read[y] in read;
      NoLateFailure(g, read[x], read[y]);
    }
  }

  /** Without a relapse a key that has been reported ends in a submission or an acknowledgement. */
  lemma {:induction false} ReportedEndsTerminal(events: seq<Event>, key: string)
    requires NoRelapse(events, key) && ReportedIn(events, key)
    ensures EndsTerminal(events, key)
  {
    var last := |events| - 1;
    var x :| 0 <= x < |events| && events[x].key == key && Terminal(events[x].status);
    if events[last].key == key {
      assert x < last ==> Terminal(events[last].status);
    } else {
      var front := events[..last];
      assert front[x] == events[x] && front[x] in front;
      assert NoRelapse(front, key) by {
        assert forall y | 0 <= y < last :: front[y] == events[y];
      }
      ReportedEndsTerminal(front, key);
    }
  }
}
