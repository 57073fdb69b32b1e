/** Terminal records, copies and flagged records, tied to the gateway's jobs and calls. */
module DeliveryOrder {
  import opened Messages
  import opened Stores
  import opened History
  import opened DeliverySystem
  import opened DeliveryInvariants
  import G = GatewayProtocol
  import S = GatewaySafety
  import GG = GatewayGuarantees

  // ---- terminal records ----

  /** The gateway holds a submitted job of this site for the record. */
  predicate JobDone(s: System, i: nat) {
    && i < |s.rows|
    && S.Owned(s.gateway.store, s.rows[i].identity.key, s.site)
    && S.Delivers(s.gateway.store, s.rows[i].identity.key)
  }

  predicate Settlement(s: System) {
    && (forall i | i in s.settled :: JobDone(s, i))
    && (forall i | 0 <= i < |s.rows| && Terminal(s.rows[i].status) :: i in s.settled)
    && (s.page.Some? ==> forall e | e in s.page.value :: e in s.gateway.store.events && e.tenant == s.site)
  }

  lemma {:induction false} NewerMembers(events: seq<Event>, tenant: string, after: nat)
    ensures forall e | e in Newer(events, tenant, after) :: e in events && e.tenant == tenant && e.id > after
  {
    if events == [] {
    } else {
      NewerMembers(events[..|events| - 1], tenant, after);
    }
  }

  /** A record that a page makes terminal is named by a terminal event of the page. */
  lemma {:induction false} PageTerminals(rows: seq<Row>, events: seq<Event>, i: nat)
    requires i < |rows|
    ensures Terminal(ApplyEvents(rows, events)[i].status) && !Terminal(rows[i].status) ==>
      exists e | e in events :: e.key == rows[i].identity.key && Terminal(e.status)
  {
    if events == [] {
    } else {
      PageTerminals(rows, events[..|events| - 1], i);
      EventsKeepIdentities(rows, events[..|events| - 1]);
      assert events[|events| - 1] in events;
    }
  }

  lemma JobsStayDone(s: System, a: Action)
    requires Enabled(s, a) && Base(s)
    ensures forall i | JobDone(s, i) :: JobDone(Step(s, a), i)
  {
    hide Enabled, RowsAfter, JournalAfter, InboxAfter, G.Step, G.Enabled;
    hide GoodRows, Book, Requests, Origins, S.KeyInv, S.Coherent, S.LogInv, S.RepliesInv;
    GatewayMoves(s, a);
    RowsKeepIdentities(s, a);
    match GatewayAction(s, a)
    case None =>
    case Some(g) =>
      assert S.KeyInv(s.gateway, S.Touched(s.gateway, g));
      S.StepEvolvesJobs(s.gateway, g);
  }

  /** A delivered reply to a worker run means its job is done and holds the ids of the reply. */
  lemma ReplyMeansDone(s: System, i: nat)
    requires Base(s) && Running(s, i) && s.runs[i].ticket.Some?
    requires var r := ReplyFor(s, s.runs[i].ticket.value); r.Some? && r.value.Sent?
    ensures JobDone(s, i)
    ensures s.gateway.store.jobs[s.rows[i].identity.key].result.ids == ReplyFor(s, s.runs[i].ticket.value).value.ids
  {
    var t := s.runs[i].ticket.value;
    assert S.Honest(s.gateway.store, s.gateway.replies[t]);
    assert ForTicket(s, t, s.gateway.replies[t].q);
  }

  lemma EventMeansDone(s: System, e: Event, i: nat)
    requires Base(s) && e in s.gateway.store.events && e.tenant == s.site && Terminal(e.status)
    requires i < |s.rows| && s.rows[i].identity.key == e.key
    ensures JobDone(s, i)
  {
  }

  /** How a record becomes terminal: by a delivered reply or by an event of a page. */
  predicate TerminalCause(s: System, a: Action, i: nat)
    requires Enabled(s, a) && i < |s.rows|
  {
    match a
    case Conclude(j, lost) => j == i && !lost && ReplyFor(s, s.runs[i].ticket.value).value.Sent?
    case ApplyPage => exists e | e in s.page.value :: e.key == s.rows[i].identity.key && Terminal(e.status)
    case _ => false
  }

  lemma BecomesTerminal(s: System, a: Action, i: nat)
    requires Enabled(s, a) && i < |RowsAfter(s, a)| && Terminal(RowsAfter(s, a)[i].status)
    ensures i < |s.rows|
    ensures Terminal(s.rows[i].status) || TerminalCause(s, a, i)
  {
    hide RowsAfter;
    RowByRow(s, a, i);
    if a.ApplyPage? {
      PageTerminals(s.rows, s.page.value, i);
    }
  }

  lemma CauseMeansDone(s: System, a: Action, i: nat)
    requires Enabled(s, a) && Base(s) && Settlement(s) && i < |s.rows| && TerminalCause(s, a, i)
    ensures JobDone(s, i)
  {
    hide S.Inv, GoodRows;
    if a.Conclude? {
      ReplyMeansDone(s, i);
    } else {
      var e :| e in s.page.value && e.key == s.rows[i].identity.key && Terminal(e.status);
      EventMeansDone(s, e, i);
    }
  }

  lemma StepKeepsPage(s: System, a: Action)
    requires Enabled(s, a) && Settlement(s)
    ensures var h := Step(s, a);
      h.page.Some? ==> forall e | e in h.page.value :: e in h.gateway.store.events && e.tenant == h.site
  {
    hide Enabled, RowsAfter, RunsAfter, JournalAfter, InboxAfter, G.Step, G.Enabled;
    GatewayMoves(s, a);
    match GatewayAction(s, a)
    case Some(g) => S.StepLogs(s.gateway, g);
    case None =>
      if a.Fetch? {
        NewerMembers(s.gateway.store.events, s.site, s.cursor);
      }
  }

  lemma NewlySettled(s: System, a: Action, i: nat)
    requires Enabled(s, a) && Base(s) && Settlement(s) && i in TerminalRows(RowsAfter(s, a))
    ensures JobDone(s, i)
  {
    hide Enabled, RowsAfter, Base;
    BecomesTerminal(s, a, i);
    if !Terminal(s.rows[i].status) {
      CauseMeansDone(s, a, i);
    }
  }

  lemma StepKeepsSettlement(s: System, a: Action)
    requires Enabled(s, a) && Base(s) && Settlement(s)
    ensures Settlement(Step(s, a))
  {
    hide Enabled, RowsAfter, RunsAfter, JournalAfter, InboxAfter, GatewayAfter, Base;
    var h := Step(s, a);
    StepKeepsPage(s, a);
    JobsStayDone(s, a);
    forall i | i in h.settled ensures JobDone(h, i) {
      if i !in s.settled {
        NewlySettled(s, a, i);
      }
    }
  }

  // ---- the ids a record shows ----

  lemma {:induction false} EventsKeepFlags(rows: seq<Row>, events: seq<Event>)
    ensures forall i | 0 <= i < |rows| ::
      ApplyEvents(rows, events)[i] == rows[i].(status := ApplyEvents(rows, events)[i].status)
  {
    if events == [] {
    } else {
      EventsKeepFlags(rows, events[..|events| - 1]);
    }
  }

  /** The record's job is submitted and holds these ids. */
  predicate JobHolds(s: System, i: nat, ids: seq<string>) {
    JobDone(s, i) && s.gateway.store.jobs[s.rows[i].identity.key].result.ids == ids
  }

  /** The message ids of every record are those of its submitted job. */
  predicate Recorded(s: System) {
    forall i | 0 <= i < |s.rows| && s.rows[i].messageIds.Some? :: JobHolds(s, i, s.rows[i].messageIds.value)
  }

  lemma HeldIdsStay(s: System, a: Action, i: nat, ids: seq<string>)
    requires Enabled(s, a) && Base(s) && JobHolds(s, i, ids)
    ensures JobHolds(Step(s, a), i, ids)
  {
    hide Enabled, RowsAfter, JournalAfter, InboxAfter, G.Step, G.Enabled;
    hide GoodRows, Book, Requests, Origins, S.KeyInv, S.Coherent, S.LogInv, S.RepliesInv;
    GatewayMoves(s, a);
    RowsKeepIdentities(s, a);
    match GatewayAction(s, a)
    case None =>
    case Some(g) =>
      assert S.KeyInv(s.gateway, S.Touched(s.gateway, g));
      S.StepEvolvesJobs(s.gateway, g);
  }

  lemma NewIdsHeld(s: System, a: Action, i: nat)
    requires Enabled(s, a) && Base(s) && Recorded(s) && i < |RowsAfter(s, a)| && RowsAfter(s, a)[i].messageIds.Some?
    ensures JobHolds(s, i, RowsAfter(s, a)[i].messageIds.value)
  {
    hide RowsAfter, S.Inv, GoodRows, Requests, Origins, JobHolds;
    RowByRow(s, a, i);
    if a.ApplyPage? {
      EventsKeepFlags(s.rows, s.page.value);
    } else if a.Conclude? && a.row == i && RowsAfter(s, a)[i].messageIds != s.rows[i].messageIds {
      ReplyMeansHeld(s, i);
    }
  }

  lemma ReplyMeansHeld(s: System, i: nat)
    requires Base(s) && Running(s, i) && s.runs[i].ticket.Some?
    requires var r := ReplyFor(s, s.runs[i].ticket.value); r.Some? && r.value.Sent?
    ensures JobHolds(s, i, ReplyFor(s, s.runs[i].ticket.value).value.ids)
  {
    ReplyMeansDone(s, i);
  }

  lemma StepKeepsRecorded(s: System, a: Action)
    requires Enabled(s, a) && Base(s) && Recorded(s)
    ensures Recorded(Step(s, a))
  {
    hide Enabled, RowsAfter, RunsAfter, JournalAfter, InboxAfter, GatewayAfter, Base, JobHolds;
    var h := Step(s, a);
    forall i | 0 <= i < |h.rows| && h.rows[i].messageIds.Some? ensures JobHolds(h, i, h.rows[i].messageIds.value) {
      NewIdsHeld(s, a, i);
      HeldIdsStay(s, a, i, h.rows[i].messageIds.value);
    }
  }

  // ---- copies wait for their primaries ----

  /** A worker has seen a primary terminal only if it has been terminal. */
  predicate ReadingsSettled(readings: set<Reading>, settled: set<nat>) {
    forall r | r in readings && r.seen.identity.copyOf.Some? && r.primary.Some? && Terminal(r.primary.value) ::
      r.seen.identity.copyOf.value in settled
  }

  /** A copy is attempted, and requests are issued for it, only once its primary has been terminal. */
  predicate CopiesWait(s: System) {
    && ReadingsSettled(s.readings, s.settled)
    && (forall i | i in s.runs && i < |s.rows| && s.rows[i].identity.copyOf.Some? ::
          s.rows[i].identity.copyOf.value in s.settled)
    && (forall t | 0 <= t < |s.owners| && s.owners[t] < |s.rows| && s.rows[s.owners[t]].identity.copyOf.Some? ::
          s.rows[s.owners[t]].identity.copyOf.value in s.settled)
  }

  /** A run that a step starts attempts the record its worker has read. */
  predicate Attempts(s: System, a: Action, i: nat) {
    && a.Begin? && a.reading.row == i && a.reading in s.readings
    && i < |s.rows| && SameSave(a.reading.seen, s.rows[i])
    && Decide(a.reading.seen, a.reading.primary, a.now).Attempt?
  }

  lemma RunsAndTickets(s: System, a: Action)
    requires Enabled(s, a)
    ensures var h := Step(s, a);
      && (forall i | i in h.runs && i !in s.runs :: Attempts(s, a, i))
      && s.owners <= h.owners
      && (forall t | |s.owners| <= t < |h.owners| :: h.owners[t] in s.runs && h.owners[t] < |s.rows|)
      && s.settled <= h.settled
  {
    hide RowsAfter, JournalAfter, InboxAfter, GatewayAfter;
  }

  lemma ReadingsWait(s: System, a: Action)
    requires Enabled(s, a) && Settlement(s) && CopiesWait(s)
    ensures ReadingsSettled(Step(s, a).readings, s.settled)
  {
    hide RowsAfter, RunsAfter, JournalAfter, InboxAfter, GatewayAfter;
  }

  lemma CopiesWaitKept(s: System, a: Action, h: System)
    requires Book(s) && CopiesWait(s)
    requires SameIdentities(s.rows, h.rows) && s.settled <= h.settled && s.owners <= h.owners
    requires ReadingsSettled(h.readings, s.settled)
    requires forall i | i in h.runs && i !in s.runs :: Attempts(s, a, i)
    requires forall t | |s.owners| <= t < |h.owners| :: h.owners[t] in s.runs && h.owners[t] < |s.rows|
    ensures CopiesWait(h)
  {
    forall t | 0 <= t < |h.owners| && h.owners[t] < |h.rows| && h.rows[h.owners[t]].identity.copyOf.Some?
      ensures h.rows[h.owners[t]].identity.copyOf.value in h.settled
    {
      if t < |s.owners| {
        assert h.owners[t] == s.owners[t];
      }
    }
  }

  lemma StepKeepsCopiesWait(s: System, a: Action)
    requires Enabled(s, a) && Base(s) && Settlement(s) && CopiesWait(s)
    ensures CopiesWait(Step(s, a))
  {
    hide Step, Enabled;
    ReadingsWait(s, a);
    StepKeepsIdentities(s, a);
    RunsAndTickets(s, a);
    CopiesWaitKept(s, a, Step(s, a));
  }

  predicate CallFor(s: System, c: G.Call, i: nat) {
    i < |s.rows| && c.tenant == s.site && c.key == s.rows[i].identity.key
  }

  predicate CallOfPrimary(s: System, c: G.Call, copy: nat) {
    copy < |s.rows| && s.rows[copy].identity.copyOf.Some? && CallFor(s, c, s.rows[copy].identity.copyOf.value)
  }

  /** In the trace of provider calls, none for a primary comes after one for its copy. */
  predicate TraceOrder(s: System) {
    forall x, y, i | 0 <= x < y < |s.gateway.calls| && 0 <= i < |s.rows| && CallFor(s, s.gateway.calls[x], i) ::
      !CallOfPrimary(s, s.gateway.calls[y], i)
  }

  /** A request with a record's key was issued for that record, with its payload. */
  lemma IssuedForRow(s: System, i: nat, fp: Fingerprint)
    requires GoodRows(s.rows) && i < |s.rows| && Issued(s, s.rows[i].identity.key, fp)
    ensures fp == FingerprintOf(RowRequest(s, i))
    ensures exists t | 0 <= t < |s.owners| :: s.owners[t] == i
  {
    var t :| 0 <= t < |s.owners| && s.owners[t] < |s.rows|
          && Ticketed(s, t).key == s.rows[i].identity.key && FingerprintOf(Ticketed(s, t)) == fp;
    assert s.owners[t] == i;
  }

  /** A provider call for a copy means that its primary's job is done. */
  lemma CopyCallMeansPrimaryDone(s: System, c: G.Call, i: nat)
    requires Base(s) && Settlement(s) && CopiesWait(s)
    requires c in s.gateway.calls && CallFor(s, c, i) && s.rows[i].identity.copyOf.Some?
    ensures JobDone(s, s.rows[i].identity.copyOf.value)
  {
    IssuedForRow(s, i, c.fp);
    var t :| 0 <= t < |s.owners| && s.owners[t] == i;
    assert s.rows[s.owners[t]].identity.copyOf.value in s.settled;
  }

  /** A call of this site under a record's key was made when the record already existed. */
  lemma CalledRowsExist(s: System, h: System, c: G.Call, i: nat)
    requires Base(s) && c in s.gateway.calls
    requires GoodRows(h.rows) && SameIdentities(s.rows, h.rows) && h.site == s.site && CallFor(h, c, i)
    ensures CallFor(s, c, i)
  {
    assert Issued(s, c.key, c.fp);
    var t :| 0 <= t < |s.owners| && s.owners[t] < |s.rows| && Ticketed(s, t).key == c.key;
    assert h.rows[s.owners[t]].identity.key == h.rows[i].identity.key;
  }

  /** At most one call is added, for a job that is not done. */
  predicate OneCallAdded(s: System, h: System) {
    var calls, later := s.gateway.calls, h.gateway.calls;
    || later == calls
    || (&& |later| == |calls| + 1 && later[..|calls|] == calls
        && !S.Delivers(s.gateway.store, later[|calls|].key))
  }

  lemma OldCallsOrdered(s: System, h: System, x: nat, y: nat, i: nat)
    requires TraceOrder(s) && GoodRows(s.rows) && SameIdentities(s.rows, h.rows) && h.site == s.site
    requires x < y < |s.gateway.calls| && i < |s.rows| && CallFor(s, s.gateway.calls[x], i)
    ensures !CallOfPrimary(h, s.gateway.calls[y], i)
  {
    assert Provenance(s.rows, i);
    assert !CallOfPrimary(s, s.gateway.calls[y], i);
  }

  /** A call for a job that is not done is none for the primary of a copy that has been called. */
  lemma NewCallOrdered(s: System, h: System, c: G.Call, x: nat, i: nat)
    requires Base(s) && Settlement(s) && CopiesWait(s) && SameIdentities(s.rows, h.rows) && h.site == s.site
    requires !S.Delivers(s.gateway.store, c.key)
    requires x < |s.gateway.calls| && i < |s.rows| && CallFor(s, s.gateway.calls[x], i)
    ensures !CallOfPrimary(h, c, i)
  {
    hide S.Inv, Settlement, CopiesWait;
    assert Provenance(s.rows, i);
    if s.rows[i].identity.copyOf.Some? {
      CopyCallMeansPrimaryDone(s, s.gateway.calls[x], i);
    }
  }

  lemma TraceOrderKept(s: System, h: System)
    requires Base(s) && Settlement(s) && CopiesWait(s) && TraceOrder(s)
    requires GoodRows(h.rows) && SameIdentities(s.rows, h.rows) && h.site == s.site
    requires OneCallAdded(s, h)
    ensures TraceOrder(h)
  {
    hide Settlement, CopiesWait, GoodRows, SameIdentities, S.Inv, Requests, Origins, CallOfPrimary, S.Delivers;
    var calls, before := h.gateway.calls, s.gateway.calls;
    forall x, y, i | 0 <= x < y < |calls| && 0 <= i < |h.rows| && CallFor(h, calls[x], i)
      ensures !CallOfPrimary(h, calls[y], i)
    {
      assert calls[x] == calls[..|before|][x] == before[x];
      CalledRowsExist(s, h, before[x], i);
      if y < |before| {
        assert calls[y] == before[y];
        OldCallsOrdered(s, h, x, y, i);
      } else {
        NewCallOrdered(s, h, calls[y], x, i);
      }
    }
  }

  lemma StepAddsOneCall(s: System, a: Action)
    requires Enabled(s, a) && Base(s)
    ensures OneCallAdded(s, Step(s, a))
  {
    hide Enabled, RowsAfter, RunsAfter, JournalAfter, InboxAfter, G.Step, G.Enabled;
    GatewayMoves(s, a);
    match GatewayAction(s, a)
    case None =>
    case Some(g) =>
      assert S.KeyInv(s.gateway, S.Touched(s.gateway, g));
      GG.CallOrigin(s.gateway, g);
  }

  lemma StepKeepsTraceOrder(s: System, a: Action)
    requires Enabled(s, a) && Base(s) && Settlement(s) && CopiesWait(s) && TraceOrder(s)
    ensures TraceOrder(Step(s, a))
  {
    hide RowsAfter, RunsAfter, JournalAfter, InboxAfter, GatewayAfter, Enabled;
    StepKeepsIdentities(s, a);
    StepKeepsGoodRows(s, a);
    StepAddsOneCall(s, a);
    TraceOrderKept(s, Step(s, a));
  }

  // ---- flagged records ----

  /** The record is a copy whose gateway job is stuck under a marker. */
  predicate StuckRow(s: System, i: nat) {
    && i < |s.rows|
    && s.rows[i].identity.group
    && S.Owned(s.gateway.store, s.rows[i].identity.key, s.site)
    && GG.Stuck(s.gateway, s.rows[i].identity.key)
  }

  predicate FlagsStuck(s: System) {
    && (forall i | 0 <= i < |s.rows| && s.rows[i].flagged :: StuckRow(s, i))
    && (forall t | t in s.gateway.replies && t >= 0 && s.gateway.replies[t].reply == G.Refused(true) ::
          t < |s.owners| && StuckRow(s, s.owners[t]))
    && (forall i | i in s.runs && i < |s.rows| :: !s.rows[i].flagged)
  }

  lemma RequestsAreGroupOnly(s: System, a: Action, g: G.Action, i: nat)
    requires Enabled(s, a) && Base(s) && StuckRow(s, i) && GatewayAction(s, a) == Some(g)
    ensures GG.GroupOnly(s.gateway, g, s.rows[i].identity.key)
  {
    hide Enabled, GatewayAction;
    if g.AcceptRequest? && g.q.key == s.rows[i].identity.key && g.q.tenant == s.site {
      assert GG.Handles(s.gateway, g, g.ticket, g.q);
      HandledForTicket(s, a, g, g.ticket, g.q);
    }
  }

  /** The gateway leaves a stuck record's job and calls alone: no request of the site is individual for it. */
  lemma StuckRowStays(s: System, a: Action, i: nat)
    requires Enabled(s, a) && Base(s) && StuckRow(s, i)
    ensures StuckRow(Step(s, a), i)
    ensures var k := s.rows[i].identity.key;
      S.GroupCalls(Step(s, a).gateway.calls, k) == S.GroupCalls(s.gateway.calls, k)
      && Step(s, a).gateway.store.jobs[k] == s.gateway.store.jobs[k]
  {
    hide Enabled, RowsAfter, RunsAfter, JournalAfter, InboxAfter, G.Step, G.Enabled, Base;
    RowsKeepIdentities(s, a);
    GatewayMoves(s, a);
    match GatewayAction(s, a)
    case None =>
    case Some(g) =>
      RequestsAreGroupOnly(s, a, g, i);
      GG.StuckStays(s.gateway, g, s.rows[i].identity.key);
  }

  lemma FreshRefusalStuck(s: System, a: Action, t: int)
    requires Enabled(s, a) && Base(s)
    requires t in Step(s, a).gateway.replies && t >= 0 && Step(s, a).gateway.replies[t].reply == G.Refused(true)
    requires t in s.gateway.replies ==> s.gateway.replies[t] != Step(s, a).gateway.replies[t]
    ensures t < |Step(s, a).owners| && StuckRow(Step(s, a), Step(s, a).owners[t])
  {
    hide Enabled, RowsAfter, RunsAfter, JournalAfter, InboxAfter, G.Step, G.Enabled;
    hide GoodRows, Origins, S.KeyInv, S.Coherent, S.LogInv, S.RepliesInv;
    var h := Step(s, a);
    GatewayMoves(s, a);
    StepKeepsRequests(s, a);
    var g := GatewayAction(s, a).value;
    assert S.KeyInv(s.gateway, S.Touched(s.gateway, g));
    GG.ReconcileRepliesAreStuck(s.gateway, g, t);
    assert ForTicket(h, t, h.gateway.replies[t].q);
  }

  lemma RefusalsStayStuck(s: System, a: Action, t: int)
    requires Enabled(s, a) && Base(s) && FlagsStuck(s)
    requires t in Step(s, a).gateway.replies && t >= 0 && Step(s, a).gateway.replies[t].reply == G.Refused(true)
    ensures t < |Step(s, a).owners| && StuckRow(Step(s, a), Step(s, a).owners[t])
  {
    hide Step, Enabled, S.Inv, GoodRows, Requests, Origins, StuckRow;
    var h := Step(s, a);
    StepKeepsBook(s, a);
    if t in s.gateway.replies && s.gateway.replies[t] == h.gateway.replies[t] {
      assert h.owners[t] == s.owners[t];
      StuckRowStays(s, a, s.owners[t]);
    } else {
      FreshRefusalStuck(s, a, t);
    }
  }

  /** A record is flagged only by the commit of a reply that asks for reconciliation. */
  predicate FlagCause(s: System, a: Action, i: nat)
    requires Enabled(s, a)
  {
    a.Conclude? && a.row == i && !a.lost && ReplyFor(s, s.runs[i].ticket.value) == Some(G.Refused(true))
  }

  lemma FlagsChange(s: System, a: Action, i: nat)
    requires Enabled(s, a) && i < |RowsAfter(s, a)|
    ensures RowsAfter(s, a)[i].flagged ==> i < |s.rows| && (s.rows[i].flagged || FlagCause(s, a, i))
    ensures i < |s.rows| && i in RunsAfter(s, a) ==> RowsAfter(s, a)[i].flagged == s.rows[i].flagged
    ensures i < |s.rows| && i !in s.runs ==> RowsAfter(s, a)[i].flagged == s.rows[i].flagged
  {
    hide RowsAfter;
    RowByRow(s, a, i);
    if a.ApplyPage? {
      EventsKeepFlags(s.rows, s.page.value);
    }
  }

  lemma FlaggedStaysStuck(s: System, a: Action, i: nat)
    requires Enabled(s, a) && Base(s) && FlagsStuck(s) && i < |RowsAfter(s, a)| && RowsAfter(s, a)[i].flagged
    ensures StuckRow(Step(s, a), i)
  {
    hide Step, RowsAfter, StuckRow, S.Inv, GoodRows, Requests, Origins;
    FlagsChange(s, a, i);
    if !s.rows[i].flagged {
      assert StuckRow(s, s.owners[s.runs[i].ticket.value]);
    }
    StuckRowStays(s, a, i);
  }

  lemma RunsUnflagged(s: System, a: Action)
    requires Enabled(s, a) && Book(s) && FlagsStuck(s)
    ensures forall i | i in RunsAfter(s, a) && i < |RowsAfter(s, a)| :: !RowsAfter(s, a)[i].flagged
  {
    hide RowsAfter, StuckRow;
    forall i | i in RunsAfter(s, a) && i < |RowsAfter(s, a)| ensures !RowsAfter(s, a)[i].flagged {
      FlagsChange(s, a, i);
    }
  }

  lemma StepKeepsFlagsStuck(s: System, a: Action)
    requires Enabled(s, a) && Base(s) && FlagsStuck(s)
    ensures FlagsStuck(Step(s, a))
  {
    hide Enabled, RowsAfter, RunsAfter, JournalAfter, InboxAfter, GatewayAfter;
    hide S.Inv, GoodRows, Requests, Origins, StuckRow;
    var h := Step(s, a);
    forall i | 0 <= i < |h.rows| && h.rows[i].flagged ensures StuckRow(h, i) {
      FlaggedStaysStuck(s, a, i);
    }
    forall t | t in h.gateway.replies && t >= 0 && h.gateway.replies[t].reply == G.Refused(true)
      ensures t < |h.owners| && StuckRow(h, h.owners[t])
    {
      RefusalsStayStuck(s, a, t);
    }
    RunsUnflagged(s, a);
  }

  // ---- every request is answered at most once ----

  predicate InProcess(s: System, t: int) {
    s.gateway.process.Busy? && s.gateway.process.ticket == t
  }

  /** A ticket waits, is being served, or has been answered; never two of these. */
  predicate OneAnswer(s: System) {
    && (forall t | t in s.inbox :: t !in s.gateway.replies && !InProcess(s, t))
    && (s.gateway.process.Busy? && s.gateway.process.ticket >= 0 ==> s.gateway.process.ticket !in s.gateway.replies)
  }

  lemma GatewayKeepsOneAnswer(s: System, g: G.Action, inbox: set<nat>)
    requires G.Enabled(s.gateway, g) && OneAnswer(s) && inbox <= s.inbox.Keys
    requires g.AcceptRequest? ==> g.ticket !in inbox && (g.ticket in s.inbox || g.ticket == -1)
    ensures var h := G.Step(s.gateway, g);
      && (forall t | t in inbox :: t !in h.replies && !(h.process.Busy? && h.process.ticket == t))
      && (h.process.Busy? && h.process.ticket >= 0 ==> h.process.ticket !in h.replies)
      && (forall t | t in s.gateway.replies && t >= 0 :: t in h.replies && h.replies[t] == s.gateway.replies[t])
  {
    hide G.Step, G.Enabled;
    GG.ProcessOrigin(s.gateway, g);
    S.RepliesChange(s.gateway, g);
  }

  lemma InboxShrinks(s: System, a: Action)
    requires Enabled(s, a) && GatewayAction(s, a).Some?
    ensures var g := GatewayAction(s, a).value;
      && InboxAfter(s, a).Keys <= s.inbox.Keys
      && (g.AcceptRequest? ==> g.ticket !in InboxAfter(s, a).Keys && (g.ticket in s.inbox || g.ticket == -1))
  {
  }

  lemma NewTicketUnanswered(s: System, a: Action)
    requires Enabled(s, a) && Requests(s) && OneAnswer(s) && GatewayAction(s, a).None?
    ensures forall t | t in InboxAfter(s, a) :: t !in s.gateway.replies && !InProcess(s, t)
  {
  }

  lemma StepKeepsOneAnswer(s: System, a: Action)
    requires Enabled(s, a) && Requests(s) && OneAnswer(s)
    ensures OneAnswer(Step(s, a))
    ensures forall t | t in s.gateway.replies && t >= 0 ::
      t in Step(s, a).gateway.replies && Step(s, a).gateway.replies[t] == s.gateway.replies[t]
  {
    hide Enabled, RowsAfter, RunsAfter, JournalAfter, InboxAfter, Requests, G.Step, G.Enabled;
    GatewayMoves(s, a);
    match GatewayAction(s, a)
    case None => NewTicketUnanswered(s, a);
    case Some(g) =>
      InboxShrinks(s, a);
      GatewayKeepsOneAnswer(s, g, InboxAfter(s, a).Keys);
  }
}
