/** What every action of the whole system keeps: records, requests, and their order in time. */
module DeliveryInvariants {
  import opened Messages
  import opened Stores
  import opened CompanyGroups
  import opened History
  import opened DeliverySystem
  import G = GatewayProtocol
  import S = GatewaySafety
  import GG = GatewayGuarantees

  // ---- records keep their identity ----

  predicate UniqueKeys(rows: seq<Row>) {
    forall i, j | 0 <= i < j < |rows| :: rows[i].identity.key != rows[j].identity.key
  }

  /** A group record copies an earlier individual record that is itself no copy, field for field. */
  predicate Provenance(rows: seq<Row>, i: nat)
    requires i < |rows|
  {
    var id := rows[i].identity;
    && HasReferences(id.content)
    && (id.group <==> id.copyOf.Some?)
    && (id.copyOf.Some? ==>
          && id.copyOf.value < i
          && !rows[id.copyOf.value].identity.group
          && rows[id.copyOf.value].identity.content == id.content
          && id.content.provider.LinkedDevice?)
  }

  predicate GoodRows(rows: seq<Row>) {
    UniqueKeys(rows) && forall i | 0 <= i < |rows| :: Provenance(rows, i)
  }

  predicate SameIdentities(rows: seq<Row>, later: seq<Row>) {
    |rows| <= |later| && forall i | 0 <= i < |rows| :: later[i].identity == rows[i].identity
  }

  lemma {:induction false} EventsKeepIdentities(rows: seq<Row>, events: seq<Event>)
    ensures SameIdentities(rows, ApplyEvents(rows, events))
  {
    if events == [] {
    } else {
      EventsKeepIdentities(rows, events[..|events| - 1]);
    }
  }

  lemma RowsKeepIdentities(s: System, a: Action)
    requires Enabled(s, a)
    ensures SameIdentities(s.rows, RowsAfter(s, a))
    ensures !a.Create? ==> |RowsAfter(s, a)| == |s.rows|
  {
    if a.ApplyPage? {
      EventsKeepIdentities(s.rows, s.page.value);
    }
  }

  lemma StepKeepsIdentities(s: System, a: Action)
    requires Enabled(s, a)
    ensures SameIdentities(s.rows, Step(s, a).rows)
    ensures !a.Create? ==> |Step(s, a).rows| == |s.rows|
  {
    RowsKeepIdentities(s, a);
  }

  /** What becomes of one record that is there before the action. */
  function RowAfter(s: System, a: Action, i: nat): Row
    requires Enabled(s, a) && i < |s.rows|
  {
    var r := s.rows[i];
    match Committed(s, a)
    case Some((j, outcome)) => if j == i then Concluded(Claimed(r), outcome, s.clock) else r
    case None =>
      match a
      case Begin(reading, now) =>
        if reading.row == i && Decide(reading.seen, reading.primary, now).Exhaust? then Exhausted(r) else r
      case Release(j) => if j == i then ReleasedCopy(r) else r
      case Retry(claim, enqueued) => if claim.row == i then Scheduled(r, claim, enqueued, s.clock) else r
      case ApplyPage => ApplyEvents(s.rows, s.page.value)[i]
      case _ => r
  }

  predicate Untouched(r: Row) {
    r.status in {Waiting, Queued} && r.retryCount == 0 && r.nextRetryAt.None? && !r.flagged && r.messageIds.None?
  }

  lemma RowByRow(s: System, a: Action, i: nat)
    requires Enabled(s, a) && i < |RowsAfter(s, a)|
    ensures if i < |s.rows| then RowsAfter(s, a)[i] == RowAfter(s, a, i) else a.Create? && Untouched(RowsAfter(s, a)[i])
  {
  }

  lemma KeptIdentitiesKeepGood(rows: seq<Row>, later: seq<Row>)
    requires GoodRows(rows) && SameIdentities(rows, later) && |later| == |rows|
    ensures GoodRows(later)
  {
    forall i | 0 <= i < |later| ensures Provenance(later, i) {
      assert Provenance(rows, i);
    }
  }

  lemma OneMoreGoodRow(rows: seq<Row>, r: Row)
    requires GoodRows(rows) && IndexOf(rows, r.identity.key).None?
    requires Provenance(rows + [r], |rows|)
    ensures GoodRows(rows + [r])
  {
    forall i | 0 <= i < |rows| + 1 ensures Provenance(rows + [r], i) {
      if i < |rows| {
        assert Provenance(rows, i);
      }
    }
  }

  /** A delivery adds its primary, and a company copy of it when a group is configured. */
  lemma StoredKeepsGood(rows: seq<Row>, d: Draft, settings: Settings, readable: bool, keys: (string, string))
    requires GoodRows(rows)
    ensures Stored(rows, d, settings, readable, keys).Some? ==>
      var later := Stored(rows, d, settings, readable, keys).value;
      GoodRows(later) && SameIdentities(rows, later) && |rows| + 1 <= |later| <= |rows| + 2
  {
    var primary := NewRow(d, settings, None, d.recipient, keys.0);
    if Stored(rows, d, settings, readable, keys).Some? {
      OneMoreGoodRow(rows, primary);
      var lookup := ConfiguredGroup(settings, d.content.company, readable);
      if lookup.Configured? {
        OneMoreGoodRow(rows + [primary], NewRow(d, settings, Some(|rows|), lookup.groupId, keys.1));
      }
    }
  }

  lemma RowsKeepGood(s: System, a: Action)
    requires Enabled(s, a) && GoodRows(s.rows)
    ensures GoodRows(RowsAfter(s, a))
  {
    if a.Create? {
      StoredKeepsGood(s.rows, a.draft, a.settings, a.readable, a.keys);
    } else {
      RowsKeepIdentities(s, a);
      KeptIdentitiesKeepGood(s.rows, RowsAfter(s, a));
    }
  }

  lemma StepKeepsGoodRows(s: System, a: Action)
    requires Enabled(s, a) && GoodRows(s.rows)
    ensures GoodRows(Step(s, a).rows)
  {
    RowsKeepGood(s, a);
  }

  // ---- requests, tickets and replies ----

  /** The bookkeeping of runs and tickets. */
  predicate Book(s: System) {
    && |s.journal| == |s.rows|
    && (forall t | 0 <= t < |s.owners| ::
          s.owners[t] < |s.rows| && !s.rows[s.owners[t]].identity.content.provider.UnsupportedTransport?)
    && (forall i | i in s.runs :: i < |s.rows|)
    && (forall i | i in s.runs && s.runs[i].ticket.Some? ::
          s.runs[i].ticket.value < |s.owners| && s.owners[s.runs[i].ticket.value] == i)
  }

  /** The request a ticket stands for. */
  function Ticketed(s: System, t: nat): Request
    requires t < |s.owners| && s.owners[t] < |s.rows|
  {
    RowRequest(s, s.owners[t])
  }

  predicate ForTicket(s: System, t: int, q: Request) {
    0 <= t < |s.owners| && s.owners[t] < |s.rows| && q == Ticketed(s, t)
  }

  /** Whatever the gateway handles for this site was sent by a worker run. */
  predicate Requests(s: System) {
    && (forall t | t in s.inbox :: ForTicket(s, t, s.inbox[t]))
    && (forall t | t in s.gateway.replies && t >= 0 :: ForTicket(s, t, s.gateway.replies[t].q))
    && (s.gateway.process.Busy? ==>
          var p := s.gateway.process;
          if p.q.tenant == s.site then ForTicket(s, p.ticket, p.q) else p.ticket == -1)
  }

  /** Some ticket was issued for a request with this key and payload. */
  ghost predicate Issued(s: System, k: string, fp: Fingerprint) {
    exists t | 0 <= t < |s.owners| && s.owners[t] < |s.rows| ::
      Ticketed(s, t).key == k && FingerprintOf(Ticketed(s, t)) == fp
  }

  /** Every job and call of this site comes from such a request. */
  ghost predicate Origins(s: System) {
    && (forall k | k in s.gateway.store.jobs && s.gateway.store.jobs[k].tenant == s.site ::
          Issued(s, k, s.gateway.store.jobs[k].result.fp))
    && (forall c | c in s.gateway.calls && c.tenant == s.site :: Issued(s, c.key, c.fp))
  }

  ghost predicate Base(s: System) {
    S.Inv(s.gateway) && GoodRows(s.rows) && Book(s) && Requests(s) && Origins(s)
  }

  /** The gateway step an action makes, if any. */
  function GatewayAction(s: System, a: Action): Option<G.Action>
    requires Enabled(s, a)
  {
    match a
    case Deliver(t) => Some(G.AcceptRequest(t, s.inbox[t]))
    case Foreign(q) => Some(G.AcceptRequest(-1, q))
    case GatewayStep(g) => Some(g)
    case _ => None
  }

  lemma GatewayMoves(s: System, a: Action)
    requires Enabled(s, a)
    ensures match GatewayAction(s, a)
      case Some(g) => G.Enabled(s.gateway, g) && GatewayAfter(s, a) == G.Step(s.gateway, g) && RowsAfter(s, a) == s.rows
      case None => GatewayAfter(s, a) == s.gateway
  {
  }

  lemma StepKeepsGatewayInv(s: System, a: Action)
    requires Enabled(s, a) && S.Inv(s.gateway)
    ensures S.Inv(Step(s, a).gateway)
  {
    hide S.Inv;
    GatewayMoves(s, a);
    match GatewayAction(s, a)
    case Some(g) => S.StepKeepsInv(s.gateway, g);
    case None =>
  }

  lemma JournalLength(s: System, a: Action)
    requires Enabled(s, a) && |s.journal| == |s.rows|
    ensures |JournalAfter(s, a)| == |RowsAfter(s, a)|
  {
  }

  /** A ticket is issued only for a record whose transport is registered. */
  lemma OwnersKept(s: System, a: Action)
    requires Enabled(s, a) && Book(s)
    ensures var h := Step(s, a);
      s.owners <= h.owners && forall t | 0 <= t < |h.owners| ::
        h.owners[t] < |h.rows| && !h.rows[h.owners[t]].identity.content.provider.UnsupportedTransport?
  {
    hide RowsAfter, RunsAfter, JournalAfter, GatewayAfter, InboxAfter;
    hide MaySend, Unlocked, G.Enabled, Decide, TerminalRows;
    RowsKeepIdentities(s, a);
  }

  lemma StepKeepsBook(s: System, a: Action)
    requires Enabled(s, a) && Book(s)
    ensures Book(Step(s, a))
    ensures s.owners <= Step(s, a).owners
  {
    hide RowsAfter, JournalAfter, GatewayAfter, InboxAfter, MaySend, Unlocked, G.Enabled, Decide, TerminalRows;
    RowsKeepIdentities(s, a);
    JournalLength(s, a);
    OwnersKept(s, a);
  }

  lemma TicketsKept(s: System, h: System)
    requires SameIdentities(s.rows, h.rows) && s.owners <= h.owners && h.site == s.site
    ensures forall t, q | ForTicket(s, t, q) :: ForTicket(h, t, q)
    ensures forall k, fp | Issued(s, k, fp) :: Issued(h, k, fp)
  {
    forall t, q | ForTicket(s, t, q) ensures ForTicket(h, t, q) {
      assert h.owners[t] == s.owners[t];
    }
    forall k, fp | Issued(s, k, fp) ensures Issued(h, k, fp) {
      var t :| 0 <= t < |s.owners| && s.owners[t] < |s.rows|
            && Ticketed(s, t).key == k && FingerprintOf(Ticketed(s, t)) == fp;
      assert ForTicket(s, t, Ticketed(s, t));
      assert Ticketed(h, t) == Ticketed(s, t);
    }
  }

  /** A ticket's request never changes. */
  lemma TicketsStay(s: System, a: Action)
    requires Enabled(s, a) && Book(s)
    ensures forall t, q | ForTicket(s, t, q) :: ForTicket(Step(s, a), t, q)
    ensures forall k, fp | Issued(s, k, fp) :: Issued(Step(s, a), k, fp)
  {
    hide RowsAfter, JournalAfter, GatewayAfter, InboxAfter;
    RowsKeepIdentities(s, a);
    TicketsKept(s, Step(s, a));
  }

  /** A request of this site that the gateway works on was sent by a worker run. */
  lemma HandledForTicket(s: System, a: Action, g: G.Action, t: int, q: Request)
    requires Enabled(s, a) && Requests(s) && GatewayAction(s, a) == Some(g)
    requires GG.Handles(s.gateway, g, t, q)
    ensures if q.tenant == s.site then ForTicket(s, t, q) else t == -1 || ForTicket(s, t, q)
    ensures t >= 0 ==> ForTicket(s, t, q)
  {
  }

  lemma StepKeepsRequests(s: System, a: Action)
    requires Enabled(s, a) && Book(s) && Requests(s)
    ensures Requests(Step(s, a))
  {
    hide Enabled, RowsAfter, JournalAfter, InboxAfter, G.Step, G.Enabled;
    var h := Step(s, a);
    TicketsStay(s, a);
    GatewayMoves(s, a);
    InboxStays(s, a);
    ProcessForTicket(s, a);
    match GatewayAction(s, a)
    case None =>
    case Some(g) =>
      forall t | t in h.gateway.replies && t >= 0 ensures ForTicket(h, t, h.gateway.replies[t].q) {
        GG.ReplyOrigin(s.gateway, g, t);
        if GG.Handles(s.gateway, g, t, h.gateway.replies[t].q) {
          HandledForTicket(s, a, g, t, h.gateway.replies[t].q);
        }
      }
  }

  lemma InboxStays(s: System, a: Action)
    requires Enabled(s, a) && Book(s) && Requests(s)
    ensures var h := Step(s, a); forall t | t in h.inbox :: ForTicket(h, t, h.inbox[t])
  {
    hide RowsAfter, JournalAfter, GatewayAfter;
    TicketsStay(s, a);
    RowsKeepIdentities(s, a);
  }

  lemma ProcessForTicket(s: System, a: Action)
    requires Enabled(s, a) && Book(s) && Requests(s)
    ensures var h := Step(s, a);
      h.gateway.process.Busy? ==>
        var p := h.gateway.process;
        if p.q.tenant == h.site then ForTicket(h, p.ticket, p.q) else p.ticket == -1
  {
    hide Enabled, RowsAfter, JournalAfter, InboxAfter, G.Step, G.Enabled;
    TicketsStay(s, a);
    GatewayMoves(s, a);
    match GatewayAction(s, a)
    case None =>
    case Some(g) =>
      GG.ProcessOrigin(s.gateway, g);
      var p := Step(s, a).gateway.process;
      if p.Busy? && GG.Handles(s.gateway, g, p.ticket, p.q) {
        HandledForTicket(s, a, g, p.ticket, p.q);
        assert p.q.tenant != s.site ==> p.ticket == -1;
      }
  }

  lemma ForTicketIssued(s: System, t: int, q: Request)
    requires ForTicket(s, t, q)
    ensures Issued(s, q.key, FingerprintOf(q)) && q.tenant == s.site
  {
    var i: nat := t;
    assert Ticketed(s, i).key == q.key;
  }

  lemma StepKeepsOrigins(s: System, a: Action)
    requires Enabled(s, a) && Base(s)
    ensures Origins(Step(s, a))
  {
    hide Enabled, RowsAfter, JournalAfter, InboxAfter, G.Step, G.Enabled;
    var h := Step(s, a);
    TicketsStay(s, a);
    GatewayMoves(s, a);
    match GatewayAction(s, a)
    case None =>
    case Some(g) =>
      forall k | k in h.gateway.store.jobs && h.gateway.store.jobs[k].tenant == h.site
        ensures Issued(h, k, h.gateway.store.jobs[k].result.fp)
      {
        JobIssued(s, a, g, k);
      }
      forall c | c in h.gateway.calls && c.tenant == h.site ensures Issued(h, c.key, c.fp) {
        if c !in s.gateway.calls {
          assert S.KeyInv(s.gateway, S.Touched(s.gateway, g));
          NewCallIssued(s, g, c);
        }
      }
  }

  lemma JobIssued(s: System, a: Action, g: G.Action, k: string)
    requires Enabled(s, a) && Base(s) && GatewayAction(s, a) == Some(g)
    requires G.Enabled(s.gateway, g) && k in G.Step(s.gateway, g).store.jobs
    requires G.Step(s.gateway, g).store.jobs[k].tenant == s.site
    ensures Issued(s, k, G.Step(s.gateway, g).store.jobs[k].result.fp)
  {
    hide Enabled, G.Step;
    var j := G.Step(s.gateway, g).store.jobs[k];
    assert S.KeyInv(s.gateway, S.Touched(s.gateway, g));
    GG.JobOrigin(s.gateway, g, k);
    if !(k in s.gateway.store.jobs && j == s.gateway.store.jobs[k]) {
      var t, q :| GG.Handles(s.gateway, g, t, q) && q.key == k
               && j.tenant == q.tenant && j.result.fp == FingerprintOf(q);
      HandledForTicket(s, a, g, t, q);
      ForTicketIssued(s, t, q);
    }
  }

  /** A new call of this site belongs to the request in progress. */
  lemma NewCallIssued(s: System, g: G.Action, c: G.Call)
    requires G.Enabled(s.gateway, g) && S.KeyInv(s.gateway, S.Touched(s.gateway, g)) && Requests(s)
    requires c in G.Step(s.gateway, g).calls && c !in s.gateway.calls && c.tenant == s.site
    ensures Issued(s, c.key, c.fp)
  {
    hide G.Step, G.Enabled;
    GG.CallOrigin(s.gateway, g);
    var calls, n := G.Step(s.gateway, g).calls, |s.gateway.calls|;
    assert calls == calls[..n] + [calls[n]];
    ForTicketIssued(s, s.gateway.process.ticket, s.gateway.process.q);
  }

  lemma StepKeepsBase(s: System, a: Action)
    requires Enabled(s, a) && Base(s)
    ensures Base(Step(s, a))
  {
    hide Step, Enabled;
    StepKeepsGatewayInv(s, a);
    StepKeepsGoodRows(s, a);
    StepKeepsBook(s, a);
    StepKeepsRequests(s, a);
    StepKeepsOrigins(s, a);
  }
}
