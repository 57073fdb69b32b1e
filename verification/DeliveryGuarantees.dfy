/** The promises of the whole system, over every run: duplicate and late workers, lost replies,
    rolled-back transactions, scheduler and sync passes, provider failures, gateway crashes and
    other tenants' requests, in any interleaving. */
module DeliveryGuarantees {
  import opened Messages
  import opened Stores
  import opened History
  import opened DeliverySystem
  import opened DeliveryInvariants
  import opened DeliveryOrder
  import C = CompanyGroups
  import G = GatewayProtocol
  import S = GatewaySafety
  import GG = GatewayGuarantees
  import R = DeliveryRetries
  import Y = DeliverySync

  ghost predicate All(s: System) {
    && Base(s) && Settlement(s) && Recorded(s) && CopiesWait(s) && TraceOrder(s)
    && FlagsStuck(s) && OneAnswer(s) && R.Counted(s) && Y.SyncInv(s)
  }

  lemma StartAll(site: string)
    ensures All(Start(site))
  {
    S.InitialInv();
  }

  lemma StepKeepsAll(s: System, a: Action)
    requires Enabled(s, a) && All(s)
    ensures All(Step(s, a))
  {
    hide Step, Enabled, Settlement, Recorded, CopiesWait, TraceOrder, FlagsStuck, OneAnswer, R.Counted, Y.SyncInv;
    hide GoodRows, Book, Requests, Origins, S.KeyInv, S.Coherent, S.LogInv, S.RepliesInv;
    StepKeepsBase(s, a);
    StepKeepsSettlement(s, a);
    StepKeepsRecorded(s, a);
    StepKeepsCopiesWait(s, a);
    StepKeepsTraceOrder(s, a);
    StepKeepsFlagsStuck(s, a);
    StepKeepsOneAnswer(s, a);
    R.StepKeepsCounted(s, a);
    Y.StepKeepsSync(s, a);
  }

  lemma {:induction false} RunKeepsAll(s: System, actions: seq<Action>)
    requires All(s)
    ensures All(Run(s, actions))
    decreases |actions|
  {
    hide Step, Enabled, All;
    if actions == [] {
    } else if Enabled(s, actions[0]) {
      StepKeepsAll(s, actions[0]);
      RunKeepsAll(Step(s, actions[0]), actions[1..]);
    } else {
      RunKeepsAll(s, actions[1..]);
    }
  }

  lemma SiteStays(s: System, a: Action)
    requires Enabled(s, a)
    ensures Step(s, a).site == s.site
  {
    hide Enabled, GatewayAfter, RowsAfter, RunsAfter, InboxAfter, JournalAfter;
  }

  lemma {:induction false} RunKeepsSite(s: System, actions: seq<Action>)
    ensures Run(s, actions).site == s.site
    decreases |actions|
  {
    hide Step, Enabled;
    if actions == [] {
    } else if Enabled(s, actions[0]) {
      SiteStays(s, actions[0]);
      RunKeepsSite(Step(s, actions[0]), actions[1..]);
    } else {
      RunKeepsSite(s, actions[1..]);
    }
  }

  /** Every reachable state. */
  lemma Reachable(site: string, actions: seq<Action>)
    ensures All(Run(Start(site), actions)) && Run(Start(site), actions).site == site
  {
    hide Run, All;
    StartAll(site);
    RunKeepsAll(Start(site), actions);
    RunKeepsSite(Start(site), actions);
  }

  // ---- what the gateway is asked to send ----

  /** The payload is the record's: its recipient, its text, its one document, its transport. */
  predicate Carries(id: Identity, fp: Fingerprint) {
    && fp.number == id.recipient && fp.text == id.content.messageText
    && fp.pdfs == [Pdf(id.filename, id.content.pdf)]
    && fp.group == id.group
    && (fp.provider == Baileys <==> id.content.provider == C.LinkedDevice)
    && (fp.provider == OfficialApi <==> id.content.provider == C.OfficialTransport)
    && (fp.provider == Baileys || fp.provider == OfficialApi)
  }

  lemma TicketCarries(s: System, t: nat)
    requires Book(s) && t < |s.owners|
    ensures var id := s.rows[s.owners[t]].identity;
      var q := Ticketed(s, t);
      && Carries(id, FingerprintOf(q)) && q.tenant == s.site && q.key == id.key
      && q.recipientType == if id.group then Group else Individual
  {
  }

  /** In every reachable state each provider call made for a record, its job at the gateway and each
      request on its way there carry the record's own recipient, text and document and ask for the
      provider of its transport. */
  lemma RequestsMatchRecords(site: string, actions: seq<Action>, i: nat)
    ensures var s := Run(Start(site), actions);
      var jobs := s.gateway.store.jobs;
      i < |s.rows| ==>
        var id := s.rows[i].identity;
        && (forall c | c in s.gateway.calls && c.tenant == site && c.key == id.key :: Carries(id, c.fp))
        && (id.key in jobs && jobs[id.key].tenant == site ==> Carries(id, jobs[id.key].result.fp))
        && (forall t | t in s.inbox && t < |s.owners| && s.owners[t] == i ::
              var q := s.inbox[t];
              && Carries(id, FingerprintOf(q)) && q.tenant == site && q.key == id.key
              && q.recipientType == if id.group then Group else Individual)
  {
    hide Run, S.Inv, Carries, Settlement, Recorded, CopiesWait, TraceOrder, FlagsStuck, OneAnswer;
    hide R.Counted, Y.SyncInv;
    Reachable(site, actions);
    var s := Run(Start(site), actions);
    if i < |s.rows| {
      var id, jobs := s.rows[i].identity, s.gateway.store.jobs;
      forall c | c in s.gateway.calls && c.tenant == site && c.key == id.key ensures Carries(id, c.fp) {
        RowCarries(s, i, c.fp);
      }
      if id.key in jobs && jobs[id.key].tenant == site {
        RowCarries(s, i, jobs[id.key].result.fp);
      }
      forall t | t in s.inbox && t < |s.owners| && s.owners[t] == i
        ensures Carries(id, FingerprintOf(s.inbox[t])) && s.inbox[t].tenant == site && s.inbox[t].key == id.key
        ensures s.inbox[t].recipientType == if id.group then Group else Individual
      {
        TicketCarries(s, t);
      }
    }
  }

  lemma RowCarries(s: System, i: nat, fp: Fingerprint)
    requires GoodRows(s.rows) && Book(s) && i < |s.rows| && Issued(s, s.rows[i].identity.key, fp)
    ensures Carries(s.rows[i].identity, fp)
  {
    IssuedForRow(s, i, fp);
    var t :| 0 <= t < |s.owners| && s.owners[t] == i;
    TicketCarries(s, t);
  }

  // ---- copies ----

  /** End to end, the provider receives the parts of a copy in order and each at most once: its
      calls carry the copy's own payload, their indexes increase, and none is skipped. */
  lemma CopyPartsAtMostOnce(site: string, actions: seq<Action>, i: nat)
    ensures var s := Run(Start(site), actions);
      var calls := s.gateway.calls;
      i < |s.rows| && s.rows[i].identity.group ==>
        && (forall x | 0 <= x < |calls| && CallFor(s, calls[x], i) ::
              calls[x].fp == FingerprintOf(RowRequest(s, i)) && calls[x].index < PartCount(calls[x].fp))
        && (forall x, y | 0 <= x < y < |calls| && CallFor(s, calls[x], i) && CallFor(s, calls[y], i) ::
              calls[x].index < calls[y].index)
        && (forall y | 0 <= y < |calls| && CallFor(s, calls[y], i) && calls[y].index > 0 ::
              exists x | 0 <= x < y :: CallFor(s, calls[x], i) && calls[x].index == calls[y].index - 1)
  {
    hide Run, S.Inv, Book, Requests, Settlement, Recorded, CopiesWait, TraceOrder, FlagsStuck, OneAnswer;
    hide R.Counted, Y.SyncInv;
    Reachable(site, actions);
    var s := Run(Start(site), actions);
    var calls := s.gateway.calls;
    if i < |s.rows| && s.rows[i].identity.group {
      forall x | 0 <= x < |calls| && CallFor(s, calls[x], i)
        ensures calls[x].fp == FingerprintOf(RowRequest(s, i)) && S.GroupCall(calls[x], calls[x].key)
      {
        assert calls[x] in calls;
        IssuedForRow(s, i, calls[x].fp);
      }
      forall y | 0 <= y < |calls| && CallFor(s, calls[y], i)
        ensures calls[y].index < PartCount(calls[y].fp)
        ensures forall x | 0 <= x < y && CallFor(s, calls[x], i) :: calls[x].index < calls[y].index
        ensures calls[y].index > 0 ==>
          exists x | 0 <= x < y :: CallFor(s, calls[x], i) && calls[x].index == calls[y].index - 1
      {
        CopyCallInOrder(s, i, y);
      }
    }
  }

  lemma CallsOfRow(s: System, i: nat)
    requires All(s) && i < |s.rows|
    ensures S.PartsInOrder(S.GroupCalls(s.gateway.calls, s.rows[i].identity.key))
    ensures forall x, y | 0 <= x < |s.gateway.calls| && 0 <= y < |s.gateway.calls| && CallFor(s, s.gateway.calls[y], i)
              && s.gateway.calls[x].key == s.rows[i].identity.key ::
      CallFor(s, s.gateway.calls[x], i)
  {
    hide GoodRows, Book, Requests, Origins, Settlement, Recorded, CopiesWait, TraceOrder, FlagsStuck, OneAnswer;
    hide R.Counted, Y.SyncInv, S.LogInv, S.RepliesInv;
    assert S.KeyInv(s.gateway, s.rows[i].identity.key);
    forall x | 0 <= x < |s.gateway.calls|
      ensures S.Owned(s.gateway.store, s.gateway.calls[x].key, s.gateway.calls[x].tenant)
    {
      assert s.gateway.calls[x] in s.gateway.calls;
    }
  }

  /** The group calls before a call of a copy are exactly its earlier parts. */
  lemma CopyCallInOrder(s: System, i: nat, y: nat)
    requires All(s) && i < |s.rows| && y < |s.gateway.calls| && CallFor(s, s.gateway.calls[y], i)
    requires S.GroupCall(s.gateway.calls[y], s.rows[i].identity.key)
    requires forall x | 0 <= x < |s.gateway.calls| && CallFor(s, s.gateway.calls[x], i) ::
      S.GroupCall(s.gateway.calls[x], s.gateway.calls[x].key)
    ensures var calls := s.gateway.calls;
      && calls[y].index < PartCount(calls[y].fp)
      && (forall x | 0 <= x < y && CallFor(s, calls[x], i) :: calls[x].index < calls[y].index)
      && (calls[y].index > 0 ==>
            exists x | 0 <= x < y :: CallFor(s, calls[x], i) && calls[x].index == calls[y].index - 1)
  {
    hide All, S.PartsInOrder, S.GroupCalls, GG.Position;
    var calls, k := s.gateway.calls, s.rows[i].identity.key;
    CallsOfRow(s, i);
    GG.IndexIsPosition(calls, k, y);
    forall x | 0 <= x < y && CallFor(s, calls[x], i) ensures calls[x].index < calls[y].index {
      GG.IndexIsPosition(calls, k, x);
      GG.PositionsIncrease(calls, k, x, y);
    }
    if calls[y].index > 0 {
      var x := GG.EarlierCall(calls, k, y);
      assert CallFor(s, calls[x], i);
    }
  }

  /** Before position `y` of the trace the provider confirmed part `n` of the record. */
  ghost predicate ConfirmedBefore(s: System, p: nat, n: nat, y: nat)
    requires y <= |s.gateway.calls|
  {
    exists x | 0 <= x < y ::
      CallFor(s, s.gateway.calls[x], p) && s.gateway.calls[x].index == n && G.Confirms(s.gateway.calls[x].answer)
  }

  lemma PrimaryCallsFirst(s: System, i: nat, y: nat)
    requires All(s) && i < |s.rows| && s.rows[i].identity.copyOf.Some?
    requires y < |s.gateway.calls| && CallFor(s, s.gateway.calls[y], i)
    ensures JobDone(s, s.rows[i].identity.copyOf.value)
    ensures forall x | 0 <= x < |s.gateway.calls| && CallFor(s, s.gateway.calls[x], s.rows[i].identity.copyOf.value) ::
      x < y
  {
    var calls, p := s.gateway.calls, s.rows[i].identity.copyOf.value;
    assert Provenance(s.rows, i);
    assert calls[y] in calls;
    CopyCallMeansPrimaryDone(s, calls[y], i);
    assert s.rows[p].identity.key != s.rows[i].identity.key;
    forall x | y < x < |calls| ensures !CallFor(s, calls[x], p) {
      assert !CallOfPrimary(s, calls[x], i);
    }
  }

  lemma DonePartConfirmed(s: System, p: nat, n: nat)
    requires All(s) && JobDone(s, p) && n < PartCount(FingerprintOf(RowRequest(s, p)))
    ensures ConfirmedBefore(s, p, n, |s.gateway.calls|)
  {
    DoneMeansDelivered(s, p);
    var calls, k := s.gateway.calls, s.rows[p].identity.key;
    var j := s.gateway.store.jobs[k];
    assert S.Submission(calls, j.tenant, k, j.result.fp, n, j.result.ids[n]);
    var x :| 0 <= x < |calls| && calls[x] == G.Call(j.tenant, k, j.result.fp, n, G.Id(j.result.ids[n]));
    assert CallFor(s, calls[x], p);
  }

  /** In the provider trace, when there is a call for a copy, the primary's job is submitted, and
      before that call lie all the primary's calls, among them a confirmed one for every part. */
  lemma PrimaryBeforeCopy(site: string, actions: seq<Action>, i: nat, y: nat)
    ensures var s := Run(Start(site), actions);
      var calls := s.gateway.calls;
      i < |s.rows| && s.rows[i].identity.copyOf.Some? && y < |calls| && CallFor(s, calls[y], i) ==>
        var p := s.rows[i].identity.copyOf.value;
        && JobDone(s, p)
        && (forall x | 0 <= x < |calls| && CallFor(s, calls[x], p) :: x < y)
        && (forall n: nat | n < PartCount(FingerprintOf(RowRequest(s, p))) :: ConfirmedBefore(s, p, n, y))
  {
    hide Run, S.Inv, Book, Requests, Settlement, Recorded, CopiesWait, TraceOrder, FlagsStuck, OneAnswer;
    hide R.Counted, Y.SyncInv;
    Reachable(site, actions);
    var s := Run(Start(site), actions);
    if i < |s.rows| && s.rows[i].identity.copyOf.Some? && y < |s.gateway.calls| && CallFor(s, s.gateway.calls[y], i) {
      var p := s.rows[i].identity.copyOf.value;
      PrimaryCallsFirst(s, i, y);
      forall n: nat | n < PartCount(FingerprintOf(RowRequest(s, p))) ensures ConfirmedBefore(s, p, n, y) {
        DonePartConfirmed(s, p, n);
      }
    }
  }

  lemma CallLeavesJobs(g: G.Gateway, a: G.Action)
    requires G.Enabled(g, a)
    ensures |G.Step(g, a).calls| > |g.calls| ==> G.Step(g, a).store == g.store
  {
  }

  /** A step that makes a provider call leaves the records and the jobs as they are. */
  lemma CallLeavesRest(s: System, a: Action)
    requires Enabled(s, a) && |Step(s, a).gateway.calls| > |s.gateway.calls|
    ensures var h := Step(s, a);
      h.rows == s.rows && h.site == s.site && h.gateway.store == s.gateway.store
  {
    hide Enabled, RowsAfter, RunsAfter, InboxAfter, JournalAfter, G.Step, G.Enabled;
    GatewayMoves(s, a);
    CallLeavesJobs(s.gateway, GatewayAction(s, a).value);
  }

  /** The first call for a copy is made only when the primary's job has already been recorded submitted. */
  lemma CopyCallsStartAfterPrimary(site: string, actions: seq<Action>, a: Action, i: nat)
    requires var s := Run(Start(site), actions);
      Enabled(s, a) && i < |s.rows| && s.rows[i].identity.copyOf.Some?
    requires var s := Run(Start(site), actions);
      var later := Step(s, a).gateway.calls;
      |later| > |s.gateway.calls| && CallFor(s, later[|s.gateway.calls|], i)
    ensures var s := Run(Start(site), actions); JobDone(s, s.rows[i].identity.copyOf.value)
  {
    hide Run, Enabled, Step, Recorded, TraceOrder, FlagsStuck, OneAnswer, R.Counted, Y.SyncInv;
    hide S.Inv, Requests, Origins, Settlement, CopiesWait;
    Reachable(site, actions);
    var s := Run(Start(site), actions);
    var h := Step(s, a);
    StepKeepsAll(s, a);
    CallLeavesRest(s, a);
    var c := h.gateway.calls[|s.gateway.calls|];
    assert c in h.gateway.calls;
    CopyCallMeansPrimaryDone(h, c, i);
  }

  // ---- the history agrees with the gateway ----

  /** What the gateway recorded for a done record: its own payload, one confirmed id per part. */
  lemma DoneMeansDelivered(s: System, i: nat)
    requires All(s) && JobDone(s, i)
    ensures var j := s.gateway.store.jobs[s.rows[i].identity.key];
      && j.tenant == s.site
      && j.result.fp == FingerprintOf(RowRequest(s, i))
      && S.Delivered(s.gateway.calls, s.rows[i].identity.key, j)
  {
    var k := s.rows[i].identity.key;
    assert S.KeyInv(s.gateway, k);
    IssuedForRow(s, i, s.gateway.store.jobs[k].result.fp);
  }

  /** A record shown as submitted or acknowledged, or holding message ids, has a submitted gateway
      job that holds, for each part in order, the id the provider confirmed for it; and the ids the
      record holds are exactly those. */
  lemma HistoryAgrees(site: string, actions: seq<Action>, i: nat)
    ensures var s := Run(Start(site), actions);
      i < |s.rows| && (Terminal(s.rows[i].status) || s.rows[i].messageIds.Some?) ==>
        var k := s.rows[i].identity.key;
        && JobDone(s, i)
        && var j := s.gateway.store.jobs[k];
           && j.result.fp == FingerprintOf(RowRequest(s, i))
           && |j.result.ids| == |Parts(j.result.fp)|
           && S.Confirmed(s.gateway.calls, site, k, j.result.fp, j.result.ids)
           && (s.rows[i].messageIds.Some? ==> s.rows[i].messageIds.value == j.result.ids)
  {
    hide Run, Base, CopiesWait, TraceOrder, FlagsStuck, OneAnswer, R.Counted, Y.SyncInv;
    Reachable(site, actions);
    var s := Run(Start(site), actions);
    if i < |s.rows| && (Terminal(s.rows[i].status) || s.rows[i].messageIds.Some?) {
      assert JobDone(s, i);
      DoneMeansDelivered(s, i);
    }
  }

  // ---- retries ----

  /** Every recorded attempt is counted, the count never exceeds the limit, and a worker run past
      its guards has an attempt left: over every run, late writes included. */
  lemma RetryBudget(site: string, actions: seq<Action>, i: nat)
    ensures var s := Run(Start(site), actions);
      i < |s.rows| ==>
        var limit := if s.rows[i].maxRetries > 0 then s.rows[i].maxRetries + 1 else 1;
        && i < |s.journal| && |s.journal[i]| == s.rows[i].retryCount <= limit
        && (i in s.runs ==> s.rows[i].retryCount < limit)
  {
    hide Run, Base, Settlement, Recorded, CopiesWait, TraceOrder, FlagsStuck, OneAnswer, Y.SyncInv;
    Reachable(site, actions);
  }

  /** No failing enqueue of the run meets the record when it allows no further attempt. */
  predicate NotRevived(s: System, actions: seq<Action>, i: nat)
    decreases |actions|
  {
    actions != [] ==>
      if Enabled(s, actions[0]) then
        (i < |s.rows| ==> !R.Revives(s, actions[0], i)) && NotRevived(Step(s, actions[0]), actions[1..], i)
      else NotRevived(s, actions[1..], i)
  }

  lemma {:induction false} RunKeepsWithinLimit(s: System, actions: seq<Action>, i: nat)
    requires All(s) && R.WithinLimit(s, i) && NotRevived(s, actions, i)
    ensures R.WithinLimit(Run(s, actions), i)
    decreases |actions|
  {
    hide Step, Enabled, R.WithinLimit, R.Revives;
    hide Base, Settlement, Recorded, CopiesWait, TraceOrder, FlagsStuck, OneAnswer, R.Counted, Y.SyncInv;
    if actions == [] {
    } else if Enabled(s, actions[0]) {
      StepKeepsAll(s, actions[0]);
      R.StepWithinLimitExactly(s, actions[0], i);
      RunKeepsWithinLimit(Step(s, actions[0]), actions[1..], i);
    } else {
      RunKeepsWithinLimit(s, actions[1..], i);
    }
  }

  /** In every run in which no failing enqueue revives the record, early and late writes included, a
      due time means an attempt is left and none is forbidden, and the scheduler never finds the
      record due and exhausted. */
  lemma RetriesWithinLimit(site: string, actions: seq<Action>, i: nat)
    requires NotRevived(Start(site), actions, i)
    ensures var s := Run(Start(site), actions);
      i < |s.rows| ==>
        && (s.rows[i].nextRetryAt.Some? ==> s.rows[i].retryCount < AttemptLimit(s.rows[i]) && !s.rows[i].flagged)
        && (forall c | c in s.due && c.row == i :: !AtLimit(c))
  {
    hide Run, All, NotRevived;
    StartAll(site);
    RunKeepsWithinLimit(Start(site), actions, i);
  }

  /** No claim and no release of the run is written while the record must still wait. */
  predicate NoEarlyWrites(s: System, actions: seq<Action>, i: nat)
    decreases |actions|
  {
    actions != [] ==>
      if Enabled(s, actions[0]) then
        && (i < |s.rows| && i < |s.journal| ==> !R.EarlyWrite(s, actions[0], i))
        && NoEarlyWrites(Step(s, actions[0]), actions[1..], i)
      else NoEarlyWrites(s, actions[1..], i)
  }

  lemma {:induction false} RunKeepsPace(s: System, actions: seq<Action>, i: nat)
    requires All(s) && R.Paced(s, i) && NoEarlyWrites(s, actions, i)
    ensures |Run(s, actions).journal| == |Run(s, actions).rows| && R.Paced(Run(s, actions), i)
    decreases |actions|
  {
    hide Step, Enabled, R.Paced, R.EarlyWrite;
    hide Base, Settlement, Recorded, CopiesWait, TraceOrder, FlagsStuck, OneAnswer, Y.SyncInv;
    if actions == [] {
    } else if Enabled(s, actions[0]) {
      StepKeepsAll(s, actions[0]);
      R.StepKeepsPaced(s, actions[0], i);
      RunKeepsPace(Step(s, actions[0]), actions[1..], i);
    } else {
      RunKeepsPace(s, actions[1..], i);
    }
  }

  /** In every run in which the record is not written too early: after the failed k-th attempt the
      next starts at least 30, 120, then 600 seconds later; and when all earlier attempts failed, the
      n-th starts at least 150 + 600 (n - 3) seconds after the first. */
  lemma Backoff(site: string, actions: seq<Action>, i: nat, n: nat)
    requires NoEarlyWrites(Start(site), actions, i)
    requires var s := Run(Start(site), actions); i < |s.rows| && i < |s.journal|
    ensures R.Spaced(Run(Start(site), actions).journal[i])
    ensures var attempts := Run(Start(site), actions).journal[i];
      3 <= n <= |attempts| && (forall m | 0 <= m < n - 1 :: attempts[m].failedAt.Some?) ==>
        attempts[n - 1].startedAt - attempts[0].startedAt >= 150 + 600 * (n - 3)
  {
    hide Run, All, NoEarlyWrites;
    StartAll(site);
    RunKeepsPace(Start(site), actions, i);
    var attempts := Run(Start(site), actions).journal[i];
    if 3 <= n <= |attempts| && (forall m | 0 <= m < n - 1 :: attempts[m].failedAt.Some?) {
      R.SpanOfFailures(attempts, n);
      R.LeastSpanFormula(n);
    }
  }

  // ---- flags ----

  /** What a flag freezes: the record keeps it, no further request is issued for it, and the
      gateway neither calls the provider for its key nor changes its job, even for late requests. */
  ghost predicate Frozen(s: System, h: System, i: nat)
    requires i < |s.rows|
  {
    var k := s.rows[i].identity.key;
    && i < |h.rows| && h.rows[i].identity == s.rows[i].identity && h.rows[i].flagged
    && s.owners <= h.owners
    && (forall t | |s.owners| <= t < |h.owners| :: h.owners[t] != i)
    && k in s.gateway.store.jobs && k in h.gateway.store.jobs
    && h.gateway.store.jobs[k] == s.gateway.store.jobs[k]
    && S.GroupCalls(h.gateway.calls, k) == S.GroupCalls(s.gateway.calls, k)
  }

  lemma FlagStays(s: System, a: Action, i: nat)
    requires Enabled(s, a) && i < |s.rows| && s.rows[i].flagged && i !in s.runs
    ensures i < |RowsAfter(s, a)| && RowsAfter(s, a)[i].flagged
  {
    hide Enabled, RowsAfter;
    RowsKeepIdentities(s, a);
    FlagsChange(s, a, i);
  }

  lemma StepFreezes(s: System, a: Action, i: nat)
    requires Enabled(s, a) && All(s) && i < |s.rows| && s.rows[i].flagged
    ensures Frozen(s, Step(s, a), i)
  {
    hide Enabled, RowsAfter, RunsAfter, InboxAfter, JournalAfter, GatewayAfter, Base;
    StuckRowStays(s, a, i);
    RowsKeepIdentities(s, a);
    RunsAndTickets(s, a);
    FlagStays(s, a, i);
  }

  lemma FrozenThroughout(s: System, h: System, l: System, i: nat)
    requires i < |s.rows| && Frozen(s, h, i) && Frozen(h, l, i)
    ensures Frozen(s, l, i)
  {
    forall t | |s.owners| <= t < |l.owners| ensures l.owners[t] != i {
      if t < |h.owners| {
        assert l.owners[t] == h.owners[t];
      }
    }
  }

  lemma FlaggedHasJob(s: System, i: nat)
    requires All(s) && i < |s.rows| && s.rows[i].flagged
    ensures Frozen(s, s, i)
  {
    assert StuckRow(s, i);
  }

  /** A flagged record is frozen in every later state. */
  lemma {:induction false} FlaggedIsFinal(s: System, actions: seq<Action>, i: nat)
    requires All(s) && i < |s.rows| && s.rows[i].flagged
    ensures Frozen(s, Run(s, actions), i)
    decreases |actions|
  {
    hide Step, Enabled, All;
    if actions == [] {
      FlaggedHasJob(s, i);
    } else if Enabled(s, actions[0]) {
      var h := Step(s, actions[0]);
      StepFreezes(s, actions[0], i);
      StepKeepsAll(s, actions[0]);
      FlaggedIsFinal(h, actions[1..], i);
      FrozenThroughout(s, h, Run(h, actions[1..]), i);
    } else {
      FlaggedIsFinal(s, actions[1..], i);
    }
  }

  /** A request that meets its blocked job is answered with the call to reconcile. */
  lemma BlockedDeliveryReplies(s: System, t: nat, q: Request)
    requires t in s.inbox && s.inbox[t] == q && q.recipientType.Group? && s.gateway.process.Idle?
    requires GG.SamePayload(s.gateway.store, q) && G.Blocked(s.gateway.store.jobs[q.key].result)
    ensures Enabled(s, Deliver(t))
    ensures ReplyFor(Step(s, Deliver(t)), t) == Some(G.Refused(true))
  {
    hide RowsAfter, RunsAfter, InboxAfter, JournalAfter, G.Accept, G.Judge;
    GG.BlockedStands(s.gateway, t, q);
  }

  lemma AnswerStays(s: System, a: Action, t: nat)
    requires Enabled(s, a) && All(s) && t in s.gateway.replies
    ensures t in Step(s, a).gateway.replies && ReplyFor(Step(s, a), t) == ReplyFor(s, t)
  {
    hide Step, Enabled, S.Inv, GoodRows, Book, Requests, Origins, OneAnswer;
    hide Settlement, Recorded, CopiesWait, TraceOrder, FlagsStuck, R.Counted, Y.SyncInv;
    StepKeepsOneAnswer(s, a);
  }

  /** An answer is final. */
  lemma {:induction false} AnswersStay(s: System, actions: seq<Action>, t: nat)
    requires All(s) && t in s.gateway.replies
    ensures ReplyFor(Run(s, actions), t) == ReplyFor(s, t)
    decreases |actions|
  {
    hide Step, Enabled, All, ReplyFor;
    if actions == [] {
    } else if Enabled(s, actions[0]) {
      StepKeepsAll(s, actions[0]);
      AnswerStays(s, actions[0], t);
      AnswersStay(Step(s, actions[0]), actions[1..], t);
    } else {
      AnswersStay(s, actions[1..], t);
    }
  }

  lemma RefusalFlags(s: System, i: nat)
    requires Running(s, i) && s.runs[i].ticket.Some? && ReplyFor(s, s.runs[i].ticket.value) == Some(G.Refused(true))
    ensures Enabled(s, Conclude(i, false))
    ensures var r := Step(s, Conclude(i, false)).rows;
      i < |r| && r[i].flagged && r[i].nextRetryAt.None? && r[i].status.Failed?
  {
    hide RunsAfter, InboxAfter, JournalAfter, GatewayAfter;
  }

  /** When a copy's request meets its blocked job, whatever happens before the worker commits the
      reply, the record then ends flagged, failed and without a retry. */
  lemma BlockedReplyFlags(s: System, t: nat, q: Request, actions: seq<Action>, i: nat)
    requires All(s) && t in s.inbox && s.inbox[t] == q && q.recipientType.Group? && s.gateway.process.Idle?
    requires GG.SamePayload(s.gateway.store, q) && G.Blocked(s.gateway.store.jobs[q.key].result)
    requires Enabled(s, Deliver(t))
    requires var h := Run(Step(s, Deliver(t)), actions); Running(h, i) && h.runs[i].ticket == Some(t)
    ensures var h := Run(Step(s, Deliver(t)), actions);
      Enabled(h, Conclude(i, false)) &&
      var rows := Step(h, Conclude(i, false)).rows;
      i < |rows| && rows[i].flagged && rows[i].nextRetryAt.None? && rows[i].status.Failed?
  {
    hide Run, Step, Enabled, All, GG.SamePayload, G.Blocked;
    var d := Step(s, Deliver(t));
    BlockedDeliveryReplies(s, t, q);
    StepKeepsAll(s, Deliver(t));
    AnswersStay(d, actions, t);
    RefusalFlags(Run(d, actions), i);
  }

  // ---- synchronisation ----

  /** The applied events are exactly the tenant's events up to the cursor, each once, in order. */
  lemma SyncExactlyOnce(site: string, actions: seq<Action>)
    ensures var s := Run(Start(site), actions);
      s.applied == Y.Upto(s.gateway.store.events, site, s.cursor)
    ensures forall x, y | 0 <= x < y < |Run(Start(site), actions).applied| ::
      Run(Start(site), actions).applied[x].id < Run(Start(site), actions).applied[y].id
  {
    hide Run, GoodRows, Book, Requests, Origins, S.KeyInv, S.Coherent, S.RepliesInv;
    hide Settlement, Recorded, CopiesWait, TraceOrder, FlagsStuck, OneAnswer, R.Counted;
    Reachable(site, actions);
    var s := Run(Start(site), actions);
    Y.UptoAscends(s.gateway.store.events, site, s.cursor);
  }

  lemma AppliedGrows(s: System, a: Action)
    requires Enabled(s, a) && All(s)
    ensures s.cursor <= Step(s, a).cursor && s.applied <= Step(s, a).applied
  {
    hide Enabled, RowsAfter, RunsAfter, InboxAfter, JournalAfter, GatewayAfter;
    hide GoodRows, Book, Requests, Origins, S.KeyInv, S.Coherent, S.LogInv, S.RepliesInv;
    hide Settlement, Recorded, CopiesWait, TraceOrder, FlagsStuck, OneAnswer, R.Counted;
    StepKeepsAll(s, a);
    Y.StepKeepsSync(s, a);
  }

  lemma {:induction false} CursorNeverDecreases(s: System, actions: seq<Action>)
    requires All(s)
    ensures s.cursor <= Run(s, actions).cursor && s.applied <= Run(s, actions).applied
    decreases |actions|
  {
    hide Step, Enabled, All;
    if actions == [] {
    } else if Enabled(s, actions[0]) {
      StepKeepsAll(s, actions[0]);
      AppliedGrows(s, actions[0]);
      CursorNeverDecreases(Step(s, actions[0]), actions[1..]);
    } else {
      CursorNeverDecreases(s, actions[1..]);
    }
  }

  /** No writer other than a page takes the record out of a terminal status. */
  predicate NotOverwritten(s: System, actions: seq<Action>, i: nat)
    decreases |actions|
  {
    actions != [] ==>
      if Enabled(s, actions[0]) then
        (i < |s.rows| ==> !Y.Overwrites(s, actions[0], i)) && NotOverwritten(Step(s, actions[0]), actions[1..], i)
      else NotOverwritten(s, actions[1..], i)
  }

  lemma StepKeepsKept(s: System, a: Action, i: nat)
    requires Enabled(s, a) && All(s) && Y.Kept(s, i) && (i < |s.rows| ==> !Y.Overwrites(s, a, i))
    ensures Y.Kept(Step(s, a), i)
  {
    hide Step, Enabled, Y.Kept, Y.Overwrites, Base;
    hide Settlement, Recorded, CopiesWait, TraceOrder, FlagsStuck, OneAnswer, R.Counted, Y.SyncInv;
    Y.StepKeptExactly(s, a, i);
  }

  lemma {:induction false} RunKeepsKept(s: System, actions: seq<Action>, i: nat)
    requires All(s) && Y.Kept(s, i) && NotOverwritten(s, actions, i)
    ensures Y.Kept(Run(s, actions), i)
    decreases |actions|
  {
    hide Step, Enabled, All, Y.Kept, Y.Overwrites;
    if actions == [] {
    } else if Enabled(s, actions[0]) {
      StepKeepsAll(s, actions[0]);
      StepKeepsKept(s, actions[0], i);
      RunKeepsKept(Step(s, actions[0]), actions[1..], i);
    } else {
      RunKeepsKept(s, actions[1..], i);
    }
  }

  lemma AppliedHaveNoRelapse(s: System, key: string)
    requires All(s) && key !in s.gateway.webhooked && Y.ReportedIn(s.applied, key)
    ensures Y.EndsTerminal(s.applied, key)
  {
    hide GoodRows, Book, Requests, Origins, S.KeyInv, S.Coherent, S.RepliesInv;
    hide Settlement, Recorded, CopiesWait, TraceOrder, FlagsStuck, OneAnswer, R.Counted;
    Y.ReadingsHaveNoRelapse(s.gateway, s.site, s.cursor, key);
    Y.ReportedEndsTerminal(s.applied, key);
  }

  /** As long as no writer other than a page takes the record out of a terminal status: when the last
      event applied for its key is a submission or an acknowledgement, the record is terminal. And
      without Cloud webhooks on the key that is the case for good once one of them has been applied. */
  lemma StaleEventsCannotUndo(site: string, before: seq<Action>, after: seq<Action>, i: nat)
    requires NotOverwritten(Start(site), before, i) && NotOverwritten(Run(Start(site), before), after, i)
    ensures var s := Run(Start(site), before);
      var h := Run(s, after);
      i < |h.rows| ==>
        var key := h.rows[i].identity.key;
        && (Y.EndsTerminal(h.applied, key) ==> Terminal(h.rows[i].status))
        && (Y.ReportedIn(s.applied, key) && key !in h.gateway.webhooked ==> Terminal(h.rows[i].status))
  {
    hide Run, All, NotOverwritten, Y.EndsTerminal;
    StartAll(site);
    RunKeepsKept(Start(site), before, i);
    Reachable(site, before);
    var s := Run(Start(site), before);
    RunKeepsKept(s, after, i);
    RunKeepsAll(s, after);
    CursorNeverDecreases(s, after);
    var h := Run(s, after);
    if i < |h.rows| && Y.ReportedIn(s.applied, h.rows[i].identity.key)
       && h.rows[i].identity.key !in h.gateway.webhooked {
      var e :| e in s.applied && e.key == h.rows[i].identity.key && Terminal(e.status);
      assert e in h.applied;
      AppliedHaveNoRelapse(h, h.rows[i].identity.key);
    }
  }

  // ---- provenance ----

  /** In every reachable state a group record copies an earlier individual record that is no copy
      and agrees with it on all compared fields under another key; so a copy check is decided by
      the primary's status, the rights, the configured group and the source alone. */
  lemma CopyProvenance(site: string, actions: seq<Action>, i: nat, settings: C.Settings, access: Access)
    ensures var s := Run(Start(site), actions);
      i < |s.rows| && s.rows[i].identity.group ==>
        var id := s.rows[i].identity;
        && id.copyOf.Some? && id.copyOf.value < i
        && var primary := s.rows[id.copyOf.value];
           && !primary.identity.group && primary.identity.copyOf.None?
           && primary.identity.key != id.key && primary.identity.content == id.content
           && CheckCopy(s.rows[i], primary, settings, access) ==
              if !Terminal(primary.status) then PrimaryNotReady
              else if id.content.owner != "Guest" && access.ownerEnabled && access.maySend && access.sourceUnchanged
                && C.ConfiguredGroup(settings, id.content.company, access.companyReadable) == C.Configured(id.recipient)
              then Granted
              else Denied
  {
    hide Run, S.Inv, Book, Requests, Origins;
    hide Settlement, Recorded, CopiesWait, TraceOrder, FlagsStuck, OneAnswer, R.Counted, Y.SyncInv;
    Reachable(site, actions);
    var s := Run(Start(site), actions);
    if i < |s.rows| && s.rows[i].identity.group {
      assert Provenance(s.rows, i);
      assert Provenance(s.rows, s.rows[i].identity.copyOf.value);
    }
  }

  /** No worker run is undone by the record's own validation: in every reachable state it accepts
      the claim, the exhausted save and the conclusion, whatever the outcome. */
  lemma WorkerSavesAccepted(site: string, actions: seq<Action>, i: nat, o: Outcome, now: int)
    ensures var s := Run(Start(site), actions);
      i < |s.rows| ==>
        var r := s.rows[i];
        var claimed := r.(status := Processing, retryCount := r.retryCount + 1, nextRetryAt := None);
        && claimed == Claimed(r) && AcceptsSave(Some(r), claimed)
        && AcceptsSave(Some(claimed), Concluded(claimed, o, now))
        && AcceptsSave(Some(r), r.(status := Failed, nextRetryAt := None))
        && forall later | later in {claimed, Concluded(claimed, o, now), Exhausted(r)} ::
             var c := later.identity.content;
             && later.identity == r.identity
             && (later.status == Submitted || later.status == Acknowledged ==> later.messageIds.Some?)
             && (c.referenceType == "Document" ==> c.referenceDoctype != "" && c.referenceName != "")
             && (c.referenceType == "Report" ==> c.reportName != "")
  {
    hide Run, S.Inv, Book, Requests, Origins;
    hide Settlement, Recorded, CopiesWait, TraceOrder, FlagsStuck, OneAnswer, R.Counted, Y.SyncInv;
    Reachable(site, actions);
    var s := Run(Start(site), actions);
    if i < |s.rows| {
      assert Provenance(s.rows, i);
    }
  }

  // ---- when a terminal record stops being terminal ----

  lemma PageLosesExactly(s: System, i: nat)
    requires s.page.Some? && Base(s) && Settlement(s) && i < |s.rows| && Terminal(s.rows[i].status)
    ensures !Terminal(ApplyEvents(s.rows, s.page.value)[i].status) <==>
      Y.LastFor(s.page.value, s.rows[i].identity.key) == Some(Failed)
  {
    hide S.Inv, Book, Requests, Origins, ApplyEvents;
    Y.PageMeaning(s.rows, s.page.value, i);
    R.PageStatuses(s);
    Y.LastForMember(s.page.value, s.rows[i].identity.key);
  }

  /** Terminal statuses are not absorbing: a terminal record leaves them exactly when a page whose
      last event for its key is a failure is applied, when a worker run that began on an older
      reading ends in an error or finds its limit reached, or when the scheduler or a release
      writes it on the strength of an older selection. */
  lemma TerminalLostExactly(s: System, a: Action, i: nat)
    requires Enabled(s, a) && Base(s) && Settlement(s) && i < |s.rows| && Terminal(s.rows[i].status)
    ensures i < |Step(s, a).rows|
    ensures !Terminal(Step(s, a).rows[i].status) <==> Y.Loses(s, a, i)
  {
    hide RowsAfter, RunsAfter, InboxAfter, JournalAfter, GatewayAfter, Base, Settlement;
    RowsKeepIdentities(s, a);
    RowByRow(s, a, i);
    if a.ApplyPage? {
      PageLosesExactly(s, i);
    } else {
      Y.WriterLosesExactly(s, a, i);
    }
  }
}
