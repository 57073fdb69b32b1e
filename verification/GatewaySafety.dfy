/** What every step of the gateway keeps, and the guarantees over whole runs. */
module GatewaySafety {
  import opened Messages
  import opened Stores
  import opened GatewayProtocol

  // ---- the provider calls of one key ----

  predicate GroupCall(c: Call, k: string) { c.key == k && c.fp.group }

  function GroupCalls(calls: seq<Call>, k: string): seq<Call> {
    if calls == [] then []
    else
      var c := calls[|calls| - 1];
      GroupCalls(calls[..|calls| - 1], k) + if GroupCall(c, k) then [c] else []
  }

  lemma GroupCallsAppend(calls: seq<Call>, c: Call, k: string)
    ensures GroupCalls(calls + [c], k) == GroupCalls(calls, k) + if GroupCall(c, k) then [c] else []
  {
    assert (calls + [c])[..|calls|] == calls;
  }

  /** Parts of one payload, from the first, each once, none skipped. */
  predicate PartsInOrder(gc: seq<Call>) {
    forall i | 0 <= i < |gc| ::
      gc[i].fp.group && gc[i].fp == gc[0].fp && gc[i].index == i < PartCount(gc[i].fp)
  }

  /** The provider confirmed part `i` of the payload under this id. */
  ghost predicate Submission(calls: seq<Call>, tenant: string, k: string, fp: Fingerprint, i: nat, id: string) {
    id != "" && Call(tenant, k, fp, i, Id(id)) in calls
  }

  ghost predicate Confirmed(calls: seq<Call>, tenant: string, k: string, fp: Fingerprint, ids: seq<string>) {
    forall i | 0 <= i < |ids| :: Submission(calls, tenant, k, fp, i, ids[i])
  }

  /** One confirmed id per part, in part order. */
  ghost predicate Delivered(calls: seq<Call>, k: string, j: Job) {
    |j.result.ids| == PartCount(j.result.fp) && Confirmed(calls, j.tenant, k, j.result.fp, j.result.ids)
  }

  // ---- the invariant of one key ----

  predicate On(p: Process, k: string) { p.Busy? && p.q.key == k }

  /** A group record accounts for the calls made: one per recorded id, plus at most one under a marker. */
  predicate Accounts(r: Result, tenant: string, gc: seq<Call>) {
    var n := |r.ids|;
    && n <= |gc| <= n + 1
    && n <= PartCount(r.fp)
    && (forall i | 0 <= i < |gc| :: gc[i].fp == r.fp && gc[i].tenant == tenant)
    && (forall i | 0 <= i < n :: r.ids[i] != "" && gc[i].answer == Id(r.ids[i]))
    && (!r.inflight ==> |gc| == n)
    && (r.reconciliation ==> r.inflight && |gc| == n + 1)
  }

  /** How far the send in progress has got with a group record. */
  predicate GroupPoint(r: Result, gc: seq<Call>, at: Point) {
    var n := |r.ids|;
    match at
    case Checking => !r.inflight
    case Looping => !r.inflight
    case Marked => r.inflight && |gc| == n < PartCount(r.fp)
    case Pushed(id) => r.inflight && |gc| == n + 1 && id != "" && gc[n].answer == Id(id)
    case Failing(uncertain) => r.inflight == uncertain && (uncertain ==> |gc| == n + 1)
    case Finishing(ids) => !r.inflight && ids == r.ids && n == PartCount(r.fp)
    case Delivering(_) => false
    case _ => true
  }

  ghost predicate IndividualPoint(g: Gateway, j: Job, k: string, at: Point) {
    match at
    case Delivering(sofar) =>
      && |sofar| <= PartCount(j.result.fp)
      && forall i | 0 <= i < |sofar| && sofar[i] != "" :: Submission(g.calls, j.tenant, k, j.result.fp, i, sofar[i])
    case Finishing(ids) =>
      |ids| == PartCount(j.result.fp) && Confirmed(g.calls, j.tenant, k, j.result.fp, ids)
    case Failing(r) => !r
    case _ => !at.Looping? && !at.Marked? && !at.Pushed?
  }

  /** The send in progress and the record of its key. */
  ghost predicate InProgress(g: Gateway, k: string, j: Job)
    requires g.process.Busy?
  {
    var p := g.process;
    && p.q.tenant == j.tenant
    && p.progress.fp == j.result.fp == FingerprintOf(p.q)
    && !p.progress.reconciliation && !p.progress.success
    && match p.at
       case Reporting(r) => j.status == Failed && j.result == p.progress.(reconciliation := r)
       case Recording(ids, n) => j.status == Submitted && ids == j.result.ids && n <= |ids|
       case at =>
         && j.status in {Queued, Processing} && j.result == p.progress
         && if j.result.fp.group then GroupPoint(j.result, GroupCalls(g.calls, k), at)
            else IndividualPoint(g, j, k, at)
  }

  ghost predicate JobInv(g: Gateway, k: string, j: Job) {
    && j.attempts == g.passes[k]
    && j.status in {Queued, Processing, Submitted, Failed}
    && (j.result.success <==> j.status.Submitted?)
    && (if j.result.fp.group then Accounts(j.result, j.tenant, GroupCalls(g.calls, k)) else !Blocked(j.result))
    && (j.status.Submitted? ==> !Blocked(j.result) && Delivered(g.calls, k, j))
    && (On(g.process, k) ==> InProgress(g, k, j))
  }

  ghost predicate KeyInv(g: Gateway, k: string) {
    && PartsInOrder(GroupCalls(g.calls, k))
    && if k in g.store.jobs then JobInv(g, k, g.store.jobs[k])
       else GroupCalls(g.calls, k) == [] && g.passes[k] == 0 && !On(g.process, k)
  }

  // ---- the invariant of the tables ----

  predicate Owned(s: Store, k: string, tenant: string) {
    k in s.jobs && s.jobs[k].tenant == tenant
  }

  predicate Delivers(s: Store, k: string) {
    k in s.jobs && s.jobs[k].status.Submitted?
  }

  /** Everything kept for a key carries the tenant of its job. */
  ghost predicate Coherent(g: Gateway) {
    && (forall c | c in g.calls :: Owned(g.store, c.key, c.tenant))
    && (forall m | m in g.store.messages :: Owned(g.store, g.store.messages[m].key, g.store.messages[m].tenant))
    && (forall e | e in g.store.events :: Owned(g.store, e.key, e.tenant))
  }

  function Rank(s: Status): nat {
    if s.Failed? then 0 else if s.Submitted? then 1 else 2
  }

  /** Two events of one key, in log order: never Submitted twice; and without Cloud
      webhooks, failures come first, then the submission, then acknowledgements. */
  predicate Ordered(e: Event, f: Event, webhooked: set<string>) {
    e.key == f.key ==>
      && !(e.status.Submitted? && f.status.Submitted?)
      && (e.key !in webhooked ==> Rank(e.status) <= Rank(f.status))
  }

  predicate LogShape(events: seq<Event>, webhooked: set<string>) {
    && (forall i | 0 <= i < |events| :: events[i].id == i + 1 && events[i].status in {Failed, Submitted, Acknowledged})
    && (forall i, j | 0 <= i < j < |events| :: Ordered(events[i], events[j], webhooked))
  }

  /** A send that is about to log its submission finds only failures under its key. */
  ghost predicate Quiet(g: Gateway) {
    g.process.Busy? && g.process.at.Recording? ==>
      && g.process.q.key !in g.webhooked
      && forall e | e in g.store.events && e.key == g.process.q.key :: e.status.Failed?
  }

  ghost predicate LogInv(g: Gateway) {
    && LogShape(g.store.events, g.webhooked)
    && (forall m | m in g.store.messages :: Delivers(g.store, g.store.messages[m].key))
    && (forall e | e in g.store.events && !e.status.Failed? :: Delivers(g.store, e.key))
    && (forall k | k in g.webhooked :: Delivers(g.store, k))
    && Quiet(g)
  }

  /** A reply that reports a submission is backed by the job's record. */
  ghost predicate Honest(s: Store, a: Answered) {
    a.reply.Sent? ==>
      && Delivers(s, a.q.key)
      && s.jobs[a.q.key].tenant == a.q.tenant
      && s.jobs[a.q.key].result.ids == a.reply.ids
      && (a.q.recipientType.Group? ==> s.jobs[a.q.key].result.fp == FingerprintOf(a.q))
  }

  ghost predicate RepliesInv(g: Gateway) {
    forall t | t in g.replies :: Honest(g.store, g.replies[t])
  }

  ghost predicate Inv(g: Gateway) {
    && (forall k :: KeyInv(g, k))
    && Coherent(g) && LogInv(g) && RepliesInv(g)
  }

  // ---- preservation ----

  lemma GroupCallsSubset(calls: seq<Call>, k: string)
    ensures forall c | c in GroupCalls(calls, k) :: c in calls && GroupCall(c, k)
  {
    if calls == [] {
    } else {
      GroupCallsSubset(calls[..|calls| - 1], k);
    }
  }

  lemma InitialInv()
    ensures Inv(INITIAL)
  {
  }

  /** The key a step works on; no other key's record, calls or counters change. */
  function Touched(g: Gateway, a: Action): string
    requires Enabled(g, a)
  {
    match a
    case AcceptRequest(_, q) => q.key
    case AdvanceSend(_) => g.process.q.key
    case _ => ""
  }

  lemma CallsGrow(g: Gateway, a: Action)
    requires Enabled(g, a)
    ensures g.calls <= Step(g, a).calls
    ensures |Step(g, a).calls| <= |g.calls| + 1
    ensures |Step(g, a).calls| == |g.calls| + 1 ==>
      && a.AdvanceSend? && (g.process.at.Marked? || g.process.at.Delivering?)
      && Step(g, a).calls[|g.calls|].key == g.process.q.key
      && Step(g, a).calls[|g.calls|].tenant == g.process.q.tenant
      && Step(g, a).calls[|g.calls|].fp == g.process.progress.fp
  {
    hide Judge, AllConfirmed, PartCount;
  }

  /** Jobs are never removed or moved to another tenant, and a submitted job never changes. */
  predicate JobsEvolve(s: Store, t: Store) {
    forall k | k in s.jobs ::
      && Owned(t, k, s.jobs[k].tenant)
      && (s.jobs[k].status.Submitted? ==> t.jobs[k] == s.jobs[k])
  }

  lemma AcceptWritesOneJob(g: Gateway, ticket: int, q: Request)
    requires g.process.Idle?
    ensures var s, t, k := g.store, Accept(g, ticket, q).store, q.key;
      || t.jobs == s.jobs
      || (&& k in t.jobs && t.jobs == s.jobs[k := t.jobs[k]]
          && (k in s.jobs ==> t.jobs[k].tenant == s.jobs[k].tenant && !s.jobs[k].status.Submitted?))
  {
  }

  /** The record the next step of a send writes, if it writes one. */
  function Written(p: Process): Option<(Status, Result)>
    requires p.Busy?
  {
    var r := p.progress;
    match p.at
    case Looping =>
      if |r.ids| < PartCount(r.fp) then Some((Processing, Result(r.fp, r.ids, true, false, false))) else None
    case Pushed(id) => Some((Processing, Result(r.fp, r.ids + [id], false, false, false)))
    case Failing(uncertain) => Some((Failed, r.(reconciliation := uncertain)))
    case Finishing(ids) => Some((Submitted, Result(r.fp, ids, false, false, true)))
    case _ => None
  }

  function NextJobs(g: Gateway): map<string, Job>
    requires g.process.Busy?
  {
    var p := g.process;
    match Written(p)
    case Some(w) => Upsert(g.store, p.q.key, p.q.tenant, w.0, w.1, false).jobs
    case None => g.store.jobs
  }

  lemma AdvanceJobs(g: Gateway, c: Choice)
    requires g.process.Busy?
    ensures Advance(g, c).store.jobs == NextJobs(g)
  {
  }

  lemma NextJobsWriteOne(g: Gateway)
    requires g.process.Busy?
    ensures var s, jobs, k := g.store, NextJobs(g), g.process.q.key;
      || jobs == s.jobs
      || (&& k in jobs && jobs == s.jobs[k := jobs[k]]
          && (k in s.jobs ==> jobs[k].tenant == s.jobs[k].tenant)
          && !g.process.at.Reporting? && !g.process.at.Recording?)
  {
  }

  /** A step writes at most the job of the key it touches. */
  lemma StepWritesOneJob(g: Gateway, a: Action)
    requires Enabled(g, a)
    ensures var jobs, later, k := g.store.jobs, Step(g, a).store.jobs, Touched(g, a);
      || later == jobs
      || ((a.AcceptRequest? || a.AdvanceSend?) && k in later && later == jobs[k := later[k]])
  {
    hide Advance, Accept, NextJobs;
    match a
    case AcceptRequest(ticket, q) => AcceptWritesOneJob(g, ticket, q);
    case AdvanceSend(c) =>
      AdvanceJobs(g, c);
      NextJobsWriteOne(g);
    case _ =>
  }

  lemma StepPasses(g: Gateway, a: Action, k: string)
    requires Enabled(g, a) && ((a.AcceptRequest? || a.AdvanceSend?) ==> k != Touched(g, a))
    ensures Step(g, a).passes[k] == g.passes[k]
    ensures On(Step(g, a).process, k) ==> Step(g, a).process == g.process
  {
  }

  /** A key whose record, calls and send are as before, up to other keys' calls. */
  ghost predicate Undisturbed(g: Gateway, h: Gateway, k: string) {
    && (k in h.store.jobs <==> k in g.store.jobs)
    && (k in g.store.jobs ==> h.store.jobs[k] == g.store.jobs[k])
    && h.passes[k] == g.passes[k]
    && GroupCalls(h.calls, k) == GroupCalls(g.calls, k)
    && g.calls <= h.calls
    && (On(h.process, k) ==> h.process == g.process)
  }

  lemma UndisturbedKeeps(g: Gateway, h: Gateway, k: string)
    requires KeyInv(g, k) && Undisturbed(g, h, k)
    ensures KeyInv(h, k)
  {
    forall c: Call | c in g.calls ensures c in h.calls {
      var i :| 0 <= i < |g.calls| && g.calls[i] == c;
      assert h.calls[i] == c;
    }
  }

  lemma StepUndisturbs(g: Gateway, a: Action, k: string)
    requires Enabled(g, a)
    requires (a.AcceptRequest? || a.AdvanceSend?) ==> k != Touched(g, a)
    ensures Undisturbed(g, Step(g, a), k)
  {
    hide Step;
    var h := Step(g, a);
    StepWritesOneJob(g, a);
    StepPasses(g, a, k);
    CallsGrow(g, a);
    if |h.calls| == |g.calls| + 1 {
      assert h.calls == g.calls + [h.calls[|g.calls|]];
      GroupCallsAppend(g.calls, h.calls[|g.calls|], k);
    } else {
      assert h.calls == g.calls;
    }
  }

  lemma OtherKeysKeep(g: Gateway, a: Action, k: string)
    requires Enabled(g, a) && KeyInv(g, k)
    requires (a.AcceptRequest? || a.AdvanceSend?) ==> k != Touched(g, a)
    ensures KeyInv(Step(g, a), k)
  {
    StepUndisturbs(g, a, k);
    UndisturbedKeeps(g, Step(g, a), k);
  }

  lemma ProceedKeepsKey(g: Gateway, ticket: int, q: Request)
    requires g.process.Idle? && KeyInv(g, q.key) && Judge(g.store, q).Proceed?
    ensures KeyInv(Accept(g, ticket, q), q.key)
  {
    hide PartsInOrder, ValidTenant, ValidKey, ValidPdfs, ValidGroupId, ValidNumber;
  }

  lemma AcceptKeepsKey(g: Gateway, ticket: int, q: Request)
    requires g.process.Idle? && KeyInv(g, q.key)
    ensures KeyInv(Accept(g, ticket, q), q.key)
  {
    hide Judge, PartsInOrder, Accounts, Delivered;
    if Judge(g.store, q).Proceed? {
      ProceedKeepsKey(g, ticket, q);
    }
  }

  lemma ProgressStepKeepsKey(g: Gateway, c: Choice)
    requires g.process.Busy? && KeyInv(g, g.process.q.key)
    requires g.process.at.Checking? || g.process.at.Looping? || g.process.at.Pushed?
    ensures KeyInv(Advance(g, c), g.process.q.key)
  {
  }

  lemma FailingKeepsKey(g: Gateway, c: Choice)
    requires g.process.Busy? && KeyInv(g, g.process.q.key)
    requires g.process.at.Failing?
    ensures KeyInv(Advance(g, c), g.process.q.key)
  {
  }

  /** The closing steps leave the record and the calls as they are. */
  lemma ReportingKeepsKey(g: Gateway, c: Choice)
    requires g.process.Busy? && KeyInv(g, g.process.q.key)
    requires g.process.at.Reporting? || g.process.at.Recording?
    ensures KeyInv(Advance(g, c), g.process.q.key)
  {
    hide PartsInOrder, Accounts, Delivered;
    var h := Advance(g, c);
    assert h.calls == g.calls && h.store.jobs == g.store.jobs && h.passes == g.passes;
  }

  lemma FinishingKeepsKey(g: Gateway, c: Choice)
    requires g.process.Busy? && KeyInv(g, g.process.q.key)
    requires g.process.at.Finishing?
    ensures KeyInv(Advance(g, c), g.process.q.key)
  {
    var k := g.process.q.key;
    var j := g.store.jobs[k];
    if j.result.fp.group {
      var gc := GroupCalls(g.calls, k);
      GroupCallsSubset(g.calls, k);
      forall i | 0 <= i < |j.result.ids|
        ensures Submission(g.calls, j.tenant, k, j.result.fp, i, j.result.ids[i])
      {
        assert gc[i] in gc;
      }
    }
  }

  /** One more call, for the part after the recorded ids, still leaves the record in account. */
  lemma OneMoreCall(r: Result, tenant: string, k: string, gc: seq<Call>, a: Answer)
    requires PartsInOrder(gc) && Accounts(r, tenant, gc)
    requires r.fp.group && r.inflight && !r.reconciliation && |gc| == |r.ids| < PartCount(r.fp)
    ensures PartsInOrder(gc + [Call(tenant, k, r.fp, |r.ids|, a)])
    ensures Accounts(r, tenant, gc + [Call(tenant, k, r.fp, |r.ids|, a)])
  {
  }

  lemma GroupAtMarked(g: Gateway, k: string)
    requires KeyInv(g, k) && On(g.process, k) && g.process.at.Marked?
    ensures k in g.store.jobs && InProgress(g, k, g.store.jobs[k])
    ensures var r := g.store.jobs[k].result;
      && r == g.process.progress && r.fp.group && r.inflight && !r.reconciliation
      && |GroupCalls(g.calls, k)| == |r.ids| < PartCount(r.fp)
  {
  }

  lemma GroupCallMade(g: Gateway, a: Answer)
    requires g.process.Busy? && g.process.progress.fp.group
    ensures var p, h := g.process, CallGroup(g, a);
      && h.store == g.store && h.passes == g.passes
      && GroupCalls(h.calls, p.q.key)
         == GroupCalls(g.calls, p.q.key) + [Call(p.q.tenant, p.q.key, p.progress.fp, |p.progress.ids|, a)]
      && (h.process.Busy? ==> h.process == p.(at := if Confirms(a) then Pushed(a.id) else Failing(true)))
  {
    GroupCallsAppend(g.calls, CallAt(g.process, |g.process.progress.ids|, a), g.process.q.key);
  }

  lemma GroupCallKeepsKey(g: Gateway, c: Choice)
    requires g.process.Busy? && KeyInv(g, g.process.q.key)
    requires g.process.at.Marked?
    ensures KeyInv(Advance(g, c), g.process.q.key)
  {
    var k := g.process.q.key;
    GroupAtMarked(g, k);
    GroupCallMade(g, c.answer);
    var j, h := g.store.jobs[k], CallGroup(g, c.answer);
    OneMoreCall(j.result, j.tenant, k, GroupCalls(g.calls, k), c.answer);
    assert JobInv(h, k, j);
  }

  lemma SubmissionsStay(calls: seq<Call>, c: Call, tenant: string, k: string, fp: Fingerprint, ids: seq<string>)
    ensures forall i | 0 <= i < |ids| && Submission(calls, tenant, k, fp, i, ids[i]) ::
      Submission(calls + [c], tenant, k, fp, i, ids[i])
  {
  }

  lemma IndividualCheckKeepsKey(g: Gateway, c: Choice)
    requires g.process.Busy? && KeyInv(g, g.process.q.key)
    requires g.process.at.Delivering? && |g.process.at.sofar| >= PartCount(g.process.progress.fp)
    ensures KeyInv(Advance(g, c), g.process.q.key)
  {
    var p, k, h := g.process, g.process.q.key, Advance(g, c);
    var j := g.store.jobs[k];
    assert h == g.(process := h.process);
    assert IndividualPoint(g, j, k, p.at);
    assert IndividualPoint(h, j, k, h.process.at);
    assert InProgress(h, k, j);
  }

  /** A step that leaves an unsubmitted individual record alone only has to keep the send consistent. */
  lemma RecordUntouchedKeeps(g: Gateway, h: Gateway, k: string)
    requires KeyInv(g, k) && k in g.store.jobs
    requires var j := g.store.jobs[k]; !j.result.fp.group && !j.status.Submitted?
    requires h.store == g.store && h.passes == g.passes && GroupCalls(h.calls, k) == GroupCalls(g.calls, k)
    requires On(h.process, k) ==> InProgress(h, k, g.store.jobs[k])
    ensures KeyInv(h, k)
  {
  }

  lemma IndividualCallProgress(g: Gateway, c: Choice, j: Job)
    requires g.process.Busy? && g.process.at.Delivering? && InProgress(g, g.process.q.key, j)
    requires !j.result.fp.group && |g.process.at.sofar| < PartCount(g.process.progress.fp)
    ensures var h := Advance(g, c); h.process.Busy? ==> InProgress(h, g.process.q.key, j)
  {
    var p, k, h, sofar := g.process, g.process.q.key, Advance(g, c), g.process.at.sofar;
    var call := Call(j.tenant, k, j.result.fp, |sofar|, c.answer);
    SubmissionsStay(g.calls, call, j.tenant, k, j.result.fp, sofar);
    if h.process.Busy? && h.process.at.Delivering? {
      assert h.calls == g.calls + [call] && h.calls[|g.calls|] == call;
      assert IndividualPoint(h, j, k, h.process.at);
    }
  }

  lemma IndividualAtDelivering(g: Gateway, k: string)
    requires KeyInv(g, k) && On(g.process, k) && g.process.at.Delivering?
    ensures k in g.store.jobs && InProgress(g, k, g.store.jobs[k])
    ensures !g.store.jobs[k].result.fp.group && !g.store.jobs[k].status.Submitted?
    ensures !g.process.progress.fp.group
  {
  }

  lemma IndividualCallMade(g: Gateway, c: Choice)
    requires g.process.Busy? && g.process.at.Delivering? && !g.process.progress.fp.group
    requires |g.process.at.sofar| < PartCount(g.process.progress.fp)
    ensures var h := Advance(g, c);
      && h.store == g.store && h.passes == g.passes
      && GroupCalls(h.calls, g.process.q.key) == GroupCalls(g.calls, g.process.q.key)
  {
    GroupCallsAppend(g.calls, CallAt(g.process, |g.process.at.sofar|, c.answer), g.process.q.key);
  }

  lemma IndividualCallKeepsKey(g: Gateway, c: Choice)
    requires g.process.Busy? && KeyInv(g, g.process.q.key)
    requires g.process.at.Delivering? && |g.process.at.sofar| < PartCount(g.process.progress.fp)
    ensures KeyInv(Advance(g, c), g.process.q.key)
  {
    var k := g.process.q.key;
    IndividualAtDelivering(g, k);
    IndividualCallMade(g, c);
    IndividualCallProgress(g, c, g.store.jobs[k]);
    RecordUntouchedKeeps(g, Advance(g, c), k);
  }

  lemma AdvanceKeepsKey(g: Gateway, c: Choice)
    requires g.process.Busy? && KeyInv(g, g.process.q.key)
    ensures KeyInv(Advance(g, c), g.process.q.key)
  {
    hide Advance, KeyInv;
    if g.process.at.Marked? {
      GroupCallKeepsKey(g, c);
    } else if g.process.at.Delivering? && |g.process.at.sofar| >= PartCount(g.process.progress.fp) {
      IndividualCheckKeepsKey(g, c);
    } else if g.process.at.Delivering? {
      IndividualCallKeepsKey(g, c);
    } else if g.process.at.Finishing? {
      FinishingKeepsKey(g, c);
    } else if g.process.at.Checking? || g.process.at.Looping? || g.process.at.Pushed? {
      ProgressStepKeepsKey(g, c);
    } else if g.process.at.Failing? {
      FailingKeepsKey(g, c);
    } else {
      ReportingKeepsKey(g, c);
    }
  }

  lemma NextJobEvolves(g: Gateway)
    requires g.process.Busy? && KeyInv(g, g.process.q.key)
    ensures JobsEvolve(g.store, g.store.(jobs := NextJobs(g)))
  {
    NextJobsWriteOne(g);
  }

  lemma StepEvolvesJobs(g: Gateway, a: Action)
    requires Enabled(g, a) && KeyInv(g, Touched(g, a))
    ensures JobsEvolve(g.store, Step(g, a).store)
  {
    hide Advance, Accept, NextJobs, KeyInv;
    match a
    case AcceptRequest(ticket, q) => AcceptWritesOneJob(g, ticket, q);
    case AdvanceSend(c) =>
      AdvanceJobs(g, c);
      NextJobEvolves(g);
    case _ =>
  }

  // ---- calls, messages and events ----

  /** Past its guards or not, a request taken from the queue touches nothing but its job and its reply. */
  lemma AcceptFrame(g: Gateway, ticket: int, q: Request)
    requires g.process.Idle?
    ensures var h := Accept(g, ticket, q);
      && h.store.messages == g.store.messages && h.store.events == g.store.events
      && h.webhooked == g.webhooked && h.calls == g.calls
  {
    hide Judge;
  }

  /** A step indexes at most one message, while it records a submission. */
  predicate IndexesMessage(g: Gateway, messages: map<string, MessageRow>) {
    var p := g.process;
    p.Busy? && p.at.Recording? && p.at.next < |p.at.confirmed|
    && messages == g.store.messages[p.at.confirmed[p.at.next] := MessageRow(p.q.tenant, p.q.key)]
  }

  lemma AdvanceMessages(g: Gateway, c: Choice)
    requires g.process.Busy?
    ensures var later := Advance(g, c).store.messages;
      later == g.store.messages || IndexesMessage(g, later)
  {
    hide AllConfirmed, PartCount;
  }

  lemma StepMessages(g: Gateway, a: Action)
    requires Enabled(g, a)
    ensures var later := Step(g, a).store.messages;
      later == g.store.messages || (a.AdvanceSend? && IndexesMessage(g, later))
  {
    hide Advance, Accept, IndexesMessage;
    match a
    case AcceptRequest(ticket, q) => AcceptFrame(g, ticket, q);
    case AdvanceSend(c) => AdvanceMessages(g, c);
    case _ =>
  }

  /** The event a step logs, if any. */
  function Logged(g: Gateway, a: Action): Option<Event>
    requires Enabled(g, a)
  {
    var id := |g.store.events| + 1;
    match a
    case AdvanceSend(_) =>
      var p := g.process;
      if p.at.Reporting? then Some(Event(id, p.q.tenant, p.q.key, Failed))
      else if p.at.Recording? && p.at.next >= |p.at.confirmed| then Some(Event(id, p.q.tenant, p.q.key, Submitted))
      else None
    case Ack(m) => Some(Event(id, g.store.messages[m].tenant, g.store.messages[m].key, Acknowledged))
    case Webhook(tenant, m, failed) =>
      Some(Event(id, tenant, g.store.messages[m].key, if failed then Failed else Acknowledged))
    case _ => None
  }

  lemma AdvanceLogs(g: Gateway, c: Choice)
    requires g.process.Busy?
    ensures Advance(g, c).store.events
         == g.store.events + match Logged(g, AdvanceSend(c)) case Some(e) => [e] case None => []
    ensures Advance(g, c).webhooked == g.webhooked
  {
    hide AllConfirmed, PartCount;
  }

  lemma StepLogs(g: Gateway, a: Action)
    requires Enabled(g, a)
    ensures Step(g, a).store.events
         == g.store.events + match Logged(g, a) case Some(e) => [e] case None => []
    ensures Step(g, a).webhooked
         == g.webhooked + if a.Webhook? then {g.store.messages[a.messageId].key} else {}
  {
    hide Advance, Accept;
    match a
    case AcceptRequest(ticket, q) => AcceptFrame(g, ticket, q);
    case AdvanceSend(c) => AdvanceLogs(g, c);
    case _ =>
  }

  /** The send in progress works on a job of its tenant. */
  lemma SenderOwnsJob(g: Gateway)
    requires g.process.Busy? && KeyInv(g, g.process.q.key)
    ensures Owned(g.store, g.process.q.key, g.process.q.tenant)
    ensures g.process.at.Recording? ==> Delivers(g.store, g.process.q.key)
  {
  }

  lemma StepKeepsCallTenants(g: Gateway, a: Action)
    requires Enabled(g, a) && KeyInv(g, Touched(g, a)) && Coherent(g)
    ensures var h := Step(g, a); forall c | c in h.calls :: Owned(h.store, c.key, c.tenant)
  {
    hide Step, KeyInv;
    var h := Step(g, a);
    StepEvolvesJobs(g, a);
    CallsGrow(g, a);
    if a.AdvanceSend? {
      SenderOwnsJob(g);
    }
    forall c | c in h.calls ensures Owned(h.store, c.key, c.tenant) {
      var i :| 0 <= i < |h.calls| && h.calls[i] == c;
      assert i < |g.calls| ==> g.calls[i] == c;
    }
  }

  lemma StepKeepsMessageTenants(g: Gateway, a: Action)
    requires Enabled(g, a) && KeyInv(g, Touched(g, a)) && Coherent(g)
    ensures var s := Step(g, a).store;
      forall m | m in s.messages :: Owned(s, s.messages[m].key, s.messages[m].tenant)
  {
    hide Step, KeyInv;
    if a.AdvanceSend? {
      SenderOwnsJob(g);
    }
    StepEvolvesJobs(g, a);
    StepMessages(g, a);
  }

  /** At most one event is logged by a step, in the tenant and for the key of a job. */
  lemma StepKeepsEventTenants(g: Gateway, a: Action)
    requires Enabled(g, a) && KeyInv(g, Touched(g, a)) && Coherent(g)
    ensures var s := Step(g, a).store;
      forall e | e in s.events :: Owned(s, e.key, e.tenant)
  {
    hide Step, KeyInv;
    if a.AdvanceSend? {
      SenderOwnsJob(g);
    }
    StepEvolvesJobs(g, a);
    StepLogs(g, a);
  }

  lemma StepKeepsCoherent(g: Gateway, a: Action)
    requires Enabled(g, a) && KeyInv(g, Touched(g, a)) && Coherent(g)
    ensures Coherent(Step(g, a))
  {
    hide Step, Enabled, KeyInv, Owned;
    StepKeepsCallTenants(g, a);
    StepKeepsMessageTenants(g, a);
    StepKeepsEventTenants(g, a);
  }

  // ---- replies ----

  /** A step answers at most the ticket it works on, and then the process is idle. */
  lemma RepliesChange(g: Gateway, a: Action)
    requires Enabled(g, a)
    ensures var h := Step(g, a);
      || h.replies == g.replies
      || (h.process.Idle? && a.AcceptRequest? && h.replies == g.replies[a.ticket := h.replies[a.ticket]])
      || (h.process.Idle? && a.AdvanceSend? && g.process.Busy?
          && h.replies == g.replies[g.process.ticket := h.replies[g.process.ticket]])
  {
    hide Judge, AllConfirmed, PartCount;
  }

  lemma AcceptHonest(g: Gateway, ticket: int, q: Request)
    requires g.process.Idle? && KeyInv(g, q.key)
    ensures var h := Accept(g, ticket, q);
      h.replies == g.replies || (ticket in h.replies && Honest(h.store, h.replies[ticket]))
  {
  }

  lemma AdvanceHonest(g: Gateway, c: Choice)
    requires g.process.Busy? && KeyInv(g, g.process.q.key)
    ensures var h, ticket := Advance(g, c), g.process.ticket;
      h.replies == g.replies || (ticket in h.replies && Honest(h.store, h.replies[ticket]))
  {
  }

  lemma OldReplyHonest(s: Store, t: Store, r: Answered)
    requires Honest(s, r) && JobsEvolve(s, t)
    ensures Honest(t, r)
  {
  }

  lemma StepKeepsReplies(g: Gateway, a: Action)
    requires Enabled(g, a) && KeyInv(g, Touched(g, a)) && RepliesInv(g)
    ensures RepliesInv(Step(g, a))
  {
    hide Advance, Accept, KeyInv, Honest;
    var h := Step(g, a);
    StepEvolvesJobs(g, a);
    RepliesChange(g, a);
    match a {
      case AcceptRequest(ticket, q) => AcceptHonest(g, ticket, q);
      case AdvanceSend(c) => AdvanceHonest(g, c);
      case _ =>
    }
    forall t | t in h.replies ensures Honest(h.store, h.replies[t]) {
      if t in g.replies && g.replies[t] == h.replies[t] {
        OldReplyHonest(g.store, h.store, g.replies[t]);
      }
    }
  }

  // ---- the log ----

  /** No event but failures while a send has not yet recorded the submission, or is about to log it. */
  lemma NoEarlyEvents(g: Gateway)
    requires LogInv(g) && g.process.Busy? && KeyInv(g, g.process.q.key)
    ensures forall e | e in g.store.events && e.key == g.process.q.key :: e.status.Failed?
    ensures g.process.q.key !in g.webhooked
  {
  }

  lemma OneMoreEvent(events: seq<Event>, f: Event, before: set<string>, webhooked: set<string>)
    requires LogShape(events, before) && before <= webhooked
    requires f.id == |events| + 1 && f.status in {Failed, Submitted, Acknowledged}
    requires forall e | e in events :: Ordered(e, f, webhooked)
    ensures LogShape(events + [f], webhooked)
  {
    var later := events + [f];
    forall i, j | 0 <= i < j < |later| ensures Ordered(later[i], later[j], webhooked) {
      if j < |events| {
        assert Ordered(events[i], events[j], before);
      } else {
        assert events[i] in events;
      }
    }
  }

  lemma NewEventOrdered(g: Gateway, a: Action)
    requires Enabled(g, a) && KeyInv(g, Touched(g, a)) && LogInv(g) && Logged(g, a).Some?
    ensures var f := Logged(g, a).value;
      var webhooked := g.webhooked + if a.Webhook? then {g.store.messages[a.messageId].key} else {};
      && f.status in {Failed, Submitted, Acknowledged}
      && forall e | e in g.store.events :: Ordered(e, f, webhooked)
  {
    hide KeyInv;
    if a.AdvanceSend? {
      NoEarlyEvents(g);
    }
  }

  lemma StepKeepsShape(g: Gateway, a: Action)
    requires Enabled(g, a) && KeyInv(g, Touched(g, a)) && LogInv(g)
    ensures LogShape(Step(g, a).store.events, Step(g, a).webhooked)
  {
    hide Step, KeyInv, LogShape, Quiet, Ordered;
    StepLogs(g, a);
    match Logged(g, a)
    case None =>
      NothingReported(g, a);
      assert g.store.events + [] == g.store.events && g.webhooked + {} == g.webhooked;
    case Some(f) =>
      NewEventOrdered(g, a);
      OneMoreEvent(g.store.events, f, g.webhooked, Step(g, a).webhooked);
  }

  lemma NothingReported(g: Gateway, a: Action)
    requires Enabled(g, a) && Logged(g, a).None?
    ensures !a.Webhook?
  {
  }

  lemma NewMessageDelivers(g: Gateway, a: Action)
    requires Enabled(g, a) && KeyInv(g, Touched(g, a))
    ensures var h := Step(g, a);
      forall m | m in h.store.messages && !(m in g.store.messages && g.store.messages[m] == h.store.messages[m]) ::
        Delivers(g.store, h.store.messages[m].key)
  {
    hide Step, KeyInv;
    if a.AdvanceSend? {
      SenderOwnsJob(g);
    }
    StepMessages(g, a);
  }

  lemma NewEventDelivers(g: Gateway, a: Action)
    requires Enabled(g, a) && KeyInv(g, Touched(g, a)) && LogInv(g)
    ensures Logged(g, a).Some? && !Logged(g, a).value.status.Failed? ==> Delivers(g.store, Logged(g, a).value.key)
    ensures a.Webhook? ==> Delivers(g.store, g.store.messages[a.messageId].key)
  {
  }

  lemma StepKeepsDeliveries(g: Gateway, a: Action)
    requires Enabled(g, a) && KeyInv(g, Touched(g, a)) && LogInv(g)
    ensures var h := Step(g, a);
      && (forall m | m in h.store.messages :: Delivers(h.store, h.store.messages[m].key))
      && (forall e | e in h.store.events && !e.status.Failed? :: Delivers(h.store, e.key))
      && (forall k | k in h.webhooked :: Delivers(h.store, k))
  {
    hide Step, Enabled, KeyInv, LogShape, Quiet;
    StepEvolvesJobs(g, a);
    StepLogs(g, a);
    NewMessageDelivers(g, a);
    NewEventDelivers(g, a);
  }

  lemma StepKeepsQuiet(g: Gateway, a: Action)
    requires Enabled(g, a) && KeyInv(g, Touched(g, a)) && LogInv(g)
    ensures Quiet(Step(g, a))
  {
    hide KeyInv, LogShape, Judge;
    var h := Step(g, a);
    if h.process.Busy? && h.process.at.Recording? {
      assert g.process.Busy? && a.AdvanceSend?;
      NoEarlyEvents(g);
      StepLogs(g, a);
      assert Logged(g, a) == None;
      assert h.store.events == g.store.events;
    }
  }

  lemma StepKeepsLog(g: Gateway, a: Action)
    requires Enabled(g, a) && KeyInv(g, Touched(g, a)) && LogInv(g)
    ensures LogInv(Step(g, a))
  {
    StepKeepsShape(g, a);
    StepKeepsDeliveries(g, a);
    StepKeepsQuiet(g, a);
  }

  lemma StepKeepsInv(g: Gateway, a: Action)
    requires Enabled(g, a) && Inv(g)
    ensures Inv(Step(g, a))
  {
    var h := Step(g, a);
    forall k ensures KeyInv(h, k) {
      if (a.AcceptRequest? || a.AdvanceSend?) && k == Touched(g, a) {
        if a.AcceptRequest? {
          AcceptKeepsKey(g, a.ticket, a.q);
        } else {
          AdvanceKeepsKey(g, a.choice);
        }
      } else {
        OtherKeysKeep(g, a, k);
      }
    }
    StepKeepsCoherent(g, a);
    StepKeepsLog(g, a);
    StepKeepsReplies(g, a);
  }
}
