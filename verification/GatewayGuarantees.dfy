/** The gateway's promises, over every run from an empty store: any requests, any provider
    failures, the process dying between any two steps. */
module GatewayGuarantees {
  import opened Messages
  import opened Stores
  import opened GatewayProtocol
  import opened GatewaySafety

  lemma {:induction false} RunKeepsInv(g: Gateway, actions: seq<Action>)
    requires Inv(g)
    ensures Inv(Run(g, actions))
    decreases |actions|
  {
    if actions == [] {
    } else if Enabled(g, actions[0]) {
      StepKeepsInv(g, actions[0]);
      RunKeepsInv(Step(g, actions[0]), actions[1..]);
    } else {
      RunKeepsInv(g, actions[1..]);
    }
  }

  // ---- at most once ----

  /** The index of a group call among the group calls of its key. */
  function Position(calls: seq<Call>, k: string, i: nat): nat
    requires i < |calls|
  {
    |GroupCalls(calls[..i], k)|
  }

  lemma {:induction false} PositionInTrace(calls: seq<Call>, k: string, i: nat)
    requires i < |calls| && GroupCall(calls[i], k)
    ensures Position(calls, k, i) < |GroupCalls(calls, k)|
    ensures GroupCalls(calls, k)[Position(calls, k, i)] == calls[i]
  {
    var last := |calls| - 1;
    if i == last {
    } else {
      assert calls[..last][..i] == calls[..i];
      PositionInTrace(calls[..last], k, i);
    }
  }

  lemma {:induction false} PositionsIncrease(calls: seq<Call>, k: string, i: nat, j: nat)
    requires i < j < |calls| && GroupCall(calls[i], k)
    ensures Position(calls, k, i) < Position(calls, k, j)
  {
    assert calls[..j][..i] == calls[..i];
    PositionInTrace(calls[..j], k, i);
  }

  lemma {:induction false} GroupCallsPrefix(calls: seq<Call>, k: string, y: nat)
    requires y <= |calls|
    ensures GroupCalls(calls[..y], k) <= GroupCalls(calls, k)
  {
    if y == |calls| {
      assert calls[..y] == calls;
    } else {
      assert calls[..|calls| - 1][..y] == calls[..y];
      GroupCallsPrefix(calls[..|calls| - 1], k, y);
    }
  }

  lemma IndexIsPosition(calls: seq<Call>, k: string, i: nat)
    requires i < |calls| && GroupCall(calls[i], k) && PartsInOrder(GroupCalls(calls, k))
    ensures calls[i].index == Position(calls, k, i) < PartCount(calls[i].fp)
  {
    PositionInTrace(calls, k, i);
  }

  /** Before a group call that is not the first of its key lies the one just before it. */
  lemma EarlierCall(calls: seq<Call>, k: string, y: nat) returns (x: nat)
    requires y < |calls| && GroupCall(calls[y], k) && Position(calls, k, y) > 0
    requires PartsInOrder(GroupCalls(calls, k))
    ensures x < y && GroupCall(calls[x], k) && calls[x].index == Position(calls, k, y) - 1
  {
    var before, at := GroupCalls(calls[..y], k), Position(calls, k, y);
    GroupCallsPrefix(calls, k, y);
    GroupCallsSubset(calls[..y], k);
    var c := before[at - 1];
    assert c in before;
    x :| 0 <= x < y && calls[..y][x] == c;
    PositionInTrace(calls, k, y);
    assert GroupCalls(calls, k)[at - 1] == c;
  }

  /** Crash-safe at-most-once: the group calls under a key are the first parts of one payload,
      in order, and no part is submitted twice. */
  lemma GroupPartsAtMostOnce(actions: seq<Action>, k: string)
    ensures var calls := Run(INITIAL, actions).calls;
      && PartsInOrder(GroupCalls(calls, k))
      && forall i, j | 0 <= i < j < |calls| && GroupCall(calls[i], k) && GroupCall(calls[j], k) ::
           calls[i].fp == calls[j].fp && calls[i].index < calls[j].index
  {
    InitialInv();
    RunKeepsInv(INITIAL, actions);
    var calls := Run(INITIAL, actions).calls;
    assert KeyInv(Run(INITIAL, actions), k);
    forall i, j | 0 <= i < j < |calls| && GroupCall(calls[i], k) && GroupCall(calls[j], k)
      ensures calls[i].fp == calls[j].fp && calls[i].index < calls[j].index
    {
      PositionInTrace(calls, k, i);
      PositionInTrace(calls, k, j);
      PositionsIncrease(calls, k, i, j);
    }
  }

  /** A submission is never longer than five documents and a text. */
  lemma CallsPerKeyBounded(actions: seq<Action>, k: string)
    ensures |GroupCalls(Run(INITIAL, actions).calls, k)| <= 6
  {
    GroupPartsAtMostOnce(actions, k);
    PayloadsValid(INITIAL, actions);
    var calls := Run(INITIAL, actions).calls;
    var gc := GroupCalls(calls, k);
    if gc != [] {
      GroupCallsSubset(calls, k);
      var last := gc[|gc| - 1];
      assert last in gc && last in calls;
    }
  }

  ghost predicate ValidPayloads(g: Gateway) {
    && (forall c | c in g.calls :: ValidPdfs(c.fp.pdfs))
    && (g.process.Busy? ==> ValidPdfs(g.process.progress.fp.pdfs))
  }

  lemma ProcessKeepsPayload(g: Gateway, a: Action)
    requires Enabled(g, a) && ValidPayloads(g) && Step(g, a).process.Busy?
    ensures ValidPdfs(Step(g, a).process.progress.fp.pdfs)
  {
    hide ValidPdfs;
  }

  lemma StepKeepsPayloads(g: Gateway, a: Action)
    requires Enabled(g, a) && ValidPayloads(g)
    ensures ValidPayloads(Step(g, a))
  {
    hide Step, ValidPdfs;
    CallsGrow(g, a);
    if Step(g, a).process.Busy? {
      ProcessKeepsPayload(g, a);
    }
    var h := Step(g, a);
    forall c | c in h.calls ensures ValidPdfs(c.fp.pdfs) {
      var i :| 0 <= i < |h.calls| && h.calls[i] == c;
      assert i < |g.calls| ==> g.calls[i] == c;
    }
  }

  lemma {:induction false} PayloadsValid(g: Gateway, actions: seq<Action>)
    requires ValidPayloads(g)
    ensures ValidPayloads(Run(g, actions))
    decreases |actions|
  {
    if actions == [] {
    } else if Enabled(g, actions[0]) {
      StepKeepsPayloads(g, actions[0]);
      PayloadsValid(Step(g, actions[0]), actions[1..]);
    } else {
      PayloadsValid(g, actions[1..]);
    }
  }

  // ---- the record accounts for the calls ----

  /** While no send is in progress on a key: with no marker the calls are exactly the recorded
      ids; with a marker there is at most one more; a caught uncertain failure means exactly one more. */
  lemma RecordAccountsForCalls(actions: seq<Action>, k: string)
    ensures var g := Run(INITIAL, actions);
      k in g.store.jobs && g.store.jobs[k].result.fp.group ==>
        var r := g.store.jobs[k].result;
        var gc := GroupCalls(g.calls, k);
        && (forall i | 0 <= i < |r.ids| :: i < |gc| && r.ids[i] != "" && gc[i].answer == Id(r.ids[i]))
        && (!Blocked(r) ==> |gc| == |r.ids|)
        && (r.inflight ==> |gc| == |r.ids| || |gc| == |r.ids| + 1)
        && (r.reconciliation ==> |gc| == |r.ids| + 1)
        && (r.reconciliation && !On(g.process, k) ==>
              g.store.jobs[k].status.Failed? && !Confirms(gc[|r.ids|].answer))
  {
    InitialInv();
    RunKeepsInv(INITIAL, actions);
    UncertaintyRecorded(INITIAL, actions, k);
    assert KeyInv(Run(INITIAL, actions), k);
  }

  /** The extra call under a reconciliation flag was never confirmed. */
  ghost predicate Unconfirmed(g: Gateway, k: string) {
    k in g.store.jobs && g.store.jobs[k].result.fp.group ==>
      var j := g.store.jobs[k];
      var gc := GroupCalls(g.calls, k);
      && (j.result.reconciliation || (On(g.process, k) && g.process.at == Failing(true)) ==>
            |gc| > |j.result.ids| && !Confirms(gc[|j.result.ids|].answer))
      && (j.result.reconciliation ==> j.status.Failed?)
  }

  lemma GroupCallKeepsUnconfirmed(g: Gateway, c: Choice)
    requires g.process.Busy? && KeyInv(g, g.process.q.key) && g.process.at.Marked?
    ensures Unconfirmed(Advance(g, c), g.process.q.key)
  {
    hide KeyInv, GroupCalls;
    GroupAtMarked(g, g.process.q.key);
    GroupCallMade(g, c.answer);
  }

  lemma IndividualCallKeepsUnconfirmed(g: Gateway, c: Choice)
    requires g.process.Busy? && KeyInv(g, g.process.q.key) && g.process.at.Delivering?
    ensures Unconfirmed(Advance(g, c), g.process.q.key)
  {
    hide KeyInv, GroupCalls;
    IndividualAtDelivering(g, g.process.q.key);
  }

  lemma WriteKeepsUnconfirmed(g: Gateway, c: Choice)
    requires g.process.Busy? && KeyInv(g, g.process.q.key) && Unconfirmed(g, g.process.q.key)
    requires !g.process.at.Marked? && !g.process.at.Delivering?
    ensures Unconfirmed(Advance(g, c), g.process.q.key)
  {
    hide GroupCalls, PartsInOrder, Delivered;
  }

  lemma AcceptKeepsUnconfirmed(g: Gateway, ticket: int, q: Request)
    requires g.process.Idle? && KeyInv(g, q.key) && Unconfirmed(g, q.key)
    ensures Unconfirmed(Accept(g, ticket, q), q.key)
  {
    hide GroupCalls, ValidTenant, ValidKey, ValidPdfs, ValidGroupId, ValidNumber;
  }

  lemma UndisturbedUnconfirmed(g: Gateway, h: Gateway, k: string)
    requires Unconfirmed(g, k) && Undisturbed(g, h, k)
    ensures Unconfirmed(h, k)
  {
    hide GroupCalls;
  }

  lemma StepKeepsUnconfirmed(g: Gateway, a: Action, k: string)
    requires Enabled(g, a) && KeyInv(g, k) && Unconfirmed(g, k)
    ensures Unconfirmed(Step(g, a), k)
  {
    hide Advance, Accept, KeyInv, Unconfirmed;
    if a.AdvanceSend? && k == Touched(g, a) {
      if g.process.at.Marked? {
        GroupCallKeepsUnconfirmed(g, a.choice);
      } else if g.process.at.Delivering? {
        IndividualCallKeepsUnconfirmed(g, a.choice);
      } else {
        WriteKeepsUnconfirmed(g, a.choice);
      }
    } else if a.AcceptRequest? && k == Touched(g, a) {
      AcceptKeepsUnconfirmed(g, a.ticket, a.q);
    } else {
      StepUndisturbs(g, a, k);
      UndisturbedUnconfirmed(g, Step(g, a), k);
    }
  }

  lemma {:induction false} UncertaintyRecorded(g: Gateway, actions: seq<Action>, k: string)
    requires Inv(g) && Unconfirmed(g, k)
    ensures Unconfirmed(Run(g, actions), k)
    decreases |actions|
  {
    if actions == [] {
    } else if Enabled(g, actions[0]) {
      StepKeepsInv(g, actions[0]);
      StepKeepsUnconfirmed(g, actions[0], k);
      UncertaintyRecorded(Step(g, actions[0]), actions[1..], k);
    } else {
      UncertaintyRecorded(g, actions[1..], k);
    }
  }

  // ---- what never changes again ----

  /** Once a job is submitted, its record and the calls made for its key are final. */
  ghost predicate Final(g: Gateway, h: Gateway, k: string) {
    && Delivers(g.store, k) && Delivers(h.store, k)
    && h.store.jobs[k] == g.store.jobs[k]
    && g.calls <= h.calls
    && forall i | |g.calls| <= i < |h.calls| :: h.calls[i].key != k
  }

  lemma SubmittedSendCallsNothing(g: Gateway)
    requires g.process.Busy? && KeyInv(g, g.process.q.key) && Delivers(g.store, g.process.q.key)
    ensures !g.process.at.Marked? && !g.process.at.Delivering?
  {
  }

  lemma StepFinal(g: Gateway, a: Action, k: string)
    requires Enabled(g, a) && Inv(g) && Delivers(g.store, k)
    ensures Final(g, Step(g, a), k)
  {
    hide Step, GroupCalls, Coherent, LogInv, RepliesInv;
    assert KeyInv(g, k) && KeyInv(g, Touched(g, a));
    if a.AdvanceSend? && g.process.q.key == k {
      SubmittedSendCallsNothing(g);
    }
    StepEvolvesJobs(g, a);
    CallsGrow(g, a);
  }

  lemma {:induction false} SubmittedIsFinal(g: Gateway, actions: seq<Action>, k: string)
    requires Inv(g) && Delivers(g.store, k)
    ensures Final(g, Run(g, actions), k)
    decreases |actions|
  {
    if actions == [] {
    } else if Enabled(g, actions[0]) {
      var h := Step(g, actions[0]);
      StepFinal(g, actions[0], k);
      StepKeepsInv(g, actions[0]);
      SubmittedIsFinal(h, actions[1..], k);
    } else {
      SubmittedIsFinal(g, actions[1..], k);
    }
  }

  /** What a request must satisfy whatever the store holds. */
  predicate WellFormed(q: Request) {
    && ValidTenant(q.tenant) && ValidKey(q.key) && ValidPdfs(q.pdfs)
    && match q.recipientType
       case Unsupported => false
       case Group => q.provider.Baileys? && ValidGroupId(q.recipient)
       case _ => ValidNumber(q.recipient)
  }

  /** The formats behind `WellFormed`, written out. */
  lemma WellFormedExactly(q: Request)
    ensures WellFormed(q) <==>
      && 3 <= |q.tenant| <= 191 && q.tenant[0] !in ".-"
      && (forall c | c in q.tenant :: 'a' <= c <= 'z' || '0' <= c <= '9' || c in ".-")
      && 16 <= |q.key| <= 190
      && (forall c | c in q.key :: 'A' <= c <= 'Z' || 'a' <= c <= 'z' || '0' <= c <= '9' || c in "_.:-")
      && |q.pdfs| <= 5
      && (forall p | p in q.pdfs :: DocumentForm(p))
      && match q.recipientType
         case Unsupported => false
         case Group => q.provider == Baileys && ValidGroupId(q.recipient)
         case _ =>
           8 <= |q.recipient| <= 15 && q.recipient[0] != '0' && forall c | c in q.recipient :: '0' <= c <= '9'
  {
    hide ValidGroupId, ValidPdf, DocumentForm;
    assert forall i | 0 <= i < |q.tenant| :: q.tenant[i] in q.tenant;
    assert forall i | 0 <= i < |q.key| :: q.key[i] in q.key;
    assert forall i | 0 <= i < |q.recipient| :: q.recipient[i] in q.recipient;
    assert forall i | 0 <= i < |q.pdfs| :: q.pdfs[i] in q.pdfs;
    forall p | p in q.pdfs ensures ValidPdf(p) <==> DocumentForm(p) {
      DocumentForms(p);
    }
  }

  /** A name ending in .pdf without a path, and at most ten mebibytes of a PDF. */
  predicate DocumentForm(p: Pdf) {
    && |p.content| <= 10_485_760 && |p.content| >= 5 && p.content[..5] == "%PDF-"
    && '/' !in p.filename && '\\' !in p.filename
    && exists n | 0 <= n <= |p.filename| ::
         p.filename[n..] in {".pdf", ".pdF", ".pDf", ".pDF", ".Pdf", ".PdF", ".PDf", ".PDF"}
  }

  lemma DocumentForms(p: Pdf)
    ensures ValidPdf(p) <==> DocumentForm(p)
  {
    var f := p.filename;
    if |f| >= 4 && PdfExtension(f[|f| - 4..]) {
      var e := f[|f| - 4..];
      assert e == ['.', e[1], e[2], e[3]];
    }
  }

  /** There is something to send, and its text is not too long. */
  predicate Sendable(q: Request) { (q.text != "" || q.pdfs != []) && |q.text| <= 4096 }

  /** The key is unused, or belongs to the tenant with a job that is not submitted and, for a group,
      holds this very payload without a marker. */
  predicate Admits(s: Store, q: Request) {
    q.key in s.jobs ==>
      var j := s.jobs[q.key];
      && j.tenant == q.tenant && j.status != Submitted && j.status != Acknowledged
      && (q.recipientType == Group ==>
            j.result.fp == FingerprintOf(q) && !j.result.inflight && !j.result.reconciliation)
  }

  /** A request is sent exactly when it is well formed, its key admits it and there is something to
      send: it is then counted as an attempt and starts behind the recorded ids of a group job. Any
      other request changes nothing but its reply. */
  lemma AcceptsExactly(g: Gateway, ticket: int, q: Request)
    requires g.process.Idle?
    ensures var h := Accept(g, ticket, q);
      var j := g.store.jobs;
      && (h.process.Busy? <==> WellFormed(q) && Admits(g.store, q) && Sendable(q))
      && (h.process.Busy? ==>
            var ids := if q.recipientType == Group && q.key in j then j[q.key].result.ids else [];
            var progress := Result(FingerprintOf(q), ids, false, false, false);
            && h.process == Busy(ticket, q, progress, Checking)
            && h.store == g.store.(jobs := j[q.key :=
                 Job(q.tenant, Queued, (if q.key in j then j[q.key].attempts else 0) + 1, progress)])
            && h.calls == g.calls && h.replies == g.replies)
      && (h.process.Idle? ==>
            h == g.(replies := g.replies[ticket := h.replies[ticket]]) && h.replies[ticket].q == q)
  {
    hide ValidTenant, ValidKey, ValidPdfs, ValidGroupId, ValidNumber;
  }

  /** A request that is not sent is told to reconcile exactly when it is a well-formed group request
      for its own job, with the job's payload, under a marker. */
  lemma ReconcilesExactly(g: Gateway, ticket: int, q: Request)
    requires g.process.Idle?
    ensures var h := Accept(g, ticket, q);
      h.process.Idle? && h.replies[ticket].reply == Refused(true) <==>
        && WellFormed(q) && q.recipientType == Group && q.key in g.store.jobs
        && var j := g.store.jobs[q.key];
           j.tenant == q.tenant && j.result.fp == FingerprintOf(q) && (j.result.inflight || j.result.reconciliation)
  {
    hide ValidTenant, ValidKey, ValidPdfs, ValidGroupId, ValidNumber;
  }

  /** A request that could be sent afresh, for the tenant and the payload the job holds. */
  predicate SamePayload(s: Store, q: Request) {
    && WellFormed(q) && Sendable(q)
    && q.key in s.jobs
    && s.jobs[q.key].tenant == q.tenant
    && s.jobs[q.key].result.fp == FingerprintOf(q)
  }

  /** A submitted job answers a request with its recorded ids, one per part, exactly when the
      request is well formed, comes from the job's tenant and, for a group, has the job's payload;
      it refuses every other. Either way nothing but the reply changes. */
  lemma SubmittedReplays(g: Gateway, ticket: int, q: Request)
    requires Inv(g) && g.process.Idle? && Delivers(g.store, q.key)
    ensures var h := Accept(g, ticket, q);
      var j := g.store.jobs[q.key];
      && h == g.(replies := g.replies[ticket := h.replies[ticket]])
      && h.replies[ticket].q == q
      && h.replies[ticket].reply ==
         (if WellFormed(q) && j.tenant == q.tenant && (q.recipientType.Group? ==> j.result.fp == FingerprintOf(q))
          then Sent(j.result.ids, true) else Refused(false))
      && |j.result.ids| == PartCount(j.result.fp)
    ensures SamePayload(g.store, q) ==>
      var reply := Accept(g, ticket, q).replies[ticket].reply;
      reply == Sent(g.store.jobs[q.key].result.ids, true) && |reply.ids| == PartCount(FingerprintOf(q))
  {
    hide ValidTenant, ValidKey, ValidPdfs, ValidGroupId, ValidNumber;
    assert KeyInv(g, q.key);
  }

  /** A blocked group job is left exactly as it is by every group request; the same request
      again is told to reconcile. */
  lemma BlockedStands(g: Gateway, ticket: int, q: Request)
    requires g.process.Idle? && q.recipientType.Group?
    requires q.key in g.store.jobs && Blocked(g.store.jobs[q.key].result)
    ensures var h := Accept(g, ticket, q);
      && h == g.(replies := h.replies)
      && ticket in h.replies && h.replies[ticket].reply.Refused?
      && (SamePayload(g.store, q) ==> h.replies[ticket].reply == Refused(true))
  {
  }

  /** A group job under a marker with no send working on it. */
  predicate Stuck(g: Gateway, k: string) {
    k in g.store.jobs && g.store.jobs[k].result.fp.group && Blocked(g.store.jobs[k].result) && !On(g.process, k)
  }

  /** The action does not hand the key's own tenant an individual request for it. */
  predicate GroupOnly(g: Gateway, a: Action, k: string) {
    a.AcceptRequest? && a.q.key == k && k in g.store.jobs && a.q.tenant == g.store.jobs[k].tenant
    ==> a.q.recipientType.Group?
  }

  lemma StuckStays(g: Gateway, a: Action, k: string)
    requires Enabled(g, a) && Stuck(g, k) && GroupOnly(g, a, k)
    ensures var h := Step(g, a);
      Stuck(h, k) && h.store.jobs[k] == g.store.jobs[k] && GroupCalls(h.calls, k) == GroupCalls(g.calls, k)
  {
    if a.AcceptRequest? && a.q.key == k {
    } else {
      StepUndisturbs(g, a, k);
    }
  }

  /** A marker is lost exactly when an individual request for the key passes all the guards. */
  lemma MarkerLostExactlyToIndividual(g: Gateway, a: Action, k: string)
    requires Enabled(g, a) && Stuck(g, k)
    ensures !Stuck(Step(g, a), k) <==>
      a.AcceptRequest? && a.q.key == k && a.q.recipientType != Group
      && WellFormed(a.q) && Admits(g.store, a.q) && Sendable(a.q)
  {
    hide ValidTenant, ValidKey, ValidPdfs, ValidGroupId, ValidNumber;
    if a.AcceptRequest? && a.q.key == k {
    } else {
      StepUndisturbs(g, a, k);
    }
  }

  /** Every action of a run is group-only for the key. */
  predicate GroupOnlyRun(g: Gateway, actions: seq<Action>, k: string)
    decreases |actions|
  {
    actions != [] ==>
      && GroupOnly(g, actions[0], k)
      && GroupOnlyRun(if Enabled(g, actions[0]) then Step(g, actions[0]) else g, actions[1..], k)
  }

  /** A stuck key stays stuck, with no further provider call, until an individual request takes it over. */
  lemma {:induction false} StuckForGood(g: Gateway, actions: seq<Action>, k: string)
    requires Stuck(g, k) && GroupOnlyRun(g, actions, k)
    ensures var h := Run(g, actions);
      Stuck(h, k) && h.store.jobs[k] == g.store.jobs[k] && GroupCalls(h.calls, k) == GroupCalls(g.calls, k)
    decreases |actions|
  {
    if actions == [] {
    } else if Enabled(g, actions[0]) {
      StuckStays(g, actions[0], k);
      StuckForGood(Step(g, actions[0]), actions[1..], k);
    } else {
      StuckForGood(g, actions[1..], k);
    }
  }

  /** The request a step works on. */
  predicate Handles(g: Gateway, a: Action, ticket: int, q: Request) {
    || (a.AcceptRequest? && a.ticket == ticket && a.q == q)
    || (a.AdvanceSend? && g.process.Busy? && g.process.ticket == ticket && g.process.q == q)
  }

  /** A refusal that asks for reconciliation comes from the guards or from an uncertain call. */
  lemma NewRefusal(g: Gateway, a: Action, ticket: int)
    requires Enabled(g, a)
    requires ticket in Step(g, a).replies && Step(g, a).replies[ticket].reply == Refused(true)
    requires ticket in g.replies ==> g.replies[ticket] != Step(g, a).replies[ticket]
    ensures var h := Step(g, a);
      && Handles(g, a, ticket, h.replies[ticket].q) && h.process.Idle? && h.store.jobs == g.store.jobs
      && (a.AcceptRequest? ==> Judge(g.store, a.q) == Refuse(true))
      && (a.AdvanceSend? ==> g.process.at == Reporting(true))
  {
    hide Judge, AllConfirmed, PartCount;
  }

  /** A reply that asks for reconciliation leaves its key stuck. */
  lemma ReconcileRepliesAreStuck(g: Gateway, a: Action, ticket: int)
    requires Enabled(g, a) && KeyInv(g, Touched(g, a))
    requires ticket in Step(g, a).replies && Step(g, a).replies[ticket].reply == Refused(true)
    requires ticket in g.replies ==> g.replies[ticket] != Step(g, a).replies[ticket]
    ensures var h := Step(g, a);
      var q := h.replies[ticket].q;
      Stuck(h, q.key) && q.recipientType.Group? && h.store.jobs[q.key].tenant == q.tenant
      && h.store.jobs[q.key].result.fp == FingerprintOf(q)
  {
    NewRefusal(g, a, ticket);
  }

  /** A group job that is neither blocked nor submitted resumes after its recorded ids. */
  lemma UnblockedResumes(g: Gateway, ticket: int, q: Request)
    requires Inv(g) && g.process.Idle? && q.recipientType.Group?
    requires SamePayload(g.store, q)
    requires !Blocked(g.store.jobs[q.key].result) && !g.store.jobs[q.key].status.Submitted?
    ensures var h := Accept(g, ticket, q);
      var r := g.store.jobs[q.key].result;
      && h.process == Busy(ticket, q, Result(r.fp, r.ids, false, false, false), Checking)
      && |GroupCalls(h.calls, q.key)| == |r.ids|
  {
    assert KeyInv(g, q.key);
  }

  // ---- recorded ids only grow ----

  /** The group record of a key was extended, or the key was taken over by an individual request. */
  ghost predicate Extends(s: Store, t: Store, k: string) {
    k in s.jobs && s.jobs[k].result.fp.group ==>
      && k in t.jobs
      && (t.jobs[k].result.fp.group ==>
            t.jobs[k].result.fp == s.jobs[k].result.fp && s.jobs[k].result.ids <= t.jobs[k].result.ids)
  }

  /** A key that an individual request has used. */
  predicate TakenOver(s: Store, k: string) {
    k in s.jobs && !s.jobs[k].result.fp.group
  }

  lemma NextJobExtends(g: Gateway)
    requires g.process.Busy? && KeyInv(g, g.process.q.key)
    ensures var k, t := g.process.q.key, g.store.(jobs := NextJobs(g));
      Extends(g.store, t, k) && (TakenOver(g.store, k) ==> TakenOver(t, k))
  {
  }

  lemma AcceptExtends(g: Gateway, ticket: int, q: Request)
    requires g.process.Idle? && KeyInv(g, q.key)
    ensures Extends(g.store, Accept(g, ticket, q).store, q.key)
    ensures TakenOver(g.store, q.key) ==> TakenOver(Accept(g, ticket, q).store, q.key)
  {
  }

  lemma TakenOverUncalled(g: Gateway, a: Action, k: string)
    requires Enabled(g, a) && KeyInv(g, k) && TakenOver(g.store, k)
    ensures GroupCalls(Step(g, a).calls, k) == GroupCalls(g.calls, k)
  {
    CallsGrow(g, a);
    var h := Step(g, a);
    if |h.calls| == |g.calls| + 1 {
      assert h.calls == g.calls + [h.calls[|g.calls|]];
      GroupCallsAppend(g.calls, h.calls[|g.calls|], k);
    } else {
      assert h.calls == g.calls;
    }
  }

  lemma StepExtends(g: Gateway, a: Action, k: string)
    requires Enabled(g, a) && KeyInv(g, k)
    ensures Extends(g.store, Step(g, a).store, k)
    ensures TakenOver(g.store, k) ==>
      TakenOver(Step(g, a).store, k) && GroupCalls(Step(g, a).calls, k) == GroupCalls(g.calls, k)
  {
    if TakenOver(g.store, k) {
      TakenOverUncalled(g, a, k);
    }
    if a.AcceptRequest? && a.q.key == k {
      AcceptExtends(g, a.ticket, a.q);
    } else if a.AdvanceSend? && g.process.q.key == k {
      AdvanceJobs(g, a.choice);
      NextJobExtends(g);
    } else {
      StepUndisturbs(g, a, k);
    }
  }

  /** Recorded ids only ever grow, and an individual request that takes over a key closes it
      to group submissions for good. */
  lemma {:induction false} RecordsOnlyGrow(g: Gateway, actions: seq<Action>, k: string)
    requires Inv(g)
    ensures Extends(g.store, Run(g, actions).store, k)
    ensures TakenOver(g.store, k) ==>
      TakenOver(Run(g, actions).store, k) && GroupCalls(Run(g, actions).calls, k) == GroupCalls(g.calls, k)
    decreases |actions|
  {
    if actions == [] {
    } else if Enabled(g, actions[0]) {
      var h := Step(g, actions[0]);
      assert KeyInv(g, k);
      StepExtends(g, actions[0], k);
      StepKeepsInv(g, actions[0]);
      RecordsOnlyGrow(h, actions[1..], k);
    } else {
      RecordsOnlyGrow(g, actions[1..], k);
    }
  }

  // ---- the tables ----

  /** A job never disappears and never changes its tenant. */
  lemma {:induction false} TenantsNeverChange(g: Gateway, actions: seq<Action>, k: string)
    requires Inv(g) && k in g.store.jobs
    ensures Owned(Run(g, actions).store, k, g.store.jobs[k].tenant)
    decreases |actions|
  {
    if actions == [] {
    } else if Enabled(g, actions[0]) {
      assert KeyInv(g, Touched(g, actions[0]));
      StepEvolvesJobs(g, actions[0]);
      StepKeepsInv(g, actions[0]);
      TenantsNeverChange(Step(g, actions[0]), actions[1..], k);
    } else {
      TenantsNeverChange(g, actions[1..], k);
    }
  }

  /** Attempts count the sends past all guards; everything under a key has its job's tenant;
      the log has at most one submission per key and, without Cloud webhooks, failures come
      first, then the submission, then acknowledgements. */
  lemma TablesAgree(actions: seq<Action>)
    ensures var g := Run(INITIAL, actions);
      && (forall k | k in g.store.jobs :: g.store.jobs[k].attempts == g.passes[k])
      && (forall k | k in g.passes :: k in g.store.jobs)
      && Coherent(g)
      && LogShape(g.store.events, g.webhooked)
      && (forall e | e in g.store.events && !e.status.Failed? :: Delivers(g.store, e.key))
  {
    InitialInv();
    RunKeepsInv(INITIAL, actions);
    var g := Run(INITIAL, actions);
    forall k ensures k in g.store.jobs ==> g.store.jobs[k].attempts == g.passes[k]
             ensures k in g.passes ==> k in g.store.jobs
    {
      assert KeyInv(g, k);
    }
  }

  /** A submitted job holds one non-empty id per part, each the provider's answer to that part. */
  lemma SubmittedJobsDelivered(actions: seq<Action>, k: string)
    ensures var g := Run(INITIAL, actions);
      Delivers(g.store, k) ==> Delivered(g.calls, k, g.store.jobs[k])
  {
    InitialInv();
    RunKeepsInv(INITIAL, actions);
    assert KeyInv(Run(INITIAL, actions), k);
  }

  // ---- a send left to itself is a run ----

  lemma {:induction false} DriveIsRun(g: Gateway, choices: seq<Choice>)
    ensures exists actions :: Run(g, actions) == Drive(g, choices)
    decreases |choices|
  {
    if g.process.Idle? {
      assert Run(g, []) == Drive(g, choices);
    } else if choices == [] {
      assert [Die][1..] == [];
      assert Run(g, [Die]) == Run(Step(g, Die), [Die][1..]);
      assert Run(g, [Die]) == Drive(g, choices);
    } else {
      var h := Advance(g, choices[0]);
      DriveIsRun(h, choices[1..]);
      var rest :| Run(h, rest) == Drive(h, choices[1..]);
      var actions := [AdvanceSend(choices[0])] + rest;
      assert actions[1..] == rest;
      assert Run(g, actions) == Drive(g, choices);
    }
  }

  lemma DriveKeepsInv(g: Gateway, choices: seq<Choice>)
    requires Inv(g)
    ensures Inv(Drive(g, choices))
  {
    DriveIsRun(g, choices);
    var actions :| Run(g, actions) == Drive(g, choices);
    RunKeepsInv(g, actions);
  }

  /** A whole send, driven to its reply or to the death of the process, keeps the invariant. */
  lemma SendKeepsInv(g: Gateway, ticket: int, q: Request, choices: seq<Choice>)
    requires Inv(g) && g.process.Idle?
    ensures Inv(Drive(Accept(g, ticket, q), choices))
  {
    StepKeepsInv(g, AcceptRequest(ticket, q));
    DriveKeepsInv(Accept(g, ticket, q), choices);
  }

  // ---- where the gateway's state comes from ----

  lemma ProcessOrigin(g: Gateway, a: Action)
    requires Enabled(g, a)
    ensures var p := Step(g, a).process;
      p.Busy? ==> Handles(g, a, p.ticket, p.q) || p == g.process
  {
  }

  lemma ReplyOrigin(g: Gateway, a: Action, t: int)
    requires Enabled(g, a) && t in Step(g, a).replies
    ensures (t in g.replies && Step(g, a).replies[t] == g.replies[t]) || Handles(g, a, t, Step(g, a).replies[t].q)
  {
  }

  lemma NextJobOrigin(g: Gateway)
    requires g.process.Busy? && KeyInv(g, g.process.q.key)
    ensures var q, jobs := g.process.q, NextJobs(g);
      q.key in jobs && jobs[q.key].tenant == q.tenant && jobs[q.key].result.fp == FingerprintOf(q)
  {
  }

  lemma AcceptJobOrigin(g: Gateway, t: int, q: Request)
    requires g.process.Idle? && q.key in Accept(g, t, q).store.jobs
    ensures var j := Accept(g, t, q).store.jobs[q.key];
      || (q.key in g.store.jobs && j == g.store.jobs[q.key])
      || (j.tenant == q.tenant && j.result.fp == FingerprintOf(q))
  {
  }

  /** A job that a step creates or rewrites holds the tenant and payload of the request it works on. */
  lemma JobOrigin(g: Gateway, a: Action, k: string)
    requires Enabled(g, a) && KeyInv(g, Touched(g, a)) && k in Step(g, a).store.jobs
    ensures var j := Step(g, a).store.jobs[k];
      || (k in g.store.jobs && j == g.store.jobs[k])
      || exists t, q :: Handles(g, a, t, q) && q.key == k && j.tenant == q.tenant && j.result.fp == FingerprintOf(q)
  {
    if a.AcceptRequest? && a.q.key == k {
      AcceptJobOrigin(g, a.ticket, a.q);
      assert Handles(g, a, a.ticket, a.q);
    } else if a.AdvanceSend? && g.process.q.key == k {
      AdvanceJobs(g, a.choice);
      NextJobOrigin(g);
      assert Handles(g, a, g.process.ticket, g.process.q);
    } else {
      StepUndisturbs(g, a, k);
    }
  }

  /** A new call carries the tenant, key and payload of the request being sent, whose job is not yet submitted. */
  lemma CallOrigin(g: Gateway, a: Action)
    requires Enabled(g, a) && KeyInv(g, Touched(g, a))
    ensures var calls := Step(g, a).calls;
      || calls == g.calls
      || (&& |calls| == |g.calls| + 1 && g.calls == calls[..|g.calls|]
          && a.AdvanceSend? && g.process.Busy?
          && var c, q := calls[|g.calls|], g.process.q;
             c.tenant == q.tenant && c.key == q.key && c.fp == FingerprintOf(q) && !Delivers(g.store, c.key))
  {
    CallsGrow(g, a);
    if |Step(g, a).calls| == |g.calls| {
      assert Step(g, a).calls == g.calls;
    }
  }
}
