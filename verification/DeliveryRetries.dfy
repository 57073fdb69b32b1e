/** The retry budget and the backoff of every record, over every interleaving. */
module DeliveryRetries {
  import opened Messages
  import opened Stores
  import opened History
  import opened DeliverySystem
  import opened DeliveryInvariants
  import opened DeliveryOrder
  import S = GatewaySafety

  // ---- the count of attempts ----

  /** Every committed attempt is counted, within the limit, and a run has one left. */
  predicate Counted(s: System) {
    && |s.journal| == |s.rows|
    && (forall i | 0 <= i < |s.rows| :: |s.journal[i]| == s.rows[i].retryCount <= AttemptLimit(s.rows[i]))
    && (forall i | i in s.runs && i < |s.rows| ::
          s.rows[i].retryCount < AttemptLimit(s.rows[i]) && s.runs[i].startedAt <= s.clock)
    && (forall r | r in s.readings :: r.row < |s.rows| && r.seen.retryCount <= s.rows[r.row].retryCount)
    && ClaimsCounted(s.due, s.rows)
  }

  /** What was selected of a record was so at the time, and its count has only grown since. */
  predicate ClaimsCounted(due: set<Selected>, rows: seq<Row>) {
    forall c | c in due ::
      c.row < |rows| && c.retryCount <= rows[c.row].retryCount && c.maxRetries == rows[c.row].maxRetries
  }

  /** The attempts of one record that is there before the action. */
  function AttemptsAfter(s: System, a: Action, i: nat): seq<AttemptRecord>
    requires Enabled(s, a) && i < |s.journal|
  {
    match Committed(s, a)
    case Some((j, outcome)) =>
      if j == i then
        s.journal[i] + [AttemptBy(s.runs[i], outcome, s.clock)]
      else s.journal[i]
    case None => s.journal[i]
  }

  lemma AttemptsByRow(s: System, a: Action, i: nat)
    requires Enabled(s, a) && |s.journal| == |s.rows| && i < |RowsAfter(s, a)|
    ensures i < |JournalAfter(s, a)|
    ensures JournalAfter(s, a)[i] == if i < |s.rows| then AttemptsAfter(s, a, i) else []
  {
  }

  /** A commit adds one attempt and counts it; anything else changes at most status and due time. */
  lemma RowChange(s: System, a: Action, i: nat)
    requires Enabled(s, a) && i < |s.rows| && i < |s.journal|
    ensures RowAfter(s, a, i).maxRetries == s.rows[i].maxRetries
    ensures match Committed(s, a)
      case Some((j, _)) =>
        if j == i then
          && i in s.runs && i !in RunsAfter(s, a)
          && RowAfter(s, a, i).retryCount == s.rows[i].retryCount + 1
          && |AttemptsAfter(s, a, i)| == |s.journal[i]| + 1
        else RowAfter(s, a, i) == s.rows[i] && AttemptsAfter(s, a, i) == s.journal[i]
      case None => SameSave(s.rows[i], RowAfter(s, a, i)) && AttemptsAfter(s, a, i) == s.journal[i]
  {
    if a.ApplyPage? {
      EventsKeepFlags(s.rows, s.page.value);
    }
  }

  lemma RunsHaveAttempts(s: System, a: Action, i: nat)
    requires Enabled(s, a) && Counted(s) && i < |s.rows| && i in RunsAfter(s, a)
    ensures s.rows[i].retryCount < AttemptLimit(s.rows[i])
  {
  }

  lemma CountsByRow(s: System, a: Action, i: nat)
    requires Enabled(s, a) && Counted(s) && i < |RowsAfter(s, a)|
    ensures i < |JournalAfter(s, a)| && |JournalAfter(s, a)[i]| == RowsAfter(s, a)[i].retryCount
    ensures i < |s.rows| ==> RowsAfter(s, a)[i].maxRetries == s.rows[i].maxRetries
    ensures i < |s.rows| ==> s.rows[i].retryCount <= RowsAfter(s, a)[i].retryCount <= AttemptLimit(s.rows[i])
    ensures i < |s.rows| && i in RunsAfter(s, a) ==> RowsAfter(s, a)[i].retryCount < AttemptLimit(s.rows[i])
  {
    hide Enabled, RowsAfter, JournalAfter, RunsAfter, RowAfter, AttemptsAfter, Committed;
    RowByRow(s, a, i);
    AttemptsByRow(s, a, i);
    if i < |s.rows| {
      RowChange(s, a, i);
      if i in RunsAfter(s, a) {
        RunsHaveAttempts(s, a, i);
      }
    }
  }

  lemma RunsStayCounted(s: System, a: Action)
    requires Enabled(s, a) && Book(s) && Counted(s)
    ensures forall i | i in RunsAfter(s, a) :: i < |s.rows| && RunsAfter(s, a)[i].startedAt <= s.clock
  {
  }

  lemma NewReadingsCounted(s: System, a: Action)
    requires Enabled(s, a) && Counted(s)
    ensures forall r | r in Step(s, a).readings :: r.row < |s.rows| && r.seen.retryCount <= s.rows[r.row].retryCount
    ensures ClaimsCounted(Step(s, a).due, s.rows)
  {
    hide RowsAfter, RunsAfter, JournalAfter, GatewayAfter, InboxAfter, Decide;
  }

  lemma ClaimsStayCounted(due: set<Selected>, rows: seq<Row>, later: seq<Row>)
    requires ClaimsCounted(due, rows) && |rows| <= |later|
    requires forall i | 0 <= i < |rows| ::
      rows[i].retryCount <= later[i].retryCount && later[i].maxRetries == rows[i].maxRetries
    ensures ClaimsCounted(due, later)
  {
  }

  lemma StepKeepsCounted(s: System, a: Action)
    requires Enabled(s, a) && Book(s) && Counted(s)
    ensures Counted(Step(s, a))
  {
    hide Enabled, RowsAfter, RunsAfter, JournalAfter, GatewayAfter, InboxAfter, ClaimsCounted;
    var h := Step(s, a);
    RowsKeepIdentities(s, a);
    JournalLength(s, a);
    RunsStayCounted(s, a);
    NewReadingsCounted(s, a);
    forall i | 0 <= i < |h.rows|
      ensures |h.journal[i]| == h.rows[i].retryCount <= AttemptLimit(h.rows[i])
      ensures i < |s.rows| ==>
        s.rows[i].retryCount <= h.rows[i].retryCount && h.rows[i].maxRetries == s.rows[i].maxRetries
      ensures i < |s.rows| && i in h.runs ==> h.rows[i].retryCount < AttemptLimit(h.rows[i])
    {
      CountsByRow(s, a, i);
      RowByRow(s, a, i);
    }
    ClaimsStayCounted(h.due, s.rows, h.rows);
  }

  // ---- the pace of one record ----

  /** After a failed attempt the next one starts no sooner than its delay. */
  predicate Spaced(attempts: seq<AttemptRecord>) {
    && (forall n | 0 <= n < |attempts| && attempts[n].failedAt.Some? ::
          attempts[n].startedAt <= attempts[n].failedAt.value)
    && (forall n | 0 <= n < |attempts| - 1 && attempts[n].failedAt.Some? ::
          attempts[n + 1].startedAt >= attempts[n].failedAt.value + Delay(n + 1))
  }

  /** The wait after the last attempt is over, if that attempt failed. */
  predicate WaitOver(attempts: seq<AttemptRecord>, now: int) {
    attempts != [] && attempts[|attempts| - 1].failedAt.Some? ==>
      now >= attempts[|attempts| - 1].failedAt.value + Delay(|attempts|)
  }

  /** No further attempt is allowed. */
  predicate Closed(r: Row) { r.retryCount >= AttemptLimit(r) || r.flagged }

  /** A further attempt is allowed, but not yet. */
  predicate TooEarly(r: Row, attempts: seq<AttemptRecord>, now: int) { !WaitOver(attempts, now) && !Closed(r) }

  /** The record holds its next attempt back until the wait is over. */
  predicate Holds(r: Row, attempts: seq<AttemptRecord>, now: int) {
    TooEarly(r, attempts, now) ==>
      && r.nextRetryAt.Some? && WaitOver(attempts, r.nextRetryAt.value)
      && (r.status.Failed? || Terminal(r.status))
  }

  predicate RowPaced(r: Row, attempts: seq<AttemptRecord>, now: int) {
    Spaced(attempts) && Holds(r, attempts, now)
  }

  lemma CommitPaced(r: Row, attempts: seq<AttemptRecord>, startedAt: int, o: Outcome, now: int)
    requires |attempts| == r.retryCount
    requires RowPaced(r, attempts, now) && WaitOver(attempts, startedAt) && startedAt <= now
    ensures var added := attempts + [AttemptRecord(startedAt, if o.Error? then Some(now) else None)];
      RowPaced(Concluded(Claimed(r), o, now), added, now)
  {
  }

  /** A worker that has read a record in pace starts its attempt after the wait. */
  lemma AttemptAfterWait(seen: Row, attempts: seq<AttemptRecord>, primary: Option<Status>, at: int, now: int)
    requires Holds(seen, attempts, at) && at <= now && Decide(seen, primary, now).Attempt?
    ensures WaitOver(attempts, now)
  {
  }

  /** A claim that does not come too early leaves the record in pace. */
  lemma TimelyClaimPaced(r: Row, attempts: seq<AttemptRecord>, claim: Selected, enqueued: bool, now: int)
    requires RowPaced(r, attempts, now) && !TooEarly(r, attempts, now)
    ensures RowPaced(Scheduled(r, claim, enqueued, now), attempts, now)
  {
  }

  /** So does a release. */
  lemma TimelyReleasePaced(r: Row, attempts: seq<AttemptRecord>, now: int)
    requires RowPaced(r, attempts, now) && !TooEarly(r, attempts, now)
    ensures RowPaced(ReleasedCopy(r), attempts, now)
  {
  }

  /** After a claim that comes too early a worker would attempt the record at once. */
  lemma EarlyClaimExposes(r: Row, claim: Selected, enqueued: bool, primary: Option<Status>, now: int)
    requires !Closed(r) && !AtLimit(claim)
    requires r.identity.copyOf.Some? ==> primary.Some? && Terminal(primary.value)
    ensures Decide(Scheduled(r, claim, enqueued, now), primary, now).Attempt?
  {
  }

  /** And after a release. */
  lemma EarlyReleaseExposes(r: Row, primary: Option<Status>, now: int)
    requires !Closed(r)
    requires r.identity.copyOf.Some? ==> primary.Some? && Terminal(primary.value)
    ensures Decide(ReleasedCopy(r), primary, now).Attempt?
  {
  }

  /** An attempt made before the wait is over breaks the spacing. */
  lemma EarlyAttemptBreaks(attempts: seq<AttemptRecord>, added: AttemptRecord)
    requires !WaitOver(attempts, added.startedAt)
    ensures !Spaced(attempts + [added])
  {
    var all, n := attempts + [added], |attempts| - 1;
    assert all[n] == attempts[n] && all[n + 1] == added;
    assert n < |all| - 1 && all[n].failedAt.Some?;
  }

  /** A record in pace that is still as it was selected is not written too early. */
  lemma FreshWritesTimely(r: Row, attempts: seq<AttemptRecord>, now: int, primary: nat)
    requires RowPaced(r, attempts, now) && (Due(r, now) || AwaitsRelease(r, primary))
    ensures !TooEarly(r, attempts, now)
  {
  }

  // ---- the pace of a record in the system ----

  /** A record in pace, with the worker runs on it, and what has been read of it and may still be acted on. */
  predicate Paced(s: System, i: nat)
    requires |s.journal| == |s.rows|
  {
    i < |s.rows| ==>
      && RowPaced(s.rows[i], s.journal[i], s.clock)
      && (i in s.runs ==> WaitOver(s.journal[i], s.runs[i].startedAt))
      && (forall r | r in s.readings && r.row == i && SameSave(r.seen, s.rows[i]) ::
            Holds(r.seen, s.journal[i], r.at))
  }

  /** The scheduler or a release writes the record. */
  predicate Writes(a: Action, i: nat) {
    (a.Retry? && a.claim.row == i) || (a.Release? && a.row == i)
  }

  predicate EarlyWrite(s: System, a: Action, i: nat)
    requires i < |s.rows| && i < |s.journal|
  {
    Writes(a, i) && TooEarly(s.rows[i], s.journal[i], s.clock)
  }

  lemma PageStatuses(s: System)
    requires Base(s) && Settlement(s) && s.page.Some?
    ensures forall e | e in s.page.value :: e.status.Failed? || Terminal(e.status)
  {
    forall e | e in s.page.value ensures e.status.Failed? || Terminal(e.status) {
      assert e in s.gateway.store.events;
    }
  }

  /** A status event leaves everything but the status, and a wait keeps a status that respects it. */
  lemma {:induction false} EventsPaced(rows: seq<Row>, events: seq<Event>, i: nat,
                                       attempts: seq<AttemptRecord>, now: int)
    requires i < |rows| && RowPaced(rows[i], attempts, now)
    requires forall e | e in events :: e.status.Failed? || Terminal(e.status)
    ensures RowPaced(ApplyEvents(rows, events)[i], attempts, now)
  {
    if events == [] {
    } else {
      EventsPaced(rows, events[..|events| - 1], i, attempts, now);
    }
  }

  predicate Statuses(s: System) {
    s.page.Some? ==> forall e | e in s.page.value :: e.status.Failed? || Terminal(e.status)
  }

  lemma CommittedRowPaced(s: System, a: Action, i: nat)
    requires Enabled(s, a) && Counted(s) && Paced(s, i) && i < |s.rows| && Committed(s, a).Some?
    ensures RowPaced(RowAfter(s, a, i), AttemptsAfter(s, a, i), ClockAfter(s, a))
  {
    hide Concluded, Claimed, RowPaced;
    var (j, outcome) := Committed(s, a).value;
    if j == i {
      CommitPaced(s.rows[i], s.journal[i], s.runs[i].startedAt, outcome, s.clock);
    }
  }

  lemma RowStaysPaced(s: System, a: Action, i: nat)
    requires Enabled(s, a) && Counted(s) && Paced(s, i) && Statuses(s) && i < |s.rows| && !EarlyWrite(s, a, i)
    ensures RowPaced(RowAfter(s, a, i), AttemptsAfter(s, a, i), ClockAfter(s, a))
  {
    hide Concluded, Claimed;
    var r, attempts := s.rows[i], s.journal[i];
    if Committed(s, a).Some? {
      CommittedRowPaced(s, a, i);
    } else {
      match a
      case Retry(claim, enqueued) =>
        if claim.row == i {
          TimelyClaimPaced(r, attempts, claim, enqueued, s.clock);
        }
      case Release(j) =>
        if j == i {
          TimelyReleasePaced(r, attempts, s.clock);
        }
      case ApplyPage => EventsPaced(s.rows, s.page.value, i, attempts, s.clock);
      case _ =>
    }
  }

  lemma RunsPaced(s: System, a: Action, i: nat)
    requires Enabled(s, a) && Counted(s) && Paced(s, i) && i < |s.rows| && i in RunsAfter(s, a)
    ensures AttemptsAfter(s, a, i) == s.journal[i]
    ensures WaitOver(s.journal[i], RunsAfter(s, a)[i].startedAt)
  {
    if i !in s.runs {
      AttemptAfterWait(a.reading.seen, s.journal[i], a.reading.primary, a.reading.at, a.now);
    }
  }

  lemma ReadingsPaced(s: System, a: Action, i: nat)
    requires Enabled(s, a) && Counted(s) && Paced(s, i) && i < |s.rows|
    ensures forall r | r in Step(s, a).readings && r.row == i && SameSave(r.seen, RowAfter(s, a, i)) ::
      Holds(r.seen, AttemptsAfter(s, a, i), r.at)
  {
    hide RowAfter, AttemptsAfter, RowsAfter, RunsAfter, JournalAfter, GatewayAfter, InboxAfter, Decide;
    RowChange(s, a, i);
    forall r | r in Step(s, a).readings && r.row == i && SameSave(r.seen, RowAfter(s, a, i))
      ensures Holds(r.seen, AttemptsAfter(s, a, i), r.at)
    {
      assert r in s.readings ==> SameSave(r.seen, s.rows[i]);
    }
  }

  lemma NewRowPaced(s: System, a: Action, i: nat)
    requires Enabled(s, a) && Book(s) && Counted(s) && i >= |s.rows| && |Step(s, a).journal| == |Step(s, a).rows|
    ensures Paced(Step(s, a), i)
  {
    hide Enabled, RowsAfter, RunsAfter, JournalAfter, GatewayAfter, InboxAfter;
    if i < |RowsAfter(s, a)| {
      RowByRow(s, a, i);
      AttemptsByRow(s, a, i);
      RunsStayCounted(s, a);
      NewReadingsCounted(s, a);
    }
  }

  lemma OldRowPaced(s: System, a: Action, i: nat)
    requires Enabled(s, a) && Counted(s) && Paced(s, i) && Statuses(s) && i < |s.rows| && !EarlyWrite(s, a, i)
    requires |Step(s, a).journal| == |Step(s, a).rows|
    ensures Paced(Step(s, a), i)
  {
    hide Enabled, RowsAfter, RunsAfter, JournalAfter, GatewayAfter, InboxAfter, RowAfter, AttemptsAfter, EarlyWrite;
    RowsKeepIdentities(s, a);
    RowByRow(s, a, i);
    AttemptsByRow(s, a, i);
    RowStaysPaced(s, a, i);
    ReadingsPaced(s, a, i);
    if i in RunsAfter(s, a) {
      RunsPaced(s, a, i);
    }
  }

  /** A record stays in pace, however late its workers are, unless it is written too early. */
  lemma StepKeepsPaced(s: System, a: Action, i: nat)
    requires Enabled(s, a) && Base(s) && Settlement(s) && Counted(s) && Paced(s, i)
    requires i < |s.rows| ==> !EarlyWrite(s, a, i)
    ensures |Step(s, a).journal| == |Step(s, a).rows| && Paced(Step(s, a), i)
  {
    hide Step, Enabled, S.Inv, GoodRows, Requests, Origins, Paced, EarlyWrite;
    StepKeepsCounted(s, a);
    if s.page.Some? {
      PageStatuses(s);
    }
    if i < |s.rows| {
      OldRowPaced(s, a, i);
    } else {
      NewRowPaced(s, a, i);
    }
  }

  // ---- due times and the limit ----

  /** A retry is due only while an attempt is left and none is forbidden, and the scheduler has
      selected the record only then. */
  predicate WithinLimit(s: System, i: nat) {
    i < |s.rows| ==>
      && (s.rows[i].nextRetryAt.Some? ==> !Closed(s.rows[i]))
      && (forall c | c in s.due && c.row == i :: !AtLimit(c))
  }

  /** A failing enqueue makes a record due again that allows no further attempt. */
  predicate Revives(s: System, a: Action, i: nat)
    requires i < |s.rows|
  {
    a.Retry? && a.claim.row == i && !a.enqueued && !AtLimit(a.claim) && Closed(s.rows[i])
  }

  lemma DueTimeExactly(s: System, a: Action, i: nat)
    requires Enabled(s, a) && i < |s.rows| && (s.rows[i].nextRetryAt.Some? ==> !Closed(s.rows[i]))
    ensures (RowAfter(s, a, i).nextRetryAt.Some? ==> !Closed(RowAfter(s, a, i))) <==> !Revives(s, a, i)
  {
    if a.ApplyPage? {
      EventsKeepFlags(s.rows, s.page.value);
    }
  }

  lemma SelectionsWithinLimit(s: System, a: Action, i: nat)
    requires Enabled(s, a) && Counted(s) && WithinLimit(s, i)
    ensures forall c | c in Step(s, a).due && c.row == i :: !AtLimit(c)
  {
    hide RowsAfter, RunsAfter, JournalAfter, GatewayAfter, InboxAfter, Decide;
  }

  /** The due time of a record within its limit stays so, and so does every selection of it, except
      exactly when a failing enqueue makes it due although it allows no further attempt. */
  lemma StepWithinLimitExactly(s: System, a: Action, i: nat)
    requires Enabled(s, a) && Counted(s) && WithinLimit(s, i)
    ensures WithinLimit(Step(s, a), i) <==> (i < |s.rows| ==> !Revives(s, a, i))
  {
    hide Enabled, RowsAfter, RunsAfter, JournalAfter, GatewayAfter, InboxAfter, RowAfter, Revives, Closed, AtLimit;
    SelectionsWithinLimit(s, a, i);
    RowsKeepIdentities(s, a);
    if i < |RowsAfter(s, a)| {
      RowByRow(s, a, i);
      if i < |s.rows| {
        DueTimeExactly(s, a, i);
      }
    }
  }

  // ---- what the spacing adds up to ----

  /** The least time from the first to the n-th attempt when all before it failed. */
  function LeastSpan(n: nat): int
    requires n >= 1
  {
    if n == 1 then 0 else LeastSpan(n - 1) + Delay(n - 1)
  }

  lemma {:induction false} SpanOfFailures(attempts: seq<AttemptRecord>, n: nat)
    requires Spaced(attempts) && 1 <= n <= |attempts|
    requires forall m | 0 <= m < n - 1 :: attempts[m].failedAt.Some?
    ensures attempts[n - 1].startedAt >= attempts[0].startedAt + LeastSpan(n)
  {
    if n == 1 {
    } else {
      SpanOfFailures(attempts, n - 1);
      assert attempts[n - 2].failedAt.Some?;
    }
  }

  /** 30 and 120 seconds for the first two waits, 600 for each later one. */
  lemma {:induction false} LeastSpanFormula(n: nat)
    requires n >= 3
    ensures LeastSpan(n) == 150 + 600 * (n - 3)
  {
    if n == 3 {
      assert LeastSpan(2) == 30;
    } else {
      LeastSpanFormula(n - 1);
    }
  }
}
