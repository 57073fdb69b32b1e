/** The connector's operations as they change the history: each method is proved against the
    functions of History that the system model steps by. */
module Outbound {
  import opened Messages
  import opened Stores
  import opened CompanyGroups
  import opened History
  import opened HistoryMeaning
  import G = GatewayProtocol

  /** The records after the recovery of released primaries. */
  function Recovered(rows: seq<Row>, parents: seq<nat>): seq<Row> {
    if parents == [] then rows
    else
      var before := Recovered(rows, parents[..|parents| - 1]);
      var p := parents[|parents| - 1];
      if p < |before| && Terminal(before[p].status) then Released(before, p) else before
  }

  /** The selected records written one after the other; the pass stops at the first failing enqueue. */
  function Rescheduled(rows: seq<Row>, due: seq<Selected>, now: int, failing: set<nat>): seq<Row>
    requires forall i | 0 <= i < |due| :: due[i].row < |rows|
    decreases |due|
  {
    if due == [] then rows
    else
      var c := due[0];
      var later := rows[c.row := Scheduled(rows[c.row], c, c.row !in failing, now)];
      if !AtLimit(c) && c.row in failing then later
      else Rescheduled(later, due[1..], now, failing)
  }

  /** The jobs a pass enqueues: the records below their limit, in order, up to the first failing enqueue. */
  function Enqueued(due: seq<Selected>, failing: set<nat>): seq<nat> {
    if due == [] then []
    else if AtLimit(due[0]) then Enqueued(due[1..], failing)
    else if due[0].row in failing then []
    else [due[0].row] + Enqueued(due[1..], failing)
  }

  /** The pass stops at a failing enqueue of a record below its limit. */
  predicate Stops(due: seq<Selected>, failing: set<nat>) {
    exists i | 0 <= i < |due| :: !AtLimit(due[i]) && due[i].row in failing
  }

  /** The most records one query of the scheduler returns. */
  const QUERY_LIMIT: nat := 50

  predicate Unreleased(r: Row) {
    r.identity.group && (r.status.Waiting? || r.status.Queued?) && r.identity.copyOf.Some?
  }

  predicate NoRepeats(s: seq<nat>) { forall i, j | 0 <= i < j < |s| :: s[i] != s[j] }

  /** What the query for unreleased copies may return: no record twice, all of them below the limit. */
  predicate CopyQuery(rows: seq<Row>, copies: seq<nat>) {
    && |copies| <= QUERY_LIMIT && NoRepeats(copies)
    && (forall i | i in copies :: i < |rows| && Unreleased(rows[i]))
    && (|copies| < QUERY_LIMIT ==> forall i | 0 <= i < |rows| && Unreleased(rows[i]) :: i in copies)
  }

  /** The primaries of the copies, each once. */
  predicate ParentsOf(rows: seq<Row>, copies: seq<nat>, parents: seq<nat>) {
    && NoRepeats(parents)
    && (forall p | p in parents :: exists i | i in copies :: i < |rows| && rows[i].identity.copyOf == Some(p))
    && (forall i | i in copies && i < |rows| && rows[i].identity.copyOf.Some? ::
          rows[i].identity.copyOf.value in parents)
  }

  /** What the query for due records may return of the records as they are. */
  predicate DueQuery(rows: seq<Row>, now: int, due: seq<Selected>) {
    && |due| <= QUERY_LIMIT && (forall i, j | 0 <= i < j < |due| :: due[i].row != due[j].row)
    && (forall i | 0 <= i < |due| ::
          && due[i].row < |rows| && Due(rows[due[i].row], now)
          && due[i] == Selected(due[i].row, rows[due[i].row].retryCount, rows[due[i].row].maxRetries))
    && (|due| < QUERY_LIMIT ==>
          forall n | 0 <= n < |rows| && Due(rows[n], now) :: exists i | 0 <= i < |due| :: due[i].row == n)
  }

  // ---- what a pass comes to, record by record ----

  /** A record that the recovery of the primaries releases: a waiting or queued copy of one that is delivered. */
  predicate Recoverable(rows: seq<Row>, parents: seq<nat>, i: nat)
    requires i < |rows|
  {
    var p := rows[i].identity.copyOf;
    && (rows[i].status == Waiting || rows[i].status == Queued)
    && p.Some? && p.value in parents && p.value < |rows|
    && (rows[p.value].status == Submitted || rows[p.value].status == Acknowledged)
  }

  /** The recovery queues exactly those records and changes nothing else. */
  lemma {:induction false} RecoveredExactly(rows: seq<Row>, parents: seq<nat>)
    ensures |Recovered(rows, parents)| == |rows|
    ensures forall i: nat | i < |rows| ::
      Recovered(rows, parents)[i] == if Recoverable(rows, parents, i) then rows[i].(status := Queued) else rows[i]
  {
    if parents == [] {
    } else {
      var front, p := parents[..|parents| - 1], parents[|parents| - 1];
      RecoveredExactly(rows, front);
      assert forall q :: q in parents <==> q in front || q == p;
    }
  }

  /** No earlier claim has stopped the pass. */
  predicate Reached(due: seq<Selected>, failing: set<nat>, x: nat) {
    forall y | 0 <= y < x && y < |due| ::
      (due[y].retryCount >= 1 && due[y].retryCount >= due[y].maxRetries + 1) || due[y].row !in failing
  }

  /** What a claim of the pass makes of a record. */
  function ClaimOf(r: Row, claim: Selected, failing: set<nat>, now: int): Row {
    if claim.retryCount >= 1 && claim.retryCount >= claim.maxRetries + 1 then r.(nextRetryAt := None)
    else if claim.row in failing then r.(status := Failed, nextRetryAt := Some(now))
    else r.(status := Queued, nextRetryAt := None)
  }

  lemma ReachedAfter(due: seq<Selected>, failing: set<nat>, x: nat)
    requires 0 < x < |due| && (AtLimit(due[0]) || due[0].row !in failing)
    ensures Reached(due, failing, x) <==> Reached(due[1..], failing, x - 1)
  {
    if Reached(due[1..], failing, x - 1) {
      forall y | 0 <= y < x ensures AtLimit(due[y]) || due[y].row !in failing {
        assert y > 0 ==> due[y] == due[1..][y - 1];
      }
    }
  }

  /** The claims of a pass leave every other record as it is. */
  lemma {:induction false} RescheduledElsewhere(rows: seq<Row>, due: seq<Selected>, now: int, failing: set<nat>, n: nat)
    requires forall i | 0 <= i < |due| :: due[i].row < |rows|
    requires n < |rows| && forall i | 0 <= i < |due| :: due[i].row != n
    ensures |Rescheduled(rows, due, now, failing)| == |rows| && Rescheduled(rows, due, now, failing)[n] == rows[n]
    decreases |due|
  {
    if due == [] {
    } else {
      var c := due[0];
      var later := rows[c.row := Scheduled(rows[c.row], c, c.row !in failing, now)];
      if AtLimit(c) || c.row !in failing {
        RescheduledElsewhere(later, due[1..], now, failing, n);
      }
    }
  }

  /** A selected record is written, once, exactly when the pass reaches it. */
  lemma {:induction false} RescheduledAt(rows: seq<Row>, due: seq<Selected>, now: int, failing: set<nat>, x: nat)
    requires forall i | 0 <= i < |due| :: due[i].row < |rows|
    requires forall i, j | 0 <= i < j < |due| :: due[i].row != due[j].row
    requires x < |due|
    ensures |Rescheduled(rows, due, now, failing)| == |rows|
    ensures Rescheduled(rows, due, now, failing)[due[x].row]
      == if Reached(due, failing, x) then ClaimOf(rows[due[x].row], due[x], failing, now) else rows[due[x].row]
    decreases |due|
  {
    var c := due[0];
    var later := rows[c.row := Scheduled(rows[c.row], c, c.row !in failing, now)];
    if AtLimit(c) || c.row !in failing {
      if x == 0 {
        RescheduledElsewhere(later, due[1..], now, failing, c.row);
      } else {
        ReachedAfter(due, failing, x);
        RescheduledAt(later, due[1..], now, failing, x - 1);
      }
    }
  }

  /** The pass reaches the claim, it is below its limit, and its enqueue succeeds. */
  predicate Enqueues(due: seq<Selected>, failing: set<nat>, x: nat)
    requires x < |due|
  {
    && Reached(due, failing, x) && due[x].row !in failing
    && (due[x].retryCount < 1 || due[x].retryCount < due[x].maxRetries + 1)
  }

  lemma EnqueuesAfter(due: seq<Selected>, failing: set<nat>, x: nat)
    requires 0 < x < |due| && (AtLimit(due[0]) || due[0].row !in failing)
    ensures Enqueues(due, failing, x) <==> Enqueues(due[1..], failing, x - 1)
  {
    hide Reached;
    ReachedAfter(due, failing, x);
  }

  /** The pass enqueues exactly the claimed records below their limit, each once. */
  lemma {:induction false} ClaimEnqueued(due: seq<Selected>, failing: set<nat>, x: nat)
    requires x < |due| && Enqueues(due, failing, x)
    ensures due[x].row in Enqueued(due, failing)
    decreases x
  {
    if x == 0 {
    } else {
      assert AtLimit(due[0]) || due[0].row !in failing;
      EnqueuesAfter(due, failing, x);
      ClaimEnqueued(due[1..], failing, x - 1);
    }
  }

  lemma {:induction false} EnqueuedIsClaim(due: seq<Selected>, failing: set<nat>, n: nat) returns (x: nat)
    requires n in Enqueued(due, failing)
    ensures x < |due| && due[x].row == n && Enqueues(due, failing, x)
    decreases |due|
  {
    if !AtLimit(due[0]) && n == due[0].row {
      x := 0;
    } else {
      var y := EnqueuedIsClaim(due[1..], failing, n);
      x := y + 1;
      EnqueuesAfter(due, failing, x);
    }
  }

  lemma {:induction false} EnqueuedOnce(due: seq<Selected>, failing: set<nat>)
    requires forall i, j | 0 <= i < j < |due| :: due[i].row != due[j].row
    ensures NoRepeats(Enqueued(due, failing))
    decreases |due|
  {
    if due == [] {
    } else {
      EnqueuedOnce(due[1..], failing);
      if due[0].row in Enqueued(due[1..], failing) {
        var y := EnqueuedIsClaim(due[1..], failing, due[0].row);
      }
    }
  }

  /** A waiting or queued copy of a delivered primary that has an unreleased copy among those found. */
  predicate Releases(rows: seq<Row>, copies: seq<nat>, i: nat)
    requires i < |rows|
  {
    var p := rows[i].identity.copyOf;
    && (rows[i].status == Waiting || rows[i].status == Queued)
    && p.Some? && p.value < |rows|
    && (rows[p.value].status == Submitted || rows[p.value].status == Acknowledged)
    && exists j | j in copies :: j < |rows| && rows[j].identity.copyOf == p
  }

  lemma PassReleases(rows: seq<Row>, copies: seq<nat>, parents: seq<nat>)
    requires ParentsOf(rows, copies, parents)
    ensures |Recovered(rows, parents)| == |rows|
    ensures forall i: nat | i < |rows| ::
      && Recovered(rows, parents)[i] == (if Releases(rows, copies, i) then rows[i].(status := Queued) else rows[i])
      && (Recoverable(rows, parents, i) <==> Releases(rows, copies, i))
  {
    RecoveredExactly(rows, parents);
    forall i: nat | i < |rows| ensures Recoverable(rows, parents, i) <==> Releases(rows, copies, i) {
      if Releases(rows, copies, i) {
        var j :| j in copies && j < |rows| && rows[j].identity.copyOf == rows[i].identity.copyOf;
        assert rows[j].identity.copyOf.value in parents;
      }
    }
  }

  /** What the claims of a pass leave of the records they find. */
  predicate Claims(rows: seq<Row>, later: seq<Row>, due: seq<Selected>, now: int, failing: set<nat>) {
    && |later| == |rows|
    && (forall n: nat | n < |rows| && (forall x | 0 <= x < |due| :: due[x].row != n) :: later[n] == rows[n])
    && (forall x: nat | x < |due| ::
          due[x].row < |rows|
          && later[due[x].row] == if Reached(due, failing, x) then ClaimOf(rows[due[x].row], due[x], failing, now)
                                  else rows[due[x].row])
  }

  lemma {:induction false} SizeKept(rows: seq<Row>, due: seq<Selected>, now: int, failing: set<nat>)
    requires forall i | 0 <= i < |due| :: due[i].row < |rows|
    ensures |Rescheduled(rows, due, now, failing)| == |rows|
    decreases |due|
  {
    if due == [] {
    } else {
      var c := due[0];
      SizeKept(rows[c.row := Scheduled(rows[c.row], c, c.row !in failing, now)], due[1..], now, failing);
    }
  }

  lemma PassClaims(rows: seq<Row>, due: seq<Selected>, now: int, failing: set<nat>)
    requires DueQuery(rows, now, due)
    ensures Claims(rows, Rescheduled(rows, due, now, failing), due, now, failing)
    ensures forall x: nat | x < |due| :: due[x].row in Enqueued(due, failing) <==> Enqueues(due, failing, x)
    ensures forall n | n in Enqueued(due, failing) :: exists x: nat | x < |due| :: due[x].row == n
    ensures NoRepeats(Enqueued(due, failing))
    ensures forall x: nat | x < |due| ::
      due[x].retryCount == rows[due[x].row].retryCount && due[x].maxRetries == rows[due[x].row].maxRetries
  {
    hide Rescheduled, Enqueued, Reached, ClaimOf, Enqueues;
    SizeKept(rows, due, now, failing);
    forall n: nat | n < |rows| && forall x | 0 <= x < |due| :: due[x].row != n
      ensures Rescheduled(rows, due, now, failing)[n] == rows[n]
    {
      RescheduledElsewhere(rows, due, now, failing, n);
    }
    forall x: nat | x < |due|
      ensures Rescheduled(rows, due, now, failing)[due[x].row]
        == if Reached(due, failing, x) then ClaimOf(rows[due[x].row], due[x], failing, now) else rows[due[x].row]
    {
      RescheduledAt(rows, due, now, failing, x);
    }
    forall n | n in Enqueued(due, failing)
      ensures exists x: nat | x < |due| :: due[x].row == n && Enqueues(due, failing, x)
    {
      var x := EnqueuedIsClaim(due, failing, n);
    }
    forall x: nat | x < |due| && Enqueues(due, failing, x) ensures due[x].row in Enqueued(due, failing) {
      ClaimEnqueued(due, failing, x);
    }
    EnqueuedOnce(due, failing);
  }

  /** With fewer than 50 unreleased copies a pass leaves none waiting for a delivered primary. */
  lemma NoneLeftWaiting(rows: seq<Row>, copies: seq<nat>, recovered: seq<Row>, due: seq<Selected>, now: int,
                        failing: set<nat>, later: seq<Row>, i: nat)
    requires CopyQuery(rows, copies) && |copies| < 50
    requires |recovered| == |rows| && forall j: nat | j < |rows| ::
      recovered[j] == if Releases(rows, copies, j) then rows[j].(status := Queued) else rows[j]
    requires DueQuery(recovered, now, due) && Claims(recovered, later, due, now, failing)
    requires i < |rows| && later[i].identity.group && later[i].status == Waiting
    requires later[i].identity.copyOf.Some? && later[i].identity.copyOf.value < |rows|
    ensures var p := later[later[i].identity.copyOf.value].status; p != Submitted && p != Acknowledged
  {
    hide Reached;
    var p := later[i].identity.copyOf.value;
    assert Unreleased(rows[i]);
    assert i in copies;
  }

  class DeliveryHistory {
    var rows: seq<Row>
    var cursor: nat
    /** The user the process acts as. */
    var user: string

    constructor (user: string)
      ensures rows == [] && cursor == 0 && this.user == user
    {
      rows, cursor := [], 0;
      this.user := user;
    }

    /** Returns the copies it released, for the job queue. */
    method ReleaseWaitingCopies(primary: nat) returns (jobs: seq<nat>)
      modifies this`rows
      ensures rows == Released(old(rows), primary)
      ensures |rows| == |old(rows)|
      ensures forall i | 0 <= i < |rows| ::
        var r := old(rows)[i];
        var releases := r.identity.copyOf == Some(primary) && (r.status == Waiting || r.status == Queued);
        rows[i] == (if releases then r.(status := Queued) else r) && (i in jobs <==> releases)
      ensures NoRepeats(jobs) && forall i | i in jobs :: i < |rows|
    {
      jobs := [];
      for i := 0 to |rows|
        invariant |rows| == |old(rows)|
        invariant forall j | 0 <= j < |rows| ::
          rows[j] == if j < i then ReleaseRow(old(rows)[j], primary) else old(rows)[j]
        invariant forall j :: j in jobs <==> 0 <= j < i && AwaitsRelease(old(rows)[j], primary)
        invariant NoRepeats(jobs)
      {
        if AwaitsRelease(rows[i], primary) {
          rows := rows[i := rows[i].(status := Queued)];
          jobs := jobs + [i];
        }
      }
      assert rows == Released(old(rows), primary);
    }

    /** Returns the copies it released, for the job queue: those of the record when it is delivered by then. */
    method ProcessOutboundMessage(name: nat, now: int, later: int, c: Conditions) returns (jobs: seq<nat>)
      requires name < |rows|
      modifies this`rows, this`user
      ensures rows == Worked(old(rows), name, now, later, c)
      ensures user == old(user) && |rows| == |old(rows)|
      ensures forall j | j in jobs :: j < |rows|
      ensures var delivered := rows[name].status == Submitted || rows[name].status == Acknowledged;
        forall j: nat | j < |rows| ::
          var r := old(rows)[j];
          j in jobs <==> (delivered && !rows[name].identity.group && r.identity.copyOf == Some(name)
                          && (r.status == Waiting || r.status == Queued))
      ensures rows[name].status in {Submitted, Acknowledged} && !rows[name].identity.group ==>
        forall j: nat | j < |rows| && rows[j].identity.copyOf == Some(name) :: rows[j].status != Waiting
    {
      hide AttemptOutcome, CopyGranted, Delay, Released;
      jobs := [];
      var document := rows[name];
      if Terminal(document.status) || document.status.Processing? {
        if Terminal(document.status) && !document.identity.group {
          jobs := ReleaseWaitingCopies(name);
        }
        return;
      }
      if document.flagged { return; }
      if document.identity.copyOf.Some? {
        var primary := PrimaryStatus(rows, document);
        if primary.None? || !Terminal(primary.value) { return; }
      }
      if document.retryCount >= AttemptLimit(document) {
        document := document.(status := Failed, nextRetryAt := None);
        rows := rows[name := document];
        return;
      }
      if document.status.Failed? && document.nextRetryAt.Some? && document.nextRetryAt.value > now { return; }

      document := document.(retryCount := document.retryCount + 1, status := Processing, nextRetryAt := None);
      var o := SendDelivery(document, c);
      if o.Delivered? {
        document := document.(status := Submitted, messageIds := Some(o.ids), nextRetryAt := None);
      } else {
        document := document.(status := Failed, flagged := o.reconciliation);
        if !document.flagged && document.retryCount < AttemptLimit(document) {
          document := document.(nextRetryAt := Some(later + Delay(document.retryCount)));
        } else {
          document := document.(nextRetryAt := None);
        }
      }
      rows := rows[name := document];
      if Terminal(document.status) && !document.identity.group {
        jobs := ReleaseWaitingCopies(name);
      }
    }

    /** The part of a worker run that may raise. */
    method SendDelivery(document: Row, c: Conditions) returns (o: Outcome)
      modifies this`user
      ensures o == AttemptOutcome(rows, document, c)
      ensures var id := document.identity;
        var sends := c.settings.enabled && c.pdfIntact && id.content.provider != UnsupportedTransport
          && (id.group ==> CopyGranted(rows, document, c.settings, c.rights(id.content.owner)));
        && (o.Delivered? <==> sends && c.reply.Some? && c.reply.value.Sent?)
        && (o.Delivered? ==> o.ids == c.reply.value.ids)
        && (o == Error(true) <==> sends && c.reply == Some(G.Refused(true)))
      ensures user == old(user)
    {
      if !c.settings.enabled { return Error(false); }
      if document.identity.group {
        var copyOf := document.identity.copyOf;
        if copyOf.None? || copyOf.value >= |rows| { return Error(false); }
        var check := ValidateCopy(document, rows[copyOf.value], c.settings, c.rights);
        if !check.Granted? { return Error(false); }
      }
      if !c.pdfIntact { return Error(false); }
      if document.identity.content.provider.UnsupportedTransport? { return Error(false); }
      o := OutcomeOf(c.reply);
    }

    /** The copy check acts as the record's owner and restores the user on every path. */
    method ValidateCopy(document: Row, primary: Row, settings: Settings, rights: string -> Access)
      returns (check: CopyCheck)
      modifies this`user
      ensures check == CheckCopy(document, primary, settings, rights(document.identity.content.owner))
      ensures var delivered := primary.status == Submitted || primary.status == Acknowledged;
        var access := rights(document.identity.content.owner);
        && (check == PrimaryNotReady <==> !delivered)
        && (check == Granted <==>
              && delivered && !primary.identity.group && primary.identity.copyOf == None
              && document.identity.content == primary.identity.content
              && document.identity.content.owner != "Guest" && access.ownerEnabled && access.maySend
              && ConfiguredGroup(settings, document.identity.content.company, access.companyReadable)
                 == Configured(document.identity.recipient)
              && access.sourceUnchanged)
      ensures user == old(user)
    {
      if !Terminal(primary.status) { return PrimaryNotReady; }
      if primary.identity.group || primary.identity.copyOf.Some? { return Denied; }
      var content := document.identity.content;
      if content != primary.identity.content { return Denied; }
      if content.owner == "Guest" || !rights(content.owner).ownerEnabled { return Denied; }
      var original := user;
      user := content.owner;
      var access := rights(user);
      check := Denied;
      if access.maySend {
        var group := ConfiguredGroup(settings, content.company, access.companyReadable);
        if group == Configured(document.identity.recipient) && access.sourceUnchanged {
          check := Granted;
        }
      }
      user := original;
    }

    method UnreleasedCopies() returns (copies: seq<nat>)
      ensures CopyQuery(rows, copies)
      ensures |copies| <= 50 && NoRepeats(copies)
      ensures forall i | i in copies :: i < |rows|
      ensures forall i: nat | i < |rows| ::
        var r := rows[i];
        var unreleased := r.identity.group && r.identity.copyOf.Some? && (r.status == Waiting || r.status == Queued);
        (i in copies ==> unreleased) && (unreleased && |copies| < 50 ==> i in copies)
    {
      copies := [];
      var i := 0;
      while i < |rows| && |copies| < QUERY_LIMIT
        invariant i <= |rows| && |copies| <= QUERY_LIMIT && NoRepeats(copies)
        invariant forall n | n in copies :: n < i && Unreleased(rows[n])
        invariant forall n | 0 <= n < i && Unreleased(rows[n]) :: n in copies
      {
        if Unreleased(rows[i]) {
          copies := copies + [i];
        }
        i := i + 1;
      }
    }

    method Parents(copies: seq<nat>) returns (parents: seq<nat>)
      requires CopyQuery(rows, copies)
      ensures ParentsOf(rows, copies, parents)
    {
      parents := [];
      for n := 0 to |copies|
        invariant ParentsOf(rows, copies[..n], parents)
      {
        assert copies[n] in copies && copies[..n + 1] == copies[..n] + [copies[n]];
        var p := rows[copies[n]].identity.copyOf.value;
        if p !in parents {
          parents := parents + [p];
        }
      }
      assert copies[..|copies|] == copies;
    }

    method DueRecords(now: int) returns (due: seq<Selected>)
      ensures DueQuery(rows, now, due)
      ensures |due| <= 50 && forall i, j | 0 <= i < j < |due| :: due[i].row != due[j].row
      ensures forall i | 0 <= i < |due| ::
        due[i].row < |rows| &&
        var r := rows[due[i].row];
        && r.status == Failed && !r.flagged && r.nextRetryAt.Some? && r.nextRetryAt.value <= now
        && due[i].retryCount == r.retryCount && due[i].maxRetries == r.maxRetries
      ensures |due| < 50 ==> forall n | 0 <= n < |rows| && rows[n].status == Failed && !rows[n].flagged
        && rows[n].nextRetryAt.Some? && rows[n].nextRetryAt.value <= now :: exists i | 0 <= i < |due| :: due[i].row == n
    {
      due := [];
      var n := 0;
      while n < |rows| && |due| < QUERY_LIMIT
        invariant n <= |rows| && |due| <= QUERY_LIMIT
        invariant forall i | 0 <= i < |due| ::
          && due[i].row < n && Due(rows[due[i].row], now)
          && due[i] == Selected(due[i].row, rows[due[i].row].retryCount, rows[due[i].row].maxRetries)
        invariant forall i, j | 0 <= i < j < |due| :: due[i].row != due[j].row
        invariant forall m | 0 <= m < n && Due(rows[m], now) :: exists i | 0 <= i < |due| :: due[i].row == m
      {
        if Due(rows[n], now) {
          ghost var before := due;
          due := due + [Selected(n, rows[n].retryCount, rows[n].maxRetries)];
          assert due[|before|].row == n && forall i | 0 <= i < |before| :: due[i] == before[i];
        }
        n := n + 1;
      }
    }

    /** Returns the copies it released, for the job queue. */
    method RecoverPrimaries(parents: seq<nat>) returns (jobs: seq<nat>)
      modifies this`rows
      ensures rows == Recovered(old(rows), parents) && |rows| == |old(rows)|
      ensures forall i | i in jobs :: i < |rows|
      ensures forall i: nat | i < |rows| :: i in jobs <==> Recoverable(old(rows), parents, i)
    {
      jobs := [];
      for n := 0 to |parents|
        invariant rows == Recovered(old(rows), parents[..n]) && |rows| == |old(rows)|
        invariant forall i | i in jobs :: i < |rows|
        invariant forall i: nat | i < |rows| :: i in jobs <==> Recoverable(old(rows), parents[..n], i)
      {
        RecoveredExactly(old(rows), parents[..n]);
        assert parents[..n + 1] == parents[..n] + [parents[n]] && parents[..n + 1][..n] == parents[..n];
        if parents[n] < |rows| && Terminal(rows[parents[n]].status) {
          var released := ReleaseWaitingCopies(parents[n]);
          jobs := jobs + released;
        }
      }
      assert parents[..|parents|] == parents;
    }

    /** Claim and enqueue what was selected; raised when an enqueue fails, after the restoring write. */
    method ClaimDue(due: seq<Selected>, now: int, failing: set<nat>) returns (jobs: seq<nat>, raised: bool)
      requires forall i | 0 <= i < |due| :: due[i].row < |rows|
      modifies this`rows
      ensures rows == Rescheduled(old(rows), due, now, failing)
      ensures jobs == Enqueued(due, failing) && raised == Stops(due, failing)
    {
      jobs, raised := [], false;
      for n := 0 to |due|
        invariant |rows| == |old(rows)|
        invariant Rescheduled(old(rows), due, now, failing) == Rescheduled(rows, due[n..], now, failing)
        invariant Enqueued(due, failing) == jobs + Enqueued(due[n..], failing)
        invariant !raised && forall i | 0 <= i < n :: AtLimit(due[i]) || due[i].row !in failing
      {
        var claim := due[n];
        var name := claim.row;
        assert due[n..][1..] == due[n + 1..];
        if claim.retryCount >= LimitOf(claim.maxRetries) {
          rows := rows[name := rows[name].(nextRetryAt := None)];
          continue;
        }
        ghost var before := rows;
        rows := rows[name := rows[name].(status := Queued, nextRetryAt := None)];
        if name in failing {
          rows := rows[name := rows[name].(status := Failed, nextRetryAt := Some(now))];
          assert rows == before[name := Scheduled(before[name], claim, false, now)];
          raised := true;
          return;
        }
        jobs := jobs + [name];
      }
    }

    /** One scheduler pass: recover the primaries of unreleased copies, then claim what is due. Returns
        the copies and the due records it enqueued, and whether it raised. The records are as the pass has written them,
        up to and with the restoring write when it raised; what was enqueued by then stays enqueued.
        With the records between the two halves as `recovered`: the copies of delivered primaries are
        queued, and with fewer than 50 unreleased copies none of them is left waiting; the due records
        are closed when exhausted, else queued and enqueued, up to the first failing enqueue, which
        leaves its record due; every other record is as before. */
    method RetryDueMessages(now: int, failing: set<nat>)
      returns (released: seq<nat>, jobs: seq<nat>, raised: bool, ghost copies: seq<nat>, ghost parents: seq<nat>,
               ghost due: seq<Selected>, ghost recovered: seq<Row>)
      modifies this`rows
      ensures CopyQuery(old(rows), copies) && ParentsOf(old(rows), copies, parents)
      ensures recovered == Recovered(old(rows), parents) && DueQuery(recovered, now, due)
      ensures rows == Rescheduled(recovered, due, now, failing)
      ensures jobs == Enqueued(due, failing) && raised == Stops(due, failing)
      ensures |recovered| == |old(rows)| && |rows| == |old(rows)|
      ensures forall i: nat | i < |rows| ::
        var r := old(rows)[i];
        var p := r.identity.copyOf;
        var releases := (r.status == Waiting || r.status == Queued) && p.Some? && p.value < |rows|
          && (old(rows)[p.value].status == Submitted || old(rows)[p.value].status == Acknowledged)
          && exists j | j in copies :: j < |rows| && old(rows)[j].identity.copyOf == p;
        recovered[i] == (if releases then r.(status := Queued) else r) && (i in released <==> releases)
      ensures |copies| < 50 ==> forall i: nat | i < |rows| && rows[i].identity.group && rows[i].status == Waiting ::
        var p := rows[i].identity.copyOf;
        p.Some? && p.value < |rows| ==> rows[p.value].status != Submitted && rows[p.value].status != Acknowledged
      ensures forall n: nat | n < |rows| && (forall x | 0 <= x < |due| :: due[x].row != n) :: rows[n] == recovered[n]
      ensures forall x: nat | x < |due| ::
        var n := due[x].row;
        n < |rows| &&
        var r := recovered[n];
        var exhausted := r.retryCount >= 1 && r.retryCount >= r.maxRetries + 1;
        && rows[n] == (if !Reached(due, failing, x) then r
                       else if exhausted then r.(nextRetryAt := None)
                       else if n in failing then r.(status := Failed, nextRetryAt := Some(now))
                       else r.(status := Queued, nextRetryAt := None))
        && (n in jobs <==> Reached(due, failing, x) && !exhausted && n !in failing)
        && (!exhausted && n in failing ==> raised)
      ensures NoRepeats(jobs) && forall n | n in jobs :: exists x | 0 <= x < |due| :: due[x].row == n
      ensures raised ==> exists x | 0 <= x < |due| ::
        due[x].row in failing && (due[x].retryCount < 1 || due[x].retryCount < due[x].maxRetries + 1)
      ensures forall i | i in released :: i < |rows|
    {
      hide Recovered, Rescheduled, Enqueued, CopyQuery, ParentsOf, DueQuery, Reached;
      var found := UnreleasedCopies();
      var primaries := Parents(found);
      released := RecoverPrimaries(primaries);
      recovered := rows;
      var selected := DueRecords(now);
      jobs, raised := ClaimDue(selected, now, failing);
      copies, parents, due := found, primaries, selected;
      PassReleases(old(rows), copies, parents);
      PassClaims(recovered, due, now, failing);
      forall i: nat | |copies| < 50 && i < |rows| && rows[i].identity.group && rows[i].status == Waiting
                      && rows[i].identity.copyOf.Some? && rows[i].identity.copyOf.value < |rows|
        ensures var p := rows[rows[i].identity.copyOf.value].status; p != Submitted && p != Acknowledged
      {
        NoneLeftWaiting(old(rows), copies, recovered, due, now, failing, rows, i);
      }
    }

    /** Apply one fetched page and advance the cursor. */
    method SyncDeliveryStatuses(page: seq<Event>)
      modifies this`rows, this`cursor
      ensures rows == ApplyEvents(old(rows), page)
      ensures cursor == Advanced(old(cursor), page)
      ensures |rows| == |old(rows)|
      ensures forall i: nat, x: nat | Alone(old(rows), i) && LastAt(page, x, old(rows)[i].identity.key) ::
        rows[i] == old(rows)[i].(status := page[x].status)
      ensures forall i: nat | Alone(old(rows), i) && (forall e | e in page :: e.key != old(rows)[i].identity.key) ::
        rows[i] == old(rows)[i]
      ensures cursor >= old(cursor) && forall e | e in page :: cursor >= e.id
      ensures cursor != old(cursor) ==> exists e | e in page :: e.id == cursor
    {
      for n := 0 to |page|
        invariant rows == ApplyEvents(old(rows), page[..n])
        invariant cursor == Advanced(old(cursor), page[..n])
      {
        assert page[..n + 1][..n] == page[..n];
        var event := page[n];
        var name := IndexOf(rows, event.key);
        if name.Some? {
          rows := rows[name.value := rows[name.value].(status := event.status)];
        }
        cursor := Max(cursor, event.id);
      }
      assert page[..|page|] == page;
      AdvancedExactly(old(cursor), page);
      forall i: nat, x: nat | Alone(old(rows), i) && LastAt(page, x, old(rows)[i].identity.key)
        ensures rows[i] == old(rows)[i].(status := page[x].status)
      {
        LastEventCounts(old(rows), page, i, x);
      }
      forall i: nat | Alone(old(rows), i) && forall e | e in page :: e.key != old(rows)[i].identity.key
        ensures rows[i] == old(rows)[i]
      {
        NoEventLeaves(old(rows), page, i);
      }
    }

    /** Insert a delivery record, and for a primary its configured company copy; false when it
        raises, which rolls back what it inserted. */
    method StoreDelivery(d: Draft, settings: Settings, readable: bool, copyOf: Option<nat>, recipient: string,
                         key: string, copyKey: string) returns (ok: bool)
      modifies this`rows
      ensures !ok ==> rows == old(rows)
      ensures copyOf.None? ==>
        && (ok <==> Stored(old(rows), d.(recipient := recipient), settings, readable, (key, copyKey)).Some?)
        && (ok ==> rows == Stored(old(rows), d.(recipient := recipient), settings, readable, (key, copyKey)).value)
      ensures copyOf.Some? ==>
        (ok <==> settings.enabled && HasReferences(d.content) && forall r | r in old(rows) :: r.identity.key != key)
      ensures ok ==>
        var content := d.content.(provider := settings.provider);
        var retries := match settings.retries case Some(n) => n case None => 0;
        var group := ConfiguredGroup(settings, d.content.company, readable);
        var record := Row(Identity(copyOf.Some?, copyOf, key, recipient, d.filename, content),
                          if copyOf.Some? then Waiting else Queued, 0, retries, None, false, None);
        if copyOf.None? && group.Configured? then
          rows == old(rows) + [record,
            Row(Identity(true, Some(|old(rows)|), copyKey, group.groupId, d.filename, content),
                Waiting, 0, retries, None, false, None)]
        else rows == old(rows) + [record]
      decreases copyOf.None?
    {
      hide ConfiguredGroup;
      KeyUnused(rows, key);
      var before := rows;
      if !settings.enabled { return false; }
      var group := if copyOf.None? then ConfiguredGroup(settings, d.content.company, readable) else NoGroup;
      if !group.NoGroup? && !group.Configured? { return false; }
      var history := NewRow(d, settings, copyOf, recipient, key);
      if IndexOf(rows, key).Some? || !AcceptsSave(None, history) { return false; }
      var name := |rows|;
      rows := rows + [history];
      ok := true;
      if group.Configured? {
        ok := StoreDelivery(d, settings, readable, Some(name), group.groupId, copyKey, "");
        if !ok {
          rows := before;
        }
      }
    }
  }
}
