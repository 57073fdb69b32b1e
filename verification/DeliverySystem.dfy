/** The connector and the gateway together. An action is one step of a worker run, of a scheduler
    pass or of a release, one synchronised page, one step of the gateway, or the passing of time.

    Workers, scheduler passes and releases first read and only later write, and other transactions
    may commit in between. A worker locks its record from its first save to its commit or rollback,
    and that save is refused when another worker has saved the record since it was read; the field
    writes of the scheduler, of releases and of sync do not count as such saves and check nothing.
    Requests and replies may be lost, and a request may reach the head of the gateway's queue long
    after its worker gave up. Jobs may run any number of times, so any record may be read any time. */
module DeliverySystem {
  import opened Messages
  import opened Stores
  import opened CompanyGroups
  import opened History
  import G = GatewayProtocol

  /** What a worker has read: its record and the status of the record's primary. */
  datatype Reading = Reading(row: nat, seen: Row, primary: Option<Status>, at: int)

  /** A worker run past its first save; the ticket names the request it has sent. */
  datatype WorkerRun = WorkerRun(startedAt: int, ticket: Option<nat>)

  /** A committed attempt; `failedAt` is absent when it was delivered. */
  datatype AttemptRecord = AttemptRecord(startedAt: int, failedAt: Option<int>)

  /** `readings`, `due` and `awaiting` are what workers, scheduler passes and releases have read and
      may still act on. `owners`, `applied`, `journal` and `settled` are history: which record each
      request was sent for, the events applied, the attempts committed, the records ever terminal. */
  datatype System = System(
    site: string,
    gateway: G.Gateway,
    rows: seq<Row>,
    runs: map<nat, WorkerRun>,
    inbox: map<nat, Request>,
    page: Option<seq<Event>>,
    cursor: nat,
    clock: int,
    readings: set<Reading>,
    due: set<Selected>,
    awaiting: set<nat>,
    owners: seq<nat>,
    applied: seq<Event>,
    journal: seq<seq<AttemptRecord>>,
    settled: set<nat>)

  function Start(site: string): System {
    System(site, G.INITIAL, [], map[], map[], None, 0, 0, {}, {}, {}, [], [], [], {})
  }

  datatype Action =
    | Tick(seconds: nat)
    | Create(draft: Draft, settings: Settings, readable: bool, keys: (string, string))
    | Read(row: nat)                                           // a worker reads its record
    | Begin(reading: Reading, now: int)                        // its guards, and its first save
    | Abort(row: nat)                                          // the attempt raised before sending
    | Dispatch(row: nat, settings: Settings, access: Access, primary: Status) // the request leaves for the gateway
    | Conclude(row: nat, lost: bool)                           // the reply, or its loss, is committed
    | Rollback(row: nat)
    | SelectCopy(row: nat)                                     // a release finds a waiting or queued copy
    | Release(row: nat)                                        // and writes it
    | SelectDue(row: nat)                                      // a scheduler pass finds a due record
    | Retry(claim: Selected, enqueued: bool)                   // and writes it
    | Fetch
    | ApplyPage
    | DropPage
    | Deliver(ticket: nat)                                     // a sent request is accepted by the gateway
    | Foreign(q: Request)                                      // another tenant's request is accepted
    | GatewayStep(step: G.Action)

  function RowRequest(s: System, i: nat): Request
    requires i < |s.rows|
  {
    RequestOf(s.site, s.rows[i].identity)
  }

  function ReadingOf(s: System, i: nat): Reading
    requires i < |s.rows|
  {
    Reading(i, s.rows[i], PrimaryStatus(s.rows, s.rows[i]), s.clock)
  }

  function SelectedOf(s: System, i: nat): Selected
    requires i < |s.rows|
  {
    Selected(i, s.rows[i].retryCount, s.rows[i].maxRetries)
  }

  /** No worker has saved the record since it was read: at most its status and due time were written. */
  predicate SameSave(seen: Row, r: Row) {
    r == seen.(status := r.status, nextRetryAt := r.nextRetryAt)
  }

  function AttemptBy(run: WorkerRun, o: Outcome, now: int): AttemptRecord {
    AttemptRecord(run.startedAt, if o.Error? then Some(now) else None)
  }

  function ReplyFor(s: System, t: nat): Option<G.Reply> {
    if t in s.gateway.replies then Some(s.gateway.replies[t].reply) else None
  }

  /** No record that the page names is locked by a worker run. */
  predicate Unlocked(s: System, events: seq<Event>) {
    forall e | e in events && IndexOf(s.rows, e.key).Some? :: IndexOf(s.rows, e.key).value !in s.runs
  }

  predicate Running(s: System, i: nat) {
    i < |s.rows| && i < |s.journal| && i in s.runs
  }

  /** The record exists and no worker run has locked it. */
  predicate Writable(s: System, i: nat) {
    i < |s.rows| && i !in s.runs
  }

  /** The copy check of a worker that sees its primary with the given status. */
  predicate MaySend(s: System, i: nat, settings: Settings, access: Access, primary: Status)
    requires i < |s.rows|
  {
    var copyOf := s.rows[i].identity.copyOf;
    copyOf.Some? && copyOf.value < |s.rows|
    && CheckCopy(s.rows[i], s.rows[copyOf.value].(status := primary), settings, access) == Granted
  }

  predicate Enabled(s: System, a: Action) {
    match a
    case Tick(_) => true
    case Create(_, _, _, _) => true
    case Read(i) => i < |s.rows|
    case Begin(r, now) =>
      r in s.readings && Writable(s, r.row) && SameSave(r.seen, s.rows[r.row]) && r.at <= now <= s.clock
    case Abort(i) => Running(s, i) && s.runs[i].ticket.None?
    case Dispatch(i, settings, access, primary) =>
      && Running(s, i) && s.runs[i].ticket.None?
      && settings.enabled && !s.rows[i].identity.content.provider.UnsupportedTransport?
      && (s.rows[i].identity.group ==> MaySend(s, i, settings, access, primary))
    case Conclude(i, lost) =>
      Running(s, i) && s.runs[i].ticket.Some? && (lost || ReplyFor(s, s.runs[i].ticket.value).Some?)
    case Rollback(i) => Running(s, i)
    case SelectCopy(i) =>
      i < |s.rows| && s.rows[i].identity.copyOf.Some? && AwaitsRelease(s.rows[i], s.rows[i].identity.copyOf.value)
    case Release(i) =>
      && i in s.awaiting && Writable(s, i)
      && s.rows[i].identity.copyOf.Some? && s.rows[i].identity.copyOf.value in s.settled
    case SelectDue(i) => i < |s.rows| && Due(s.rows[i], s.clock)
    case Retry(claim, _) => claim in s.due && Writable(s, claim.row)
    case Fetch => s.page.None?
    case ApplyPage => s.page.Some? && Unlocked(s, s.page.value)
    case DropPage => s.page.Some?
    case Deliver(t) => t in s.inbox && s.gateway.process.Idle?
    case Foreign(q) => q.tenant != s.site && s.gateway.process.Idle?
    case GatewayStep(g) => !g.AcceptRequest? && G.Enabled(s.gateway, g)
  }

  // ---- what an action does, field by field ----

  function GatewayAfter(s: System, a: Action): G.Gateway
    requires Enabled(s, a)
  {
    match a
    case Deliver(t) => G.Accept(s.gateway, t, s.inbox[t])
    case Foreign(q) => G.Accept(s.gateway, -1, q)
    case GatewayStep(g) => G.Step(s.gateway, g)
    case _ => s.gateway
  }

  /** The outcome that a worker commits, if the action is a commit. */
  function Committed(s: System, a: Action): Option<(nat, Outcome)>
    requires Enabled(s, a)
  {
    match a
    case Abort(i) => Some((i, Error(false)))
    case Conclude(i, lost) => Some((i, OutcomeOf(if lost then None else ReplyFor(s, s.runs[i].ticket.value))))
    case _ => None
  }

  function RowsAfter(s: System, a: Action): seq<Row>
    requires Enabled(s, a)
  {
    match Committed(s, a)
    case Some((i, outcome)) => s.rows[i := Concluded(Claimed(s.rows[i]), outcome, s.clock)]
    case None =>
      match a
      case Create(draft, settings, readable, keys) =>
        var stored := Stored(s.rows, draft, settings, readable, keys);
        if stored.Some? then stored.value else s.rows
      case Begin(r, now) =>
        if Decide(r.seen, r.primary, now).Exhaust? then s.rows[r.row := Exhausted(s.rows[r.row])] else s.rows
      case Release(i) => s.rows[i := ReleasedCopy(s.rows[i])]
      case Retry(claim, enqueued) =>
        s.rows[claim.row := Scheduled(s.rows[claim.row], claim, enqueued, s.clock)]
      case ApplyPage => ApplyEvents(s.rows, s.page.value)
      case _ => s.rows
  }

  function RunsAfter(s: System, a: Action): map<nat, WorkerRun>
    requires Enabled(s, a)
  {
    match a
    case Begin(r, now) =>
      if Decide(r.seen, r.primary, now).Attempt? then s.runs[r.row := WorkerRun(now, None)] else s.runs
    case Dispatch(i, _, _, _) => s.runs[i := s.runs[i].(ticket := Some(|s.owners|))]
    case Abort(i) => s.runs - {i}
    case Conclude(i, _) => s.runs - {i}
    case Rollback(i) => s.runs - {i}
    case _ => s.runs
  }

  function InboxAfter(s: System, a: Action): map<nat, Request>
    requires Enabled(s, a)
  {
    match a
    case Dispatch(i, _, _, _) => s.inbox[|s.owners| := RowRequest(s, i)]
    case Deliver(t) => s.inbox - {t}
    case _ => s.inbox
  }

  function PageAfter(s: System, a: Action): Option<seq<Event>> {
    if a.Fetch? then Some(Page(s.gateway.store.events, s.site, s.cursor))
    else if a.ApplyPage? || a.DropPage? then None
    else s.page
  }

  function ClockAfter(s: System, a: Action): int {
    if a.Tick? then s.clock + a.seconds else s.clock
  }

  /** One more list of attempts for every new record, one more attempt for a commit. */
  function JournalAfter(s: System, a: Action): seq<seq<AttemptRecord>>
    requires Enabled(s, a)
  {
    match Committed(s, a)
    case Some((i, outcome)) =>
      s.journal[i := s.journal[i] + [AttemptBy(s.runs[i], outcome, s.clock)]]
    case None =>
      var added := |RowsAfter(s, a)| - |s.rows|;
      if added > 0 then s.journal + seq(added, i => []) else s.journal
  }

  function TerminalRows(rows: seq<Row>): set<nat> {
    set i | 0 <= i < |rows| && Terminal(rows[i].status)
  }

  function Step(s: System, a: Action): System
    requires Enabled(s, a)
  {
    System(
      s.site,
      GatewayAfter(s, a),
      RowsAfter(s, a),
      RunsAfter(s, a),
      InboxAfter(s, a),
      PageAfter(s, a),
      if a.ApplyPage? then Advanced(s.cursor, s.page.value) else s.cursor,
      ClockAfter(s, a),
      if a.Read? then s.readings + {ReadingOf(s, a.row)} else s.readings,
      if a.SelectDue? then s.due + {SelectedOf(s, a.row)} else s.due,
      if a.SelectCopy? then s.awaiting + {a.row} else s.awaiting,
      if a.Dispatch? then s.owners + [a.row] else s.owners,
      if a.ApplyPage? then s.applied + s.page.value else s.applied,
      JournalAfter(s, a),
      s.settled + TerminalRows(RowsAfter(s, a)))
  }

  /** A run; an action that is not enabled changes nothing. */
  function Run(s: System, actions: seq<Action>): System
    decreases |actions|
  {
    if actions == [] then s
    else Run(if Enabled(s, actions[0]) then Step(s, actions[0]) else s, actions[1..])
  }
}
