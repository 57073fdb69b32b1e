/** Delivery history records: what each connector operation does to them. A record's name is its
    position, as names are issued in sequence and records are never deleted. */
module History {
  import opened Messages
  import opened Stores
  import opened CompanyGroups
  import opened GatewayProtocol

  /** The thirteen fields a copy must share with its primary. The checksum is assumed injective,
      so the PDF stands for its digest. */
  datatype Content = Content(
    owner: string, company: string, provider: Transport, referenceType: string, referenceDoctype: string,
    referenceName: string, reportName: string, reportFilters: string, sourceModified: string, pdf: string,
    messageText: string, printFormat: string, messageTemplate: string)

  /** What no operation rewrites. */
  datatype Identity = Identity(
    group: bool, copyOf: Option<nat>, key: string, recipient: string, filename: string, content: Content)

  datatype Row = Row(
    identity: Identity, status: Status, retryCount: nat, maxRetries: int,
    nextRetryAt: Option<int>, flagged: bool, messageIds: Option<seq<string>>)

  // ---- attempts ----

  /** The attempts a number of retries allows: at least one. */
  function LimitOf(maxRetries: int): int {
    if maxRetries + 1 > 1 then maxRetries + 1 else 1
  }

  function AttemptLimit(r: Row): int { LimitOf(r.maxRetries) }

  const RETRY_DELAYS: seq<int> := [30, 120, 600]

  /** The wait after the failed attempt number `n`. */
  function Delay(n: int): int
    requires n >= 1
  {
    RETRY_DELAYS[if n - 1 < |RETRY_DELAYS| - 1 then n - 1 else |RETRY_DELAYS| - 1]
  }

  datatype Decision = Skip | ReleaseOnly | Exhaust | Attempt

  /** What a worker does with the record it has just read. */
  function Decide(r: Row, primary: Option<Status>, now: int): Decision {
    if Terminal(r.status) then (if r.identity.group then Skip else ReleaseOnly)
    else if r.status.Processing? || r.flagged then Skip
    else if r.identity.copyOf.Some? && !(primary.Some? && Terminal(primary.value)) then Skip
    else if r.retryCount >= AttemptLimit(r) then Exhaust
    else if r.status.Failed? && r.nextRetryAt.Some? && r.nextRetryAt.value > now then Skip
    else Attempt
  }

  function Exhausted(r: Row): Row {
    r.(status := Failed, nextRetryAt := None)
  }

  function Claimed(r: Row): Row {
    r.(retryCount := r.retryCount + 1, status := Processing, nextRetryAt := None)
  }

  /** How an attempt ends for the worker. */
  datatype Outcome = Delivered(ids: seq<string>) | Error(reconciliation: bool)

  /** The client's reading of the exchange: a lost reply carries no reconciliation flag. */
  function OutcomeOf(reply: Option<Reply>): Outcome {
    match reply
    case Some(Sent(ids, _)) => Delivered(ids)
    case Some(Refused(reconciliation)) => Error(reconciliation)
    case None => Error(false)
  }

  /** The record after an attempt on a claimed record. */
  function Concluded(r: Row, o: Outcome, now: int): Row
    requires r.retryCount >= 1
  {
    match o
    case Delivered(ids) => r.(status := Submitted, messageIds := Some(ids), nextRetryAt := None)
    case Error(reconciliation) =>
      r.(status := Failed, flagged := reconciliation,
         nextRetryAt :=
           if !reconciliation && r.retryCount < AttemptLimit(r) then Some(now + Delay(r.retryCount)) else None)
  }

  // ---- requests ----

  /** The gateway's name for a transport that is registered; there is none for another label. */
  function ProviderOf(transport: Transport): Provider {
    match transport
    case LinkedDevice => Baileys
    case OfficialTransport => OfficialApi
    case UnsupportedTransport => OtherProvider("")
  }

  /** The send request of a record; recipients are stored as the gateway normalises them. */
  function RequestOf(site: string, id: Identity): Request {
    Request(site, id.key, if id.group then Group else Individual,
            ProviderOf(id.content.provider), id.recipient, id.content.messageText, [Pdf(id.filename, id.content.pdf)])
  }

  // ---- copies ----

  /** The rights and the source as they stand when a copy is checked. */
  datatype Access = Access(ownerEnabled: bool, maySend: bool, companyReadable: bool, sourceUnchanged: bool)

  datatype CopyCheck = PrimaryNotReady | Denied | Granted

  function CheckCopy(r: Row, primary: Row, settings: Settings, access: Access): CopyCheck {
    if !Terminal(primary.status) then PrimaryNotReady
    else if primary.identity.group || primary.identity.copyOf.Some? then Denied
    else if r.identity.content != primary.identity.content then Denied
    else if r.identity.content.owner == "Guest" || !access.ownerEnabled || !access.maySend then Denied
    else if ConfiguredGroup(settings, r.identity.content.company, access.companyReadable)
            != Configured(r.identity.recipient) then Denied
    else if !access.sourceUnchanged then Denied
    else Granted
  }

  predicate AwaitsRelease(r: Row, primary: nat) {
    r.identity.copyOf == Some(primary) && (r.status.Waiting? || r.status.Queued?)
  }

  /** The release of a selected copy writes its status, whatever it is by now. */
  function ReleasedCopy(r: Row): Row { r.(status := Queued) }

  function ReleaseRow(r: Row, primary: nat): Row {
    if AwaitsRelease(r, primary) then ReleasedCopy(r) else r
  }

  function Released(rows: seq<Row>, primary: nat): seq<Row> {
    seq(|rows|, i requires 0 <= i < |rows| => ReleaseRow(rows[i], primary))
  }

  // ---- one worker run ----

  /** What a worker run meets: settings, each user's rights, the PDF snapshot, and the gateway's
      reply, if it arrives. */
  datatype Conditions = Conditions(settings: Settings, rights: string -> Access, pdfIntact: bool, reply: Option<Reply>)

  function PrimaryStatus(rows: seq<Row>, r: Row): Option<Status> {
    var copyOf := r.identity.copyOf;
    if copyOf.Some? && copyOf.value < |rows| then Some(rows[copyOf.value].status) else None
  }

  predicate CopyGranted(rows: seq<Row>, r: Row, settings: Settings, access: Access) {
    && r.identity.copyOf.Some? && r.identity.copyOf.value < |rows|
    && CheckCopy(r, rows[r.identity.copyOf.value], settings, access) == Granted
  }

  function AttemptOutcome(rows: seq<Row>, r: Row, c: Conditions): Outcome {
    if !c.settings.enabled then Error(false)
    else if r.identity.group && !CopyGranted(rows, r, c.settings, c.rights(r.identity.content.owner)) then Error(false)
    else if !c.pdfIntact || r.identity.content.provider.UnsupportedTransport? then Error(false)
    else OutcomeOf(c.reply)
  }

  /** The records after a worker run that commits. */
  function Worked(rows: seq<Row>, i: nat, now: int, later: int, c: Conditions): seq<Row>
    requires i < |rows|
  {
    match Decide(rows[i], PrimaryStatus(rows, rows[i]), now)
    case Skip => rows
    case ReleaseOnly => Released(rows, i)
    case Exhaust => rows[i := Exhausted(rows[i])]
    case Attempt =>
      var claimed := Claimed(rows[i]);
      var done := rows[i := Concluded(claimed, AttemptOutcome(rows, claimed, c), later)];
      if Terminal(done[i].status) && !done[i].identity.group then Released(done, i) else done
  }

  // ---- the retry scheduler ----

  predicate Due(r: Row, now: int) {
    r.status.Failed? && r.nextRetryAt.Some? && r.nextRetryAt.value <= now && !r.flagged
  }

  /** What the due query returns of a record. */
  datatype Selected = Selected(row: nat, retryCount: nat, maxRetries: int)

  predicate AtLimit(claim: Selected) { claim.retryCount >= LimitOf(claim.maxRetries) }

  /** A selected record is written, whatever it holds by now; the limit check looks at what was
      selected. When the enqueue fails the record becomes due at once. */
  function Scheduled(r: Row, claim: Selected, enqueued: bool, now: int): Row {
    if AtLimit(claim) then r.(nextRetryAt := None)
    else if enqueued then r.(status := Queued, nextRetryAt := None)
    else r.(status := Failed, nextRetryAt := Some(now))
  }

  // ---- status events ----

  /** The first record with the key. */
  function IndexOf(rows: seq<Row>, key: string): (r: Option<nat>)
    ensures r.Some? ==> r.value < |rows| && rows[r.value].identity.key == key
    ensures r.Some? ==> forall i | 0 <= i < r.value :: rows[i].identity.key != key
    ensures r.None? ==> forall i | 0 <= i < |rows| :: rows[i].identity.key != key
  {
    if rows == [] then None
    else
      var last := |rows| - 1;
      match IndexOf(rows[..last], key)
      case Some(i) => Some(i)
      case None => if rows[last].identity.key == key then Some(last) else None
  }

  function ApplyEvent(rows: seq<Row>, e: Event): seq<Row> {
    match IndexOf(rows, e.key)
    case None => rows
    case Some(i) => rows[i := rows[i].(status := e.status)]
  }

  function ApplyEvents(rows: seq<Row>, events: seq<Event>): (later: seq<Row>)
    ensures |later| == |rows|
  {
    if events == [] then rows
    else ApplyEvent(ApplyEvents(rows, events[..|events| - 1]), events[|events| - 1])
  }

  function Max(a: nat, b: nat): nat { if a >= b then a else b }

  function Advanced(cursor: nat, events: seq<Event>): nat {
    if events == [] then cursor
    else Max(Advanced(cursor, events[..|events| - 1]), events[|events| - 1].id)
  }

  // ---- the record's own validation ----

  predicate HasReferences(c: Content) {
    && (c.referenceType == "Document" ==> c.referenceDoctype != "" && c.referenceName != "")
    && (c.referenceType == "Report" ==> c.reportName != "")
  }

  /** A save that the record accepts: group copies keep their identity, and a submitted record
      carries its message ids. */
  predicate AcceptsSave(before: Option<Row>, after: Row) {
    && (before.Some? && (before.value.identity.group || after.identity.group
                         || before.value.identity.copyOf.Some? || after.identity.copyOf.Some?)
        ==> after.identity == before.value.identity)
    && (Terminal(after.status) ==> after.messageIds.Some?)
    && HasReferences(after.identity.content)
  }

  // ---- new deliveries ----

  /** A reviewed delivery: what to send and to whom. */
  datatype Draft = Draft(content: Content, recipient: string, filename: string)

  function NewRow(d: Draft, settings: Settings, copyOf: Option<nat>, recipient: string, key: string): Row {
    Row(Identity(copyOf.Some?, copyOf, key, recipient, d.filename, d.content.(provider := settings.provider)),
        if copyOf.Some? then Waiting else Queued, 0,
        if settings.retries.Some? then settings.retries.value else 0, None, false, None)
  }

  /** The records after a delivery is queued: the primary, and its company copy when one is configured. */
  function Stored(rows: seq<Row>, d: Draft, settings: Settings, readable: bool,
                  keys: (string, string)): Option<seq<Row>>
  {
    if !settings.enabled then None
    else
      var primary := NewRow(d, settings, None, d.recipient, keys.0);
      var withPrimary := rows + [primary];
      if IndexOf(rows, keys.0).Some? || !AcceptsSave(None, primary) then None
      else
        match ConfiguredGroup(settings, d.content.company, readable)
        case NoGroup => Some(withPrimary)
        case Configured(id) =>
          if IndexOf(withPrimary, keys.1).Some? then None
          else Some(withPrimary + [NewRow(d, settings, Some(|rows|), id, keys.1)])
        case _ => None
  }
}
