/** The send protocol as a machine: one action is one store statement, one provider call,
    one handler, or the death of the process. */
module GatewayProtocol {
  import opened Messages
  import opened Stores

  /** How one provider call ends. `NotSubmitted` is an error raised before the message request
      (the media upload of the official API); `Died` is the process dying during the call. */
  datatype Answer = Id(id: string) | NoId | Threw | NotSubmitted | Died

  predicate Confirms(a: Answer) { a.Id? && a.id != "" }

  datatype Call = Call(tenant: string, key: string, fp: Fingerprint, index: nat, answer: Answer)

  /** What the outside world decides at one step of a send. */
  datatype Choice = Choice(ready: bool, answer: Answer)

  /** Where a send has got to: the next thing it does. */
  datatype Point =
    | Checking                          // connection, membership or registration checks
    | Looping                           // group loop head: write the in-flight marker or leave the loop
    | Marked                            // marker written: make the provider call
    | Pushed(id: string)                // call confirmed: write the checkpoint
    | Delivering(sofar: seq<string>)    // individual loop
    | Failing(reconcile: bool)          // write the failed record
    | Reporting(reconcile: bool)        // log the failed event and reply
    | Finishing(confirmed: seq<string>) // write the submitted record
    | Recording(confirmed: seq<string>, next: nat) // store message ids, then log and reply

  datatype Process = Idle | Busy(ticket: int, q: Request, progress: Result, at: Point)

  datatype Reply = Sent(ids: seq<string>, replayed: bool) | Refused(reconciliation: bool)

  datatype Answered = Answered(q: Request, reply: Reply)

  /** The store is durable; the process dies; the other fields are history: every provider call,
      the last reply per ticket, the keys a Cloud webhook reported on, the sends past all guards. */
  datatype Gateway = Gateway(
    store: Store,
    process: Process,
    calls: seq<Call>,
    replies: map<int, Answered>,
    webhooked: set<string>,
    passes: multiset<string>)

  const INITIAL: Gateway := Gateway(Store(map[], map[], []), Idle, [], map[], {}, multiset{})

  datatype Verdict = Refuse(reconciliation: bool) | Replay(ids: seq<string>) | Proceed(completed: seq<string>)

  /** The job's record forbids another group submission. */
  predicate Blocked(r: Result) { r.reconciliation || r.inflight }

  /** The guards of a send, in the source's order. */
  function Judge(s: Store, q: Request): Verdict {
    var group := q.recipientType.Group?;
    var existing := q.key in s.jobs;
    if !ValidTenant(q.tenant) || !ValidKey(q.key) then Refuse(false)
    else if existing && s.jobs[q.key].tenant != q.tenant then Refuse(false)
    else if q.recipientType.Unsupported? then Refuse(false)
    else if group && !q.provider.Baileys? then Refuse(false)
    else if group && !ValidGroupId(q.recipient) then Refuse(false)
    else if !group && !ValidNumber(q.recipient) then Refuse(false)
    else if !ValidPdfs(q.pdfs) then Refuse(false)
    else if group && existing && s.jobs[q.key].result.fp != FingerprintOf(q) then Refuse(false)
    else if group && existing && Blocked(s.jobs[q.key].result) then Refuse(true)
    else if existing && Terminal(s.jobs[q.key].status) then Replay(s.jobs[q.key].result.ids)
    else if q.text == "" && q.pdfs == [] then Refuse(false)
    else if |q.text| > MAX_TEXT then Refuse(false)
    else Proceed(if group && existing then s.jobs[q.key].result.ids else [])
  }

  function Respond(g: Gateway, ticket: int, q: Request, reply: Reply): Gateway {
    g.(process := Idle, replies := g.replies[ticket := Answered(q, reply)])
  }

  /** A queued request reaches the head of the queue. */
  function Accept(g: Gateway, ticket: int, q: Request): Gateway
    requires g.process.Idle?
  {
    match Judge(g.store, q)
    case Refuse(r) => Respond(g, ticket, q, Refused(r))
    case Replay(ids) => Respond(g, ticket, q, Sent(ids, true))
    case Proceed(completed) =>
      var progress := Result(FingerprintOf(q), completed, false, false, false);
      g.(store := Upsert(g.store, q.key, q.tenant, Queued, progress, true),
         process := Busy(ticket, q, progress, Checking),
         passes := g.passes + multiset{q.key})
  }

  function CallAt(p: Process, index: nat, answer: Answer): Call
    requires p.Busy?
  {
    Call(p.q.tenant, p.q.key, p.progress.fp, index, answer)
  }

  function Goto(g: Gateway, at: Point): Gateway
    requires g.process.Busy?
  {
    g.(process := g.process.(at := at))
  }

  /** `checkpoint`: replace the progress and write it. */
  function Checkpoint(g: Gateway, ids: seq<string>, inflight: bool, at: Point): Gateway
    requires g.process.Busy?
  {
    var p := g.process;
    var progress := Result(p.progress.fp, ids, inflight, false, false);
    g.(store := Upsert(g.store, p.q.key, p.q.tenant, Processing, progress, false),
       process := p.(progress := progress, at := at))
  }

  /** The provider call of a marked group part. */
  function CallGroup(g: Gateway, a: Answer): Gateway
    requires g.process.Busy?
  {
    var made := g.(calls := g.calls + [CallAt(g.process, |g.process.progress.ids|, a)]);
    if Confirms(a) then Goto(made, Pushed(a.id))
    else if a.Died? then made.(process := Idle)
    else Goto(made, Failing(true))
  }

  predicate AllConfirmed(ids: seq<string>) {
    ids != [] && forall i | 0 <= i < |ids| :: ids[i] != ""
  }

  /** One turn of the individual loop, or its final check. */
  function CallIndividual(g: Gateway, sofar: seq<string>, a: Answer): Gateway
    requires g.process.Busy?
  {
    var p := g.process;
    if |sofar| >= PartCount(p.progress.fp) then
      Goto(g, if AllConfirmed(sofar) then Finishing(sofar) else Failing(false))
    else if a.NotSubmitted? && p.q.provider.OfficialApi? then
      Goto(g, Failing(false))
    else
      var made := g.(calls := g.calls + [CallAt(p, |sofar|, a)]);
      match a
      case Id(id) => Goto(made, Delivering(sofar + [id]))
      case NoId => Goto(made, Delivering(sofar + [""]))
      case Died => made.(process := Idle)
      case _ => Goto(made, Failing(false))
  }

  /** The next step of the send in progress. */
  function Advance(g: Gateway, c: Choice): Gateway
    requires g.process.Busy?
  {
    var p := g.process;
    match p.at
    case Checking =>
      Goto(g, if !c.ready then Failing(false) else if p.q.recipientType.Group? then Looping else Delivering([]))
    case Looping =>
      if |p.progress.ids| < PartCount(p.progress.fp) then Checkpoint(g, p.progress.ids, true, Marked)
      else Goto(g, Finishing(p.progress.ids))
    case Marked => CallGroup(g, c.answer)
    case Pushed(id) => Checkpoint(g, p.progress.ids + [id], false, Looping)
    case Delivering(sofar) => CallIndividual(g, sofar, c.answer)
    case Failing(r) =>
      Goto(g.(store := Upsert(g.store, p.q.key, p.q.tenant, Failed,
                              p.progress.(reconciliation := r), false)), Reporting(r))
    case Reporting(r) =>
      Respond(g.(store := WithEvent(g.store, p.q.tenant, p.q.key, Failed)), p.ticket, p.q, Refused(r))
    case Finishing(ids) =>
      Goto(g.(store := Upsert(g.store, p.q.key, p.q.tenant, Submitted,
                              Result(p.progress.fp, ids, false, false, true), false)), Recording(ids, 0))
    case Recording(ids, n) =>
      if n < |ids| then Goto(g.(store := WithMessage(g.store, ids[n], p.q.tenant, p.q.key)), Recording(ids, n + 1))
      else Respond(g.(store := WithEvent(g.store, p.q.tenant, p.q.key, Submitted)), p.ticket, p.q, Sent(ids, false))
  }

  /** Runs of statements without an `await`: no handler runs in between. */
  predicate Uninterrupted(p: Process) {
    p.Busy? && (p.at.Reporting? || p.at.Recording?)
  }

  datatype Action =
    | AcceptRequest(ticket: int, q: Request)
    | AdvanceSend(choice: Choice)
    | Die
    | Ack(messageId: string)
    | Webhook(tenant: string, messageId: string, failed: bool)

  predicate Enabled(g: Gateway, a: Action) {
    match a
    case AcceptRequest(_, _) => g.process.Idle?
    case AdvanceSend(_) => g.process.Busy?
    case Die => true
    case Ack(m) => !Uninterrupted(g.process) && m in g.store.messages
    case Webhook(tenant, m, _) =>
      !Uninterrupted(g.process) && m in g.store.messages && g.store.messages[m].tenant == tenant
  }

  function Step(g: Gateway, a: Action): Gateway
    requires Enabled(g, a)
  {
    match a
    case AcceptRequest(ticket, q) => Accept(g, ticket, q)
    case AdvanceSend(c) => Advance(g, c)
    case Die => g.(process := Idle)
    case Ack(m) =>
      var row := g.store.messages[m];
      g.(store := WithEvent(g.store, row.tenant, row.key, Acknowledged))
    case Webhook(tenant, m, failed) =>
      var row := g.store.messages[m];
      g.(store := WithEvent(g.store, tenant, row.key, if failed then Failed else Acknowledged),
         webhooked := g.webhooked + {row.key})
  }

  /** A run; an action that is not enabled changes nothing. */
  function Run(g: Gateway, actions: seq<Action>): Gateway
    decreases |actions|
  {
    if actions == [] then g
    else Run(if Enabled(g, actions[0]) then Step(g, actions[0]) else g, actions[1..])
  }

  /** A send left to itself until it replies, or until the choices run out and the process dies. */
  function Drive(g: Gateway, choices: seq<Choice>): Gateway
    decreases |choices|
  {
    if g.process.Idle? then g
    else if choices == [] then g.(process := Idle)
    else Drive(Advance(g, choices[0]), choices[1..])
  }
}
