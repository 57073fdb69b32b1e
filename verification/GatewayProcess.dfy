/** The gateway as it runs: `send` and its loops over the store, step by step. Each method is
    proved to do exactly what the machine of GatewayProtocol does with the same outside world. */
module GatewayProcess {
  import opened Messages
  import opened Stores
  import opened GatewayProtocol
  import opened GatewaySafety
  import opened GatewayGuarantees

  /** How the awaited part of a send ends. */
  datatype Outcome = ProcessDied | Thrown(reconcile: bool) | Returned(ids: seq<string>)

  /** The point of the machine that an outcome leads to. */
  function After(ticket: int, q: Request, progress: Result, o: Outcome): Process {
    match o
    case ProcessDied => Idle
    case Thrown(r) => Busy(ticket, q, progress, Failing(r))
    case Returned(ids) => Busy(ticket, q, progress, Finishing(ids))
  }

  lemma DriveTurn(g: Gateway, c: Choice, rest: seq<Choice>)
    requires g.process.Busy?
    ensures Drive(g, [c] + rest) == Drive(Advance(g, c), rest)
  {
    assert ([c] + rest)[1..] == rest;
  }

  class WhatsAppGateway {
    const store: GatewayStore
    /** What the outside world will answer, in order; when it runs out the process dies. */
    var world: seq<Choice>
    ghost var calls: seq<Call>
    ghost var replies: map<int, Answered>
    ghost var webhooked: set<string>
    ghost var passes: multiset<string>

    ghost function Machine(p: Process): Gateway
      reads this, store
    {
      Gateway(store.View(), p, calls, replies, webhooked, passes)
    }

    /** What the machine makes of the rest of this send. */
    ghost function Rest(p: Process): Gateway
      reads this, store
    {
      Drive(Machine(p), world)
    }

    constructor (world: seq<Choice>)
      ensures Machine(Idle) == INITIAL && this.world == world
      ensures fresh(store)
    {
      store := new GatewayStore();
      this.world := world;
      calls, replies, webhooked, passes := [], map[], {}, multiset{};
    }

    /** The process reaches the statement at point `p` of a send, or dies before it. */
    method Reach(ghost p: Process) returns (alive: bool, c: Choice)
      requires p.Busy?
      modifies this`world
      ensures alive ==> old(Rest(p)) == Drive(Advance(old(Machine(p)), c), world)
      ensures !alive ==> old(Rest(p)) == Rest(Idle)
    {
      c := Choice(false, Died);
      alive := world != [];
      if alive {
        DriveTurn(Machine(p), world[0], world[1..]);
        assert world == [world[0]] + world[1..];
        c, world := world[0], world[1..];
      }
    }

    method Checkpoint(q: Request, progress: Result, ids: seq<string>, inflight: bool) returns (updated: Result)
      modifies store
      ensures updated == Result(progress.fp, ids, inflight, false, false)
      ensures store.View() == Upsert(old(store.View()), q.key, q.tenant, Processing, updated, false)
    {
      updated := Result(progress.fp, ids, inflight, false, false);
      store.UpdateJob(q.key, q.tenant, Processing, updated, false);
    }

    /** The provider call of a marked part; what ends the send, or the confirmed id. */
    method CallProvider(ghost ticket: int, q: Request, progress: Result) returns (failure: Option<Outcome>, id: string)
      modifies this`world, this`calls
      ensures old(Rest(Busy(ticket, q, progress, Marked)))
           == Rest(match failure
                   case None => Busy(ticket, q, progress, Pushed(id))
                   case Some(o) => After(ticket, q, progress, o))
    {
      hide Drive, Accept;
      id := "";
      ghost var g := Machine(Busy(ticket, q, progress, Marked));
      var alive, c := Reach(g.process);
      if !alive { return Some(ProcessDied), id; }
      calls := calls + [Call(q.tenant, q.key, progress.fp, |progress.ids|, c.answer)];
      assert Machine(CallGroup(g, c.answer).process) == Advance(g, c);
      if c.answer.Died? { return Some(ProcessDied), id; }
      if !Confirms(c.answer) { return Some(Thrown(true)), id; }
      return None, c.answer.id;
    }

    /** One turn of the group loop: marker, provider call, checkpoint. */
    method SubmitPart(ghost ticket: int, q: Request, before: Result)
      returns (failure: Option<Outcome>, progress: Result)
      requires |before.ids| < PartCount(before.fp)
      modifies this`world, this`calls, store
      ensures failure.None? ==> progress.fp == before.fp && |progress.ids| == |before.ids| + 1
      ensures old(Rest(Busy(ticket, q, before, Looping)))
           == Rest(match failure
                   case None => Busy(ticket, q, progress, Looping)
                   case Some(o) => After(ticket, q, progress, o))
    {
      hide Drive, Accept;
      progress := before;
      ghost var g := Machine(Busy(ticket, q, progress, Looping));
      var alive, c := Reach(g.process);
      if !alive { return Some(ProcessDied), progress; }
      progress := Checkpoint(q, progress, progress.ids, true);
      assert Machine(Busy(ticket, q, progress, Marked)) == Advance(g, c);

      var id;
      failure, id := CallProvider(ticket, q, progress);
      if failure.Some? { return failure, progress; }

      g := Machine(Busy(ticket, q, progress, Pushed(id)));
      alive, c := Reach(g.process);
      if !alive { return Some(ProcessDied), progress; }
      progress := Checkpoint(q, progress, progress.ids + [id], false);
      assert Machine(Busy(ticket, q, progress, Looping)) == Advance(g, c);
    }

    method SendGroup(ghost ticket: int, q: Request, completed: Result) returns (o: Outcome, progress: Result)
      requires q.recipientType.Group?
      modifies this`world, this`calls, store
      ensures Rest(After(ticket, q, progress, o)) == old(Rest(Busy(ticket, q, completed, Checking)))
    {
      ghost var goal := Rest(Busy(ticket, q, completed, Checking));
      progress := completed;
      var alive, c := Reach(Busy(ticket, q, progress, Checking));
      if !alive { return ProcessDied, progress; }
      if !c.ready { return Thrown(false), progress; }
      while |progress.ids| < PartCount(progress.fp)
        invariant goal == Rest(Busy(ticket, q, progress, Looping))
        decreases PartCount(progress.fp) - |progress.ids|
      {
        var failure;
        failure, progress := SubmitPart(ticket, q, progress);
        if failure.Some? { return failure.value, progress; }
      }
      alive, c := Reach(Busy(ticket, q, progress, Looping));
      if !alive { return ProcessDied, progress; }
      return Returned(progress.ids), progress;
    }

    method SendIndividual(ghost ticket: int, q: Request, progress: Result) returns (o: Outcome)
      requires !q.recipientType.Group?
      modifies this`world, this`calls
      ensures Rest(After(ticket, q, progress, o)) == old(Rest(Busy(ticket, q, progress, Checking)))
    {
      hide Drive, Judge;
      ghost var goal := Rest(Busy(ticket, q, progress, Checking));
      var alive, c := Reach(Busy(ticket, q, progress, Checking));
      if !alive { return ProcessDied; }
      if !c.ready { return Thrown(false); }
      var ids := [];
      while |ids| < PartCount(progress.fp)
        invariant goal == Rest(Busy(ticket, q, progress, Delivering(ids)))
        decreases PartCount(progress.fp) - |ids|
      {
        alive, c := Reach(Busy(ticket, q, progress, Delivering(ids)));
        if !alive { return ProcessDied; }
        if c.answer.NotSubmitted? && q.provider.OfficialApi? { return Thrown(false); }
        calls := calls + [Call(q.tenant, q.key, progress.fp, |ids|, c.answer)];
        if c.answer.Died? { return ProcessDied; }
        if c.answer.Threw? || c.answer.NotSubmitted? { return Thrown(false); }
        ids := ids + [if c.answer.Id? then c.answer.id else ""];
      }
      alive, c := Reach(Busy(ticket, q, progress, Delivering(ids)));
      if !alive { return ProcessDied; }
      if !AllConfirmed(ids) { return Thrown(false); }
      return Returned(ids);
    }

    method Respond(ghost ticket: int, ghost q: Request, reply: Reply)
      modifies this`replies
      ensures replies == old(replies)[ticket := Answered(q, reply)]
    {
      replies := replies[ticket := Answered(q, reply)];
    }

    /** The last step of a send: log its event and reply. */
    method LogAndReply(ghost ticket: int, q: Request, ghost progress: Result, ghost at: Point,
                       status: Status, reply: Reply)
      returns (alive: bool)
      requires || (status == Failed && reply.Refused? && at == Reporting(reply.reconciliation))
               || (status == Submitted && reply.Sent? && !reply.replayed && at == Recording(reply.ids, |reply.ids|))
      modifies this`world, this`replies, store
      ensures Rest(Idle) == old(Rest(Busy(ticket, q, progress, at)))
      ensures alive ==> ticket in replies && replies[ticket] == Answered(q, reply)
    {
      ghost var g := Machine(Busy(ticket, q, progress, at));
      var c;
      alive, c := Reach(g.process);
      if alive {
        store.AddEvent(q.tenant, q.key, status);
        Respond(ticket, q, reply);
        assert Machine(Idle) == Advance(g, c);
      }
    }

    /** The `catch` of a send: record the failure, log it, report it. */
    method Fail(ghost ticket: int, q: Request, progress: Result, reconcile: bool) returns (reply: Option<Reply>)
      modifies this`world, this`replies, store
      ensures Rest(Idle) == old(Rest(Busy(ticket, q, progress, Failing(reconcile))))
      ensures reply.Some? ==> ticket in replies && replies[ticket] == Answered(q, reply.value)
    {
      ghost var g := Machine(Busy(ticket, q, progress, Failing(reconcile)));
      var alive, c := Reach(g.process);
      if !alive { return None; }
      store.UpdateJob(q.key, q.tenant, Failed, progress.(reconciliation := reconcile), false);
      assert Machine(Busy(ticket, q, progress, Reporting(reconcile))) == Advance(g, c);
      alive := LogAndReply(ticket, q, progress, Reporting(reconcile), Failed, Refused(reconcile));
      reply := if alive then Some(Refused(reconcile)) else None;
    }

    method RecordMessages(ghost ticket: int, q: Request, ghost progress: Result, ids: seq<string>) returns (alive: bool)
      modifies this`world, store
      ensures old(Rest(Busy(ticket, q, progress, Recording(ids, 0))))
           == Rest(if alive then Busy(ticket, q, progress, Recording(ids, |ids|)) else Idle)
    {
      hide Drive, Accept;
      ghost var goal := Rest(Busy(ticket, q, progress, Recording(ids, 0)));
      var c;
      alive := true;
      for n := 0 to |ids|
        invariant alive && goal == Rest(Busy(ticket, q, progress, Recording(ids, n)))
      {
        ghost var g := Machine(Busy(ticket, q, progress, Recording(ids, n)));
        alive, c := Reach(g.process);
        if !alive { return; }
        store.AddMessage(ids[n], q.tenant, q.key);
        assert Machine(Busy(ticket, q, progress, Recording(ids, n + 1))) == Advance(g, c);
      }
    }

    /** The end of a successful send: record the submission, index its messages, log it. */
    method Complete(ghost ticket: int, q: Request, progress: Result, ids: seq<string>) returns (reply: Option<Reply>)
      modifies this`world, this`replies, store
      ensures Rest(Idle) == old(Rest(Busy(ticket, q, progress, Finishing(ids))))
      ensures reply.Some? ==> ticket in replies && replies[ticket] == Answered(q, reply.value)
    {
      ghost var g := Machine(Busy(ticket, q, progress, Finishing(ids)));
      var alive, c := Reach(g.process);
      if !alive { return None; }
      store.UpdateJob(q.key, q.tenant, Submitted, Result(progress.fp, ids, false, false, true), false);
      assert Machine(Busy(ticket, q, progress, Recording(ids, 0))) == Advance(g, c);
      alive := RecordMessages(ticket, q, progress, ids);
      if !alive { return None; }
      alive := LogAndReply(ticket, q, progress, Recording(ids, |ids|), Submitted, Sent(ids, false));
      reply := if alive then Some(Sent(ids, false)) else None;
    }

    /** The guards, which write nothing; `None` when the send may proceed. */
    method Guard(q: Request) returns (refusal: Option<Reply>, completed: seq<string>)
      ensures refusal == match Judge(store.View(), q)
                         case Refuse(r) => Some(Refused(r))
                         case Replay(ids) => Some(Sent(ids, true))
                         case Proceed(_) => None
      ensures refusal.None? ==> Judge(store.View(), q) == Proceed(completed)
      ensures refusal.None? <==> WellFormed(q) && Admits(store.View(), q) && Sendable(q)
      ensures refusal.None? ==>
        completed == if q.recipientType == Group && q.key in store.jobs then store.jobs[q.key].result.ids else []
    {
      hide WellFormed, Admits, Sendable, ValidTenant, ValidKey, ValidPdfs, ValidGroupId, ValidNumber;
      AcceptsExactly(Machine(Idle), 0, q);
      completed := [];
      if !ValidTenant(q.tenant) || !ValidKey(q.key) { return Some(Refused(false)), []; }
      var existing := store.GetJob(q.key);
      if existing.Some? && existing.value.tenant != q.tenant { return Some(Refused(false)), []; }
      var group := q.recipientType.Group?;
      if q.recipientType.Unsupported? { return Some(Refused(false)), []; }
      if group && !q.provider.Baileys? { return Some(Refused(false)), []; }
      if group && !ValidGroupId(q.recipient) { return Some(Refused(false)), []; }
      if !group && !ValidNumber(q.recipient) { return Some(Refused(false)), []; }
      if !ValidPdfs(q.pdfs) { return Some(Refused(false)), []; }
      if existing.Some? {
        var prior := existing.value.result;
        if group && prior.fp != FingerprintOf(q) { return Some(Refused(false)), []; }
        if group && Blocked(prior) { return Some(Refused(true)), []; }
        if Terminal(existing.value.status) { return Some(Sent(prior.ids, true)), []; }
        if group { completed := prior.ids; }
      }
      if q.text == "" && q.pdfs == [] { return Some(Refused(false)), []; }
      if |q.text| > MAX_TEXT { return Some(Refused(false)), []; }
      refusal := None;
    }

    /** One queued send, from its guards to its reply or the death of the process. */
    method Send(ghost ticket: int, q: Request) returns (reply: Option<Reply>)
      modifies this`world, this`calls, this`replies, this`passes, store
      ensures Machine(Idle) == Drive(old(Accept(Machine(Idle), ticket, q)), old(world))
      ensures old(Inv(Machine(Idle))) ==> Inv(Machine(Idle))
      ensures reply.Some? ==> ticket in replies && replies[ticket] == Answered(q, reply.value)
    {
      hide Inv, Judge, Advance, WellFormed, Admits, Sendable;
      ghost var accepted := Accept(Machine(Idle), ticket, q);
      if Inv(Machine(Idle)) {
        SendKeepsInv(Machine(Idle), ticket, q, world);
      }
      var refusal, completed := Guard(q);
      if refusal.Some? {
        Respond(ticket, q, refusal.value);
        return refusal;
      }
      var progress := Result(FingerprintOf(q), completed, false, false, false);
      store.UpdateJob(q.key, q.tenant, Queued, progress, true);
      passes := passes + multiset{q.key};
      assert Machine(Busy(ticket, q, progress, Checking)) == accepted;
      var o;
      if q.recipientType.Group? {
        o, progress := SendGroup(ticket, q, progress);
      } else {
        o := SendIndividual(ticket, q, progress);
      }
      match o
      case ProcessDied => reply := None;
      case Thrown(r) => reply := Fail(ticket, q, progress, r);
      case Returned(ids) => reply := Complete(ticket, q, progress, ids);
    }

    /** A status update of the linked device, wherever the process is but for the runs of statements
        that no handler interrupts. */
    method MessageUpdate(ghost p: Process, messageId: string, status: int)
      requires !Uninterrupted(p)
      modifies store
      ensures Machine(p) == if status >= 2 && old(Enabled(Machine(p), Ack(messageId)))
                            then old(Step(Machine(p), Ack(messageId))) else old(Machine(p))
      ensures store.jobs == old(store.jobs) && store.messages == old(store.messages)
      ensures store.events == old(store.events) +
        if status >= 2 && messageId in store.messages then
          var row := store.messages[messageId];
          [Event(|old(store.events)| + 1, row.tenant, row.key, Acknowledged)]
        else []
    {
      var row := store.JobForMessage(messageId);
      if row.Some? && status >= 2 {
        store.AddEvent(row.value.tenant, row.value.key, Acknowledged);
      }
    }

    /** One status of a verified Cloud webhook, under the same condition. */
    method WebhookStatus(ghost p: Process, tenant: string, messageId: string, failed: bool)
      requires !Uninterrupted(p)
      modifies store, this`webhooked
      ensures Machine(p) == if old(Enabled(Machine(p), Webhook(tenant, messageId, failed)))
                            then old(Step(Machine(p), Webhook(tenant, messageId, failed))) else old(Machine(p))
      ensures store.jobs == old(store.jobs) && store.messages == old(store.messages)
      ensures store.events == old(store.events) +
        if messageId in store.messages && store.messages[messageId].tenant == tenant then
          var status := if failed then Failed else Acknowledged;
          [Event(|old(store.events)| + 1, tenant, store.messages[messageId].key, status)]
        else []
    {
      var row := store.JobForMessage(messageId);
      if row.Some? && row.value.tenant == tenant {
        store.AddEvent(tenant, row.value.key, if failed then Failed else Acknowledged);
        webhooked := webhooked + {row.value.key};
      }
    }
  }
}
