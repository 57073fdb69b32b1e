/** What a send comes to, given what the outside world does: which calls it makes and in which order,
    what it records, and what it answers. */
module GatewayOutcomes {
  import opened Messages
  import opened Stores
  import opened GatewayProtocol

  lemma DriveOne(g: Gateway, choices: seq<Choice>)
    requires g.process.Busy? && choices != []
    ensures Drive(g, choices) == Drive(Advance(g, choices[0]), choices[1..])
  {
    hide Advance;
  }

  lemma DriveThree(g: Gateway, choices: seq<Choice>)
    requires g.process.Busy? && |choices| >= 3
    requires Advance(g, choices[0]).process.Busy? && Advance(Advance(g, choices[0]), choices[1]).process.Busy?
    ensures Drive(g, choices)
         == Drive(Advance(Advance(Advance(g, choices[0]), choices[1]), choices[2]), choices[3..])
  {
    hide Advance, Drive;
    DriveOne(g, choices);
    DriveOne(Advance(g, choices[0]), choices[1..]);
    DriveOne(Advance(Advance(g, choices[0]), choices[1]), choices[2..]);
    assert choices[1..][1..] == choices[2..] && choices[2..][1..] == choices[3..];
  }

  predicate Owns(s: Store, q: Request) { q.key in s.jobs && s.jobs[q.key].tenant == q.tenant }

  /** The gateway when the send in progress has ended: its job, its event and its reply. */
  predicate Ended(g: Gateway, h: Gateway, status: Status, result: Result, reply: Reply)
    requires g.process.Busy?
  {
    var p := g.process;
    && h.process.Idle? && h.passes == g.passes && h.webhooked == g.webhooked
    && h.replies == g.replies[p.ticket := Answered(p.q, reply)]
    && p.q.key in g.store.jobs
    && h.store.jobs == g.store.jobs[p.q.key := g.store.jobs[p.q.key].(status := status, result := result)]
    && h.store.events == g.store.events + [Event(|g.store.events| + 1, p.q.tenant, p.q.key, status)]
  }

  /** Every id now belongs to the key, and no other message has changed. */
  ghost predicate Indexed(before: map<string, MessageRow>, after: map<string, MessageRow>, ids: seq<string>,
                          row: MessageRow)
  {
    && (forall id | id in ids :: id in after && after[id] == row)
    && (forall id | id !in ids :: (id in after <==> id in before) && (id in before ==> after[id] == before[id]))
  }

  // ---- the end of a send ----

  lemma {:induction false} RecordsAndReplies(g: Gateway, choices: seq<Choice>)
    requires g.process.Busy? && g.process.at.Recording? && Owns(g.store, g.process.q)
    requires g.process.at.next <= |g.process.at.confirmed| && |choices| > |g.process.at.confirmed| - g.process.at.next
    ensures var p, h := g.process, Drive(g, choices);
      && h.process.Idle? && h.passes == g.passes && h.webhooked == g.webhooked && h.calls == g.calls
      && h.replies == g.replies[p.ticket := Answered(p.q, Sent(p.at.confirmed, false))]
      && h.store.jobs == g.store.jobs
      && h.store.events == g.store.events + [Event(|g.store.events| + 1, p.q.tenant, p.q.key, Submitted)]
      && Indexed(g.store.messages, h.store.messages, p.at.confirmed[p.at.next..], MessageRow(p.q.tenant, p.q.key))
    decreases |choices|
  {
    var p := g.process;
    var ids, n := p.at.confirmed, p.at.next;
    DriveOne(g, choices);
    if n < |ids| {
      RecordsAndReplies(Advance(g, choices[0]), choices[1..]);
      assert ids[n..] == [ids[n]] + ids[n + 1..];
    }
  }

  /** A send whose parts are all confirmed is recorded, indexed, logged and answered with their ids. */
  lemma FinishesSubmitted(g: Gateway, choices: seq<Choice>)
    requires g.process.Busy? && g.process.at.Finishing? && Owns(g.store, g.process.q)
    requires |choices| >= |g.process.at.confirmed| + 2
    ensures var p, ids, h := g.process, g.process.at.confirmed, Drive(g, choices);
      && Ended(g, h, Submitted, Result(p.progress.fp, ids, false, false, true), Sent(ids, false))
      && h.calls == g.calls
      && Indexed(g.store.messages, h.store.messages, ids, MessageRow(p.q.tenant, p.q.key))
  {
    DriveOne(g, choices);
    RecordsAndReplies(Advance(g, choices[0]), choices[1..]);
    assert g.process.at.confirmed[0..] == g.process.at.confirmed;
  }

  /** A send that fails keeps its progress, with the reconciliation flag, logs the failure and says so. */
  lemma FinishesFailed(g: Gateway, choices: seq<Choice>)
    requires g.process.Busy? && g.process.at.Failing? && Owns(g.store, g.process.q) && |choices| >= 2
    ensures var p, r, h := g.process, g.process.at.reconcile, Drive(g, choices);
      && Ended(g, h, Failed, p.progress.(reconciliation := r), Refused(r))
      && h.calls == g.calls && h.store.messages == g.store.messages
  {
    DriveOne(g, choices);
    DriveOne(Advance(g, choices[0]), choices[1..]);
  }

  /** The device is not ready: nothing is called, and the send fails without the flag. */
  lemma UnreadySendFails(g: Gateway, choices: seq<Choice>)
    requires g.process.Busy? && g.process.at.Checking? && Owns(g.store, g.process.q)
    requires |choices| >= 3 && !choices[0].ready
    ensures var h := Drive(g, choices);
      && Ended(g, h, Failed, g.process.progress.(reconciliation := false), Refused(false))
      && h.calls == g.calls && h.store.messages == g.store.messages
  {
    DriveOne(g, choices);
    FinishesFailed(Advance(g, choices[0]), choices[1..]);
  }

  // ---- the calls of a send ----

  /** The calls of the parts from `first` on, each once and in order. */
  function CallsOf(p: Process, first: nat, answers: seq<Answer>): seq<Call>
    requires p.Busy?
  {
    seq(|answers|, i requires 0 <= i < |answers| =>
      Call(p.q.tenant, p.q.key, p.progress.fp, first + i, answers[i]))
  }

  function Confirming(ids: seq<string>): seq<Answer> {
    seq(|ids|, i requires 0 <= i < |ids| => Id(ids[i]))
  }

  lemma CallsAppend(p: Process, first: nat, answers: seq<Answer>, more: seq<Answer>)
    requires p.Busy?
    ensures CallsOf(p, first, answers + more) == CallsOf(p, first, answers) + CallsOf(p, first + |answers|, more)
  {
  }

  lemma OneCall(p: Process, index: nat, a: Answer)
    requires p.Busy?
    ensures CallsOf(p, index, [a]) == [CallAt(p, index, a)]
  {
  }

  /** The calls of a send depend on its request and payload only. */
  lemma SameCalls(p: Process, r: Process, first: nat, answers: seq<Answer>)
    requires p.Busy? && r.Busy? && p.q == r.q && p.progress.fp == r.progress.fp
    ensures CallsOf(p, first, answers) == CallsOf(r, first, answers)
  {
  }

  // ---- a group send ----

  /** The next parts are confirmed with these ids: a part takes a marker, a call and a checkpoint. */
  predicate PartsConfirmed(choices: seq<Choice>, ids: seq<string>)
    decreases |ids|
  {
    ids != [] ==>
      && |choices| >= 3 && ids[0] != "" && choices[1].answer == Id(ids[0])
      && PartsConfirmed(choices[3..], ids[1..])
  }

  lemma {:induction false} EnoughChoices(choices: seq<Choice>, ids: seq<string>)
    requires PartsConfirmed(choices, ids)
    ensures |choices| >= 3 * |ids|
    decreases |ids|
  {
    if ids == [] {
    } else {
      EnoughChoices(choices[3..], ids[1..]);
    }
  }

  lemma GroupPartConfirmed(g: Gateway, a: Choice, b: Choice, c: Choice)
    requires g.process.Busy? && g.process.at.Looping? && Owns(g.store, g.process.q)
    requires |g.process.progress.ids| < PartCount(g.process.progress.fp) && Confirms(b.answer)
    ensures var p := g.process;
      var h := Advance(g, a);
      h.process.Busy? && Advance(h, b).process.Busy?
      && var k := Advance(Advance(h, b), c);
         var progress := Result(p.progress.fp, p.progress.ids + [b.answer.id], false, false, false);
         && k.process == p.(progress := progress) && k.passes == g.passes && k.webhooked == g.webhooked
         && k.calls == g.calls + [Call(p.q.tenant, p.q.key, p.progress.fp, |p.progress.ids|, b.answer)]
         && k.replies == g.replies && k.store.messages == g.store.messages && k.store.events == g.store.events
         && k.store.jobs == g.store.jobs[p.q.key := g.store.jobs[p.q.key].(status := Processing, result := progress)]
  {
  }

  /** The job of the key is the only one that has changed, in its status and its result. */
  predicate SameButResult(before: map<string, Job>, after: map<string, Job>, key: string) {
    && key in before && key in after
    && after == before[key := before[key].(status := after[key].status, result := after[key].result)]
  }

  /** The send has got past `ids` more parts, each called once and checkpointed. */
  predicate Progressed(g: Gateway, h: Gateway, ids: seq<string>)
    requires g.process.Busy?
  {
    var p := g.process;
    && h.process == p.(progress := if ids == [] then p.progress
                                   else Result(p.progress.fp, p.progress.ids + ids, false, false, false))
    && h.passes == g.passes && h.webhooked == g.webhooked && h.replies == g.replies
    && h.calls == g.calls + CallsOf(p, |p.progress.ids|, Confirming(ids))
    && h.store.messages == g.store.messages && h.store.events == g.store.events
    && SameButResult(g.store.jobs, h.store.jobs, p.q.key)
  }

  lemma OneMorePart(g: Gateway, h: Gateway, k: Gateway, id: string, ids: seq<string>)
    requires g.process.Busy? && h.process.Busy? && Progressed(g, h, [id]) && Progressed(h, k, ids)
    ensures Progressed(g, k, [id] + ids)
  {
    var p := g.process;
    assert p.progress.ids + ([id] + ids) == (p.progress.ids + [id]) + ids;
    assert Confirming([id] + ids) == Confirming([id]) + Confirming(ids);
    CallsAppend(p, |p.progress.ids|, Confirming([id]), Confirming(ids));
    SameCalls(h.process, p, |p.progress.ids| + 1, Confirming(ids));
    assert ids == [] ==> [id] + ids == [id];
  }

  lemma {:induction false} GroupPartsConfirmed(g: Gateway, choices: seq<Choice>, ids: seq<string>) returns (h: Gateway)
    requires g.process.Busy? && g.process.at.Looping? && Owns(g.store, g.process.q)
    requires |g.process.progress.ids| + |ids| <= PartCount(g.process.progress.fp) && PartsConfirmed(choices, ids)
    ensures Progressed(g, h, ids) && |choices| >= 3 * |ids|
    ensures Drive(g, choices) == Drive(h, choices[3 * |ids|..])
    decreases |ids|
  {
    hide Drive, Advance;
    EnoughChoices(choices, ids);
    if ids == [] {
      h := g;
      assert g.calls + CallsOf(g.process, |g.process.progress.ids|, Confirming(ids)) == g.calls;
      assert choices[0..] == choices;
    } else {
      var p := g.process;
      GroupPartConfirmed(g, choices[0], choices[1], choices[2]);
      DriveThree(g, choices);
      var k := Advance(Advance(Advance(g, choices[0]), choices[1]), choices[2]);
      assert Confirming([ids[0]]) == [choices[1].answer];
      OneCall(p, |p.progress.ids|, choices[1].answer);
      assert Progressed(g, k, [ids[0]]);
      h := GroupPartsConfirmed(k, choices[3..], ids[1..]);
      OneMorePart(g, k, h, ids[0], ids[1..]);
      assert [ids[0]] + ids[1..] == ids;
      assert choices[3..][3 * |ids[1..]|..] == choices[3 * |ids|..];
    }
  }

  lemma ReadyGroupLoops(g: Gateway, c: Choice)
    requires g.process.Busy? && g.process.at.Checking? && c.ready && g.process.q.recipientType == Group
    ensures Advance(g, c) == Goto(g, Looping)
  {
  }

  /** A group send on a ready device after its next parts have been confirmed. */
  lemma GroupSendSoFar(g: Gateway, choices: seq<Choice>, ids: seq<string>) returns (h: Gateway)
    requires g.process.Busy? && g.process.at.Checking? && Owns(g.store, g.process.q)
    requires g.process.q.recipientType == Group
    requires |g.process.progress.ids| + |ids| <= PartCount(g.process.progress.fp)
    requires choices != [] && choices[0].ready && PartsConfirmed(choices[1..], ids)
    ensures Progressed(Goto(g, Looping), h, ids)
    ensures h.process.progress.ids == g.process.progress.ids + ids
    ensures |choices| >= 1 + 3 * |ids| && Drive(g, choices) == Drive(h, choices[1 + 3 * |ids|..])
  {
    hide Drive, Advance, PartsConfirmed;
    DriveOne(g, choices);
    ReadyGroupLoops(g, choices[0]);
    h := GroupPartsConfirmed(Goto(g, Looping), choices[1..], ids);
    assert choices[1..][3 * |ids|..] == choices[1 + 3 * |ids|..];
    if ids == [] {
      assert g.process.progress.ids + ids == g.process.progress.ids;
    }
  }

  lemma ProgressKept(g: Gateway, h: Gateway, ids: seq<string>)
    requires g.process.Busy? && Progressed(g, h, ids)
    ensures h.process.Busy? && h.process.q == g.process.q && h.process.at == g.process.at
    ensures h.process.progress.fp == g.process.progress.fp
    ensures h.calls == g.calls + CallsOf(g.process, |g.process.progress.ids|, Confirming(ids))
    ensures h.store.messages == g.store.messages && (Owns(g.store, g.process.q) ==> Owns(h.store, h.process.q))
  {
  }

  lemma OneMoreCall(calls: seq<Call>, p: Process, r: Process, ids: seq<string>, a: Answer)
    requires p.Busy? && r.Busy? && p.q == r.q && p.progress == r.progress
    ensures var n := |p.progress.ids|;
      calls + CallsOf(r, n, Confirming(ids)) + [Call(p.q.tenant, p.q.key, p.progress.fp, n + |ids|, a)]
      == calls + CallsOf(p, n, Confirming(ids) + [a])
  {
    SameCalls(r, p, |p.progress.ids|, Confirming(ids));
    CallsAppend(p, |p.progress.ids|, Confirming(ids), [a]);
    OneCall(p, |p.progress.ids| + |ids|, a);
  }

  lemma EndedLater(g: Gateway, h: Gateway, ids: seq<string>, k: Gateway, status: Status, result: Result, reply: Reply)
    requires g.process.Busy? && h.process.Busy? && Progressed(Goto(g, Looping), h, ids)
    requires Ended(h, k, status, result, reply)
    ensures Ended(g, k, status, result, reply)
  {
  }

  /** A group send on a ready device whose remaining parts are all confirmed calls each of them once,
      in order, and ends submitted with the recorded ids followed by the new ones. */
  lemma GroupSendCompletes(g: Gateway, choices: seq<Choice>, ids: seq<string>)
    requires g.process.Busy? && g.process.at.Checking? && Owns(g.store, g.process.q)
    requires g.process.q.recipientType == Group
    requires |g.process.progress.ids| + |ids| == PartCount(g.process.progress.fp)
    requires |choices| >= 4 + 3 * |ids| + PartCount(g.process.progress.fp)
    requires choices[0].ready && PartsConfirmed(choices[1..], ids)
    ensures var p, h := g.process, Drive(g, choices);
      var all := p.progress.ids + ids;
      && Ended(g, h, Submitted, Result(p.progress.fp, all, false, false, true), Sent(all, false))
      && h.calls == g.calls + CallsOf(p, |p.progress.ids|, Confirming(ids))
      && Indexed(g.store.messages, h.store.messages, all, MessageRow(p.q.tenant, p.q.key))
  {
    hide Drive, Indexed, PartsConfirmed, CallsOf;
    var p := g.process;
    var h := GroupSendSoFar(g, choices, ids);
    SameCalls(Goto(g, Looping).process, p, |p.progress.ids|, Confirming(ids));
    var rest := choices[1 + 3 * |ids|..];
    DriveOne(h, rest);
    FinishesSubmitted(Advance(h, rest[0]), rest[1..]);
  }

  lemma UncertainPart(g: Gateway, choices: seq<Choice>)
    requires g.process.Busy? && g.process.at.Looping? && Owns(g.store, g.process.q) && |choices| >= 4
    requires |g.process.progress.ids| < PartCount(g.process.progress.fp)
    requires !Confirms(choices[1].answer) && choices[1].answer != Died
    ensures var p, h := g.process, Drive(g, choices);
      && Ended(g, h, Failed, Result(p.progress.fp, p.progress.ids, true, true, false), Refused(true))
      && h.calls == g.calls + [Call(p.q.tenant, p.q.key, p.progress.fp, |p.progress.ids|, choices[1].answer)]
      && h.store.messages == g.store.messages
  {
    hide Drive;
    DriveOne(g, choices);
    var marked := Advance(g, choices[0]);
    DriveOne(marked, choices[1..]);
    FinishesFailed(Advance(marked, choices[1]), choices[2..]);
    assert choices[1..][1..] == choices[2..];
  }

  /** A call that ends in anything but a confirmation, the process living on, is uncertain: the send
      stops there, keeps the ids so far and its marker, and asks for reconciliation. */
  lemma GroupSendUncertain(g: Gateway, choices: seq<Choice>, ids: seq<string>, a: Answer)
    requires g.process.Busy? && g.process.at.Checking? && Owns(g.store, g.process.q)
    requires g.process.q.recipientType == Group
    requires |g.process.progress.ids| + |ids| < PartCount(g.process.progress.fp)
    requires |choices| >= 5 + 3 * |ids| && choices[0].ready && PartsConfirmed(choices[1..], ids)
    requires a == choices[2 + 3 * |ids|].answer && a != Died && (a.Id? ==> a.id == "")
    ensures var p, h := g.process, Drive(g, choices);
      && Ended(g, h, Failed, Result(p.progress.fp, p.progress.ids + ids, true, true, false), Refused(true))
      && h.calls == g.calls + CallsOf(p, |p.progress.ids|, Confirming(ids) + [a])
      && h.store.messages == g.store.messages
  {
    hide Drive, Advance, PartsConfirmed, CallsOf, Confirming, Progressed, Ended, PartCount;
    var p := g.process;
    var h := GroupSendSoFar(g, choices, ids);
    ProgressKept(Goto(g, Looping), h, ids);
    var rest := choices[1 + 3 * |ids|..];
    assert rest[1] == choices[2 + 3 * |ids|];
    UncertainPart(h, rest);
    var k := Drive(h, rest);
    assert k.calls == h.calls + [Call(p.q.tenant, p.q.key, p.progress.fp, |p.progress.ids| + |ids|, a)];
    OneMoreCall(g.calls, p, Goto(g, Looping).process, ids, a);
    EndedLater(g, h, ids, k, Failed, Result(p.progress.fp, p.progress.ids + ids, true, true, false), Refused(true));
  }

  lemma DyingPart(g: Gateway, choices: seq<Choice>)
    requires g.process.Busy? && g.process.at.Looping? && Owns(g.store, g.process.q) && |choices| >= 2
    requires |g.process.progress.ids| < PartCount(g.process.progress.fp) && choices[1].answer == Died
    ensures var p, j := g.process, g.store.jobs;
      Drive(g, choices) == g.(
        process := Idle,
        calls := g.calls + [Call(p.q.tenant, p.q.key, p.progress.fp, |p.progress.ids|, Died)],
        store := g.store.(jobs := j[p.q.key := j[p.q.key].(
          status := Processing, result := Result(p.progress.fp, p.progress.ids, true, false, false))]))
  {
    hide Drive;
    DriveOne(g, choices);
    var marked := Advance(g, choices[0]);
    DriveOne(marked, choices[1..]);
    IdleStays(Advance(marked, choices[1]), choices[1..][1..]);
  }

  lemma IdleStays(g: Gateway, choices: seq<Choice>)
    requires g.process.Idle?
    ensures Drive(g, choices) == g
  {
  }

  /** A process that dies during a call leaves the ids so far and the marker behind, and no reply. */
  lemma GroupSendDies(g: Gateway, choices: seq<Choice>, ids: seq<string>)
    requires g.process.Busy? && g.process.at.Checking? && Owns(g.store, g.process.q)
    requires g.process.q.recipientType == Group
    requires |g.process.progress.ids| + |ids| < PartCount(g.process.progress.fp)
    requires |choices| >= 3 + 3 * |ids| && choices[0].ready && PartsConfirmed(choices[1..], ids)
    requires choices[2 + 3 * |ids|].answer == Died
    ensures var p, h := g.process, Drive(g, choices);
      var j := g.store.jobs[p.q.key];
      && h.process.Idle? && h.replies == g.replies
      && h.store == g.store.(jobs := g.store.jobs[p.q.key := j.(
           status := Processing, result := Result(p.progress.fp, p.progress.ids + ids, true, false, false))])
      && h.calls == g.calls + CallsOf(p, |p.progress.ids|, Confirming(ids) + [Died])
  {
    hide Drive, Advance, PartsConfirmed, CallsOf;
    var p := g.process;
    var h := GroupSendSoFar(g, choices, ids);
    OneMoreCall(g.calls, p, Goto(g, Looping).process, ids, Died);
    var rest := choices[1 + 3 * |ids|..];
    assert rest[1] == choices[2 + 3 * |ids|];
    DyingPart(h, rest);
  }

  // ---- an individual send ----

  /** An answer that the individual loop goes on after, and the id it collects. */
  predicate Passes(a: Answer) { a.Id? || a.NoId? }

  function IdOf(a: Answer): string { if a.Id? then a.id else "" }

  function IdsOf(answers: seq<Answer>): seq<string> {
    seq(|answers|, i requires 0 <= i < |answers| => IdOf(answers[i]))
  }

  /** The choices answer the next calls like this. */
  predicate AnsweredWith(choices: seq<Choice>, answers: seq<Answer>) {
    |choices| >= |answers| && forall i | 0 <= i < |answers| :: choices[i].answer == answers[i]
  }

  lemma PassingCall(g: Gateway, c: Choice)
    requires g.process.Busy? && g.process.at.Delivering? && Passes(c.answer)
    requires |g.process.at.sofar| < PartCount(g.process.progress.fp)
    ensures var p := g.process;
      Advance(g, c) == g.(process := p.(at := Delivering(p.at.sofar + [IdOf(c.answer)])),
                          calls := g.calls + [CallAt(p, |p.at.sofar|, c.answer)])
  {
  }

  /** The individual loop from one point to a later one, the calls between them answered. */
  predicate Passed(g: Gateway, h: Gateway, answers: seq<Answer>)
    requires g.process.Busy? && g.process.at.Delivering?
  {
    var p := g.process;
    h == g.(process := p.(at := Delivering(p.at.sofar + IdsOf(answers))),
            calls := g.calls + CallsOf(p, |p.at.sofar|, answers))
  }

  lemma PassedMore(g: Gateway, k: Gateway, h: Gateway, a: Answer, rest: seq<Answer>)
    requires g.process.Busy? && g.process.at.Delivering?
    requires k.process.Busy? && k.process.at.Delivering? && Passed(k, h, rest)
    requires var p := g.process;
      k == g.(process := p.(at := Delivering(p.at.sofar + [IdOf(a)])), calls := g.calls + [CallAt(p, |p.at.sofar|, a)])
    ensures Passed(g, h, [a] + rest)
  {
    hide IdOf, CallAt;
    var p := g.process;
    assert IdsOf([a] + rest) == [IdOf(a)] + IdsOf(rest);
    assert (p.at.sofar + [IdOf(a)]) + IdsOf(rest) == p.at.sofar + IdsOf([a] + rest);
    CallsAppend(p, |p.at.sofar|, [a], rest);
    SameCalls(k.process, p, |p.at.sofar| + 1, rest);
    OneCall(p, |p.at.sofar|, a);
  }

  lemma {:induction false} IndividualPartsPass(g: Gateway, choices: seq<Choice>, answers: seq<Answer>)
    returns (h: Gateway)
    requires g.process.Busy? && g.process.at.Delivering?
    requires |g.process.at.sofar| + |answers| <= PartCount(g.process.progress.fp)
    requires AnsweredWith(choices, answers) && forall a | a in answers :: Passes(a)
    ensures Passed(g, h, answers)
    ensures Drive(g, choices) == Drive(h, choices[|answers|..])
    decreases |answers|
  {
    hide Drive, Advance;
    var p := g.process;
    if answers == [] {
      h := g;
      assert p.at.sofar + IdsOf(answers) == p.at.sofar && g.calls + CallsOf(p, |p.at.sofar|, answers) == g.calls;
      assert choices[0..] == choices;
    } else {
      hide CallsOf, IdsOf, IdOf, CallAt, Passed;
      assert Passes(answers[0]);
      DriveOne(g, choices);
      PassingCall(g, choices[0]);
      var k := Advance(g, choices[0]);
      h := IndividualPartsPass(k, choices[1..], answers[1..]);
      PassedMore(g, k, h, answers[0], answers[1..]);
      assert [answers[0]] + answers[1..] == answers;
      assert choices[1..][|answers[1..]|..] == choices[|answers|..];
    }
  }

  lemma ReadyIndividualDelivers(g: Gateway, c: Choice)
    requires g.process.Busy? && g.process.at.Checking? && c.ready && g.process.q.recipientType != Group
    ensures Advance(g, c) == Goto(g, Delivering([]))
  {
  }

  /** An individual send on a ready device after calls that it goes on after. */
  lemma IndividualSendSoFar(g: Gateway, choices: seq<Choice>, answers: seq<Answer>) returns (h: Gateway)
    requires g.process.Busy? && g.process.at.Checking? && g.process.q.recipientType != Group
    requires |answers| <= PartCount(g.process.progress.fp) && choices != [] && choices[0].ready
    requires AnsweredWith(choices[1..], answers) && forall a | a in answers :: Passes(a)
    ensures h == Goto(g, Delivering(IdsOf(answers))).(calls := g.calls + CallsOf(g.process, 0, answers))
    ensures Drive(g, choices) == Drive(h, choices[1 + |answers|..])
  {
    hide Drive, Advance;
    DriveOne(g, choices);
    ReadyIndividualDelivers(g, choices[0]);
    var delivering := Goto(g, Delivering([]));
    h := IndividualPartsPass(delivering, choices[1..], answers);
    assert [] + IdsOf(answers) == IdsOf(answers);
    SameCalls(delivering.process, g.process, 0, answers);
    assert choices[1..][|answers|..] == choices[1 + |answers|..];
  }

  /** An individual send on a ready device to which no call fails calls every part once, in order,
      going on after a missing id; it ends submitted when every part got an id, and failed otherwise. */
  lemma IndividualSendCompletes(g: Gateway, choices: seq<Choice>, answers: seq<Answer>)
    requires g.process.Busy? && g.process.at.Checking? && Owns(g.store, g.process.q)
    requires g.process.q.recipientType != Group
    requires |answers| == PartCount(g.process.progress.fp) > 0 && |choices| >= 4 + 2 * |answers|
    requires choices[0].ready && AnsweredWith(choices[1..], answers) && forall a | a in answers :: Passes(a)
    ensures var p, h := g.process, Drive(g, choices);
      && h.calls == g.calls + CallsOf(p, 0, answers)
      && if "" !in IdsOf(answers) then
           && Ended(g, h, Submitted, Result(p.progress.fp, IdsOf(answers), false, false, true),
                    Sent(IdsOf(answers), false))
           && Indexed(g.store.messages, h.store.messages, IdsOf(answers), MessageRow(p.q.tenant, p.q.key))
         else
           && Ended(g, h, Failed, p.progress.(reconciliation := false), Refused(false))
           && h.store.messages == g.store.messages
  {
    hide Drive, Indexed, CallsOf;
    var h := IndividualSendSoFar(g, choices, answers);
    var rest := choices[1 + |answers|..];
    DriveOne(h, rest);
    if "" !in IdsOf(answers) {
      assert forall i | 0 <= i < |answers| :: IdsOf(answers)[i] in IdsOf(answers);
      FinishesSubmitted(Advance(h, rest[0]), rest[1..]);
    } else {
      FinishesFailed(Advance(h, rest[0]), rest[1..]);
    }
  }

  /** An error of the provider ends an individual send there, failed and without a marker; an error of
      the official API before the message request counts as no call. */
  lemma IndividualSendFails(g: Gateway, choices: seq<Choice>, answers: seq<Answer>, a: Answer)
    requires g.process.Busy? && g.process.at.Checking? && Owns(g.store, g.process.q)
    requires g.process.q.recipientType != Group
    requires |answers| < PartCount(g.process.progress.fp) && |choices| >= 4 + |answers|
    requires choices[0].ready && AnsweredWith(choices[1..], answers) && forall b | b in answers :: Passes(b)
    requires a == choices[1 + |answers|].answer && (a == Threw || a == NotSubmitted)
    ensures var p, h := g.process, Drive(g, choices);
      var made := if a == NotSubmitted && p.q.provider == OfficialApi then answers else answers + [a];
      && Ended(g, h, Failed, p.progress.(reconciliation := false), Refused(false))
      && h.calls == g.calls + CallsOf(p, 0, made) && h.store.messages == g.store.messages
  {
    hide Drive, CallsOf, AnsweredWith, Passes;
    var h := IndividualSendSoFar(g, choices, answers);
    CallsAppend(g.process, 0, answers, [a]);
    OneCall(g.process, |answers|, a);
    var rest := choices[1 + |answers|..];
    DriveOne(h, rest);
    FinishesFailed(Advance(h, rest[0]), rest[1..]);
  }

  /** A process that dies during a call of an individual send leaves the record as it was accepted. */
  lemma IndividualSendDies(g: Gateway, choices: seq<Choice>, answers: seq<Answer>)
    requires g.process.Busy? && g.process.at.Checking? && g.process.q.recipientType != Group
    requires |answers| < PartCount(g.process.progress.fp) && |choices| >= 2 + |answers|
    requires choices[0].ready && AnsweredWith(choices[1..], answers) && forall b | b in answers :: Passes(b)
    requires choices[1 + |answers|].answer == Died
    ensures Drive(g, choices)
         == g.(process := Idle, calls := g.calls + CallsOf(g.process, 0, answers + [Died]))
  {
    hide Drive, CallsOf, AnsweredWith, Passes;
    var h := IndividualSendSoFar(g, choices, answers);
    CallsAppend(g.process, 0, answers, [Died]);
    OneCall(g.process, |answers|, Died);
    var rest := choices[1 + |answers|..];
    DriveOne(h, rest);
    IdleStays(Advance(h, rest[0]), rest[1..]);
  }
}
