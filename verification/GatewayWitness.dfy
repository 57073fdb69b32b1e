/** Concrete runs of the gateway: one in which an in-flight marker is lost, so that the condition of
    `MarkerLostExactlyToIndividual` is met, and two sends that an unready and a ready device get. */
module GatewayWitness {
  import opened Messages
  import opened Stores
  import opened GatewayProtocol
  import opened GatewayGuarantees

  const TENANT: string := "abc"
  const KEY: string := "wa:abc:000000001"
  const NUMBER: string := "49111111"
  const GROUP_ID: string := "11111" + GROUP_SUFFIX
  const DOCUMENT: Pdf := Pdf("a.pdf", "%PDF-")
  const GROUP: Request := Request(TENANT, KEY, Group, Baileys, GROUP_ID, "", [DOCUMENT])
  const INDIVIDUAL: Request := Request(TENANT, KEY, Individual, Baileys, NUMBER, "", [DOCUMENT])
  const READY: Choice := Choice(true, NoId)

  lemma RequestsValid()
    ensures ValidTenant(TENANT) && ValidKey(KEY) && ValidPdf(DOCUMENT) && ValidNumber(NUMBER)
  {
  }

  lemma GroupIdValid()
    ensures ValidGroupId(GROUP_ID)
  {
    var name := "11111";
    assert GROUP_ID[..5] == name;
    assert GROUP_ID[5..] == GROUP_SUFFIX;
    assert DigitRun(name);
  }

  lemma Turn(g: Gateway, a: Action, rest: seq<Action>)
    requires Enabled(g, a)
    ensures Run(g, [a] + rest) == Run(Step(g, a), rest)
  {
    hide Step, Enabled;
    assert ([a] + rest)[1..] == rest;
  }

  const PROGRESS: Result := Result(FingerprintOf(GROUP), [], false, false, false)

  lemma GroupAccepted()
    ensures Judge(INITIAL.store, GROUP) == Proceed([])
    ensures var g := Accept(INITIAL, 0, GROUP);
      && g.process == Busy(0, GROUP, PROGRESS, Checking)
      && KEY in g.store.jobs && g.store.jobs[KEY] == Job(TENANT, Queued, 1, PROGRESS)
  {
    hide ValidTenant, ValidKey, ValidPdf, ValidGroupId, ValidNumber;
    RequestsValid();
    GroupIdValid();
  }

  /** From its acceptance the group send checks the membership and writes its first marker. */
  lemma MarkerWritten(g: Gateway)
    requires g.process == Busy(0, GROUP, PROGRESS, Checking)
    requires KEY in g.store.jobs && g.store.jobs[KEY].tenant == TENANT
    ensures var h := Advance(g, READY);
      h.process.Busy? && Advance(h, READY).process.Busy?
      && var k := Advance(h, READY);
         KEY in k.store.jobs && k.store.jobs[KEY].tenant == TENANT
         && k.store.jobs[KEY].result == PROGRESS.(inflight := true) && k.store.jobs[KEY].status.Processing?
  {
  }

  lemma TakenOver(g: Gateway)
    requires g.process.Idle? && KEY in g.store.jobs && g.store.jobs[KEY].tenant == TENANT
    requires !Terminal(g.store.jobs[KEY].status)
    ensures WellFormed(INDIVIDUAL) && Admits(g.store, INDIVIDUAL) && Sendable(INDIVIDUAL)
  {
    hide ValidTenant, ValidKey, ValidPdf, ValidGroupId, ValidNumber;
    RequestsValid();
  }

  /** The gateway dies with a group part in flight; the job is stuck under its marker; then an
      individual request under the same key passes all guards and overwrites it. */
  lemma MarkerLost()
    ensures var g := Run(INITIAL, [AcceptRequest(0, GROUP), AdvanceSend(READY), AdvanceSend(READY), Die]);
      && Stuck(g, KEY)
      && Enabled(g, AcceptRequest(1, INDIVIDUAL)) && Accept(g, 1, INDIVIDUAL).process.Busy?
      && !Stuck(Step(g, AcceptRequest(1, INDIVIDUAL)), KEY)
  {
    hide Judge, Advance, Accept, WellFormed, Admits, Sendable;
    GroupAccepted();
    var g := Accept(INITIAL, 0, GROUP);
    MarkerWritten(g);
    var h := Advance(g, READY);
    var k := Advance(h, READY);
    var dead := k.(process := Idle);
    var advance := AdvanceSend(READY);
    calc {
      Run(INITIAL, [AcceptRequest(0, GROUP), advance, advance, Die]);
    ==  { Turn(INITIAL, AcceptRequest(0, GROUP), [advance, advance, Die]); }
      Run(g, [advance, advance, Die]);
    ==  { Turn(g, advance, [advance, Die]); }
      Run(h, [advance, Die]);
    ==  { Turn(h, advance, [Die]); }
      Run(k, [Die]);
    ==  { Turn(k, Die, []); }
      dead;
    }
    TakenOver(dead);
    AcceptsExactly(dead, 1, INDIVIDUAL);
    MarkerLostExactlyToIndividual(dead, AcceptRequest(1, INDIVIDUAL), KEY);
  }

  // ---- a failed and a successful individual send ----

  const UNREADY: Choice := Choice(false, NoId)
  const CONFIRMED: Choice := Choice(true, Id("m"))
  const FRESH: Result := Result(FingerprintOf(INDIVIDUAL), [], false, false, false)

  function Advances(c: Choice, n: nat): seq<Action> { seq(n, i => AdvanceSend(c)) }

  lemma AdvanceTurn(g: Gateway, c: Choice, n: nat)
    requires g.process.Busy? && n > 0
    ensures Run(g, Advances(c, n)) == Run(Advance(g, c), Advances(c, n - 1))
  {
    hide Advance;
    assert Advances(c, n) == [AdvanceSend(c)] + Advances(c, n - 1);
    Turn(g, AdvanceSend(c), Advances(c, n - 1));
  }

  /** The request passes the guards when its key is new or its last send failed. */
  lemma IndividualAccepted(g: Gateway, ticket: int)
    requires g.process.Idle?
    requires KEY in g.store.jobs ==> g.store.jobs[KEY].tenant == TENANT && g.store.jobs[KEY].status.Failed?
    ensures var h := Accept(g, ticket, INDIVIDUAL);
      && h.process == Busy(ticket, INDIVIDUAL, FRESH, Checking)
      && h.store.events == g.store.events && h.webhooked == g.webhooked
      && KEY in h.store.jobs && h.store.jobs[KEY].tenant == TENANT && h.store.jobs[KEY].status.Queued?
  {
    hide ValidTenant, ValidKey, ValidPdf, ValidGroupId, ValidNumber;
    RequestsValid();
  }

  lemma FailsThere(g: Gateway, ticket: int)
    requires g.process == Busy(ticket, INDIVIDUAL, FRESH, Checking)
    ensures var h := Advance(g, UNREADY);
      h.process.Busy? && Advance(h, UNREADY).process.Busy?
      && var k := Advance(Advance(h, UNREADY), UNREADY);
         && k.process.Idle? && ticket in k.replies && k.replies[ticket].reply == Refused(false)
         && k.store.events == g.store.events + [Event(|g.store.events| + 1, TENANT, KEY, Failed)]
         && k.webhooked == g.webhooked
         && KEY in k.store.jobs && k.store.jobs[KEY].status.Failed?
         && (KEY in g.store.jobs ==> k.store.jobs[KEY].tenant == g.store.jobs[KEY].tenant)
  {
  }

  /** With an unready device the send fails, logs its failure and is refused. */
  lemma FailedSend(g: Gateway, ticket: int)
    requires g.process.Idle?
    requires KEY in g.store.jobs ==> g.store.jobs[KEY].tenant == TENANT && g.store.jobs[KEY].status.Failed?
    ensures var h := Run(Accept(g, ticket, INDIVIDUAL), Advances(UNREADY, 3));
      && h.process.Idle? && ticket in h.replies && h.replies[ticket].reply == Refused(false)
      && h.store.events == g.store.events + [Event(|g.store.events| + 1, TENANT, KEY, Failed)]
      && h.webhooked == g.webhooked
      && KEY in h.store.jobs && h.store.jobs[KEY].tenant == TENANT && h.store.jobs[KEY].status.Failed?
  {
    hide Advance, Accept;
    IndividualAccepted(g, ticket);
    var a := Accept(g, ticket, INDIVIDUAL);
    FailsThere(a, ticket);
    AdvanceTurn(a, UNREADY, 3);
    AdvanceTurn(Advance(a, UNREADY), UNREADY, 2);
    AdvanceTurn(Advance(Advance(a, UNREADY), UNREADY), UNREADY, 1);
  }

  /** The ready device confirms the only part. */
  lemma ConfirmsThere(g: Gateway, ticket: int)
    requires g.process == Busy(ticket, INDIVIDUAL, FRESH, Checking)
    ensures var h := Advance(g, CONFIRMED);
      h.process == Busy(ticket, INDIVIDUAL, FRESH, Delivering([]))
      && var k := Advance(h, CONFIRMED);
         k.process == Busy(ticket, INDIVIDUAL, FRESH, Delivering(["m"]))
         && var l := Advance(k, CONFIRMED);
            l.process == Busy(ticket, INDIVIDUAL, FRESH, Finishing(["m"]))
            && l.store == g.store && l.webhooked == g.webhooked
  {
    var none: seq<string> := [];
    assert none + ["m"] == ["m"] && AllConfirmed(["m"]);
  }

  lemma FinishesThere(g: Gateway, ticket: int)
    requires g.process == Busy(ticket, INDIVIDUAL, FRESH, Finishing(["m"]))
    ensures var h := Advance(g, CONFIRMED);
      h.process.Busy? && Advance(h, CONFIRMED).process.Busy?
      && var k := Advance(Advance(h, CONFIRMED), CONFIRMED);
         && k.process.Idle? && ticket in k.replies && k.replies[ticket].reply == Sent(["m"], false)
         && k.store.events == g.store.events + [Event(|g.store.events| + 1, TENANT, KEY, Submitted)]
         && k.webhooked == g.webhooked
  {
  }

  /** With a ready device the send is confirmed, logged and answered with its id. */
  lemma SuccessfulSend(g: Gateway, ticket: int)
    requires g.process.Idle?
    requires KEY in g.store.jobs ==> g.store.jobs[KEY].tenant == TENANT && g.store.jobs[KEY].status.Failed?
    ensures var h := Run(Accept(g, ticket, INDIVIDUAL), Advances(CONFIRMED, 6));
      && h.process.Idle? && ticket in h.replies && h.replies[ticket].reply == Sent(["m"], false)
      && h.store.events == g.store.events + [Event(|g.store.events| + 1, TENANT, KEY, Submitted)]
      && h.webhooked == g.webhooked
  {
    hide Advance, Accept;
    IndividualAccepted(g, ticket);
    var a := Accept(g, ticket, INDIVIDUAL);
    ConfirmsThere(a, ticket);
    var b := Advance(a, CONFIRMED);
    var c := Advance(b, CONFIRMED);
    var d := Advance(c, CONFIRMED);
    FinishesThere(d, ticket);
    AdvanceTurn(a, CONFIRMED, 6);
    AdvanceTurn(b, CONFIRMED, 5);
    AdvanceTurn(c, CONFIRMED, 4);
    AdvanceTurn(d, CONFIRMED, 3);
    AdvanceTurn(Advance(d, CONFIRMED), CONFIRMED, 2);
    AdvanceTurn(Advance(Advance(d, CONFIRMED), CONFIRMED), CONFIRMED, 1);
  }
}
