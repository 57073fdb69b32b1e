/** Concrete runs from the empty system: a late write of the scheduler breaks a backoff, a failing
    enqueue revives an exhausted record, an old failure unmakes a delivery, and a late write and a
    late worker each unmake one that sync has already applied. */
module DeliveryWitness {
  import opened Messages
  import opened Stores
  import opened CompanyGroups
  import opened History
  import opened DeliverySystem
  import opened DeliveryRuns
  import G = GatewayProtocol
  import W = GatewayWitness
  import R = DeliveryRetries
  import Y = DeliverySync

  const CONTENT: Content :=
    Content("owner", "company", LinkedDevice, "Report", "", "", "report", "", "", "%PDF-", "", "", "")
  const DRAFT: Draft := Draft(CONTENT, W.NUMBER, "a.pdf")
  const SETTINGS: Settings := Settings(true, LinkedDevice, None, Some(2), [])
  const CREATE: Action := Create(DRAFT, SETTINGS, true, (W.KEY, ""))
  const NEW: Row := NewRow(DRAFT, SETTINGS, None, W.NUMBER, W.KEY)
  const FAILED: Row := NEW.(status := Failed, retryCount := 1, nextRetryAt := Some(30))
  const CLAIM: Selected := Selected(0, 1, 2)

  /** What a worker meets: a transport switched on or off, and the gateway's reply. */
  function Meeting(enabled: bool, reply: G.Reply): Conditions {
    Conditions(SETTINGS.(enabled := enabled), user => Access(true, true, true, true), true, Some(reply))
  }

  lemma CreateTurn()
    ensures Enabled(Start(W.TENANT), CREATE)
    ensures Step(Start(W.TENANT), CREATE) == Start(W.TENANT).(rows := [NEW], journal := [[]])
  {
    var s := Start(W.TENANT);
    assert s.rows + [NEW] == [NEW];
    assert RowsAfter(s, CREATE) == [NEW];
    assert JournalAfter(s, CREATE) == [[]];
    assert TerminalRows([NEW]) == {};
  }

  lemma Created() returns (actions: seq<Action>)
    ensures Run(Start(W.TENANT), actions) == Start(W.TENANT).(rows := [NEW], journal := [[]])
  {
    hide Step, Enabled;
    CreateTurn();
    OneTurn(Start(W.TENANT), CREATE);
    actions := [CREATE];
  }

  // ---- a backoff broken by a late write ----

  /** A worker that finds the transport switched off fails at once. */
  lemma FailsAtOnce(s: System) returns (actions: seq<Action>)
    requires Attempting(s, 0)
    ensures var h := Run(s, actions);
      && h == s.(rows := h.rows, journal := h.journal, inbox := h.inbox, owners := h.owners,
                 readings := h.readings, settled := h.settled)
      && h.rows == s.rows[0 := Concluded(Claimed(s.rows[0]), Error(false), s.clock)]
      && h.journal == s.journal[0 := s.journal[0] + [AttemptRecord(s.clock, Some(s.clock))]]
  {
    hide Step, Enabled, Run, Concluded, Claimed, Decide;
    actions := UnansweredRun(s, 0, 0, Meeting(false, G.Refused(false)));
  }

  /** Time passes and a scheduler pass selects the due record. */
  lemma SelectedWhenDue(s: System, d: nat) returns (actions: seq<Action>)
    requires |s.rows| == 1 && Due(s.rows[0], s.clock + d)
    ensures var h := Run(s, actions);
      h == s.(clock := s.clock + d, due := s.due + {SelectedOf(s, 0)}, settled := h.settled)
  {
    hide Step, Enabled, Run, Due;
    actions := [Tick(d), SelectDue(0)];
    TickTurn(s, d);
    SelectDueTurn(Step(s, Tick(d)), 0);
    TwoTurns(s, Tick(d), SelectDue(0));
  }

  /** The scheduler writes what it selected, whatever the record holds by then. */
  lemma WrittenLate(s: System, claim: Selected, enqueued: bool) returns (actions: seq<Action>)
    requires |s.rows| == 1 && claim in s.due && claim.row == 0 && 0 !in s.runs
    ensures var h := Run(s, actions);
      h == s.(rows := [Scheduled(s.rows[0], claim, enqueued, s.clock)], settled := h.settled)
  {
    hide Step, Scheduled;
    actions := [Retry(claim, enqueued)];
    RetryTurn(s, claim, enqueued);
    OneTurn(s, Retry(claim, enqueued));
  }

  const DELIVERED: Row := NEW.(status := Submitted, retryCount := 2, nextRetryAt := None, messageIds := Some(["m"]))
  const AGAIN: Row := NEW.(status := Failed, retryCount := 2, nextRetryAt := Some(150))
  const EXHAUSTED: Row := NEW.(status := Failed, retryCount := 3, nextRetryAt := None)

  lemma RecordsOfTheRun()
    ensures Decide(NEW, None, 0).Attempt? && Concluded(Claimed(NEW), Error(false), 0) == FAILED
    ensures Decide(FAILED, None, 30).Attempt? && Concluded(Claimed(FAILED), Error(false), 30) == AGAIN
    ensures Concluded(Claimed(FAILED), Delivered(["m"]), 30) == DELIVERED
    ensures Decide(AGAIN, None, 150).Attempt? && Concluded(Claimed(AGAIN), Error(false), 150) == EXHAUSTED
    ensures Decide(AGAIN.(status := Queued, nextRetryAt := None), None, 30).Attempt?
  {
  }

  lemma {:induction false} RunInFour(s: System, a: seq<Action>, b: seq<Action>, c: seq<Action>, d: seq<Action>)
    ensures Run(s, a + b + c + d) == Run(Run(Run(Run(s, a), b), c), d)
  {
    hide Step, Enabled, Run;
    RunInTwo(s, a + b + c, d);
    RunInTwo(s, a + b, c);
    RunInTwo(s, a, b);
  }

  /** The record fails, is selected when due, and fails again in a duplicate worker before the
      scheduler writes it: the third attempt then starts 120 seconds too early. */
  lemma LateRetryBreaksBackoff()
    ensures exists actions :: var s := Run(Start(W.TENANT), actions); |s.journal| == 1 && !R.Spaced(s.journal[0])
  {
    hide Step, Enabled, Run, Concluded, Claimed, Decide;
    RecordsOfTheRun();
    var a := Created();
    var s := Run(Start(W.TENANT), a);
    var b := FailsAtOnce(s);
    var failed := Run(s, b);
    var c := SelectedWhenDue(failed, 30);
    var selected := Run(failed, c);
    var d := FailsAtOnce(selected);
    var again := Run(selected, d);
    var e := WrittenLate(again, CLAIM, true);
    var written := Run(again, e);
    var f := FailsAtOnce(written);
    RunInFour(Start(W.TENANT), a, b, c, d);
    RunInTwo(again, e, f);
    RunInTwo(Start(W.TENANT), a + b + c + d, e + f);
    var attempts := Run(written, f).journal[0];
    assert attempts == [AttemptRecord(0, Some(0)), AttemptRecord(30, Some(30)), AttemptRecord(30, Some(30))];
    assert attempts[2].startedAt < attempts[1].failedAt.value + Delay(2);
    assert !R.Spaced(attempts);
  }

  // ---- an exhausted record revived ----

  const SECOND_CLAIM: Selected := Selected(0, 2, 2)

  /** The record fails twice, is selected when due, and fails for the last time in a duplicate worker
      before the scheduler writes it; the enqueue fails, and the restoring write makes the exhausted
      record due, so that the next pass selects it at its limit. */
  lemma FailingEnqueueRevivesExhausted()
    ensures exists actions :: var s := Run(Start(W.TENANT), actions);
      && |s.rows| == 1 && s.rows[0].nextRetryAt.Some? && s.rows[0].retryCount == AttemptLimit(s.rows[0])
      && Enabled(s, SelectDue(0)) && AtLimit(SelectedOf(s, 0))
  {
    hide Step, Run, Concluded, Claimed, Decide;
    RecordsOfTheRun();
    var a := Created();
    var s := Run(Start(W.TENANT), a);
    var b := FailsAtOnce(s);
    var failed := Run(s, b);
    var c := SelectedWhenDue(failed, 30);
    var selected := Run(failed, c);
    var d := FailsAtOnce(selected);
    var again := Run(selected, d);
    var e := SelectedWhenDue(again, 120);
    var claimed := Run(again, e);
    var f := FailsAtOnce(claimed);
    var exhausted := Run(claimed, f);
    var g := WrittenLate(exhausted, SECOND_CLAIM, false);
    RunInFour(Start(W.TENANT), a, b, c, d);
    RunInFour(again, e, f, g, []);
    RunInTwo(Start(W.TENANT), a + b + c + d, e + f + g + []);
    NoSteps(Run(exhausted, g));
    assert Run(exhausted, g).rows == [EXHAUSTED.(nextRetryAt := Some(150))];
  }

  // ---- deliveries unmade ----

  /** The worker's request meets an unready device: it fails, and the gateway logs the failure. */
  lemma SendFails(s: System) returns (actions: seq<Action>)
    requires Attempting(s, 0) && s.site == W.TENANT && s.rows[0].identity == NEW.identity
    requires s.gateway == G.INITIAL && s.owners == []
    ensures var h := Run(s, actions);
      && h == s.(rows := h.rows, journal := h.journal, inbox := h.inbox, owners := [0], gateway := h.gateway,
                 readings := h.readings, settled := h.settled)
      && h.rows == s.rows[0 := Concluded(Claimed(s.rows[0]), Error(false), s.clock)]
      && |h.journal| == |s.journal|
      && h.gateway.process.Idle? && h.gateway.webhooked == {}
      && h.gateway.store.events == [Event(1, W.TENANT, W.KEY, Failed)]
      && W.KEY in h.gateway.store.jobs && h.gateway.store.jobs[W.KEY].tenant == W.TENANT
      && h.gateway.store.jobs[W.KEY].status.Failed?
  {
    hide Step, Enabled, Run, Concluded, Claimed, Decide, G.Run, G.Accept;
    var c, gs := Meeting(true, G.Refused(false)), W.Advances(W.UNREADY, 3);
    W.FailedSend(G.INITIAL, 0);
    assert RowRequest(s, 0) == W.INDIVIDUAL;
    actions := AnsweredRun(s, 0, 0, c, gs);
    assert s.owners + [0] == [0];
  }

  /** The worker's request meets a ready device: it is confirmed, and the gateway logs the submission. */
  lemma SendSucceeds(s: System) returns (actions: seq<Action>)
    requires Attempting(s, 0) && s.site == W.TENANT && s.rows == [FAILED] && s.clock == 30
    requires s.gateway.process.Idle? && s.owners == [0]
    requires W.KEY in s.gateway.store.jobs && s.gateway.store.jobs[W.KEY].tenant == W.TENANT
    requires s.gateway.store.jobs[W.KEY].status.Failed?
    ensures var h := Run(s, actions);
      && h == s.(rows := [DELIVERED], journal := h.journal, inbox := h.inbox, owners := [0, 0],
                 gateway := h.gateway, readings := h.readings, settled := h.settled)
      && |h.journal| == |s.journal| && h.gateway.webhooked == s.gateway.webhooked
      && h.gateway.store.events
         == s.gateway.store.events + [Event(|s.gateway.store.events| + 1, W.TENANT, W.KEY, Submitted)]
  {
    hide Step, Enabled, Run, Decide, G.Run, G.Accept;
    var c, gs := Meeting(true, G.Sent(["m"], false)), W.Advances(W.CONFIRMED, 6);
    W.SuccessfulSend(s.gateway, 1);
    RecordsOfTheRun();
    assert RowRequest(s, 0) == W.INDIVIDUAL;
    actions := AnsweredRun(s, 0, 0, c, gs);
    assert s.owners + [0] == [0, 0];
  }

  lemma FetchTurn(s: System)
    requires s.page.None?
    ensures Enabled(s, Fetch)
    ensures var h := Step(s, Fetch);
      h == s.(page := Some(Page(s.gateway.store.events, s.site, s.cursor)), settled := h.settled)
  {
    hide G.Accept, G.Step;
  }

  lemma DropTurn(s: System)
    requires s.page.Some?
    ensures Enabled(s, DropPage)
    ensures var h := Step(s, DropPage); h == s.(page := None, settled := h.settled)
  {
    hide G.Accept, G.Step;
  }

  lemma ApplyTurn(s: System)
    requires s.page.Some? && s.runs == map[]
    ensures Enabled(s, ApplyPage)
    ensures var h := Step(s, ApplyPage);
      h == s.(rows := ApplyEvents(s.rows, s.page.value), cursor := Advanced(s.cursor, s.page.value),
              applied := s.applied + s.page.value, page := None, settled := h.settled)
  {
    hide G.Accept, G.Step;
  }

  const FIRST: Event := Event(1, W.TENANT, W.KEY, Failed)
  const SECOND: Event := Event(2, W.TENANT, W.KEY, Submitted)

  lemma PagesOfTheRun()
    ensures Page([FIRST], W.TENANT, 0) == [FIRST] && Page([FIRST, SECOND], W.TENANT, 0) == [FIRST, SECOND]
  {
    assert [FIRST][..0] == [] && [FIRST, SECOND][..1] == [FIRST];
    assert Newer([FIRST], W.TENANT, 0) == [FIRST];
  }

  lemma OneEvent(r: Row, e: Event)
    requires r.identity.key == e.key
    ensures ApplyEvent([r], e) == [r.(status := e.status)]
  {
  }

  lemma AppliedInTheRun()
    ensures ApplyEvents([DELIVERED], [FIRST]) == [DELIVERED.(status := Failed)]
    ensures ApplyEvents([DELIVERED], [FIRST, SECOND]) == [DELIVERED]
  {
    hide ApplyEvent;
    assert [FIRST][..0] == [] && [FIRST, SECOND][..1] == [FIRST];
    OneEvent(DELIVERED, FIRST);
    OneEvent(DELIVERED.(status := Failed), SECOND);
  }

  /** A first send fails and is logged; sync fetches that event; a second attempt delivers. */
  lemma DeliveredWithOldPage() returns (actions: seq<Action>)
    ensures var s := Run(Start(W.TENANT), actions);
      && s.rows == [DELIVERED] && s.page == Some([FIRST]) && s.gateway.store.events == [FIRST, SECOND]
      && s.site == W.TENANT && s.runs == map[] && CLAIM in s.due && s.cursor == 0 && s.applied == []
      && s.gateway.webhooked == {} && s.clock == 30 && |s.journal| == 1
  {
    hide Step, Enabled, Run, Concluded, Claimed, Decide;
    RecordsOfTheRun();
    PagesOfTheRun();
    var a := Created();
    var s := Run(Start(W.TENANT), a);
    var b := SendFails(s);
    var failed := Run(s, b);
    var c := SelectedWhenDue(failed, 30);
    var selected := Run(failed, c);
    FetchTurn(selected);
    OneTurn(selected, Fetch);
    var fetched := Run(selected, [Fetch]);
    var e := SendSucceeds(fetched);
    RunInFour(Start(W.TENANT), a, b, c, [Fetch]);
    RunInTwo(Start(W.TENANT), a + b + c + [Fetch], e);
    actions := a + b + c + [Fetch] + e;
  }

  /** The old page then unmakes the delivery. */
  lemma OldFailureUnmakesDelivery()
    ensures exists actions :: var s := Run(Start(W.TENANT), actions);
      && |s.rows| == 1 && Terminal(s.rows[0].status)
      && Enabled(s, ApplyPage) && |Step(s, ApplyPage).rows| == 1 && Step(s, ApplyPage).rows[0].status.Failed?
  {
    hide Step, Enabled, Run;
    var actions := DeliveredWithOldPage();
    var s := Run(Start(W.TENANT), actions);
    AppliedInTheRun();
    ApplyTurn(s);
    assert Step(s, ApplyPage).rows[0].status.Failed?;
  }

  /** Once sync has applied the submission, the scheduler's late write of its old selection unmakes
      the delivery all the same. */
  lemma LateRetryUnmakesDelivery()
    ensures exists actions :: var s := Run(Start(W.TENANT), actions);
      && |s.rows| == 1 && Terminal(s.rows[0].status)
      && Y.EndsTerminal(s.applied, s.rows[0].identity.key) && s.gateway.webhooked == {}
      && Enabled(s, Retry(CLAIM, true)) && Step(s, Retry(CLAIM, true)).rows == [s.rows[0].(status := Queued)]
  {
    hide Step, Enabled, Run, Newer, ApplyEvents, Advanced;
    PagesOfTheRun();
    AppliedInTheRun();
    var a := DeliveredWithOldPage();
    var s := Run(Start(W.TENANT), a);
    DropTurn(s);
    var dropped := Step(s, DropPage);
    FetchTurn(dropped);
    TwoTurns(s, DropPage, Fetch);
    var fetched := Step(dropped, Fetch);
    ApplyTurn(fetched);
    OneTurn(fetched, ApplyPage);
    var applied := Step(fetched, ApplyPage);
    RunInTwo(Start(W.TENANT), a, [DropPage, Fetch]);
    RunInTwo(Start(W.TENANT), a + [DropPage, Fetch], [ApplyPage]);
    assert applied.applied == [FIRST, SECOND] && SECOND in applied.applied;
    MayRetry(applied);
    RetryTurn(applied, CLAIM, true);
    assert Run(Start(W.TENANT), a + [DropPage, Fetch] + [ApplyPage]) == applied;
  }

  lemma MayRetry(s: System)
    requires CLAIM in s.due && |s.rows| == 1 && s.runs == map[]
    ensures Enabled(s, Retry(CLAIM, true))
  {
  }

  const DEMOTED: Row := DELIVERED.(status := Failed)
  const STALE: Reading := Reading(0, DEMOTED, None, 30)

  lemma SecondPageOfTheRun()
    ensures Page([FIRST, SECOND], W.TENANT, 1) == [SECOND] && Advanced(0, [FIRST]) == 1
    ensures ApplyEvents([DEMOTED], [SECOND]) == [DELIVERED]
  {
    assert [FIRST, SECOND][..1] == [FIRST] && [FIRST][..0] == [] && [SECOND][..0] == [];
    assert Newer([FIRST], W.TENANT, 1) == [];
    assert Advanced(0, [FIRST]) == Max(0, 1);
    OneEvent(DEMOTED, SECOND);
  }

  /** Sync applies the old failure, a worker reads the record, and sync applies the submission. */
  lemma ReadBetweenPages() returns (actions: seq<Action>)
    ensures var s := Run(Start(W.TENANT), actions);
      && s.rows == [DELIVERED] && s.applied == [FIRST, SECOND] && s.gateway.webhooked == {}
      && STALE in s.readings && s.runs == map[] && s.clock == 30 && |s.journal| == 1
  {
    hide Step, Enabled, Run, Newer, Page, ApplyEvents, Advanced;
    AppliedInTheRun();
    SecondPageOfTheRun();
    var a := DeliveredWithOldPage();
    var s := Run(Start(W.TENANT), a);
    ApplyTurn(s);
    var demoted := Step(s, ApplyPage);
    assert Enabled(demoted, Read(0)) by { MayRead(demoted); }
    ReadTurn(demoted, 0);
    TwoTurns(s, ApplyPage, Read(0));
    var reading := Step(demoted, Read(0));
    FetchTurn(reading);
    var fetched := Step(reading, Fetch);
    ApplyTurn(fetched);
    TwoTurns(reading, Fetch, ApplyPage);
    assert ReadingOf(demoted, 0) == STALE;
    assert [FIRST] + [SECOND] == [FIRST, SECOND] && s.applied + [FIRST] == [FIRST];
    RunInTwo(Start(W.TENANT), a, [ApplyPage, Read(0)]);
    RunInTwo(Start(W.TENANT), a + [ApplyPage, Read(0)], [Fetch, ApplyPage]);
    actions := a + [ApplyPage, Read(0)] + [Fetch, ApplyPage];
  }

  lemma MayRead(s: System)
    requires |s.rows| == 1
    ensures Enabled(s, Read(0))
  {
  }

  lemma StaleBegins(s: System)
    requires s.rows == [DELIVERED] && STALE in s.readings && s.runs == map[] && s.clock == 30 && |s.journal| == 1
    ensures Enabled(s, Begin(STALE, 30))
    ensures var h := Step(s, Begin(STALE, 30)); Enabled(h, Abort(0)) && h.rows == s.rows
  {
    assert Enabled(s, Begin(STALE, 30));
    BeginTurn(s, STALE);
    assert Decide(DEMOTED, None, 30).Attempt?;
  }

  /** Once sync has applied the submission, a worker that read the record before is not stopped, and
      when it fails it unmakes the delivery, without any claim or release. */
  lemma StaleWorkerUnmakesDelivery()
    ensures exists actions :: var s := Run(Start(W.TENANT), actions);
      && |s.rows| == 1 && Terminal(s.rows[0].status)
      && Y.EndsTerminal(s.applied, s.rows[0].identity.key) && s.gateway.webhooked == {}
      && var h := Run(s, [Begin(STALE, 30), Abort(0)]);
         |h.rows| == 1 && h.rows[0].status.Failed?
  {
    hide Step, Enabled, Run;
    var actions := ReadBetweenPages();
    var s := Run(Start(W.TENANT), actions);
    StaleBegins(s);
    TwoTurns(s, Begin(STALE, 30), Abort(0));
    var begun := Step(s, Begin(STALE, 30));
    CommitTurn(begun, Abort(0));
    CommittedRow(DELIVERED, Error(false), 30);
    assert Run(s, [Begin(STALE, 30), Abort(0)]).rows[0].status.Failed?;
  }
}
