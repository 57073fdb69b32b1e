/** Undisturbed runs: what a worker, a release or a scheduler pass does to the records in one go is
    what the system does when only its own steps are taken. */
module DeliveryRuns {
  import opened Messages
  import opened Stores
  import opened History
  import opened DeliveryInvariants
  import opened DeliverySystem
  import G = GatewayProtocol
  import O = Outbound

  lemma Turn(s: System, a: Action, rest: seq<Action>)
    requires Enabled(s, a)
    ensures Run(s, [a] + rest) == Run(Step(s, a), rest)
  {
    hide Step, Enabled;
    assert ([a] + rest)[1..] == rest;
  }

  lemma OneTurn(s: System, a: Action)
    requires Enabled(s, a)
    ensures Run(s, [a]) == Step(s, a)
  {
    hide Step, Enabled;
    assert [a] + [] == [a];
    Turn(s, a, []);
  }

  lemma TwoTurns(s: System, a: Action, b: Action)
    requires Enabled(s, a) && Enabled(Step(s, a), b)
    ensures Run(s, [a, b]) == Step(Step(s, a), b)
  {
    hide Step, Enabled;
    assert [a] + [b] == [a, b];
    Turn(s, a, [b]);
    OneTurn(Step(s, a), b);
  }

  lemma {:induction false} RunInTwo(s: System, first: seq<Action>, second: seq<Action>)
    ensures Run(s, first + second) == Run(Run(s, first), second)
    decreases |first|
  {
    hide Step, Enabled;
    if first == [] {
      assert first + second == second;
    } else {
      assert (first + second)[1..] == first[1..] + second;
      RunInTwo(if Enabled(s, first[0]) then Step(s, first[0]) else s, first[1..], second);
    }
  }

  /** The connector's side is as before. */
  predicate SameOffice(s: System, h: System) {
    h == s.(gateway := h.gateway, settled := h.settled) && s.settled <= h.settled
  }

  // ---- the gateway on its own ----

  function GatewaySteps(gs: seq<G.Action>): seq<Action> {
    seq(|gs|, i requires 0 <= i < |gs| => GatewayStep(gs[i]))
  }

  lemma GatewayTurn(s: System, g: G.Action)
    requires !g.AcceptRequest? && G.Enabled(s.gateway, g)
    ensures Enabled(s, GatewayStep(g))
    ensures var h := Step(s, GatewayStep(g)); SameOffice(s, h) && h.gateway == G.Step(s.gateway, g)
  {
    hide G.Step, G.Enabled;
  }

  lemma {:induction false} GatewayRuns(s: System, gs: seq<G.Action>)
    requires forall i | 0 <= i < |gs| :: !gs[i].AcceptRequest?
    ensures var h := Run(s, GatewaySteps(gs)); SameOffice(s, h) && h.gateway == G.Run(s.gateway, gs)
    decreases |gs|
  {
    hide Step, G.Step, G.Enabled;
    if gs == [] {
    } else {
      var g := gs[0];
      assert GatewaySteps(gs)[1..] == GatewaySteps(gs[1..]);
      if G.Enabled(s.gateway, g) {
        GatewayTurn(s, g);
        GatewayRuns(Step(s, GatewayStep(g)), gs[1..]);
      } else {
        GatewayRuns(s, gs[1..]);
      }
    }
  }

  // ---- a worker ----

  /** A worker reads its record and goes on at once. */
  function Starting(s: System, i: nat): seq<Action>
    requires i < |s.rows|
  {
    [Read(i), Begin(ReadingOf(s, i), s.clock)]
  }

  lemma ReadTurn(s: System, i: nat)
    requires i < |s.rows|
    ensures var h := Step(s, Read(i));
      && h == s.(readings := s.readings + {ReadingOf(s, i)}, settled := h.settled) && s.settled <= h.settled
  {
    hide Decide;
  }

  lemma BeginTurn(s: System, r: Reading)
    requires Enabled(s, Begin(r, s.clock))
    ensures var h := Step(s, Begin(r, s.clock));
      && h == s.(rows := h.rows, runs := h.runs, settled := h.settled) && s.settled <= h.settled
      && (Decide(r.seen, r.primary, s.clock).Attempt? ==>
            h.rows == s.rows && h.runs == s.runs[r.row := WorkerRun(s.clock, None)])
      && (Decide(r.seen, r.primary, s.clock).Exhaust? ==>
            h.rows == s.rows[r.row := Exhausted(s.rows[r.row])] && h.runs == s.runs)
  {
    hide Decide, Exhausted;
  }

  lemma Starts(s: System, i: nat)
    requires Writable(s, i)
    ensures var h := Run(s, Starting(s, i));
      var d := Decide(s.rows[i], PrimaryStatus(s.rows, s.rows[i]), s.clock);
      && h == s.(rows := h.rows, runs := h.runs, readings := h.readings, settled := h.settled) && s.settled <= h.settled
      && (d.Attempt? ==> h.rows == s.rows && h.runs == s.runs[i := WorkerRun(s.clock, None)])
      && (d.Exhaust? ==> h.rows == s.rows[i := Exhausted(s.rows[i])])
  {
    hide Decide, Exhausted, GatewayAfter, RowsAfter, RunsAfter, InboxAfter, JournalAfter, PageAfter, TerminalRows;
    var r := ReadingOf(s, i);
    ReadTurn(s, i);
    TwoTurns(s, Read(i), Begin(r, s.clock));
    BeginTurn(Step(s, Read(i)), r);
  }

  lemma TickTurn(s: System, d: nat)
    ensures Enabled(s, Tick(d))
    ensures var h := Step(s, Tick(d)); h == s.(clock := s.clock + d, settled := h.settled) && s.settled <= h.settled
  {
    hide G.Accept, G.Step;
  }

  lemma CommitsLater(s: System, h: System, a: Action)
    requires (a.Abort? || a.Conclude?) && Enabled(s, a) && h == s.(clock := h.clock, settled := h.settled)
    ensures Enabled(h, a) && Committed(h, a) == Committed(s, a)
  {
    hide G.Enabled;
  }

  lemma CommitTurn(s: System, a: Action)
    requires Enabled(s, a) && Committed(s, a).Some?
    ensures var (i, o) := Committed(s, a).value;
      var h := Step(s, a);
      && h == s.(rows := s.rows[i := Concluded(Claimed(s.rows[i]), o, s.clock)], runs := s.runs - {i},
                 journal := h.journal, settled := h.settled)
      && h.journal == s.journal[i := s.journal[i] + [AttemptBy(s.runs[i], o, s.clock)]]
      && (Terminal(h.rows[i].status) ==> i in h.settled)
  {
    hide Concluded, Claimed;
  }

  lemma DispatchTurn(s: System, a: Action)
    requires Enabled(s, a) && a.Dispatch?
    ensures var h := Step(s, a);
      && h == s.(runs := s.runs[a.row := s.runs[a.row].(ticket := Some(|s.owners|))], owners := s.owners + [a.row],
                 inbox := s.inbox[|s.owners| := RowRequest(s, a.row)], settled := h.settled)
  {
    hide MaySend;
  }

  lemma DeliverTurn(s: System, t: nat)
    requires Enabled(s, Deliver(t))
    ensures var h := Step(s, Deliver(t));
      h == s.(gateway := G.Accept(s.gateway, t, s.inbox[t]), inbox := s.inbox - {t}, settled := h.settled)
  {
    hide G.Accept;
  }

  /** Time passes and the worker commits. */
  lemma Ends(s: System, d: nat, a: Action)
    requires a.Abort? || a.Conclude?
    requires Enabled(s, a)
    ensures var (i, o) := Committed(s, a).value;
      var h := Run(s, [Tick(d), a]);
      && h == s.(rows := s.rows[i := Concluded(Claimed(s.rows[i]), o, s.clock + d)], runs := s.runs - {i},
                 journal := h.journal, clock := s.clock + d, settled := h.settled)
      && h.journal == s.journal[i := s.journal[i] + [AttemptBy(s.runs[i], o, s.clock + d)]]
      && (Terminal(h.rows[i].status) ==> i in h.settled)
  {
    hide Step, Enabled, Concluded, Claimed;
    TickTurn(s, d);
    CommitsLater(s, Step(s, Tick(d)), a);
    TwoTurns(s, Tick(d), a);
    CommitTurn(Step(s, Tick(d)), a);
  }

  // ---- releases ----

  function ReleasedUpTo(rows: seq<Row>, p: nat, n: nat): seq<Row> {
    seq(|rows|, j requires 0 <= j < |rows| => if j < n then ReleaseRow(rows[j], p) else rows[j])
  }

  lemma SelectTurn(s: System, i: nat, p: nat)
    requires i < |s.rows| && AwaitsRelease(s.rows[i], p)
    ensures Enabled(s, SelectCopy(i))
    ensures var h := Step(s, SelectCopy(i));
      h == s.(awaiting := s.awaiting + {i}, settled := h.settled) && s.settled <= h.settled
  {
    hide G.Accept, G.Step;
  }

  lemma ReleaseTurn(s: System, i: nat, p: nat)
    requires Writable(s, i) && i in s.awaiting && p in s.settled && AwaitsRelease(s.rows[i], p)
    ensures Enabled(s, Release(i))
    ensures var h := Step(s, Release(i));
      h == s.(rows := s.rows[i := ReleaseRow(s.rows[i], p)], settled := h.settled) && s.settled <= h.settled
  {
    hide G.Accept, G.Step;
  }

  lemma ReleaseTurns(s: System, i: nat, p: nat)
    requires Writable(s, i) && p in s.settled && AwaitsRelease(s.rows[i], p)
    ensures var h := Run(s, [SelectCopy(i), Release(i)]);
      h == s.(rows := s.rows[i := ReleaseRow(s.rows[i], p)], awaiting := h.awaiting, settled := h.settled)
      && s.settled <= h.settled
  {
    hide Step, Enabled, AwaitsRelease, ReleaseRow;
    SelectTurn(s, i, p);
    ReleaseTurn(Step(s, SelectCopy(i)), i, p);
    TwoTurns(s, SelectCopy(i), Release(i));
  }

  /** Releasing the copies of a primary in one go is a run of single selections and releases. */
  lemma {:induction false} ReleasesAreSteps(s: System, p: nat, n: nat) returns (actions: seq<Action>)
    requires p in s.settled && n <= |s.rows|
    requires forall j | 0 <= j < |s.rows| && AwaitsRelease(s.rows[j], p) :: j !in s.runs
    ensures var h := Run(s, actions);
      && h == s.(rows := ReleasedUpTo(s.rows, p, n), awaiting := h.awaiting, settled := h.settled)
      && s.settled <= h.settled
  {
    hide Step, Enabled, AwaitsRelease;
    if n == 0 {
      actions := [];
      assert ReleasedUpTo(s.rows, p, 0) == s.rows;
    } else {
      var before := ReleasesAreSteps(s, p, n - 1);
      var h := Run(s, before);
      if AwaitsRelease(s.rows[n - 1], p) {
        ReleaseTurns(h, n - 1, p);
        actions := before + [SelectCopy(n - 1), Release(n - 1)];
        RunInTwo(s, before, [SelectCopy(n - 1), Release(n - 1)]);
        assert ReleasedUpTo(s.rows, p, n) == h.rows[n - 1 := ReleaseRow(s.rows[n - 1], p)];
      } else {
        actions := before;
        assert ReleasedUpTo(s.rows, p, n) == h.rows;
      }
    }
  }

  // ---- a whole worker run ----

  /** The conditions let the worker send its request. */
  predicate Sends(rows: seq<Row>, r: Row, c: Conditions) {
    && c.settings.enabled && c.pdfIntact && !r.identity.content.provider.UnsupportedTransport?
    && (r.identity.group ==> CopyGranted(rows, r, c.settings, c.rights(r.identity.content.owner)))
  }

  /** The gateway after it has taken the next ticket, a request for the record, and made the steps `gs`. */
  function Served(s: System, i: nat, gs: seq<G.Action>): G.Gateway
    requires i < |s.rows| && s.gateway.process.Idle?
  {
    G.Run(G.Accept(s.gateway, |s.owners|, RowRequest(s, i)), gs)
  }

  /** Of the connector's state only the attempt on the record shows, besides the time and what was read. */
  predicate CommittedBy(s: System, h: System, i: nat, o: Outcome, d: nat)
    requires i < |s.rows| && i < |s.journal|
  {
    && h == s.(rows := h.rows, runs := h.runs, journal := h.journal, gateway := h.gateway, inbox := h.inbox,
               owners := h.owners, readings := h.readings, clock := s.clock + d, settled := h.settled)
    && h.rows == s.rows[i := Concluded(Claimed(s.rows[i]), o, s.clock + d)]
    && |h.journal| == |s.journal|
    && (Terminal(h.rows[i].status) ==> i in h.settled)
  }

  /** The gateway, left to the steps `gs`, answers the worker's request with the reply it meets. */
  predicate Answers(s: System, i: nat, gs: seq<G.Action>, reply: G.Reply)
    requires i < |s.rows|
  {
    && s.gateway.process.Idle? && (forall x | 0 <= x < |gs| :: !gs[x].AcceptRequest?)
    && |s.owners| in Served(s, i, gs).replies && Served(s, i, gs).replies[|s.owners|].reply == reply
  }

  function DispatchOf(s: System, i: nat, c: Conditions): Action
    requires i < |s.rows|
  {
    Dispatch(i, c.settings, c.rights(s.rows[i].identity.content.owner),
             match PrimaryStatus(s.rows, s.rows[i]) case Some(status) => status case None => Queued)
  }

  lemma MayDispatch(s: System, i: nat, c: Conditions)
    requires Running(s, i) && s.runs[i].ticket.None? && Sends(s.rows, s.rows[i], c)
    ensures Enabled(s, DispatchOf(s, i, c))
  {
    var copyOf := s.rows[i].identity.copyOf;
    if s.rows[i].identity.group {
      assert s.rows[copyOf.value].(status := s.rows[copyOf.value].status) == s.rows[copyOf.value];
    }
  }

  /** From the first save to the commit, the request answered by the gateway. */
  lemma AnsweredAttempt(s: System, i: nat, d: nat, c: Conditions, gs: seq<G.Action>) returns (actions: seq<Action>)
    requires Running(s, i) && s.runs[i].ticket.None? && Sends(s.rows, s.rows[i], c)
    requires c.reply.Some? && Answers(s, i, gs, c.reply.value)
    ensures var h := Run(s, actions);
      && CommittedBy(s, h, i, OutcomeOf(c.reply), d)
      && h.runs == s.runs - {i} && h.gateway == Served(s, i, gs) && h.owners == s.owners + [i]
  {
    hide Step, Enabled, Concluded, Claimed, G.Run, G.Accept, Sends, DispatchOf;
    var dispatch, t := DispatchOf(s, i, c), |s.owners|;
    MayDispatch(s, i, c);
    assert dispatch.Dispatch? && dispatch.row == i by { DispatchesRow(s, i, c); }
    DispatchTurn(s, dispatch);
    var sent := Step(s, dispatch);
    assert Enabled(sent, Deliver(t)) by { MayDeliver(sent, t); }
    DeliverTurn(sent, t);
    TwoTurns(s, dispatch, Deliver(t));
    var taken := Step(sent, Deliver(t));
    GatewayRuns(taken, gs);
    var served := Run(taken, GatewaySteps(gs));
    MayConclude(served, i, c.reply.value);
    Ends(served, d, Conclude(i, false));
    actions := [dispatch, Deliver(t)] + (GatewaySteps(gs) + [Tick(d), Conclude(i, false)]);
    RunInTwo(s, [dispatch, Deliver(t)], GatewaySteps(gs) + [Tick(d), Conclude(i, false)]);
    RunInTwo(taken, GatewaySteps(gs), [Tick(d), Conclude(i, false)]);
  }

  lemma DispatchesRow(s: System, i: nat, c: Conditions)
    requires i < |s.rows|
    ensures DispatchOf(s, i, c).Dispatch? && DispatchOf(s, i, c).row == i
  {
  }

  lemma MayDeliver(s: System, t: nat)
    requires t in s.inbox && s.gateway.process.Idle?
    ensures Enabled(s, Deliver(t))
  {
  }

  lemma MayConclude(s: System, i: nat, reply: G.Reply)
    requires Running(s, i) && s.runs[i].ticket.Some? && ReplyFor(s, s.runs[i].ticket.value) == Some(reply)
    ensures Enabled(s, Conclude(i, false)) && Committed(s, Conclude(i, false)) == Some((i, OutcomeOf(Some(reply))))
  {
  }

  /** Only steps that a worker makes, and time. */
  predicate WorkerSteps(actions: seq<Action>) {
    forall a | a in actions :: a.Read? || a.Begin? || a.Tick? || a.Dispatch? || a.Conclude? || a.Abort?
  }

  /** From the first save to the commit of an error, before or after the request has left. */
  lemma UnansweredAttempt(s: System, i: nat, d: nat, c: Conditions) returns (actions: seq<Action>)
    requires Running(s, i) && s.runs[i].ticket.None? && (Sends(s.rows, s.rows[i], c) ==> c.reply.None?)
    ensures var h := Run(s, actions);
      && CommittedBy(s, h, i, Error(false), d)
      && h.runs == s.runs - {i} && h.gateway == s.gateway
      && h.journal == s.journal[i := s.journal[i] + [AttemptRecord(s.runs[i].startedAt, Some(s.clock + d))]]
    ensures WorkerSteps(actions)
  {
    hide Step, Concluded, Claimed, Sends, DispatchOf;
    if Sends(s.rows, s.rows[i], c) {
      var dispatch := DispatchOf(s, i, c);
      MayDispatch(s, i, c);
      DispatchesRow(s, i, c);
      DispatchTurn(s, dispatch);
      Ends(Step(s, dispatch), d, Conclude(i, true));
      actions := [dispatch] + [Tick(d), Conclude(i, true)];
      Turn(s, dispatch, [Tick(d), Conclude(i, true)]);
    } else {
      Ends(s, d, Abort(i));
      actions := [Tick(d), Abort(i)];
    }
  }

  /** The outcome of an attempt depends on the record only by what a claim leaves alone. */
  lemma OutcomeOfClaimed(rows: seq<Row>, r: Row, c: Conditions)
    ensures AttemptOutcome(rows, Claimed(r), c) == if Sends(rows, r, c) then OutcomeOf(c.reply) else Error(false)
  {
  }

  predicate Attempting(s: System, i: nat) {
    && Writable(s, i) && |s.journal| == |s.rows|
    && Decide(s.rows[i], PrimaryStatus(s.rows, s.rows[i]), s.clock).Attempt?
  }

  lemma AnswersStill(s: System, h: System, i: nat, gs: seq<G.Action>, reply: G.Reply)
    requires i < |s.rows| && Answers(s, i, gs, reply)
    requires h.gateway == s.gateway && h.owners == s.owners && h.rows == s.rows && h.site == s.site
    ensures Answers(h, i, gs, reply)
  {
    hide G.Run, G.Accept;
  }

  /** An attempt from its reading to the commit of its answer. */
  lemma AnsweredRun(s: System, i: nat, d: nat, c: Conditions, gs: seq<G.Action>) returns (actions: seq<Action>)
    requires Attempting(s, i) && Sends(s.rows, s.rows[i], c) && c.reply.Some? && Answers(s, i, gs, c.reply.value)
    ensures var h := Run(s, actions);
      && CommittedBy(s, h, i, OutcomeOf(c.reply), d)
      && h.runs == s.runs && h.gateway == Served(s, i, gs) && h.owners == s.owners + [i]
  {
    hide Step, Enabled, Run, Concluded, Claimed, Sends, Starting, Decide, G.Run, G.Accept;
    Starts(s, i);
    var begun := Run(s, Starting(s, i));
    AnswersStill(s, begun, i, gs, c.reply.value);
    var rest := AnsweredAttempt(begun, i, d, c, gs);
    actions := Starting(s, i) + rest;
    RunInTwo(s, Starting(s, i), rest);
    assert s.runs[i := WorkerRun(s.clock, None)] - {i} == s.runs;
  }

  /** An attempt from its reading to the commit of an error. */
  lemma UnansweredRun(s: System, i: nat, d: nat, c: Conditions) returns (actions: seq<Action>)
    requires Attempting(s, i) && (Sends(s.rows, s.rows[i], c) ==> c.reply.None?)
    ensures var h := Run(s, actions);
      && CommittedBy(s, h, i, Error(false), d)
      && h.runs == s.runs && h.gateway == s.gateway
      && h.journal == s.journal[i := s.journal[i] + [AttemptRecord(s.clock, Some(s.clock + d))]]
    ensures WorkerSteps(actions)
  {
    hide Step, Enabled, Run, Concluded, Claimed, Sends, Decide;
    Starts(s, i);
    var begun := Run(s, Starting(s, i));
    var rest := UnansweredAttempt(begun, i, d, c);
    actions := Starting(s, i) + rest;
    RunInTwo(s, Starting(s, i), rest);
    assert s.runs[i := WorkerRun(s.clock, None)] - {i} == s.runs;
  }

  lemma CommittedRow(r: Row, o: Outcome, now: int)
    ensures Concluded(Claimed(r), o, now).identity == r.identity
    ensures o.Error? ==> Concluded(Claimed(r), o, now).status.Failed?
  {
  }

  /** An attempt to its commit, and then the release of the copies of a delivered primary. */
  lemma AttemptIsSteps(s: System, i: nat, d: nat, c: Conditions, gs: seq<G.Action>) returns (actions: seq<Action>)
    requires i < |s.rows| && Attempting(s, i)
    requires forall j | 0 <= j < |s.rows| && s.rows[j].identity.copyOf == Some(i) :: j !in s.runs
    requires c.reply.Some? && Sends(s.rows, s.rows[i], c) ==> Answers(s, i, gs, c.reply.value)
    ensures var claimed := Claimed(s.rows[i]);
      var done := s.rows[i := Concluded(claimed, AttemptOutcome(s.rows, claimed, c), s.clock + d)];
      Run(s, actions).rows == if Terminal(done[i].status) && !done[i].identity.group then Released(done, i) else done
  {
    hide Step, Enabled, Run, Attempting, Concluded, Claimed, Sends, Answers, AttemptOutcome;
    OutcomeOfClaimed(s.rows, s.rows[i], c);
    if Sends(s.rows, s.rows[i], c) && c.reply.Some? {
      actions := AnsweredRun(s, i, d, c, gs);
    } else {
      actions := UnansweredRun(s, i, d, c);
    }
    var done := Run(s, actions);
    if Terminal(done.rows[i].status) && !done.rows[i].identity.group {
      CommittedRow(s.rows[i], AttemptOutcome(s.rows, Claimed(s.rows[i]), c), s.clock + d);
      CommitKeepsCopies(s.rows, i, done.rows);
      var releases := AllReleases(done, i);
      RunInTwo(s, actions, releases);
      actions := actions + releases;
    }
  }

  /** A worker run that commits does to the records what its steps do in the system: read, begin,
      send and commit at the later time, then release the copies of a delivered primary. */
  lemma WorkerRunIsSteps(s: System, i: nat, d: nat, c: Conditions, gs: seq<G.Action>)
    requires Writable(s, i) && |s.journal| == |s.rows| && (Terminal(s.rows[i].status) ==> i in s.settled)
    requires forall j | 0 <= j < |s.rows| && s.rows[j].identity.copyOf == Some(i) :: j !in s.runs
    requires c.reply.Some? && Sends(s.rows, s.rows[i], c) ==> Answers(s, i, gs, c.reply.value)
    ensures exists actions :: Run(s, actions).rows == Worked(s.rows, i, s.clock, s.clock + d, c)
  {
    hide Step, Enabled, Run, Decide, Concluded, Claimed, Exhausted, Sends, Answers, Starting, AttemptOutcome;
    var actions := [];
    match Decide(s.rows[i], PrimaryStatus(s.rows, s.rows[i]), s.clock) {
      case Skip => NoSteps(s);
      case ReleaseOnly =>
        TerminalWhenReleasing(s.rows[i], PrimaryStatus(s.rows, s.rows[i]), s.clock);
        actions := AllReleases(s, i);
      case Exhaust =>
        Starts(s, i);
        actions := Starting(s, i);
      case Attempt => actions := AttemptIsSteps(s, i, d, c, gs);
    }
    assert Run(s, actions).rows == Worked(s.rows, i, s.clock, s.clock + d, c);
  }

  lemma NoSteps(s: System)
    ensures Run(s, []) == s
  {
  }

  lemma TerminalWhenReleasing(r: Row, primary: Option<Status>, now: int)
    requires Decide(r, primary, now).ReleaseOnly?
    ensures Terminal(r.status)
  {
  }

  lemma CommitKeepsCopies(rows: seq<Row>, i: nat, later: seq<Row>)
    requires i < |rows| && |later| == |rows|
    requires forall j | 0 <= j < |rows| && j != i :: later[j] == rows[j]
    requires later[i].identity == rows[i].identity
    ensures forall j | 0 <= j < |rows| :: later[j].identity.copyOf == rows[j].identity.copyOf
  {
  }

  lemma AllReleases(s: System, p: nat) returns (actions: seq<Action>)
    requires p in s.settled && forall j | 0 <= j < |s.rows| && s.rows[j].identity.copyOf == Some(p) :: j !in s.runs
    ensures var h := Run(s, actions);
      && h == s.(rows := Released(s.rows, p), awaiting := h.awaiting, settled := h.settled)
      && s.settled <= h.settled
  {
    hide Step, Enabled, Run, ReleaseRow;
    actions := ReleasesAreSteps(s, p, |s.rows|);
    assert ReleasedUpTo(s.rows, p, |s.rows|) == Released(s.rows, p);
  }

  // ---- a scheduler pass ----

  lemma RetryTurn(s: System, claim: Selected, enqueued: bool)
    requires Enabled(s, Retry(claim, enqueued))
    ensures var h := Step(s, Retry(claim, enqueued));
      h == s.(rows := s.rows[claim.row := Scheduled(s.rows[claim.row], claim, enqueued, s.clock)], settled := h.settled)
  {
    hide G.Accept, G.Step, Scheduled;
  }

  lemma SelectDueTurn(s: System, i: nat)
    requires i < |s.rows| && Due(s.rows[i], s.clock)
    ensures Enabled(s, SelectDue(i))
    ensures var h := Step(s, SelectDue(i)); h == s.(due := s.due + {SelectedOf(s, i)}, settled := h.settled)
  {
    hide G.Accept, G.Step;
  }

  lemma ReleasedKeepsTerminals(rows: seq<Row>, p: nat, settled: set<nat>)
    requires TerminalRows(rows) <= settled
    ensures TerminalRows(Released(rows, p)) <= settled && |Released(rows, p)| == |rows|
    ensures forall j | 0 <= j < |rows| :: Released(rows, p)[j].identity == rows[j].identity
  {
    forall j | j in TerminalRows(Released(rows, p)) ensures j in settled {
      assert j in TerminalRows(rows);
    }
  }

  /** The recovery of released primaries is a run of single selections and releases. */
  lemma {:induction false} RecoveryIsSteps(s: System, parents: seq<nat>) returns (actions: seq<Action>)
    requires TerminalRows(s.rows) <= s.settled
    requires forall j, p | 0 <= j < |s.rows| && p in parents && s.rows[j].identity.copyOf == Some(p) :: j !in s.runs
    ensures var h := Run(s, actions);
      && h == s.(rows := O.Recovered(s.rows, parents), awaiting := h.awaiting, settled := h.settled)
      && TerminalRows(h.rows) <= h.settled
      && SameIdentities(s.rows, h.rows) && |h.rows| == |s.rows|
  {
    hide Step, Enabled, Run, Released, TerminalRows;
    if parents == [] {
      actions := [];
      NoSteps(s);
    } else {
      var front, p := parents[..|parents| - 1], parents[|parents| - 1];
      actions := RecoveryIsSteps(s, front);
      var h := Run(s, actions);
      if p < |h.rows| && Terminal(h.rows[p].status) {
        assert p in h.settled by { TerminalRowListed(h.rows, p); }
        assert p in parents;
        var releases := AllReleases(h, p);
        RunInTwo(s, actions, releases);
        actions := actions + releases;
        ReleasedKeepsTerminals(h.rows, p, Run(h, releases).settled);
      }
    }
  }

  lemma TerminalRowListed(rows: seq<Row>, p: nat)
    requires p < |rows| && Terminal(rows[p].status)
    ensures p in TerminalRows(rows)
  {
  }

  /** The claims of a scheduler pass are a run of single retries. */
  lemma {:induction false} ClaimsAreSteps(s: System, due: seq<Selected>, failing: set<nat>)
    requires |s.journal| == |s.rows|
    requires forall x | 0 <= x < |due| :: due[x].row < |s.rows| && due[x].row !in s.runs && due[x] in s.due
    ensures exists actions :: Run(s, actions).rows == O.Rescheduled(s.rows, due, s.clock, failing)
    decreases |due|
  {
    hide Step, Scheduled, AtLimit;
    if due == [] {
      assert Run(s, []).rows == s.rows;
    } else {
      var claim := due[0];
      var a := Retry(claim, claim.row !in failing);
      assert claim == due[0] && Enabled(s, a);
      RetryTurn(s, claim, claim.row !in failing);
      var h := Step(s, a);
      if !AtLimit(claim) && claim.row in failing {
        OneTurn(s, a);
      } else {
        forall x | 0 <= x < |due[1..]|
          ensures due[1..][x].row < |h.rows| && due[1..][x].row !in h.runs && due[1..][x] in h.due
        {
          assert due[1..][x] == due[x + 1];
        }
        ClaimsAreSteps(h, due[1..], failing);
        var rest :| Run(h, rest).rows == O.Rescheduled(h.rows, due[1..], s.clock, failing);
        Turn(s, a, rest);
      }
    }
  }

  /** The selections of a scheduler pass, one after the other. */
  lemma {:induction false} SelectionsAreSteps(s: System, due: seq<Selected>) returns (actions: seq<Action>)
    requires forall x | 0 <= x < |due| ::
      due[x].row < |s.rows| && Due(s.rows[due[x].row], s.clock) && due[x] == SelectedOf(s, due[x].row)
    ensures var h := Run(s, actions);
      h == s.(due := h.due, settled := h.settled) && s.due <= h.due && forall c | c in due :: c in h.due
  {
    hide Step, Enabled, Run, Due;
    if due == [] {
      actions := [];
      NoSteps(s);
    } else {
      var last := |due| - 1;
      actions := SelectionsAreSteps(s, due[..last]);
      var h := Run(s, actions);
      SelectDueTurn(h, due[last].row);
      OneTurn(h, SelectDue(due[last].row));
      RunInTwo(s, actions, [SelectDue(due[last].row)]);
      actions := actions + [SelectDue(due[last].row)];
      assert forall c | c in due :: c in due[..last] || c == due[last];
    }
  }

  lemma DueBySelection(s: System, due: seq<Selected>)
    requires O.DueQuery(s.rows, s.clock, due)
    ensures forall x | 0 <= x < |due| ::
      due[x].row < |s.rows| && Due(s.rows[due[x].row], s.clock) && due[x] == SelectedOf(s, due[x].row)
  {
  }

  /** A scheduler pass that none of the records it writes is locked from does to the records what its
      recoveries, selections and claims do in the system. */
  lemma PassIsSteps(s: System, parents: seq<nat>, due: seq<Selected>, failing: set<nat>)
    requires |s.journal| == |s.rows| && TerminalRows(s.rows) <= s.settled
    requires forall j, p | 0 <= j < |s.rows| && p in parents && s.rows[j].identity.copyOf == Some(p) :: j !in s.runs
    requires O.DueQuery(O.Recovered(s.rows, parents), s.clock, due)
    requires forall x | 0 <= x < |due| :: due[x].row !in s.runs
    ensures exists actions ::
      Run(s, actions).rows == O.Rescheduled(O.Recovered(s.rows, parents), due, s.clock, failing)
  {
    hide Step, Enabled, Run, O.Recovered, O.Rescheduled, O.DueQuery, TerminalRows, Due;
    var recovery := RecoveryIsSteps(s, parents);
    var recovered := Run(s, recovery);
    DueBySelection(recovered, due);
    var selections := SelectionsAreSteps(recovered, due);
    var h := Run(recovered, selections);
    ClaimsAreSteps(h, due, failing);
    var claims :| Run(h, claims).rows == O.Rescheduled(h.rows, due, h.clock, failing);
    RunInTwo(s, recovery, selections);
    RunInTwo(s, recovery + selections, claims);
  }
}
