/** When exactly the backoff holds: whatever may still happen to a record, its attempts stay spaced if
    and only if no claim and no release is written while it must still wait. */
module DeliveryExactness {
  import opened Messages
  import opened Stores
  import opened History
  import opened DeliveryInvariants
  import opened DeliveryOrder
  import opened DeliverySystem
  import opened DeliveryRuns
  import C = CompanyGroups
  import G = GatewayProtocol
  import S = GatewaySafety
  import R = DeliveryRetries
  import Y = DeliverySync
  import D = DeliveryGuarantees

  /** However the system goes on without writing the record too early, its attempts are spaced. */
  ghost predicate Secure(s: System, i: nat) {
    forall rest | D.NoEarlyWrites(s, rest, i) ::
      i < |Run(s, rest).journal| ==> R.Spaced(Run(s, rest).journal[i])
  }

  /** In the empty system every record to come is secure. */
  lemma StartSecure(site: string, i: nat)
    ensures Secure(Start(site), i)
  {
    hide Run, D.All, D.NoEarlyWrites, R.Spaced;
    forall rest | D.NoEarlyWrites(Start(site), rest, i)
      ensures i < |Run(Start(site), rest).journal| ==> R.Spaced(Run(Start(site), rest).journal[i])
    {
      D.StartAll(site);
      D.RunKeepsAll(Start(site), rest);
      JournalOfRows(Run(Start(site), rest));
      if i < |Run(Start(site), rest).journal| {
        D.Backoff(site, rest, i, 0);
      }
    }
  }

  lemma JournalOfRows(s: System)
    requires D.All(s)
    ensures |s.journal| == |s.rows|
  {
  }

  /** A worker would attempt the record if its status and its count allowed it. */
  predicate Attemptable(s: System, i: nat)
    requires i < |s.rows|
  {
    s.rows[i].identity.copyOf.Some? ==>
      PrimaryStatus(s.rows, s.rows[i]).Some? && Terminal(PrimaryStatus(s.rows, s.rows[i]).value)
  }

  // ---- an early write ruins the spacing ----

  /** The write and nothing else. */
  lemma WriteTurn(s: System, a: Action, i: nat)
    requires Enabled(s, a) && R.Writes(a, i) && |s.journal| == |s.rows|
    ensures i < |s.rows| && i !in s.runs
    ensures var h := Step(s, a);
      && h.rows == s.rows[i := h.rows[i]] && h.journal == s.journal && h.runs == s.runs && h.clock == s.clock
      && (if a.Retry? then h.rows[i] == Scheduled(s.rows[i], a.claim, a.enqueued, s.clock)
          else h.rows[i] == ReleasedCopy(s.rows[i]))
  {
    hide G.Accept, G.Step, Scheduled, ReleasedCopy;
  }

  lemma PrimaryElsewhere(s: System, h: System, i: nat)
    requires GoodRows(s.rows) && i < |s.rows| && |h.rows| == |s.rows| && h.rows == s.rows[i := h.rows[i]]
    requires h.rows[i].identity == s.rows[i].identity
    ensures PrimaryStatus(h.rows, h.rows[i]) == PrimaryStatus(s.rows, s.rows[i])
  {
    assert Provenance(s.rows, i);
  }

  /** A claim selected when the record had reached its limit finds it closed. */
  lemma EarlyClaimBelowLimit(s: System, a: Action, i: nat)
    requires Enabled(s, a) && R.Counted(s) && i < |s.rows| && a.Retry? && a.claim.row == i && !R.Closed(s.rows[i])
    ensures !AtLimit(a.claim)
  {
  }

  lemma WrittenRowAttempted(s: System, a: Action, i: nat)
    requires Enabled(s, a) && R.Counted(s) && GoodRows(s.rows) && i < |s.rows| && R.EarlyWrite(s, a, i)
    requires Attemptable(s, i)
    ensures Attempting(Step(s, a), i)
    ensures Step(s, a).clock == s.clock && Step(s, a).journal == s.journal
  {
    hide Step, Enabled, Decide, GoodRows, R.Counted, R.WaitOver;
    assert |s.journal| == |s.rows| by { CountedLengths(s); }
    WriteTurn(s, a, i);
    var h, primary := Step(s, a), PrimaryStatus(s.rows, s.rows[i]);
    PrimaryElsewhere(s, h, i);
    if a.Retry? {
      EarlyClaimBelowLimit(s, a, i);
      R.EarlyClaimExposes(s.rows[i], a.claim, a.enqueued, primary, s.clock);
    } else {
      R.EarlyReleaseExposes(s.rows[i], primary, s.clock);
    }
  }

  lemma CountedLengths(s: System)
    requires R.Counted(s)
    ensures |s.journal| == |s.rows|
  {
  }

  /** A worker neither claims nor releases. */
  lemma {:induction false} WorkersWriteNothingEarly(s: System, actions: seq<Action>, i: nat)
    requires WorkerSteps(actions)
    ensures D.NoEarlyWrites(s, actions, i)
    decreases |actions|
  {
    hide Step, Enabled;
    if actions == [] {
    } else {
      assert actions[0] in actions && forall a | a in actions[1..] :: a in actions;
      WorkersWriteNothingEarly(if Enabled(s, actions[0]) then Step(s, actions[0]) else s, actions[1..], i);
    }
  }

  function Unavailable(): Conditions {
    Conditions(C.Settings(false, C.UnsupportedTransport, None, None, []),
               user => Access(false, false, false, false), false, None)
  }

  /** A worker that attempts the record before its wait is over breaks the spacing. */
  lemma EarlyAttempt(s: System, i: nat)
    requires Attempting(s, i) && !R.WaitOver(s.journal[i], s.clock)
    ensures !Secure(s, i)
  {
    hide Step, Enabled, Run, Concluded, Claimed, Decide, R.WaitOver, R.Spaced, D.NoEarlyWrites;
    var rest := UnansweredRun(s, i, 0, Unavailable());
    WorkersWriteNothingEarly(s, rest, i);
    var added := AttemptRecord(s.clock, Some(s.clock));
    assert Run(s, rest).journal[i] == s.journal[i] + [added];
    R.EarlyAttemptBreaks(s.journal[i], added);
  }

  /** A write that comes too early, to a record that a worker would attempt, ruins the spacing. */
  lemma EarlyWriteRuins(s: System, a: Action, i: nat)
    requires Enabled(s, a) && D.All(s) && i < |s.rows| && i < |s.journal| && R.EarlyWrite(s, a, i)
    requires Attemptable(s, i)
    ensures !Secure(Step(s, a), i)
  {
    hide Step, Enabled, Secure, Attemptable, R.WaitOver, R.Counted;
    hide S.Inv, Settlement, Recorded, CopiesWait, TraceOrder, FlagsStuck, OneAnswer, Y.SyncInv;
    WrittenRowAttempted(s, a, i);
    EarlyAttempt(Step(s, a), i);
  }

  // ---- everything else keeps the record secure ----

  lemma TimelyStepSecure(s: System, a: Action, i: nat)
    requires Enabled(s, a) && Secure(s, i)
    requires i < |s.rows| && i < |s.journal| ==> !R.EarlyWrite(s, a, i)
    ensures Secure(Step(s, a), i)
  {
    hide Step, Enabled, R.EarlyWrite, R.Spaced;
    forall rest | D.NoEarlyWrites(Step(s, a), rest, i)
      ensures i < |Run(Step(s, a), rest).journal| ==> R.Spaced(Run(Step(s, a), rest).journal[i])
    {
      Turn(s, a, rest);
      assert ([a] + rest)[1..] == rest;
      assert D.NoEarlyWrites(s, [a] + rest, i);
    }
  }

  lemma {:induction false} RunStaysSecure(s: System, actions: seq<Action>, i: nat)
    requires Secure(s, i) && D.NoEarlyWrites(s, actions, i)
    ensures Secure(Run(s, actions), i)
    decreases |actions|
  {
    hide Step, Enabled, Secure, R.EarlyWrite;
    if actions == [] {
    } else if Enabled(s, actions[0]) {
      TimelyStepSecure(s, actions[0], i);
      RunStaysSecure(Step(s, actions[0]), actions[1..], i);
    } else {
      RunStaysSecure(s, actions[1..], i);
    }
  }

  /** After every run without early writes the record is secure. */
  lemma TimelyRunsSecure(site: string, actions: seq<Action>, i: nat)
    requires D.NoEarlyWrites(Start(site), actions, i)
    ensures Secure(Run(Start(site), actions), i)
  {
    hide Run, Secure, D.NoEarlyWrites;
    StartSecure(site, i);
    RunStaysSecure(Start(site), actions, i);
  }

  /** The exact guard of every claim and release: in any reachable state, of a record whose attempts
      are sure to be spaced, a step keeps that sure if and only if it does not write the record while
      it must still wait. For a copy whose primary is not terminal the guard is sufficient. */
  lemma BackoffExactly(site: string, actions: seq<Action>, a: Action, i: nat)
    requires var s := Run(Start(site), actions); Enabled(s, a) && Secure(s, i) && i < |s.rows| && i < |s.journal|
    ensures var s := Run(Start(site), actions);
      && (!R.EarlyWrite(s, a, i) ==> Secure(Step(s, a), i))
      && (Attemptable(s, i) ==> (Secure(Step(s, a), i) <==> !R.EarlyWrite(s, a, i)))
  {
    hide Run, Step, Enabled, Secure, Attemptable, D.All, R.EarlyWrite;
    D.Reachable(site, actions);
    var s := Run(Start(site), actions);
    if !R.EarlyWrite(s, a, i) {
      TimelyStepSecure(s, a, i);
    } else if Attemptable(s, i) {
      EarlyWriteRuins(s, a, i);
    }
  }
}
