/** Request authentication: the pruned nonce table, over the life of one gateway process.
    Times are milliseconds, request timestamps whole seconds; signatures are a given verdict. */
module NonceTable {

  const WINDOW: int := 300_000

  datatype Attempt = Attempt(now: int, timestamp: int, nonce: string, signed: bool)

  predicate NonceChar(c: char) {
    'a' <= c <= 'z' || 'A' <= c <= 'Z' || '0' <= c <= '9' || c == '_' || c == '-'
  }

  predicate ValidNonce(n: string) {
    16 <= |n| <= 128 && forall i | 0 <= i < |n| :: NonceChar(n[i])
  }

  function Abs(x: int): int { if x < 0 then -x else x }

  predicate Verifies(a: Attempt) {
    Abs(a.now - a.timestamp * 1000) <= WINDOW && ValidNonce(a.nonce) && a.signed
  }

  function Purged(seen: map<string, int>, now: int): map<string, int> {
    map n | n in seen && seen[n] >= now :: seen[n]
  }

  predicate Accepts(seen: map<string, int>, a: Attempt) {
    a.nonce !in Purged(seen, a.now) && Verifies(a)
  }

  function After(seen: map<string, int>, a: Attempt): map<string, int> {
    var kept := Purged(seen, a.now);
    if Accepts(seen, a) then kept[a.nonce := a.now + WINDOW] else kept
  }

  /** What one attempt does to a table. */
  lemma OneAttempt(seen: map<string, int>, a: Attempt)
    ensures var valid, after := Accepts(seen, a), After(seen, a);
      && (valid <==>
            && a.signed && 16 <= |a.nonce| <= 128 && (forall c | c in a.nonce :: NonceChar(c))
            && -300_000 <= a.now - a.timestamp * 1000 <= 300_000
            && (a.nonce in seen ==> seen[a.nonce] < a.now))
      && (forall n | n in after :: n in seen || (valid && n == a.nonce))
      && (forall n | n in seen && !(valid && n == a.nonce) ::
            (n in after <==> seen[n] >= a.now) && (n in after ==> after[n] == seen[n]))
      && (valid ==> a.nonce in after && after[a.nonce] == a.now + 300_000)
  {
    NonceForm(a.nonce);
  }

  lemma NonceForm(n: string)
    ensures ValidNonce(n) <==> 16 <= |n| <= 128 && forall c | c in n :: NonceChar(c)
  {
    if forall c | c in n :: NonceChar(c) {
      assert forall i | 0 <= i < |n| :: n[i] in n;
    }
  }

  class Authenticator {
    var seenNonces: map<string, int>

    constructor ()
      ensures seenNonces == map[]
    {
      seenNonces := map[];
    }

    method Authenticate(a: Attempt) returns (valid: bool)
      modifies this
      ensures valid == Accepts(old(seenNonces), a)
      ensures seenNonces == After(old(seenNonces), a)
      ensures valid <==>
        && a.signed && 16 <= |a.nonce| <= 128 && (forall c | c in a.nonce :: NonceChar(c))
        && -300_000 <= a.now - a.timestamp * 1000 <= 300_000
        && (a.nonce in old(seenNonces) ==> old(seenNonces)[a.nonce] < a.now)
      ensures forall n | n in seenNonces :: n in old(seenNonces) || (valid && n == a.nonce)
      ensures forall n | n in old(seenNonces) && !(valid && n == a.nonce) ::
        (n in seenNonces <==> old(seenNonces)[n] >= a.now) && (n in seenNonces ==> seenNonces[n] == old(seenNonces)[n])
      ensures valid ==> a.nonce in seenNonces && seenNonces[a.nonce] == a.now + 300_000
    {
      hide ValidNonce, NonceChar;
      var keys := seenNonces.Keys;
      while keys != {}
        invariant keys <= seenNonces.Keys
        invariant forall n :: n in seenNonces ==> n in old(seenNonces) && seenNonces[n] == old(seenNonces)[n]
        invariant forall n :: n in old(seenNonces) && n !in keys ==> (n in seenNonces <==> old(seenNonces)[n] >= a.now)
        invariant forall n :: n in keys ==> n in old(seenNonces)
        decreases |keys|
      {
        var key :| key in keys;
        keys := keys - {key};
        if seenNonces[key] < a.now {
          seenNonces := seenNonces - {key};
        }
      }
      assert seenNonces == Purged(old(seenNonces), a.now);
      OneAttempt(old(seenNonces), a);
      if a.nonce in seenNonces { return false; }
      valid := Verifies(a);
      if valid {
        seenNonces := seenNonces[a.nonce := a.now + WINDOW];
      }
    }
  }

  // ---- runs ----

  /** The table after some attempts. */
  function Table(attempts: seq<Attempt>): map<string, int> {
    if attempts == [] then map[]
    else After(Table(attempts[..|attempts| - 1]), attempts[|attempts| - 1])
  }

  predicate AcceptedAt(attempts: seq<Attempt>, i: nat)
    requires i < |attempts|
  {
    Accepts(Table(attempts[..i]), attempts[i])
  }

  predicate Chronological(attempts: seq<Attempt>) {
    forall i, j | 0 <= i < j < |attempts| :: attempts[i].now <= attempts[j].now
  }

  /** An accepted nonce stays in the table for the whole window. */
  lemma {:induction false} NonceKept(attempts: seq<Attempt>, i: nat, j: nat)
    requires Chronological(attempts) && i < j <= |attempts| && AcceptedAt(attempts, i)
    requires forall m | i < m < j :: attempts[m].now <= attempts[i].now + WINDOW
    ensures attempts[i].nonce in Table(attempts[..j])
    ensures Table(attempts[..j])[attempts[i].nonce] == attempts[i].now + WINDOW
  {
    assert attempts[..j][..j - 1] == attempts[..j - 1];
    if j == i + 1 {
    } else {
      NonceKept(attempts, i, j - 1);
      assert attempts[j - 1].now <= attempts[i].now + WINDOW;
    }
  }

  /** What the table holds was put there by an accepted attempt. */
  lemma {:induction false} TableFromAccepted(attempts: seq<Attempt>, i: nat, n: string) returns (j: nat)
    requires i <= |attempts| && n in Table(attempts[..i])
    ensures j < i && AcceptedAt(attempts, j) && attempts[j].nonce == n
    ensures Table(attempts[..i])[n] == attempts[j].now + WINDOW
  {
    assert attempts[..i][..i - 1] == attempts[..i - 1];
    var before := Table(attempts[..i - 1]);
    if Accepts(before, attempts[i - 1]) && attempts[i - 1].nonce == n {
      j := i - 1;
    } else {
      j := TableFromAccepted(attempts, i - 1, n);
    }
  }

  /** In any run an attempt is accepted exactly when it is signed, its nonce well formed, its timestamp
      within five minutes of the clock, and its nonce was not accepted in the last five minutes. */
  lemma AcceptedExactly(attempts: seq<Attempt>, i: nat)
    requires Chronological(attempts) && i < |attempts|
    ensures var a := attempts[i];
      AcceptedAt(attempts, i) <==>
        && a.signed
        && 16 <= |a.nonce| <= 128
        && (forall c | c in a.nonce :: 'a' <= c <= 'z' || 'A' <= c <= 'Z' || '0' <= c <= '9' || c == '_' || c == '-')
        && -300_000 <= a.now - a.timestamp * 1000 <= 300_000
        && forall j | 0 <= j < i && AcceptedAt(attempts, j) && attempts[j].nonce == a.nonce ::
             attempts[j].now < a.now - 300_000
  {
    var a := attempts[i];
    NonceForm(a.nonce);
    forall j | && 0 <= j < i && AcceptedAt(attempts, j) && attempts[j].nonce == a.nonce
               && attempts[j].now >= a.now - WINDOW
      ensures !AcceptedAt(attempts, i)
    {
      assert forall m | j < m < i :: attempts[m].now <= a.now;
      NonceKept(attempts, j, i);
    }
    if a.nonce in Purged(Table(attempts[..i]), a.now) {
      var j := TableFromAccepted(attempts, i, a.nonce);
      assert attempts[j].now >= a.now - WINDOW;
    }
  }

  /** A nonce accepted twice was accepted the second time after the first one's window. */
  lemma SecondAcceptanceIsLate(attempts: seq<Attempt>, i: nat, j: nat)
    requires Chronological(attempts) && i < j < |attempts|
    requires AcceptedAt(attempts, i) && AcceptedAt(attempts, j) && attempts[i].nonce == attempts[j].nonce
    ensures attempts[j].now > attempts[i].now + WINDOW
  {
    if attempts[j].now <= attempts[i].now + WINDOW {
      assert forall m | i < m < j :: attempts[m].now <= attempts[j].now;
      NonceKept(attempts, i, j);
    }
  }

  /** A pair whose timestamp is not ahead of the clock when accepted is accepted at most once. */
  lemma AcceptedAtMostOnce(attempts: seq<Attempt>, i: nat, j: nat)
    requires Chronological(attempts) && i < j < |attempts|
    requires attempts[i].nonce == attempts[j].nonce && attempts[i].timestamp == attempts[j].timestamp
    requires attempts[i].timestamp * 1000 <= attempts[i].now
    ensures !(AcceptedAt(attempts, i) && AcceptedAt(attempts, j))
  {
    if AcceptedAt(attempts, i) && AcceptedAt(attempts, j) {
      SecondAcceptanceIsLate(attempts, i, j);
    }
  }

  /** The pair can be accepted again in some continuation of the run. */
  ghost predicate Replayable(attempts: seq<Attempt>)
    requires attempts != []
  {
    exists later: seq<Attempt> ::
      && later != [] && Chronological(attempts + later)
      && later[|later| - 1].nonce == attempts[|attempts| - 1].nonce
      && later[|later| - 1].timestamp == attempts[|attempts| - 1].timestamp
      && AcceptedAt(attempts + later, |attempts + later| - 1)
  }

  lemma PrefixAccepted(attempts: seq<Attempt>, later: seq<Attempt>, i: nat)
    requires i < |attempts| && AcceptedAt(attempts, i)
    ensures AcceptedAt(attempts + later, i)
  {
    assert (attempts + later)[..i] == attempts[..i];
  }

  /** One millisecond after the window a request stamped ahead of the clock passes again. */
  lemma AheadIsReplayable(attempts: seq<Attempt>)
    requires attempts != [] && Chronological(attempts) && AcceptedAt(attempts, |attempts| - 1)
    requires attempts[|attempts| - 1].timestamp * 1000 > attempts[|attempts| - 1].now
    ensures Replayable(attempts)
  {
    var i, a := |attempts| - 1, attempts[|attempts| - 1];
    var later := [a.(now := a.now + WINDOW + 1)];
    var all := attempts + later;
    PrefixAccepted(attempts, later, i);
    NonceKept(all, i, |attempts|);
    assert AcceptedAt(all, |all| - 1);
    assert later[|later| - 1].nonce == a.nonce;
  }

  /** The window bounds meet exactly: an accepted pair can be accepted again if and only if its
      timestamp was ahead of the gateway's clock. */
  lemma ReplayableIffAhead(attempts: seq<Attempt>)
    requires attempts != [] && Chronological(attempts) && AcceptedAt(attempts, |attempts| - 1)
    ensures Replayable(attempts) <==> attempts[|attempts| - 1].timestamp * 1000 > attempts[|attempts| - 1].now
  {
    var i, a := |attempts| - 1, attempts[|attempts| - 1];
    if a.timestamp * 1000 > a.now {
      AheadIsReplayable(attempts);
    } else if Replayable(attempts) {
      var later: seq<Attempt> :| later != [] && Chronological(attempts + later)
        && later[|later| - 1].nonce == a.nonce && later[|later| - 1].timestamp == a.timestamp
        && AcceptedAt(attempts + later, |attempts + later| - 1);
      PrefixAccepted(attempts, later, i);
      AcceptedAtMostOnce(attempts + later, i, |attempts + later| - 1);
    }
  }

  /** The client stamps whole seconds of its clock, so on one clock it is never ahead. */
  lemma ClientNeverAhead(sentAt: int, acceptedAt: int)
    requires 0 <= sentAt <= acceptedAt
    ensures (sentAt / 1000) * 1000 <= acceptedAt
  {
  }
}
