/** The queue that serialises sends: works start in arrival order, never overlap, and keep their
    distance. Times are milliseconds; timers never fire early and the clock never goes back. */
module Throttle {

  const LONGEST_DELAY: int := 300_000

  function Max(a: int, b: int): int { if a >= b then a else b }

  function Min(a: int, b: int): int { if a <= b then a else b }

  /** A requested delay, or the base delay when it is zero or absent. */
  function OrElse(requested: int, base: int): int {
    if requested != 0 then requested else base
  }

  // ---- the three clamps ----

  /** The connector's: whole seconds between 10 and 300. */
  function ConnectorDelay(seconds: int): int {
    Max(10, Min(300, seconds)) * 1000
  }

  /** The gateway's, on the request. */
  function RequestedDelay(throttleMs: int, base: int): int {
    Max(10_000, Min(LONGEST_DELAY, OrElse(throttleMs, base)))
  }

  /** The queue's. */
  function EffectiveDelay(requested: int, base: int): int {
    Max(base, Min(LONGEST_DELAY, OrElse(requested, base)))
  }

  /** The gateway's clamps on whatever delay a request asks for. */
  lemma GatewayDelayExactly(throttleMs: int, base: int)
    requires base >= 0
    ensures var asked := if throttleMs != 0 then throttleMs else base;
      var within := if asked < 10_000 then 10_000 else if asked > 300_000 then 300_000 else asked;
      && RequestedDelay(throttleMs, base) == within
      && EffectiveDelay(within, base) == if within < base then base else within
  {
  }

  /** Together they amount to the base delay or the configured seconds clamped to 10..300. */
  lemma ClampsCompose(seconds: int, base: int)
    requires base >= 0
    ensures ConnectorDelay(seconds) == 1000 * (if seconds < 10 then 10 else if seconds > 300 then 300 else seconds)
    ensures EffectiveDelay(RequestedDelay(ConnectorDelay(seconds), base), base)
         == Max(base, 1000 * Max(10, Min(300, seconds)))
  {
    assert 10_000 <= ConnectorDelay(seconds) <= 300_000;
  }

  // ---- the queue ----

  /** A work as it turns out: when it was added, the delay it asked for, how late its timer fired,
      how long it ran, and whether it was rejected. */
  datatype Work = Work(added: int, requested: int, late: nat, takes: nat, rejected: bool)

  /** When a work started and ended, and whether its caller saw a rejection. */
  datatype Slot = Slot(start: int, end: int, rejected: bool)

  /** When a work starts, given the end of the one before and the last start. */
  function StartOf(w: Work, base: int, lastEnd: int, lastStart: int): int {
    var ready := Max(w.added, lastEnd);
    var wait := Max(0, EffectiveDelay(w.requested, base) - (ready - lastStart));
    ready + if wait > 0 then wait + w.late else 0
  }

  /** A promise, by the time it settles and whether it is rejected. */
  datatype Promise = Promise(at: int, rejected: bool)

  class SequentialQueue {
    const delayMs: int
    var lastStartedAt: int
    var tail: Promise

    constructor (delayMs: int)
      ensures this.delayMs == Max(0, delayMs) && lastStartedAt == 0 && tail == Promise(0, false)
    {
      this.delayMs := Max(0, delayMs);
      lastStartedAt, tail := 0, Promise(0, false);
    }

    /** The handler: wait until the work is due, note the start, do the work. */
    method Handle(w: Work, settled: int) returns (result: Promise)
      modifies this`lastStartedAt
      ensures lastStartedAt == StartOf(w, delayMs, settled, old(lastStartedAt))
      ensures result == Promise(lastStartedAt + w.takes, w.rejected)
    {
      var now := Max(w.added, settled);
      var effectiveDelay := Max(delayMs, Min(LONGEST_DELAY, OrElse(w.requested, delayMs)));
      var wait := Max(0, effectiveDelay - (now - lastStartedAt));
      if wait > 0 {
        now := now + wait + w.late;
      }
      lastStartedAt := now;
      result := Promise(now + w.takes, w.rejected);
    }

    /** One work, chained behind the tail with a handler for either way it settles. The caller gets
        the work's own result; the new tail is that result with a rejection caught. */
    method Add(w: Work) returns (result: Promise)
      modifies this
      ensures lastStartedAt == StartOf(w, delayMs, old(tail).at, old(lastStartedAt))
      ensures result == Promise(lastStartedAt + w.takes, w.rejected)
      ensures tail.at == result.at && !tail.rejected
    {
      result := tail;
      if tail.rejected {
        result := Handle(w, tail.at);
      } else {
        result := Handle(w, tail.at);
      }
      tail := result;
      if result.rejected {
        tail := Promise(result.at, false);
      }
    }
  }

  predicate Fits(w: Work, slot: Slot) {
    w.added <= slot.start && slot.end == slot.start + w.takes && slot.rejected == w.rejected
  }

  /** A work starts after the one before has ended, and at least its effective delay after its start. */
  predicate Follows(before: Slot, w: Work, slot: Slot, base: int) {
    before.end <= slot.start && slot.start - before.start >= EffectiveDelay(w.requested, base)
  }

  /** A work starts as soon as it has been added, the one before has ended and its distance to the start
      of that one has passed; only if it has to wait for the distance does its timer's lateness count. */
  predicate StartsWhenDue(before: Slot, w: Work, slot: Slot, base: int) {
    var ready := if w.added > before.end then w.added else before.end;
    var asked := if w.requested != 0 then w.requested else base;
    var capped := if asked > 300_000 then 300_000 else asked;
    var distance := if capped < base then base else capped;
    slot.start == if before.start + distance <= ready then ready else before.start + distance + w.late
  }

  /** The slot before a work's own; the queue begins with its last start at zero. */
  function Earlier(slots: seq<Slot>, i: nat): Slot
    requires i <= |slots|
  {
    if i == 0 then Slot(0, 0, false) else slots[i - 1]
  }

  /** A work runs for its time from its start on, at its distance behind the one before. */
  predicate Served(works: seq<Work>, slots: seq<Slot>, base: int, i: nat)
    requires i < |slots| <= |works|
  {
    && Fits(works[i], slots[i])
    && StartsWhenDue(Earlier(slots, i), works[i], slots[i], base)
    && (i > 0 ==> Follows(slots[i - 1], works[i], slots[i], base))
  }

  /** Works served in arrival order, none overlapping the next, at their distance and no later. A
      rejected work reaches its own caller and does not stop the works behind it. */
  predicate Serial(works: seq<Work>, slots: seq<Slot>, base: int) {
    |slots| == |works| && forall i: nat | i < |slots| :: Served(works, slots, base, i)
  }

  lemma OneMoreServed(works: seq<Work>, slots: seq<Slot>, base: int, w: Work, slot: Slot)
    requires Serial(works, slots, base) && Fits(w, slot)
    requires StartsWhenDue(Earlier(slots, |slots|), w, slot, base)
    requires slots != [] ==> Follows(slots[|slots| - 1], w, slot, base)
    ensures Serial(works + [w], slots + [slot], base)
  {
    forall i: nat | i < |slots| + 1 ensures Served(works + [w], slots + [slot], base, i) {
      assert i < |slots| ==> Served(works, slots, base, i);
    }
  }

  /** The queue serves any works serially. */
  method Serve(base: int, works: seq<Work>) returns (slots: seq<Slot>)
    requires base >= 0
    ensures Serial(works, slots, base)
  {
    var queue := new SequentialQueue(base);
    slots := [];
    for i := 0 to |works|
      invariant fresh(queue) && queue.delayMs == base
      invariant Serial(works[..i], slots, base)
      invariant |slots| == i
      invariant queue.lastStartedAt == Earlier(slots, i).start && queue.tail.at == Earlier(slots, i).end
    {
      var result := queue.Add(works[i]);
      var slot := Slot(queue.lastStartedAt, result.at, result.rejected);
      OneMoreServed(works[..i], slots, base, works[i], slot);
      assert works[..i] + [works[i]] == works[..i + 1];
      slots := slots + [slot];
    }
    assert works[..|works|] == works;
  }

  /** Starts grow by at least the base delay each. */
  lemma {:induction false} StartsSpread(works: seq<Work>, slots: seq<Slot>, base: int, i: nat, j: nat)
    requires Serial(works, slots, base) && base >= 0 && i <= j < |slots|
    ensures slots[j].start - slots[i].start >= (j - i) * base
  {
    if i == j {
    } else {
      StartsSpread(works, slots, base, i, j - 1);
      assert Served(works, slots, base, j);
      assert (j - i) * base == (j - 1 - i) * base + base;
    }
  }

  /** The works that start in a window. */
  function StartsIn(slots: seq<Slot>, from: int, length: nat): set<int> {
    set i | 0 <= i < |slots| && from <= slots[i].start <= from + length
  }

  lemma {:induction false} SizeInRange(s: set<int>, low: int, n: nat)
    requires forall i | i in s :: low <= i < low + n
    ensures |s| <= n
  {
    if n == 0 {
      assert forall i :: i !in s;
      assert s == {};
    } else {
      var top := low + n - 1;
      SizeInRange(s - {top}, low, n - 1);
      assert s <= (s - {top}) + {top};
    }
  }

  lemma {:induction false} ProductsGrow(a: nat, b: nat, d: nat)
    requires a <= b
    ensures a * d <= b * d
  {
    if a == b {
    } else {
      ProductsGrow(a, b - 1, d);
      assert b * d == (b - 1) * d + d;
    }
  }

  /** More gaps than fit make a distance beyond the length. */
  lemma TooManyGaps(n: nat, d: nat, length: nat)
    requires d > 0 && n > length / d
    ensures n * d > length
  {
    ProductsGrow(length / d + 1, n, d);
    assert (length / d + 1) * d == (length / d) * d + d;
  }

  lemma FirstStart(slots: seq<Slot>, from: int, length: nat) returns (first: nat)
    ensures first <= |slots|
    ensures first < |slots| ==> first in StartsIn(slots, from, length)
    ensures forall i | i in StartsIn(slots, from, length) :: first <= i
  {
    first := 0;
    while first < |slots| && first !in StartsIn(slots, from, length)
      invariant first <= |slots|
      invariant forall i | i in StartsIn(slots, from, length) :: first <= i
    {
      first := first + 1;
    }
  }

  /** A window of the given length holds at most one start per base delay, and one more. */
  lemma StartsBounded(works: seq<Work>, slots: seq<Slot>, base: int, from: int, length: nat)
    requires Serial(works, slots, base) && base > 0
    ensures |StartsIn(slots, from, length)| <= length / base + 1
  {
    var first := FirstStart(slots, from, length);
    forall i | i in StartsIn(slots, from, length) ensures first <= i < first + (length / base + 1) {
      StartsSpread(works, slots, base, first, i);
      if i - first > length / base {
        TooManyGaps(i - first, base, length);
      }
    }
    SizeInRange(StartsIn(slots, from, length), first, length / base + 1);
  }
}
