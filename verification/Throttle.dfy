/** The upstream throttle: slots are reserved under a lock and waited for outside it. */
module Throttle {
  import opened Options

  type Instant = int   // nanoseconds on the monotonic clock

  // The slot for a caller that read the clock at `now` before it got the lock.
  function Slot(interval: nat, last: Option<Instant>, now: Instant): Instant {
    match last
    case None => now
    case Some(t) => if t + interval > now then t + interval else now
  }

  class Throttle {
    const interval: nat
    var last: Option<Instant>

    constructor (interval: nat)
      ensures this.interval == interval && last == None
    {
      this.interval, last := interval, None;
    }

    // Returns the reserved slot and how long the caller sleeps, given the clock after the lock.
    method Wait(now: Instant, after: Instant) returns (slot: Instant, delay: nat)
      modifies this
      ensures slot == Slot(interval, old(last), now) && last == Some(slot)
      ensures slot >= now && after + delay >= slot && (delay > 0 ==> after + delay == slot)
    {
      slot := now;
      if last.Some? {
        slot := last.value + interval;
        if now > slot { slot := now; }
      }
      last := Some(slot);
      delay := if slot > after then slot - after else 0;
    }
  }

  // The slots of callers in lock order; nothing is assumed about the order of their clocks.
  function Slots(interval: nat, nows: seq<Instant>): (slots: seq<Instant>)
    ensures |slots| == |nows|
  {
    if nows == [] then [] else
    var n := |nows| - 1;
    var before := Slots(interval, nows[..n]);
    before + [Slot(interval, if n == 0 then None else Some(before[n - 1]), nows[n])]
  }

  lemma {:induction false} SlotAt(interval: nat, nows: seq<Instant>, k: nat)
    requires k < |nows|
    ensures Slots(interval, nows)[k] ==
            Slot(interval, if k == 0 then None else Some(Slots(interval, nows)[k - 1]), nows[k])
  {
    if k < |nows| - 1 {
      SlotAt(interval, nows[..|nows| - 1], k);
    }
  }

  /** Slots are at least one interval apart. */
  lemma {:induction false} SlotsAreSpaced(interval: nat, nows: seq<Instant>, i: nat, k: nat)
    requires i <= k < |nows|
    ensures Slots(interval, nows)[k] - Slots(interval, nows)[i] >= (k - i) * interval
  {
    if i < k {
      SlotsAreSpaced(interval, nows, i, k - 1);
      SlotAt(interval, nows, k);
      assert (k - i) * interval == (k - 1 - i) * interval + interval;
    }
  }

  // What caller j's clock alone would demand of slot k.
  function Demand(interval: nat, nows: seq<Instant>, j: nat, k: nat): Instant
    requires j <= k < |nows|
  {
    nows[j] + (k - j) * interval
  }

  /** Slot k is the largest of the demands of callers 0..k: nobody waits needlessly. */
  lemma {:induction false} SlotIsTheLargestDemand(interval: nat, nows: seq<Instant>, k: nat)
    requires k < |nows|
    ensures forall j | 0 <= j <= k :: Demand(interval, nows, j, k) <= Slots(interval, nows)[k]
    ensures exists j | 0 <= j <= k :: Demand(interval, nows, j, k) == Slots(interval, nows)[k]
  {
    SlotAt(interval, nows, k);
    assert Demand(interval, nows, k, k) == nows[k];
    if k > 0 {
      SlotIsTheLargestDemand(interval, nows, k - 1);
      forall j | 0 <= j < k
        ensures Demand(interval, nows, j, k) == Demand(interval, nows, j, k - 1) + interval
      {
        assert (k - j) * interval == (k - 1 - j) * interval + interval;
      }
      var j :| 0 <= j <= k - 1 && Demand(interval, nows, j, k - 1) == Slots(interval, nows)[k - 1];
      assert Demand(interval, nows, j, k) == Slots(interval, nows)[k - 1] + interval;
    }
  }

  function InWindow(slots: seq<Instant>, from: Instant, width: nat): set<nat> {
    set k: nat | k < |slots| && from <= slots[k] <= from + width
  }

  function Range(from: nat, count: nat): (range: set<nat>)
    ensures forall k :: k in range <==> from <= k < from + count
    ensures |range| == count
  {
    if count == 0 then {} else Range(from, count - 1) + {from + count - 1}
  }

  lemma {:induction false} SubsetSize(a: set<nat>, b: set<nat>)
    requires a <= b
    ensures |a| <= |b|
  {
    if a != {} {
      var x :| x in a;
      SubsetSize(a - {x}, b - {x});
    }
  }

  /** A window of any width holds at most one slot more than the intervals it spans. */
  lemma WindowHoldsFew(interval: nat, nows: seq<Instant>, from: Instant, width: nat)
    requires interval > 0
    ensures |InWindow(Slots(interval, nows), from, width)| <= width / interval + 1
  {
    var slots := Slots(interval, nows);
    var inside := InWindow(slots, from, width);
    if inside != {} {
      var first := FirstOf(inside);
      var range := Range(first, width / interval + 1);
      forall k | k in inside ensures k in range {
        SlotsAreSpaced(interval, nows, first, k);
        FewIntervals(k - first, interval, width);
      }
      SubsetSize(inside, range);
    }
  }

  lemma MulMonotone(a: nat, b: nat, c: nat)
    ensures a <= b ==> a * c <= b * c
  {
  }

  lemma {:induction false} FewIntervals(n: nat, interval: nat, width: nat)
    requires interval > 0 && n * interval <= width
    ensures n <= width / interval
  {
    var q := width / interval;
    assert width < (q + 1) * interval;
    MulMonotone(q + 1, n, interval);
  }

  lemma {:induction false} FirstOf(s: set<nat>) returns (first: nat)
    requires s != {}
    ensures first in s && forall k | k in s :: first <= k
  {
    var x :| x in s;
    first := x;
    assert forall k | k in s :: k == x || k in s - {x};
    if s - {x} != {} {
      var rest := FirstOf(s - {x});
      if rest < x { first := rest; }
    }
  }
}
