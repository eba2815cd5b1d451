/**
 * Session recovery: rate limits and authorization gaps start a silent renew, a rejected renew
 * raises the modal, and any success in between calls the recovery off.
 */
module AuthRecovery {
  import opened Options

  const RL_WINDOW_MS := 15000
  const RL_THRESHOLD := 3
  const RECOVERED_COOLDOWN_MS := 5000

  datatype Phase = Idle | Silent | Modal

  // A renew whose promise has not settled yet.
  datatype Renew = Renew(gen: nat, manual: bool)

  // How the renew call came back: `Rejected` is the 401, `Failed` every other error.
  datatype Outcome = Renewed | Rejected | Failed

  datatype Event =
    | RateLimited(now: int)
    | AuthGap(now: int)
    | Succeeded(now: int)
    | Retry
    | RenewEnds(renew: Renew, outcome: Outcome, now: int)
    | Reauthenticated(now: int)
    | Dismissed
    | OauthTurns(on: bool)

  datatype State = State(
    phase: Phase, busy: bool, oauthActive: bool, recoveredAt: int,
    rlHits: seq<int>, inFlight: bool, gen: nat, cancelledGen: int, running: set<Renew>)

  const INITIAL := State(Idle, false, false, 0, [], false, 0, -1, {})

  // ---- The specification of each handler ----

  function Recovered(s: State, now: int): State {
    s.(phase := Idle, busy := false, recoveredAt := now)
  }

  function RunRenew(s: State, manual: bool): State {
    if s.inFlight then s else
    var t := s.(gen := s.gen + 1, inFlight := true, running := s.running + {Renew(s.gen + 1, manual)});
    if manual then t.(busy := true) else t.(phase := Silent)
  }

  predicate MayStart(s: State, now: int) {
    s.phase == Idle && now - s.recoveredAt >= RECOVERED_COOLDOWN_MS
  }

  function StartRecovery(s: State, now: int): State {
    if MayStart(s, now) then RunRenew(s, false) else s
  }

  // The hits that are less than a window old.
  function Fresh(hits: seq<int>, now: int): seq<int> {
    if hits == [] then [] else
    var n := |hits| - 1;
    Fresh(hits[..n], now) + if now - hits[n] < RL_WINDOW_MS then [hits[n]] else []
  }

  function RateLimit(s: State, now: int): State {
    var hits := Fresh(s.rlHits + [now], now);
    if |hits| >= RL_THRESHOLD then StartRecovery(s.(rlHits := []), now) else s.(rlHits := hits)
  }

  // A success that calls a recovery off: one is showing and the user is not steering it.
  predicate CallsOff(s: State) {
    s.phase != Idle && !s.busy && !s.oauthActive
  }

  function Success(s: State, now: int): State {
    var t := s.(rlHits := []);
    if CallsOff(s) then Recovered(t.(cancelledGen := s.gen), now) else t
  }

  function RenewEnded(s: State, renew: Renew, outcome: Outcome, now: int): State {
    var t := s.(inFlight := false, running := s.running - {renew});
    if outcome == Renewed then Recovered(t, now)
    else if s.cancelledGen == renew.gen then t
    else if outcome == Rejected then t.(busy := false, phase := Modal)
    else if !renew.manual then t.(busy := false, phase := Idle)
    else t.(busy := false)
  }

  predicate Enabled(s: State, e: Event) {
    e.RenewEnds? ==> e.renew in s.running
  }

  function Step(s: State, e: Event): State {
    match e
    case RateLimited(now) => RateLimit(s, now)
    case AuthGap(now) => StartRecovery(s, now)
    case Succeeded(now) => Success(s, now)
    case Retry => RunRenew(s, true)
    case RenewEnds(renew, outcome, now) => RenewEnded(s, renew, outcome, now)
    case Reauthenticated(now) => Recovered(s, now)
    case Dismissed => s.(phase := Idle, busy := false)
    case OauthTurns(on) => s.(oauthActive := on)
  }

  function Run(events: seq<Event>): Option<State> {
    if events == [] then Some(INITIAL) else
    var n := |events| - 1;
    match Run(events[..n])
    case None => None
    case Some(s) => if Enabled(s, events[n]) then Some(Step(s, events[n])) else None
  }

  // ---- The module and its store ----

  class Recovery {
    var phase: Phase
    var busy: bool
    var oauthActive: bool
    var recoveredAt: int
    var rlHits: seq<int>
    var inFlight: bool
    var gen: nat
    var cancelledGen: int
    // The renews whose continuation has yet to run; the code never reads this.
    var running: set<Renew>

    function Now(): State
      reads this
    {
      State(phase, busy, oauthActive, recoveredAt, rlHits, inFlight, gen, cancelledGen, running)
    }

    constructor ()
      ensures Now() == INITIAL
    {
      phase, busy, oauthActive, recoveredAt := Idle, false, false, 0;
      rlHits, inFlight, gen, cancelledGen, running := [], false, 0, -1, {};
    }

    method MarkRecovered(now: int)
      modifies this
      ensures Now() == Recovered(old(Now()), now)
    {
      phase, busy, recoveredAt := Idle, false, now;
    }

    method StartRenew(manual: bool)
      modifies this
      ensures Now() == RunRenew(old(Now()), manual)
    {
      if inFlight { return; }
      gen := gen + 1;
      var myGen := gen;
      if manual { busy := true; } else { phase := Silent; }
      inFlight := true;
      running := running + {Renew(myGen, manual)};
    }

    method Start(now: int)
      modifies this
      ensures Now() == StartRecovery(old(Now()), now)
    {
      if phase != Idle { return; }
      if now - recoveredAt < RECOVERED_COOLDOWN_MS { return; }
      StartRenew(false);
    }

    method NoteRateLimit(now: int)
      modifies this
      ensures Now() == Step(old(Now()), RateLimited(now))
    {
      rlHits := rlHits + [now];
      rlHits := Fresh(rlHits, now);
      if |rlHits| >= RL_THRESHOLD {
        rlHits := [];
        Start(now);
      }
    }

    method NoteAuthGap(now: int)
      modifies this
      ensures Now() == Step(old(Now()), AuthGap(now))
    {
      Start(now);
    }

    method NoteSuccess(now: int)
      modifies this
      ensures Now() == Step(old(Now()), Succeeded(now))
    {
      if |rlHits| > 0 { rlHits := []; }
      if phase == Idle || busy || oauthActive { return; }
      cancelledGen := gen;
      MarkRecovered(now);
    }

    method RetryRenew()
      modifies this
      ensures Now() == Step(old(Now()), Retry)
    {
      StartRenew(true);
    }

    // The continuation of a renew after its await.
    method RenewSettles(renew: Renew, outcome: Outcome, now: int)
      requires renew in running
      modifies this
      ensures Now() == Step(old(Now()), RenewEnds(renew, outcome, now))
    {
      if outcome == Renewed {
        MarkRecovered(now);
      } else if cancelledGen != renew.gen {
        busy := false;
        if outcome == Rejected {
          phase := Modal;
        } else if !renew.manual {
          phase := Idle;
        }
      }
      inFlight := false;
      running := running - {renew};
    }

    method CompleteReauth(now: int)
      modifies this
      ensures Now() == Step(old(Now()), Reauthenticated(now))
    {
      MarkRecovered(now);
    }

    method Reset()
      modifies this
      ensures Now() == Step(old(Now()), Dismissed)
    {
      phase, busy := Idle, false;
    }

    method SetOauthActive(on: bool)
      modifies this
      ensures Now() == Step(old(Now()), OauthTurns(on))
    {
      oauthActive := on;
    }
  }

  // ---- What holds in every reachable state ----

  // At most one renew runs, and whatever the user sees as pending is that one.
  ghost predicate Inv(s: State) {
    && (if s.inFlight then s.running == {Renew(s.gen, false)} || s.running == {Renew(s.gen, true)}
        else s.running == {})
    && (s.phase == Silent ==> s.running == {Renew(s.gen, false)})
    && (s.busy ==> s.running == {Renew(s.gen, true)})
    && (s.running == {Renew(s.gen, false)} ==> s.phase != Modal)
    && s.cancelledGen <= s.gen
    && (s.inFlight && s.cancelledGen == s.gen ==> s.phase == Idle && !s.busy)
  }

  lemma RenewKeepsInv(s: State, manual: bool)
    requires Inv(s) && (!manual ==> s.phase == Idle)
    ensures Inv(RunRenew(s, manual))
  {
    if !s.inFlight {
      assert s.running + {Renew(s.gen + 1, manual)} == {Renew(s.gen + 1, manual)};
    }
  }

  lemma EndKeepsInv(s: State, renew: Renew, outcome: Outcome, now: int)
    requires Inv(s) && renew in s.running
    ensures Inv(RenewEnded(s, renew, outcome, now))
  {
    assert s.running == {renew} && renew.gen == s.gen;
    assert s.running - {renew} == {};
  }

  lemma StepKeepsInv(s: State, e: Event)
    requires Inv(s) && Enabled(s, e)
    ensures Inv(Step(s, e))
  {
    match e
    case RateLimited(now) => if MayStart(s, now) { RenewKeepsInv(s.(rlHits := []), false); }
    case AuthGap(now) => if MayStart(s, now) { RenewKeepsInv(s, false); }
    case Retry => RenewKeepsInv(s, true);
    case RenewEnds(renew, outcome, now) => EndKeepsInv(s, renew, outcome, now);
    case _ =>
  }

  lemma {:induction false} RunKeepsInv(events: seq<Event>)
    requires Run(events).Some?
    ensures Inv(Run(events).value)
  {
    if events != [] {
      var n := |events| - 1;
      RunKeepsInv(events[..n]);
      StepKeepsInv(Run(events[..n]).value, events[n]);
    }
  }

  /** Over every run at most one renew is in flight, and a spinner always has one behind it. */
  lemma {:induction false} AtMostOneRenew(events: seq<Event>)
    requires Run(events).Some?
    ensures var s := Run(events).value;
            && |s.running| == (if s.inFlight then 1 else 0)
            && (s.phase == Silent || s.busy ==> s.inFlight)
  {
    RunKeepsInv(events);
  }

  /** When the renew in flight ends, however it ends, no spinner is left. */
  lemma {:induction false} NoSpinnerOutlivesItsRenew(events: seq<Event>, renew: Renew, outcome: Outcome, now: int)
    requires Run(events).Some? && renew in Run(events).value.running
    ensures var s := Step(Run(events).value, RenewEnds(renew, outcome, now));
            !s.inFlight && s.running == {} && s.phase != Silent && !s.busy
  {
    RunKeepsInv(events);
    EndKeepsInv(Run(events).value, renew, outcome, now);
  }

  // ---- Why the modal is raised ----

  // What one event does to the two generations.
  lemma StepGenerations(s: State, e: Event)
    requires Inv(s) && Enabled(s, e)
    ensures var t := Step(s, e);
            if t.gen == s.gen
            then t.cancelledGen == t.gen <==> s.cancelledGen == s.gen || (e.Succeeded? && CallsOff(s))
            else t.gen > s.gen && t.cancelledGen <= s.gen && !e.Succeeded?
  {
  }

  lemma {:induction false} GenNeverFalls(events: seq<Event>, i: nat)
    requires i <= |events| && Run(events).Some?
    ensures Run(events[..i]).Some? && Run(events[..i]).value.gen <= Run(events).value.gen
  {
    if i == |events| {
      assert events[..i] == events;
    } else {
      var n := |events| - 1;
      assert events[..n][..i] == events[..i];
      GenNeverFalls(events[..n], i);
      RunKeepsInv(events[..n]);
      StepGenerations(Run(events[..n]).value, events[n]);
    }
  }

  // Event i was a success that called off the recovery attempt numbered `gen`.
  ghost predicate CalledOffBy(events: seq<Event>, i: nat, gen: nat) {
    && i < |events| && events[i].Succeeded?
    && Run(events[..i]).Some? && CallsOff(Run(events[..i]).value) && Run(events[..i]).value.gen == gen
  }

  ghost predicate CalledOff(events: seq<Event>, gen: nat) {
    exists i :: CalledOffBy(events, i, gen)
  }

  lemma CalledOffExtends(events: seq<Event>, e: Event, gen: nat)
    requires Run(events).Some?
    ensures CalledOff(events + [e], gen) <==>
            CalledOff(events, gen)
            || (e.Succeeded? && CallsOff(Run(events).value) && Run(events).value.gen == gen)
  {
    var after := events + [e];
    assert after[..|events|] == events;
    forall i | 0 <= i < |events| ensures CalledOffBy(after, i, gen) <==> CalledOffBy(events, i, gen) {
      assert after[..i] == events[..i];
    }
    if CalledOff(events, gen) {
      var i :| CalledOffBy(events, i, gen);
      assert CalledOffBy(after, i, gen);
    }
    if e.Succeeded? && CallsOff(Run(events).value) && Run(events).value.gen == gen {
      assert CalledOffBy(after, |events|, gen);
    }
    if CalledOff(after, gen) {
      var i :| CalledOffBy(after, i, gen);
      assert i == |events| || CalledOffBy(events, i, gen);
    }
  }

  lemma NothingCallsOffTheFuture(events: seq<Event>, gen: nat)
    requires Run(events).Some? && gen > Run(events).value.gen
    ensures !CalledOff(events, gen)
  {
    forall i | CalledOffBy(events, i, gen) ensures false { GenNeverFalls(events, i); }
  }

  /** The code's generation test says exactly whether a success has called this attempt off. */
  lemma {:induction false} CancelledIsCalledOff(events: seq<Event>)
    requires Run(events).Some?
    ensures var s := Run(events).value; s.cancelledGen == s.gen <==> CalledOff(events, s.gen)
  {
    if events != [] {
      var n := |events| - 1;
      var before, e := events[..n], events[n];
      assert before + [e] == events;
      var s, t := Run(before).value, Run(events).value;
      CancelledIsCalledOff(before);
      RunKeepsInv(before);
      StepGenerations(s, e);
      CalledOffExtends(before, e, t.gen);
      if t.gen != s.gen {
        NothingCallsOffTheFuture(before, t.gen);
      }
    }
  }

  /** The modal is raised exactly by a renew that was rejected and that no success called off. */
  lemma {:induction false} ModalExactly(events: seq<Event>, e: Event)
    requires Run(events).Some? && Enabled(Run(events).value, e)
    requires Run(events).value.phase != Modal
    ensures Step(Run(events).value, e).phase == Modal <==>
            e.RenewEnds? && e.outcome == Rejected && !CalledOff(events, e.renew.gen)
  {
    RunKeepsInv(events);
    CancelledIsCalledOff(events);
  }

  /** Once called off, a renew that fails leaves no trace on the screen. */
  lemma {:induction false} CalledOffFailsQuietly(events: seq<Event>, renew: Renew, outcome: Outcome, now: int)
    requires Run(events).Some? && renew in Run(events).value.running
    requires CalledOff(events, renew.gen)
    ensures var s := Step(Run(events).value, RenewEnds(renew, outcome, now));
            s.phase == Idle && !s.busy && !s.inFlight
  {
    RunKeepsInv(events);
    CancelledIsCalledOff(events);
  }

  // The modal goes up, the user signs in, and retries the renew while the login is being stored.
  const LOGIN_RUN := [
    AuthGap(9000), RenewEnds(Renew(1, false), Rejected, 9100), OauthTurns(true), OauthTurns(false),
    Retry, Reauthenticated(9300), RenewEnds(Renew(2, true), Rejected, 9400)]

  /**
   * A full login does not call a renew off: one that is still running when the login completes
   * and is then rejected raises the modal over the new session.
   */
  lemma {:induction false} LoginDoesNotCallOff()
    ensures Run(LOGIN_RUN[..6]).Some? && Run(LOGIN_RUN[..6]).value.phase == Idle
    ensures Run(LOGIN_RUN).Some? && Run(LOGIN_RUN).value.phase == Modal
  {
    var s2 := INITIAL.(phase := Modal, gen := 1);
    var s5 := s2.(busy := true, inFlight := true, gen := 2, running := {Renew(2, true)});
    var s6 := s5.(phase := Idle, busy := false, recoveredAt := 9300);
    var s7 := s6.(phase := Modal, inFlight := false, running := {});
    ModalGoesUp();
    Extends(LOGIN_RUN[..4], s2, LOGIN_RUN[4], LOGIN_RUN[..5], s5);
    Extends(LOGIN_RUN[..5], s5, LOGIN_RUN[5], LOGIN_RUN[..6], s6);
    Extends(LOGIN_RUN[..6], s6, LOGIN_RUN[6], LOGIN_RUN, s7);
  }

  lemma {:induction false} ModalGoesUp()
    ensures Run(LOGIN_RUN[..4]) == Some(INITIAL.(phase := Modal, gen := 1))
  {
    var s1 := INITIAL.(phase := Silent, inFlight := true, gen := 1, running := {Renew(1, false)});
    var s2 := INITIAL.(phase := Modal, gen := 1);
    Extends(LOGIN_RUN[..0], INITIAL, LOGIN_RUN[0], LOGIN_RUN[..1], s1);
    Extends(LOGIN_RUN[..1], s1, LOGIN_RUN[1], LOGIN_RUN[..2], s2);
    Extends(LOGIN_RUN[..2], s2, LOGIN_RUN[2], LOGIN_RUN[..3], s2.(oauthActive := true));
    Extends(LOGIN_RUN[..3], s2.(oauthActive := true), LOGIN_RUN[3], LOGIN_RUN[..4], s2);
  }

  lemma Extends(before: seq<Event>, s: State, e: Event, events: seq<Event>, t: State)
    requires Run(before) == Some(s) && events == before + [e]
    requires Enabled(s, e) && Step(s, e) == t
    ensures Run(events) == Some(t)
  {
    assert events[..|events| - 1] == before;
  }

  // ---- Why a renew is started ----

  // Two of the earlier hits are still fresh, so one at `now` is the third.
  predicate ThirdHit(hits: seq<int>, now: int) {
    |Fresh(hits, now)| + 1 >= RL_THRESHOLD
  }

  // The times of the rate-limit hits since the last success or escalation.
  function Unspent(events: seq<Event>): seq<int> {
    if events == [] then [] else
    var n := |events| - 1;
    UnspentAfter(Unspent(events[..n]), events[n])
  }

  function UnspentAfter(hits: seq<int>, e: Event): seq<int> {
    match e
    case Succeeded(_) => []
    case RateLimited(now) => if ThirdHit(hits, now) then [] else hits + [now]
    case _ => hits
  }

  // A hit at `now` that follows these events makes three unspent ones in the window.
  predicate Escalates(events: seq<Event>, now: int) {
    ThirdHit(Unspent(events), now)
  }

  // The clock does not run backwards between rate-limit hits, nor up to `now`.
  ghost predicate HitsInOrder(events: seq<Event>, now: int) {
    && (forall i | 0 <= i < |events| && events[i].RateLimited? :: events[i].now <= now)
    && (forall i, j | 0 <= i < j < |events| && events[i].RateLimited? && events[j].RateLimited? ::
          events[i].now <= events[j].now)
  }

  lemma FreshAppend(hits: seq<int>, t: int, now: int)
    ensures Fresh(hits + [t], now) == Fresh(hits, now) + if now - t < RL_WINDOW_MS then [t] else []
  {
    assert (hits + [t])[..|hits|] == hits;
  }

  lemma {:induction false} FreshTwice(hits: seq<int>, now: int, later: int)
    requires now <= later
    ensures Fresh(Fresh(hits, now), later) == Fresh(hits, later)
  {
    if hits != [] {
      var n := |hits| - 1;
      FreshTwice(hits[..n], now, later);
      FreshAppend(Fresh(hits[..n], now), hits[n], later);
      assert Fresh(hits[..n], now) + [] == Fresh(hits[..n], now);
    }
  }

  // One hit, with the accumulator and the true list of unspent hits side by side.
  lemma {:induction false} HitIsThird(hits: seq<int>, unspent: seq<int>, t: int)
    requires Fresh(hits, t) == Fresh(unspent, t)
    ensures |Fresh(hits + [t], t)| >= RL_THRESHOLD <==> ThirdHit(unspent, t)
  {
    FreshAppend(hits, t, t);
  }

  lemma {:induction false} HitKeepsAgreement(hits: seq<int>, unspent: seq<int>, t: int, now: int)
    requires t <= now && Fresh(hits, now) == Fresh(unspent, now)
    ensures Fresh(Fresh(hits + [t], t), now) == Fresh(unspent + [t], now)
  {
    FreshTwice(hits + [t], t, now);
    FreshAppend(hits, t, now);
    FreshAppend(unspent, t, now);
  }

  // One event, likewise.
  lemma {:induction false} EventKeepsAgreement(s: State, unspent: seq<int>, e: Event, now: int)
    requires e.RateLimited? ==> e.now <= now && Fresh(s.rlHits, e.now) == Fresh(unspent, e.now)
    requires Fresh(s.rlHits, now) == Fresh(unspent, now)
    ensures Fresh(Step(s, e).rlHits, now) == Fresh(UnspentAfter(unspent, e), now)
  {
    if e.RateLimited? {
      HitIsThird(s.rlHits, unspent, e.now);
      HitKeepsAgreement(s.rlHits, unspent, e.now, now);
      HitsAfter(s, e.now);
    }
  }

  // What a hit leaves in the accumulator, whether or not it starts a renew.
  lemma HitsAfter(s: State, now: int)
    ensures var hits := Fresh(s.rlHits + [now], now);
            RateLimit(s, now).rlHits == if |hits| >= RL_THRESHOLD then [] else hits
  {
  }

  /** The accumulator forgets only hits that are spent or too old to matter. */
  lemma {:induction false} AccumulatorIsUnspent(events: seq<Event>, now: int)
    requires Run(events).Some? && HitsInOrder(events, now)
    ensures Fresh(Run(events).value.rlHits, now) == Fresh(Unspent(events), now)
  {
    if events != [] {
      var n := |events| - 1;
      var before, e := events[..n], events[n];
      AccumulatorIsUnspent(before, now);
      if e.RateLimited? {
        AccumulatorIsUnspent(before, e.now);
      }
      EventKeepsAgreement(Run(before).value, Unspent(before), e, now);
    }
  }

  /**
   * Which events start a renew: a retry from the modal; a gap, or the third hit in a window,
   * when nothing is showing and the last recovery is not too recent; and only when none is
   * running already.
   */
  lemma {:induction false} RenewStartsExactly(events: seq<Event>, e: Event)
    requires Run(events).Some? && Enabled(Run(events).value, e)
    requires e.RateLimited? ==> HitsInOrder(events, e.now)
    ensures var s := Run(events).value;
            Step(s, e).gen > s.gen <==>
              && s.running == {}
              && (|| e.Retry?
                  || (e.AuthGap? && MayStart(s, e.now))
                  || (e.RateLimited? && MayStart(s, e.now) && Escalates(events, e.now)))
  {
    RunKeepsInv(events);
    if e.RateLimited? {
      AccumulatorIsUnspent(events, e.now);
      FreshAppend(Run(events).value.rlHits, e.now, e.now);
    }
  }

  lemma {:induction false} FreshPositions(hits: seq<int>, now: int) returns (at: seq<nat>)
    ensures |at| == |Fresh(hits, now)|
    ensures forall k | 0 <= k < |at| :: at[k] < |hits| && now - hits[at[k]] < RL_WINDOW_MS
    ensures forall j, k | 0 <= j < k < |at| :: at[j] < at[k]
  {
    at := [];
    if hits != [] {
      var n := |hits| - 1;
      at := FreshPositions(hits[..n], now);
      if now - hits[n] < RL_WINDOW_MS { at := at + [n]; }
    }
  }

  // Positions of these hits in the run, in order, with no success after the first.
  ghost predicate PositionsOf(events: seq<Event>, hits: seq<int>, at: seq<nat>) {
    && |at| == |hits|
    && (forall k | 0 <= k < |at| :: at[k] < |events| && events[at[k]] == RateLimited(hits[k]))
    && (forall j, k | 0 <= j < k < |at| :: at[j] < at[k])
    && (forall k, i | 0 <= k < |at| && at[k] <= i < |events| :: !events[i].Succeeded?)
  }

  lemma PositionsCarryOver(events: seq<Event>, e: Event, hits: seq<int>, at: seq<nat>)
    requires PositionsOf(events, hits, at) && !e.Succeeded?
    ensures PositionsOf(events + [e], hits, at)
  {
  }

  lemma {:induction false} UnspentPositions(events: seq<Event>) returns (at: seq<nat>)
    ensures PositionsOf(events, Unspent(events), at)
  {
    at := [];
    if events != [] {
      var n := |events| - 1;
      var e, before := events[n], Unspent(events[..n]);
      var earlier := UnspentPositions(events[..n]);
      assert events[..n] + [e] == events;
      assert Unspent(events) == UnspentAfter(before, e);
      if UnspentAfter(before, e) != [] {
        if e.RateLimited? {
          at := earlier + [n];
        } else {
          PositionsCarryOver(events[..n], e, before, earlier);
          at := earlier;
        }
      }
    }
  }

  /** An escalating hit has two others within the last 15 seconds, and no success since. */
  lemma {:induction false} EscalationNeedsThreeHits(events: seq<Event>, now: int) returns (i: nat, j: nat)
    requires Escalates(events, now)
    ensures i < j < |events| && events[i].RateLimited? && events[j].RateLimited?
    ensures now - events[i].now < RL_WINDOW_MS && now - events[j].now < RL_WINDOW_MS
    ensures forall k | i <= k < |events| :: !events[k].Succeeded?
  {
    var at := UnspentPositions(events);
    var recent := FreshPositions(Unspent(events), now);
    i, j := at[recent[0]], at[recent[1]];
  }

  // ---- The cooldown ----

  // Event i ended a recovery well: a renew, a login, or a success that called one off.
  ghost predicate RecoversAt(events: seq<Event>, i: nat) {
    && i < |events| && Run(events[..i]).Some?
    && match events[i]
       case RenewEnds(_, outcome, _) => outcome == Renewed
       case Reauthenticated(_) => true
       case Succeeded(_) => CallsOff(Run(events[..i]).value)
       case _ => false
  }

  lemma RecoversAtPrefix(events: seq<Event>, n: nat, i: nat)
    requires i < n <= |events|
    ensures RecoversAt(events[..n], i) <==> RecoversAt(events, i)
  {
    assert events[..n][..i] == events[..i];
  }

  ghost predicate RecoveredLastAt(events: seq<Event>, i: nat) {
    RecoversAt(events, i) && forall j | i < j < |events| :: !RecoversAt(events, j)
  }

  lemma {:induction false} RecoveredAtIsLast(events: seq<Event>, i: nat)
    requires Run(events).Some?
    ensures RecoveredLastAt(events, i) ==> Run(events).value.recoveredAt == events[i].now
  {
    var n := |events| - 1;
    if i < n && RecoveredLastAt(events, i) {
      forall j | i <= j < n ensures RecoversAt(events[..n], j) <==> RecoversAt(events, j) {
        RecoversAtPrefix(events, n, j);
      }
      RecoveredAtIsLast(events[..n], i);
      assert !RecoversAt(events, n);
    }
  }

  /** For 5 s after the last recovery no gap and no rate limit starts another renew. */
  lemma {:induction false} CooldownHolds(events: seq<Event>, i: nat, e: Event)
    requires Run(events).Some? && (e.AuthGap? || e.RateLimited?)
    ensures var s := Run(events).value;
            RecoveredLastAt(events, i) && e.now - events[i].now < RECOVERED_COOLDOWN_MS ==>
              Step(s, e).running == s.running && Step(s, e).phase == s.phase
  {
    RecoveredAtIsLast(events, i);
  }

  // ---- Which successes are heeded ----

  // Whether the last event of its kind said that the user is signing in.
  function SigningIn(events: seq<Event>): bool {
    if events == [] then false else
    match events[|events| - 1]
    case OauthTurns(on) => on
    case _ => SigningIn(events[..|events| - 1])
  }

  // A retry was begun with no renew in flight, and since then nothing has ended or closed it.
  ghost predicate Retrying(events: seq<Event>)
    requires Run(events).Some?
  {
    events != [] &&
    var before := events[..|events| - 1];
    match events[|events| - 1]
    case Retry => Retrying(before) || Run(before).value.running == {}
    case RenewEnds(_, _, _) => false
    case Reauthenticated(_) => false
    case Dismissed => false
    case _ => Retrying(before)
  }

  // The two tests of noteSuccess, read off the events.
  lemma {:induction false} UserSteers(events: seq<Event>)
    requires Run(events).Some?
    ensures var s := Run(events).value;
            s.busy == Retrying(events) && s.oauthActive == SigningIn(events)
  {
    if events != [] {
      var n := |events| - 1;
      UserSteers(events[..n]);
      RunKeepsInv(events[..n]);
      StepSteers(Run(events[..n]).value, events[n]);
    }
  }

  lemma StepSteers(s: State, e: Event)
    requires Inv(s) && Enabled(s, e)
    ensures var t := Step(s, e);
            && t.oauthActive == (if e.OauthTurns? then e.on else s.oauthActive)
            && t.busy == (if e.Retry? then s.busy || s.running == {}
                          else if e.RenewEnds? || e.Reauthenticated? || e.Dismissed? then false
                          else s.busy)
  {
    if e.RenewEnds? { assert s.running == {e.renew}; }
  }

  /**
   * A success closes what is showing, modal or silent attempt, exactly when the user is neither
   * retrying nor signing in; then it also calls off the renew in flight, and else it closes nothing.
   */
  lemma {:induction false} SuccessClosesExactly(events: seq<Event>, now: int)
    requires Run(events).Some? && Run(events).value.phase != Idle
    ensures var s := Run(events).value;
            var t := Step(s, Succeeded(now));
            && (t.phase == Idle <==> !Retrying(events) && !SigningIn(events))
            && (t.phase != Idle ==> t == s.(rlHits := []))
            && (t.phase == Idle ==> !t.busy && t.recoveredAt == now && CalledOff(events + [Succeeded(now)], s.gen))
  {
    var s, e := Run(events).value, Succeeded(now);
    UserSteers(events);
    CalledOffExtends(events, e, s.gen);
  }
}
