/**
 Whole import runs: what the remote playlists hold between flushes and once all
 is quiet, and what the end of a run saves and what it loses.
 */
module YmRuns {
  import opened Options
  import opened YmPlaylists
  import opened YmSync

  lemma {:induction false} RunKeepsInv(remote: Remote, actions: seq<Action>)
    requires Run(remote, actions).Some?
    ensures Inv(Run(remote, actions).value)
  {
    if actions != [] {
      RunKeepsInv(remote, actions[..|actions| - 1]);
      StepKeepsInv(Run(remote, actions[..|actions| - 1]).value, actions[|actions| - 1]);
    }
  }

  /** When a flush has gone through its chunks, skipping equal keys made no difference. */
  lemma {:induction false} SkippingIsRewriting(remote: Remote, actions: seq<Action>)
    requires Run(remote, actions).Some?
    ensures var s := Run(remote, actions).value;
            Enabled(s, LoopDone) ==> s.remote == Rewrite(s.base, s.phase.chunks, |s.phase.chunks|)
  {
    RunKeepsInv(remote, actions);
  }

  /** Between flushes, playlist i holds the chunk recorded under key i. */
  lemma {:induction false} RecordedKeysAreTrue(remote: Remote, actions: seq<Action>, i: nat)
    requires Run(remote, actions).Some?
    ensures var s := Run(remote, actions).value;
            s.phase.Idle? && i < |s.synced| ==>
              PlaylistName(i) in s.remote && Key(s.remote[PlaylistName(i)]) == s.synced[i]
  {
    RunKeepsInv(remote, actions);
  }

  // The run ends only after everything matched was flushed or is about to be.
  ghost predicate EndsInTime(remote: Remote, actions: seq<Action>) {
    actions != [] ==>
      var n := |actions| - 1;
      && EndsInTime(remote, actions[..n])
      && (actions[n].RunEnds? && Run(remote, actions[..n]).Some? ==> Pending(Run(remote, actions[..n]).value))
  }

  lemma {:induction false} RunStaysCovered(remote: Remote, actions: seq<Action>)
    requires Run(remote, actions).Some? && EndsInTime(remote, actions)
    ensures Covered(Run(remote, actions).value)
  {
    if actions != [] {
      var n := |actions| - 1;
      RunStaysCovered(remote, actions[..n]);
      RunKeepsInv(remote, actions[..n]);
      StepKeepsCovered(Run(remote, actions[..n]).value, actions[n]);
    }
  }

  /**
   Once nothing runs, is queued or is scheduled, the playlists in index order
   hold the reversed match list.
   */
  lemma {:induction false} QuietRemoteIsCurrent(remote: Remote, actions: seq<Action>)
    requires Run(remote, actions).Some?
    ensures EndsInTime(remote, actions) && Quiet(Run(remote, actions).value) ==>
              Current(Run(remote, actions).value)
  {
    if EndsInTime(remote, actions) {
      RunKeepsInv(remote, actions);
      RunStaysCovered(remote, actions);
      QuietIsCurrent(Run(remote, actions).value);
    }
  }

  // No flush is running, queued or scheduled.
  predicate Quiet(s: State) {
    s.phase.Idle? && s.queued.None? && !s.timer
  }

  ghost predicate Current(s: State) {
    && Holds(s.remote, Wanted(s.matched))
    && Flatten(Wanted(s.matched)) == Reversed(s.matched)
  }

  lemma QuietIsCurrent(s: State)
    requires Inv(s) && Covered(s)
    ensures Quiet(s) ==> Current(s)
  {
    ChunksPartition(Reversed(s.matched), PLAYLIST_TRACK_LIMIT);
  }

  // ------------------------------------------------------------ the end of a run

  // The step takes a new snapshot of the match list, which a flush then writes.
  predicate Snaps(s: State, a: Action)
    requires Enabled(s, a)
  {
    Step(s, a).phase.Writing? && (!s.phase.Writing? || a.LoopDone?)
  }

  ghost predicate SnapsAfter(remote: Remote, before: seq<Action>, a: Action) {
    && Run(remote, before).Some?
    && Enabled(Run(remote, before).value, a) && Snaps(Run(remote, before).value, a)
  }

  // The positions in the run at which snapshots were taken, and those at which matches came.
  ghost function SnapTimes(remote: Remote, actions: seq<Action>): (times: set<nat>)
    ensures forall j | j in times :: j < |actions|
  {
    if actions == [] then {} else
    var n := |actions| - 1;
    SnapTimes(remote, actions[..n]) + if SnapsAfter(remote, actions[..n], actions[n]) then {n} else {}
  }

  function MatchTimes(actions: seq<Action>): (times: set<nat>)
    ensures forall i | i in times :: i < |actions|
  {
    if actions == [] then {} else
    var n := |actions| - 1;
    MatchTimes(actions[..n]) + if actions[n].Match? then {n} else {}
  }

  ghost predicate Followed(matches: set<nat>, snaps: set<nat>) {
    forall i | i in matches :: exists j :: j in snaps && i < j
  }

  // No match came after the last snapshot.
  ghost predicate AllSnapped(remote: Remote, actions: seq<Action>) {
    Followed(MatchTimes(actions), SnapTimes(remote, actions))
  }

  // How many matches the last snapshot took.
  function Snapped(remote: Remote, actions: seq<Action>): nat
    requires Run(remote, actions).Some?
  {
    if actions == [] then 0 else
    var n := |actions| - 1;
    var s := Run(remote, actions[..n]).value;
    if Snaps(s, actions[n]) then |s.matched| else Snapped(remote, actions[..n])
  }

  // What is being written, or was written last, are the first `count` matches.
  ghost predicate Shows(s: State, count: nat) {
    && count <= |s.matched|
    && match s.phase
       case Idle => s.held == Wanted(s.matched[..count])
       case Finding(_) => true
       case Writing(chunks, _, _, _) => chunks == Wanted(s.matched[..count])
       case Cleaning(chunks) => chunks == Wanted(s.matched[..count])
  }

  lemma StepShows(s: State, a: Action, count: nat)
    requires Shows(s, count) && Enabled(s, a) && (s.phase.Idle? ==> s.queued.None?)
    ensures Shows(Step(s, a), if Snaps(s, a) then |s.matched| else count)
  {
    match a
    case Match(urn) => assert (s.matched + [urn])[..count] == s.matched[..count];
    case TimerFires => FlushShows(s.(timer := false), Flags(false, false), count);
    case FinalFlush(deleteStale) => FlushShows(s, Flags(true, deleteStale), count);
    case Found => FoundShows(s, count);
    case WriteNext => WriteShows(s, count);
    case LoopDone => LoopDoneShows(s, count);
    case Cleaned => FinishShows(WithoutStale(s), s.phase.chunks, count);
    case RunEnds =>
  }

  lemma FoundShows(s: State, count: nat)
    requires Shows(s, count) && Enabled(s, Found)
    ensures Snaps(s, Found) && Shows(Step(s, Found), |s.matched|)
  {
    assert s.matched[..|s.matched|] == s.matched;
  }

  lemma WriteShows(s: State, count: nat)
    requires Shows(s, count) && Enabled(s, WriteNext)
    ensures !Snaps(s, WriteNext) && Shows(Step(s, WriteNext), count)
  {
  }

  lemma LoopDoneShows(s: State, count: nat)
    requires Shows(s, count) && Enabled(s, LoopDone)
    ensures Shows(Step(s, LoopDone), if Snaps(s, LoopDone) then |s.matched| else count)
  {
    FinishShows(Recached(s), s.phase.chunks, count);
  }

  lemma FlushShows(s: State, flags: Flags, count: nat)
    requires Shows(s, count)
    ensures var t := Flush(s, flags);
            Shows(t, if t.phase.Writing? && !s.phase.Writing? then |s.matched| else count)
  {
    assert s.matched[..|s.matched|] == s.matched;
  }

  lemma FinishShows(s: State, chunks: seq<seq<Urn>>, count: nat)
    requires count <= |s.matched| && chunks == Wanted(s.matched[..count]) && s.cached.Some?
    ensures Shows(Finish(s, chunks), if s.queued.Some? then |s.matched| else count)
    ensures Finish(s, chunks).phase.Writing? <==> s.queued.Some?
  {
    assert s.matched[..|s.matched|] == s.matched;
  }

  lemma {:induction false} RunShows(remote: Remote, actions: seq<Action>)
    requires Run(remote, actions).Some?
    ensures Shows(Run(remote, actions).value, Snapped(remote, actions))
  {
    if actions == [] {
      assert Init(remote).matched[..0] == [];
    } else {
      var n := |actions| - 1;
      RunShows(remote, actions[..n]);
      RunKeepsInv(remote, actions[..n]);
      StepShows(Run(remote, actions[..n]).value, actions[n], Snapped(remote, actions[..n]));
    }
  }

  lemma FollowedExtends(matches: set<nat>, snaps: set<nat>, n: nat, came: bool, snap: bool)
    requires (forall i | i in matches :: i < n) && (forall j | j in snaps :: j < n) && !(came && snap)
    ensures Followed(matches + (if came then {n} else {}), snaps + (if snap then {n} else {})) <==>
            snap || (!came && Followed(matches, snaps))
  {
    var more := snaps + if snap then {n} else {};
    if snap {
      assert n in more;
    } else {
      assert more == snaps;
      assert came ==> n in matches + {n};
    }
  }

  // One more action keeps every match snapped unless it is a match, and a snapshot snaps them all.
  lemma AllSnappedExtends(remote: Remote, before: seq<Action>, a: Action)
    requires Run(remote, before).Some? && Enabled(Run(remote, before).value, a)
    ensures AllSnapped(remote, before + [a]) <==>
            Snaps(Run(remote, before).value, a) || (!a.Match? && AllSnapped(remote, before))
  {
    assert (before + [a])[..|before|] == before;
    MatchIsNoSnap(Run(remote, before).value, a);
    FollowedExtends(MatchTimes(before), SnapTimes(remote, before), |before|,
                    a.Match?, Snaps(Run(remote, before).value, a));
  }

  lemma {:induction false} SnappedMeansAll(remote: Remote, actions: seq<Action>)
    requires Run(remote, actions).Some?
    ensures Snapped(remote, actions) == |Run(remote, actions).value.matched| <==> AllSnapped(remote, actions)
  {
    if actions != [] {
      var n := |actions| - 1;
      SnappedMeansAll(remote, actions[..n]);
      AllSnappedExtends(remote, actions[..n], actions[n]);
      assert actions[..n] + [actions[n]] == actions;
      RunShows(remote, actions[..n]);
      MatchedGrows(Run(remote, actions[..n]).value, actions[n]);
      MatchIsNoSnap(Run(remote, actions[..n]).value, actions[n]);
    }
  }

  lemma MatchedGrows(s: State, a: Action)
    requires Enabled(s, a)
    ensures |Step(s, a).matched| == |s.matched| + if a.Match? then 1 else 0
  {
    if a.LoopDone? { FinishKeepsMatches(Recached(s), s.phase.chunks); }
    if a.Cleaned? { FinishKeepsMatches(WithoutStale(s), s.phase.chunks); }
  }

  lemma FinishKeepsMatches(s: State, chunks: seq<seq<Urn>>)
    ensures Finish(s, chunks).matched == s.matched
  {
  }

  lemma MatchIsNoSnap(s: State, a: Action)
    requires Enabled(s, a)
    ensures a.Match? ==> !Snaps(s, a)
  {
  }

  // The chunks tell how many matches they hold.
  lemma WantedTellsLength(a: seq<Urn>, b: seq<Urn>)
    requires Wanted(a) == Wanted(b)
    ensures |a| == |b|
  {
    ChunksPartition(Reversed(a), PLAYLIST_TRACK_LIMIT);
    ChunksPartition(Reversed(b), PLAYLIST_TRACK_LIMIT);
    ReversedElements(a);
    ReversedElements(b);
  }

  // Everything matched has been flushed, or is about to be, exactly when the last snapshot has it
  // all or another is sure to be taken.
  lemma {:induction false} PendingExactly(remote: Remote, actions: seq<Action>)
    requires Run(remote, actions).Some?
    ensures var s := Run(remote, actions).value;
            Pending(s) <==> s.queued.Some? || s.phase.Finding? || AllSnapped(remote, actions)
  {
    var s, count := Run(remote, actions).value, Snapped(remote, actions);
    RunShows(remote, actions);
    SnappedMeansAll(remote, actions);
    if Wanted(s.matched[..count]) == Wanted(s.matched) {
      WantedTellsLength(s.matched[..count], s.matched);
    }
    assert s.matched[..|s.matched|] == s.matched;
  }

  lemma {:induction false} WindingDown(remote: Remote, before: seq<Action>, after: seq<Action>)
    requires AllWind(after)
    requires Run(remote, before).Some? && Run(remote, before + after).Some?
    ensures var s, t := Run(remote, before).value, Run(remote, before + after).value;
            (Pending(t) <==> Pending(s)) && t.matched == s.matched
  {
    if after == [] {
      assert before + after == before;
    } else {
      var n := |after| - 1;
      assert before + after == (before + after[..n]) + [after[n]];
      LastStep(remote, before + after[..n], after[n]);
      WindingDown(remote, before, after[..n]);
      WindingKeepsPending(Run(remote, before + after[..n]).value, after[n]);
    }
  }

  predicate AllWind(actions: seq<Action>) {
    forall i | 0 <= i < |actions| :: Winds(actions[i])
  }

  lemma LastStep(remote: Remote, before: seq<Action>, a: Action)
    requires Run(remote, before + [a]).Some?
    ensures Run(remote, before).Some? && Enabled(Run(remote, before).value, a)
    ensures Run(remote, before + [a]) == Some(Step(Run(remote, before).value, a))
  {
    assert (before + [a])[..|before|] == before;
  }

  /**
   When a run ends, what is under way is wound down.  Then the chunks in the playlists are those of
   all matches exactly when, at the end of the run, no match had come after the last snapshot, or a
   flush that was to take another was waiting or looking the playlists up.
   */
  lemma {:induction false} EndingIsExact(remote: Remote, before: seq<Action>, after: seq<Action>)
    requires AllWind(after)
    requires Run(remote, before).Some? && Run(remote, before + [RunEnds] + after).Some?
    requires Run(remote, before + [RunEnds] + after).value.phase.Idle?
    ensures var s, t := Run(remote, before).value, Run(remote, before + [RunEnds] + after).value;
            && t.matched == s.matched && Holds(t.remote, t.held)
            && (t.held == Wanted(t.matched) <==>
                  s.queued.Some? || s.phase.Finding? || AllSnapped(remote, before))
  {
    var ended := before + [RunEnds];
    assert ended[..|ended| - 1] == before;
    EndedRunsToo(remote, ended, after);
    WindingDown(remote, ended, after);
    PendingExactly(remote, before);
    RunKeepsInv(remote, ended + after);
  }

  lemma FirstWanted(matched: seq<Urn>)
    requires matched != []
    ensures Wanted(matched) != [] && Wanted(matched)[0] != []
    ensures Wanted(matched)[0][0] == matched[|matched| - 1]
  {
    ChunksPartition(Reversed(matched), PLAYLIST_TRACK_LIMIT);
    ChunkSizes(Reversed(matched), PLAYLIST_TRACK_LIMIT, 0);
  }

  /**
   A lost match shows: between flushes, with matches snapped before, a new last match that came
   after the last snapshot is not where it belongs, at the head of the first playlist.
   */
  lemma {:induction false} LostMatchShows(remote: Remote, actions: seq<Action>)
    requires Run(remote, actions).Some? && Run(remote, actions).value.phase.Idle?
    ensures !AllSnapped(remote, actions) && SnappedBeforeNew(remote, actions) ==>
              !Holds(Run(remote, actions).value.remote, Wanted(Run(remote, actions).value.matched))
  {
    if !AllSnapped(remote, actions) && SnappedBeforeNew(remote, actions) {
      IdleHolds(remote, actions);
      IdleLags(remote, actions);
      LossShows(Run(remote, actions).value, Snapped(remote, actions));
    }
  }

  // Something was snapped, and the last match is a new one.
  ghost predicate SnappedBeforeNew(remote: Remote, actions: seq<Action>)
    requires Run(remote, actions).Some?
  {
    Snapped(remote, actions) > 0 && NewLast(Run(remote, actions).value.matched)
  }

  // The last match is none of those before.
  predicate NewLast(matched: seq<Urn>) {
    forall i | 0 <= i < |matched| - 1 :: matched[i] != matched[|matched| - 1]
  }

  lemma {:induction false} IdleLags(remote: Remote, actions: seq<Action>)
    requires Run(remote, actions).Some?
    ensures var s, count := Run(remote, actions).value, Snapped(remote, actions);
            !AllSnapped(remote, actions) && s.phase.Idle? ==>
              count < |s.matched| && s.held == Wanted(s.matched[..count])
  {
    RunShows(remote, actions);
    SnappedMeansAll(remote, actions);
  }

  lemma {:induction false} IdleHolds(remote: Remote, actions: seq<Action>)
    requires Run(remote, actions).Some?
    ensures var s := Run(remote, actions).value; s.phase.Idle? ==> Holds(s.remote, s.held)
  {
    RunKeepsInv(remote, actions);
  }

  lemma LossShows(s: State, count: nat)
    requires s.phase.Idle? && Holds(s.remote, s.held)
    requires 0 < count < |s.matched| && s.held == Wanted(s.matched[..count])
    requires NewLast(s.matched)
    ensures !Holds(s.remote, Wanted(s.matched))
  {
    FirstWanted(s.matched);
    FirstWanted(s.matched[..count]);
    assert s.held[0][0] == s.matched[count - 1];
    assert PlaylistName(0) in s.remote && s.remote[PlaylistName(0)] == s.held[0];
  }

  /**
   And if something had been snapped by the end, and the last match is new, then the playlists hold
   the reversed match list exactly in these cases.
   */
  lemma {:induction false} EndingShowsExactly(remote: Remote, before: seq<Action>, after: seq<Action>)
    requires AllWind(after)
    requires Run(remote, before).Some? && Run(remote, before + [RunEnds] + after).Some?
    requires Run(remote, before + [RunEnds] + after).value.phase.Idle?
    ensures var s, t := Run(remote, before).value, Run(remote, before + [RunEnds] + after).value;
            SnappedBeforeNew(remote, before) ==>
              (Holds(t.remote, Wanted(t.matched)) <==>
                 s.queued.Some? || s.phase.Finding? || AllSnapped(remote, before))
  {
    if SnappedBeforeNew(remote, before) {
      var all := before + [RunEnds] + after;
      EndingIsExact(remote, before, after);
      PendingExactly(remote, all);
      assert all == before + ([RunEnds] + after);
      SnappedGrows(remote, before, [RunEnds] + after);
      LostMatchShows(remote, all);
      IdleIsNotQueued(remote, all);
    }
  }

  lemma {:induction false} IdleIsNotQueued(remote: Remote, actions: seq<Action>)
    requires Run(remote, actions).Some?
    ensures Run(remote, actions).value.phase.Idle? ==> Run(remote, actions).value.queued.None?
  {
    RunKeepsInv(remote, actions);
  }

  lemma {:induction false} SnappedGrows(remote: Remote, before: seq<Action>, after: seq<Action>)
    requires Run(remote, before + after).Some?
    ensures Run(remote, before).Some? && Snapped(remote, before) <= Snapped(remote, before + after)
  {
    if after == [] {
      assert before + after == before;
    } else {
      var all := before + after;
      assert all[..|all| - 1] == before + after[..|after| - 1];
      SnappedGrows(remote, before, after[..|after| - 1]);
      RunShows(remote, all[..|all| - 1]);
    }
  }

  lemma {:induction false} EndedRunsToo(remote: Remote, before: seq<Action>, after: seq<Action>)
    requires Run(remote, before + after).Some?
    ensures Run(remote, before).Some?
  {
    if after == [] {
      assert before + after == before;
    } else {
      var all := before + after;
      assert all[..|all| - 1] == before + after[..|after| - 1];
      EndedRunsToo(remote, before, after[..|after| - 1]);
    }
  }

  // Nothing but the flush itself goes on where it does not wait.
  ghost predicate Feasible(remote: Remote, actions: seq<Action>) {
    actions != [] ==>
      var n := |actions| - 1;
      && Feasible(remote, actions[..n])
      && (Run(remote, actions[..n]).Some? && !Winds(actions[n]) ==> Suspended(Run(remote, actions[..n]).value))
  }

  // The second match arrives while the final flush writes the first.
  function LateRun(a: Urn, b: Urn): seq<Action> {
    [Match(a), FinalFlush(false), Found, Match(b), WriteNext, LoopDone, RunEnds]
  }

  /**
   A match that arrives while the final flush writes the playlists, after its snapshot, is lost:
   the timer that would have flushed it is cleared when the run ends.
   */
  lemma {:induction false} LateMatchIsLost(a: Urn, b: Urn)
    requires Clean(a) && Clean(b) && a != b
    ensures Run(map[], LateRun(a, b)).Some? && Feasible(map[], LateRun(a, b))
    ensures var s := Run(map[], LateRun(a, b)).value;
            && s.phase.Idle? && s.queued.None? && !s.timer && s.matched == [a, b]
            && !Holds(s.remote, Wanted(s.matched))
  {
    var actions := LateRun(a, b);
    var s4, s5, s6 := Late(a, b, 0), Late(a, b, 1), LateEnd(a, b);
    LateRunStarts(a, b);
    LateFlushWrites(a, b);
    LateFlushEnds(a, b);
    FeasibleStep(map[], actions[..4], s4, actions[4], actions[..5], s5);
    FeasibleStep(map[], actions[..5], s5, actions[5], actions[..6], s6);
    FeasibleStep(map[], actions[..6], s6, actions[6], actions, s6.(timer := false));
    OneIsWanted(a);
    assert [a, b][..1] == [a];
    LossShows(s6.(timer := false), 1);
  }

  // Both have matched, and the first `pos` of the one chunk of the final flush are written.
  function Late(a: Urn, b: Urn, pos: nat): State {
    var titles: set<string> := if pos == 0 then {} else {PlaylistName(0)};
    var remote: Remote := if pos == 0 then map[] else map[PlaylistName(0) := [a]];
    State([a, b], true, Writing([[a]], pos, titles, Flags(true, false)), None, Some({}), [], remote, [], map[])
  }

  function LateEnd(a: Urn, b: Urn): State {
    var s := Late(a, b, 1);
    s.(phase := Idle, cached := Some({PlaylistName(0)}), synced := Keys([[a]]), held := [[a]])
  }

  lemma LateFlushWrites(a: Urn, b: Urn)
    ensures Enabled(Late(a, b, 0), WriteNext) && Step(Late(a, b, 0), WriteNext) == Late(a, b, 1)
  {
    var none: Remote := map[];
    assert none[PlaylistName(0) := [a]] == map[PlaylistName(0) := [a]];
    var nothing: set<string> := {};
    assert nothing + {PlaylistName(0)} == {PlaylistName(0)};
  }

  lemma LateFlushEnds(a: Urn, b: Urn)
    ensures Enabled(Late(a, b, 1), LoopDone) && Step(Late(a, b, 1), LoopDone) == LateEnd(a, b)
    ensures Holds(LateEnd(a, b).remote, [[a]])
  {
    TitleRoundTrip(0);
    var s := Late(a, b, 1);
    assert (set title | title in s.phase.known && ChunkIndex(title).Some?) == {PlaylistName(0)};
  }

  // Up to the arrival of the second match.
  lemma {:induction false} LateRunStarts(a: Urn, b: Urn)
    requires Clean(a) && Clean(b)
    ensures Run(map[], LateRun(a, b)[..4]) == Some(Late(a, b, 0)) && Feasible(map[], LateRun(a, b)[..4])
  {
    var actions, s2, s4 := LateRun(a, b), LateLookup(a), Late(a, b, 0);
    LateRunLooksUp(a, b);
    LateFlushStarts(a, b);
    FeasibleStep(map[], actions[..2], s2, actions[2], actions[..3], s4.(matched := [a], timer := false));
    FeasibleStep(map[], actions[..3], s4.(matched := [a], timer := false), actions[3], actions[..4], s4);
  }

  // One match, and the final flush lists the playlists.
  function LateLookup(a: Urn): State {
    Init(map[]).(matched := [a], phase := Finding(Flags(true, false)))
  }

  lemma {:induction false} LateRunLooksUp(a: Urn, b: Urn)
    requires Clean(a)
    ensures Run(map[], LateRun(a, b)[..2]) == Some(LateLookup(a)) && Feasible(map[], LateRun(a, b)[..2])
  {
    var actions, s0, s1 := LateRun(a, b), Init(map[]), Init(map[]).(matched := [a], timer := true);
    FeasibleStep(map[], [], s0, Match(a), actions[..1], s1);
    FeasibleStep(map[], actions[..1], s1, FinalFlush(false), actions[..2], LateLookup(a));
  }

  lemma LateFlushStarts(a: Urn, b: Urn)
    ensures Step(LateLookup(a), Found) == Late(a, b, 0).(matched := [a], timer := false)
  {
    OneIsWanted(a);
    assert Titles(map[]) == {};
  }

  lemma OneIsWanted(urn: Urn)
    ensures Wanted([urn]) == [[urn]]
  {
    assert Reversed([urn]) == [urn];
  }

  lemma FeasibleStep(remote: Remote, before: seq<Action>, s: State, a: Action, all: seq<Action>, t: State)
    requires Run(remote, before) == Some(s) && Feasible(remote, before) && all == before + [a]
    requires Enabled(s, a) && Step(s, a) == t && (Winds(a) || Suspended(s))
    ensures Run(remote, all) == Some(t) && Feasible(remote, all)
  {
    assert all[..|all| - 1] == before;
  }
}
