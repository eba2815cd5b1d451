/**
 What an import run writes and removes and what it leaves alone: the playlists beyond its last
 chunk, those that are not its own, those it need not touch, and what a final flush makes of
 playlists that were edited meanwhile.
 */
module YmStale {
  import opened Options
  import opened YmPlaylists
  import opened YmSync
  import opened YmRuns

  // No playlist of the import beyond the first `count`.
  ghost predicate NoneBeyond(remote: Remote, count: nat) {
    forall t | t in remote && ChunkIndex(t).Some? :: ChunkIndex(t).value < count
  }

  // A playlist within the list of chunks is not a stale one.
  lemma WrittenIsNotBeyond(remote: Remote, count: nat, pos: nat, chunk: seq<Urn>)
    requires NoneBeyond(remote, count) && pos < count
    ensures NoneBeyond(remote[PlaylistName(pos) := chunk], count)
  {
    TitleRoundTrip(pos);
  }

  // ------------------------------------------------------------ stale playlists

  // The deletion of stale playlists is still to come, with a flush that waits or runs, or it is done.
  ghost predicate Due(s: State) {
    || (s.queued.Some? && s.queued.value.deleteStale)
    || (match s.phase
        case Idle => false
        case Finding(flags) => flags.deleteStale
        case Writing(_, _, _, flags) => flags.deleteStale
        case Cleaning(_) => true)
    || NoneBeyond(s.remote, |Wanted(s.matched)|)
  }

  lemma StartIsDue(s: State, flags: Flags)
    requires s.phase.Idle?
    ensures flags.deleteStale || NoneBeyond(s.remote, |Wanted(s.matched)|) ==> Due(Start(s, flags))
  {
  }

  lemma FlushIsDue(s: State, flags: Flags)
    requires s.phase.Idle? ==> s.queued.None?
    ensures flags.deleteStale || Due(s) ==> Due(Flush(s, flags))
  {
    if s.phase.Idle? { StartIsDue(s, flags); }
  }

  lemma FinishIsDue(s: State, chunks: seq<seq<Urn>>)
    requires (s.queued.Some? && s.queued.value.deleteStale) || NoneBeyond(s.remote, |Wanted(s.matched)|)
    ensures Due(Finish(s, chunks))
  {
    var t := s.(phase := Idle, synced := Keys(chunks), held := chunks, queued := None);
    if s.queued.Some? { StartIsDue(t, s.queued.value); }
  }

  lemma MatchIsDue(s: State, urn: Urn)
    requires Due(s) && Enabled(s, Match(urn))
    ensures Due(Step(s, Match(urn)))
  {
    WantedGrows(s.matched, urn);
  }

  lemma WriteIsDue(s: State)
    requires Due(s) && Enabled(s, WriteNext) && |s.phase.chunks| <= |Wanted(s.matched)|
    ensures Due(WriteChunk(s))
  {
    if NoneBeyond(s.remote, |Wanted(s.matched)|) {
      WrittenIsNotBeyond(s.remote, |Wanted(s.matched)|, s.phase.pos, s.phase.chunks[s.phase.pos]);
    }
  }

  lemma LoopDoneIsDue(s: State)
    requires Due(s) && Enabled(s, LoopDone) && s.matched != []
    ensures Due(Step(s, LoopDone))
  {
    if !s.phase.flags.deleteStale { FinishIsDue(Recached(s), s.phase.chunks); }
  }

  /**
   The deletions leave exactly the playlists that are not of the import, or that a chunk is for, and
   leave them as they are.
   */
  lemma CleanedDeletesExactly(s: State, title: string)
    requires Inv(s) && Enabled(s, Cleaned)
    ensures var remote := Step(s, Cleaned).remote;
            && (title in remote <==>
                  title in s.remote && (ChunkIndex(title).None? || ChunkIndex(title).value < |s.phase.chunks|))
            && (title in remote ==> remote[title] == s.remote[title])
  {
    FinishKeepsRemote(WithoutStale(s), s.phase.chunks);
    assert title in s.remote && ChunkIndex(title).Some? ==> title in Titles(s.remote);
  }

  lemma FinishKeepsRemote(s: State, chunks: seq<seq<Urn>>)
    ensures Finish(s, chunks).remote == s.remote && Finish(s, chunks).matched == s.matched
  {
  }

  lemma CleanedIsDue(s: State)
    requires Inv(s) && Enabled(s, Cleaned)
    ensures NoneBeyond(Step(s, Cleaned).remote, |s.phase.chunks|) && Due(Step(s, Cleaned))
  {
    forall title | title in Step(s, Cleaned).remote && ChunkIndex(title).Some?
      ensures ChunkIndex(title).value < |s.phase.chunks|
    {
      CleanedDeletesExactly(s, title);
    }
    FinishKeepsRemote(WithoutStale(s), s.phase.chunks);
  }

  lemma StepKeepsDue(s: State, a: Action)
    requires Inv(s) && Due(s) && Enabled(s, a) && s.matched != []
    ensures Due(Step(s, a))
  {
    match a
    case Match(urn) => MatchIsDue(s, urn);
    case TimerFires => FlushIsDue(s.(timer := false), Flags(false, false));
    case FinalFlush(deleteStale) => FlushIsDue(s, Flags(true, deleteStale));
    case Found =>
    case WriteNext => WriteIsDue(s);
    case LoopDone => LoopDoneIsDue(s);
    case Cleaned => CleanedIsDue(s);
    case RunEnds =>
  }

  lemma {:induction false} RunStaysDue(remote: Remote, before: seq<Action>, after: seq<Action>)
    requires Run(remote, before + after).Some?
    ensures Run(remote, before).Some?
    ensures Due(Run(remote, before).value) && Run(remote, before).value.matched != [] ==>
              Due(Run(remote, before + after).value) && Run(remote, before + after).value.matched != []
  {
    if after == [] {
      assert before + after == before;
    } else {
      var n := |after| - 1;
      assert before + after == (before + after[..n]) + [after[n]];
      LastStep(remote, before + after[..n], after[n]);
      RunStaysDue(remote, before, after[..n]);
      if Due(Run(remote, before).value) && Run(remote, before).value.matched != [] {
        RunKeepsInv(remote, before + after[..n]);
        StepKeepsDue(Run(remote, before + after[..n]).value, after[n]);
        MatchedGrows(Run(remote, before + after[..n]).value, after[n]);
      }
    }
  }

  /**
   Once a final flush was asked to delete stale playlists, with something matched, then whenever no
   flush is running or waiting none is left beyond the last chunk, whatever matches came since and
   whatever other flushes it was merged with.
   */
  lemma {:induction false} StaleAreDeleted(remote: Remote, before: seq<Action>, after: seq<Action>)
    requires Run(remote, before + [FinalFlush(true)] + after).Some?
    ensures Run(remote, before).Some?
    ensures var t := Run(remote, before + [FinalFlush(true)] + after).value;
            Run(remote, before).value.matched != [] && t.phase.Idle? ==> NoneBeyond(t.remote, |Wanted(t.matched)|)
  {
    var flushed := before + [FinalFlush(true)];
    RunStaysDue(remote, flushed, after);
    LastStep(remote, before, FinalFlush(true));
    var s := Run(remote, before).value;
    RunKeepsInv(remote, before);
    FlushIsDue(s, Flags(true, true));
    MatchedGrows(s, FinalFlush(true));
    IdleIsNotQueued(remote, flushed + after);
  }

  // ------------------------------------------------------------ other playlists

  lemma StepSparesOthers(s: State, a: Action, title: string)
    requires Inv(s) && Enabled(s, a) && ChunkIndex(title).None?
    ensures var t := Step(s, a);
            (title in t.remote <==> title in s.remote) && (title in s.remote ==> t.remote[title] == s.remote[title])
  {
    if a.WriteNext? {
      TitleRoundTrip(s.phase.pos);
    } else if a.LoopDone? {
      FinishKeepsRemote(Recached(s), s.phase.chunks);
    } else if a.Cleaned? {
      CleanedDeletesExactly(s, title);
    }
  }

  /** A playlist whose title is not one of the import's is never touched. */
  lemma {:induction false} OthersAreSpared(remote: Remote, actions: seq<Action>, title: string)
    requires Run(remote, actions).Some? && ChunkIndex(title).None?
    ensures var now := Run(remote, actions).value.remote;
            (title in now <==> title in remote) && (title in remote ==> now[title] == remote[title])
  {
    if actions != [] {
      var n := |actions| - 1;
      OthersAreSpared(remote, actions[..n], title);
      RunKeepsInv(remote, actions[..n]);
      StepSparesOthers(Run(remote, actions[..n]).value, actions[n], title);
    }
  }

  // ------------------------------------------------------------ what the flags are for

  // Nobody has asked for deletions, or for a rewrite of everything.
  predicate Modest(s: State) {
    && (s.queued.Some? ==> s.queued.value == Flags(false, false))
    && (match s.phase
        case Idle => true
        case Finding(flags) => flags == Flags(false, false)
        case Writing(_, _, _, flags) => flags == Flags(false, false)
        case Cleaning(_) => false)
  }

  lemma FinishStaysModest(s: State, chunks: seq<seq<Urn>>)
    requires s.queued.Some? ==> s.queued.value == Flags(false, false)
    ensures Modest(Finish(s, chunks))
  {
  }

  lemma StepStaysModest(s: State, a: Action)
    requires Modest(s) && Enabled(s, a) && !a.FinalFlush?
    ensures Modest(Step(s, a)) && s.remote.Keys <= Step(s, a).remote.Keys
  {
    if a.LoopDone? {
      FinishStaysModest(Recached(s), s.phase.chunks);
      FinishKeepsRemote(Recached(s), s.phase.chunks);
    }
  }

  /** Without a final flush no playlist is deleted, and no flush rewrites what it need not. */
  lemma {:induction false} TimersDeleteNothing(remote: Remote, actions: seq<Action>)
    requires Run(remote, actions).Some? && forall a | a in actions :: !a.FinalFlush?
    ensures Modest(Run(remote, actions).value) && remote.Keys <= Run(remote, actions).value.remote.Keys
  {
    if actions != [] {
      var n := |actions| - 1;
      TimersDeleteNothing(remote, actions[..n]);
      StepStaysModest(Run(remote, actions[..n]).value, actions[n]);
    }
  }

  // The flush under way, if any, took its snapshot of no matches.
  predicate Untouched(s: State) {
    && s.matched == []
    && (match s.phase
        case Writing(chunks, _, _, _) => chunks == []
        case Cleaning(_) => false
        case _ => true)
  }

  lemma StepStaysUntouched(s: State, a: Action)
    requires Untouched(s) && Enabled(s, a) && !a.Match?
    ensures Untouched(Step(s, a)) && Step(s, a).remote == s.remote
  {
    assert Wanted(s.matched) == [];
    if a.LoopDone? { FinishKeepsRemote(Recached(s), s.phase.chunks); }
  }

  /** With nothing matched nothing is written or deleted, whatever flushes are asked for. */
  lemma {:induction false} NoMatchNoChange(remote: Remote, actions: seq<Action>)
    requires Run(remote, actions).Some? && forall a | a in actions :: !a.Match?
    ensures Untouched(Run(remote, actions).value) && Run(remote, actions).value.remote == remote
  {
    if actions != [] {
      var n := |actions| - 1;
      NoMatchNoChange(remote, actions[..n]);
      StepStaysUntouched(Run(remote, actions[..n]).value, actions[n]);
    }
  }

  predicate LeftAlone(s: State)
    requires Enabled(s, WriteNext)
  {
    !s.phase.flags.finalize && s.phase.pos < |s.held| && s.held[s.phase.pos] == s.phase.chunks[s.phase.pos]
  }

  /**
   A flush leaves a chunk alone exactly when it is not finalizing and the playlist was last written
   with the very same tracks; and it goes for an existing playlist, by the titles the import has
   noted, exactly when there is one of that title, so none is ever made twice.
   */
  lemma {:induction false} WritesExactly(remote: Remote, actions: seq<Action>)
    requires Run(remote, actions).Some? && Enabled(Run(remote, actions).value, WriteNext)
    ensures var s := Run(remote, actions).value;
            var p, t := s.phase, Step(s, WriteNext);
            var title, chunk := PlaylistName(p.pos), p.chunks[p.pos];
            && s.cached.Some? && (title in s.cached.value <==> title in s.remote)
            && t.phase.pos == p.pos + 1
            && (LeftAlone(s) ==> t == s.(phase := p.(pos := p.pos + 1)))
            && (!LeftAlone(s) ==>
                  t.remote == s.remote[title := chunk] && t.phase.known == p.known + {title} && t.synced == s.synced)
  {
    RunKeepsInv(remote, actions);
    var s := Run(remote, actions).value;
    var p := s.phase;
    RewriteAt(s.base, p.chunks, p.pos, p.pos);
    TitleRoundTrip(p.pos);
    if Unchanged(s, p.chunks, p.pos) { UnchangedIsInPlace(s, p.chunks, p.pos); }
  }

  // n chunks on in the loop.
  function WrittenOn(s: State, n: nat): State
    requires s.phase.Writing? && s.phase.pos + n <= |s.phase.chunks|
    ensures WrittenOn(s, n).phase.Writing? && WrittenOn(s, n).phase.chunks == s.phase.chunks
    ensures WrittenOn(s, n).phase.pos == s.phase.pos + n && WrittenOn(s, n).phase.flags == s.phase.flags
  {
    if n == 0 then s else WriteChunk(WrittenOn(s, n - 1))
  }

  /**
   A finalizing flush writes every chunk, so it puts the playlists right even if they were edited
   behind the import's back: nothing is assumed of what they or the recorded keys hold.
   */
  lemma {:induction false} FinalizingRewrites(s: State, n: nat)
    requires s.phase.Writing? && s.phase.pos == 0 && s.phase.flags.finalize && n <= |s.phase.chunks|
    ensures WrittenOn(s, n).remote == Rewrite(s.remote, s.phase.chunks, n)
  {
    if n > 0 { FinalizingRewrites(s, n - 1); }
  }

  // The flush under way or waiting has these flags, and maybe more.
  predicate Carries(s: State, flags: Flags) {
    || (s.queued.Some? && AtLeast(s.queued.value, flags))
    || (s.queued.None? && match s.phase
                          case Finding(f) => AtLeast(f, flags)
                          case Writing(_, pos, _, f) => pos == 0 && AtLeast(f, flags)
                          case _ => false)
  }

  predicate AtLeast(f: Flags, flags: Flags) {
    (flags.finalize ==> f.finalize) && (flags.deleteStale ==> f.deleteStale)
  }

  /** A flush that is asked for while another runs is merged with those that wait, and loses no flag. */
  lemma FlushLosesNoFlag(s: State, flags: Flags, waiting: Flags)
    requires s.phase.Idle? ==> s.queued.None?
    ensures Carries(Flush(s, flags), flags)
    ensures s.queued == Some(waiting) ==> Carries(Flush(s, flags), waiting)
  {
  }
}
