/**
 One import run of the Yandex playlist sync.  Matches arrive, timers fire and
 flushes run between the awaits of one another.  Actions are finer than awaits:
 what `Found` leads to, skipped chunks and `LoopDone` run on at once, so that an
 event can only come where the flush is `Suspended`.  What holds of all runs of
 the actions holds of those.  Playlist calls succeed and titles are unique.
 */
module YmSync {
  import opened Options
  import opened YmPlaylists

  type Remote = map<string, seq<Urn>>   // title -> tracks

  datatype Flags = Flags(finalize: bool, deleteStale: bool)

  datatype Phase =
    | Idle
    | Finding(flags: Flags)                   // findExistingPlaylists is pending
    | Writing(chunks: seq<seq<Urn>>, pos: nat, known: set<string>, flags: Flags)
    | Cleaning(chunks: seq<seq<Urn>>)         // the stale playlists are being deleted

  datatype State = State(
    matched: seq<Urn>,
    timer: bool,                    // syncTimer is set
    phase: Phase,                   // the flush in flight
    queued: Option<Flags>,          // syncQueued and its flags
    cached: Option<set<string>>,    // cachedPlaylists, by title
    synced: seq<string>,            // syncedChunkKeys
    remote: Remote,
    // history: the chunks the keys in `synced` were made from, and the remote
    // playlists when the running flush began to write
    held: seq<seq<Urn>>,
    base: Remote
  )

  datatype Action =
    | Match(urn: Urn)
    | TimerFires
    | FinalFlush(deleteStale: bool)
    | Found
    | WriteNext
    | LoopDone
    | Cleaned
    | RunEnds        // the run's finally clause clears the timer

  function Init(remote: Remote): State {
    State([], false, Idle, None, None, [], remote, [], remote)
  }

  function Reversed<T>(s: seq<T>): seq<T> {
    if s == [] then [] else [s[|s| - 1]] + Reversed(s[..|s| - 1])
  }

  lemma {:induction false} ReversedAt<T>(s: seq<T>, i: nat)
    requires i < |s|
    ensures |Reversed(s)| == |s| && Reversed(s)[i] == s[|s| - 1 - i]
  {
    if |s| > 1 { ReversedAt(s[..|s| - 1], if i > 0 then i - 1 else 0); }
  }

  // What the playlists should hold now.
  function Wanted(matched: seq<Urn>): seq<seq<Urn>> {
    Chunks(Reversed(matched), PLAYLIST_TRACK_LIMIT)
  }

  function Keys(chunks: seq<seq<Urn>>): (keys: seq<string>)
    ensures |keys| == |chunks|
    ensures forall i | 0 <= i < |keys| :: keys[i] == Key(chunks[i])
  {
    if chunks == [] then [] else [Key(chunks[0])] + Keys(chunks[1..])
  }

  function Titles(remote: Remote): set<string> {
    set t | t in remote && ChunkIndex(t).Some?
  }

  function BeginWriting(s: State, flags: Flags, known: set<string>): State {
    s.(phase := Writing(Wanted(s.matched), 0, known, flags), base := s.remote)
  }

  // A flush that finds no other in flight.
  function Start(s: State, flags: Flags): State {
    var t := s.(timer := false);
    if s.cached.None? then t.(phase := Finding(flags)) else BeginWriting(t, flags, s.cached.value)
  }

  function Flush(s: State, flags: Flags): State {
    if s.phase.Idle? then Start(s, flags) else
    var before := if s.queued.Some? then s.queued.value else Flags(false, false);
    s.(queued := Some(Flags(before.finalize || flags.finalize, before.deleteStale || flags.deleteStale)))
  }

  // The end of a flush; a queued one follows at once.
  function Finish(s: State, chunks: seq<seq<Urn>>): State {
    var t := s.(phase := Idle, synced := Keys(chunks), held := chunks, queued := None);
    if s.queued.Some? then Start(t, s.queued.value) else t
  }

  function StaleTitles(known: set<string>, count: nat): set<string> {
    set t | t in known && ChunkIndex(t).Some? && ChunkIndex(t).value >= count
  }

  predicate Unchanged(s: State, chunks: seq<seq<Urn>>, pos: nat)
    requires pos < |chunks|
  {
    pos < |s.synced| && Key(chunks[pos]) == s.synced[pos]
  }

  predicate Enabled(s: State, a: Action) {
    match a
    case Match(urn) => Clean(urn)
    case TimerFires => s.timer
    case FinalFlush(_) => true
    case Found => s.phase.Finding?
    case WriteNext => s.phase.Writing? && s.phase.pos < |s.phase.chunks|
    case LoopDone => s.phase.Writing? && s.phase.pos == |s.phase.chunks|
    case Cleaned => s.phase.Cleaning? && s.cached.Some?
    case RunEnds => true
  }

  function Step(s: State, a: Action): State
    requires Enabled(s, a)
  {
    match a
    case Match(urn) => s.(matched := s.matched + [urn], timer := true)
    case TimerFires => Flush(s.(timer := false), Flags(false, false))
    case FinalFlush(deleteStale) => Flush(s, Flags(true, deleteStale))
    case Found =>
      BeginWriting(s.(cached := Some(Titles(s.remote))), s.phase.flags, Titles(s.remote))
    case WriteNext => WriteChunk(s)
    case LoopDone =>
      if s.phase.flags.deleteStale && s.matched != [] then Recached(s).(phase := Cleaning(s.phase.chunks))
      else Finish(Recached(s), s.phase.chunks)
    case Cleaned => Finish(WithoutStale(s), s.phase.chunks)
    case RunEnds => s.(timer := false)
  }

  // The playlists of the import among those known after writing.
  function Recached(s: State): State
    requires s.phase.Writing?
  {
    s.(cached := Some(set title | title in s.phase.known && ChunkIndex(title).Some?))
  }

  function WithoutStale(s: State): State
    requires s.phase.Cleaning? && s.cached.Some?
  {
    var stale := StaleTitles(s.cached.value, |s.phase.chunks|);
    s.(remote := s.remote - stale, cached := Some(s.cached.value - stale))
  }

  function WriteChunk(s: State): State
    requires s.phase.Writing? && s.phase.pos < |s.phase.chunks|
  {
    var p := s.phase;
    if !p.flags.finalize && Unchanged(s, p.chunks, p.pos) then s.(phase := p.(pos := p.pos + 1))
    else
      var title := PlaylistName(p.pos);
      s.(remote := s.remote[title := p.chunks[p.pos]],
         phase := p.(pos := p.pos + 1, known := p.known + {title}))
  }

  // The flush, if any, waits for a playlist call: the listing, an upsert or the deletions.
  predicate Suspended(s: State) {
    match s.phase
    case Idle => true
    case Finding(_) => true
    case Writing(chunks, pos, _, flags) => pos < |chunks| && (flags.finalize || !Unchanged(s, chunks, pos))
    case Cleaning(_) => true
  }

  function Run(remote: Remote, actions: seq<Action>): Option<State> {
    if actions == [] then Some(Init(remote)) else
    match Run(remote, actions[..|actions| - 1])
    case None => None
    case Some(s) =>
      if Enabled(s, actions[|actions| - 1]) then Some(Step(s, actions[|actions| - 1])) else None
  }

  // ------------------------------------------------------------ rewriting everything

  // The reference: write the first n chunks, whatever is there.
  function Rewrite(base: Remote, chunks: seq<seq<Urn>>, n: nat): Remote
    requires n <= |chunks|
  {
    if n == 0 then base else Rewrite(base, chunks, n - 1)[PlaylistName(n - 1) := chunks[n - 1]]
  }

  lemma NamesDiffer(i: nat, j: nat)
    requires i != j
    ensures PlaylistName(i) != PlaylistName(j)
  {
    TitleRoundTrip(i);
    TitleRoundTrip(j);
  }

  lemma {:induction false} RewriteAt(base: Remote, chunks: seq<seq<Urn>>, n: nat, i: nat)
    requires n <= |chunks|
    ensures i < n ==> PlaylistName(i) in Rewrite(base, chunks, n)
                      && Rewrite(base, chunks, n)[PlaylistName(i)] == chunks[i]
    ensures i >= n ==>
              (PlaylistName(i) in Rewrite(base, chunks, n) <==> PlaylistName(i) in base)
              && (PlaylistName(i) in base ==> Rewrite(base, chunks, n)[PlaylistName(i)] == base[PlaylistName(i)])
  {
    if n > 0 {
      RewriteAt(base, chunks, n - 1, i);
      if i != n - 1 { NamesDiffer(i, n - 1); }
    }
  }

  // ------------------------------------------------------------ the invariant

  ghost predicate Good(chunks: seq<seq<Urn>>) {
    forall c | c in chunks :: CleanChunk(c)
  }

  // Playlist i holds chunk i.
  ghost predicate Holds(remote: Remote, chunks: seq<seq<Urn>>) {
    forall i: nat | i < |chunks| ::
      PlaylistName(i) in remote && remote[PlaylistName(i)] == chunks[i]
  }

  // The first pos chunks have been written over base, and exactly the titles there are are known.
  ghost predicate Written(base: Remote, remote: Remote, chunks: seq<seq<Urn>>, pos: nat, known: set<string>)
    requires pos <= |chunks|
  {
    remote == Rewrite(base, chunks, pos) && known == Titles(remote)
  }

  ghost predicate PhaseInv(s: State) {
    match s.phase
    case Idle => Holds(s.remote, s.held) && (s.cached.Some? ==> s.cached.value == Titles(s.remote))
    case Finding(_) => Holds(s.remote, s.held) && s.cached.None?
    case Writing(chunks, pos, known, _) =>
      && pos <= |chunks| <= |Wanted(s.matched)| && Good(chunks)
      && Holds(s.base, s.held) && s.cached == Some(Titles(s.base))
      && Written(s.base, s.remote, chunks, pos, known)
    case Cleaning(chunks) =>
      && |chunks| <= |Wanted(s.matched)| && Good(chunks)
      && s.remote == Rewrite(s.base, chunks, |chunks|)
      && s.cached == Some(Titles(s.remote))
  }

  ghost predicate Inv(s: State) {
    && (forall urn | urn in s.matched :: Clean(urn))
    && Good(s.held) && s.synced == Keys(s.held)
    && (s.phase.Idle? ==> s.queued.None?)
    && PhaseInv(s)
  }

  // Somebody will still write, or has written, what is matched now.
  ghost predicate Pending(s: State) {
    || s.queued.Some?
    || (match s.phase
        case Idle => s.held == Wanted(s.matched)
        case Finding(_) => true
        case Writing(chunks, _, _, _) => chunks == Wanted(s.matched)
        case Cleaning(chunks) => chunks == Wanted(s.matched))
  }

  ghost predicate Covered(s: State) {
    s.timer || Pending(s)
  }

  lemma {:induction false} ReversedElements<T>(s: seq<T>)
    ensures |Reversed(s)| == |s|
    ensures forall x :: x in Reversed(s) <==> x in s
  {
    if s != [] {
      var front := s[..|s| - 1];
      ReversedElements(front);
      assert s == front + [s[|s| - 1]];
    }
  }

  lemma WantedIsGood(matched: seq<Urn>)
    requires forall urn | urn in matched :: Clean(urn)
    ensures Good(Wanted(matched))
  {
    ReversedElements(matched);
    forall c | c in Wanted(matched) ensures CleanChunk(c) {
      var i :| 0 <= i < |Wanted(matched)| && Wanted(matched)[i] == c;
      ChunkSizes(Reversed(matched), PLAYLIST_TRACK_LIMIT, i);
    }
  }

  lemma WantedGrows(matched: seq<Urn>, urn: Urn)
    ensures |Wanted(matched)| <= |Wanted(matched + [urn])|
  {
    ReversedElements(matched);
    ReversedElements(matched + [urn]);
    ChunkCountGrows(Reversed(matched), Reversed(matched + [urn]), PLAYLIST_TRACK_LIMIT);
  }

  // ------------------------------------------------------------ one action

  lemma StartKeepsInv(s: State, flags: Flags)
    requires Inv(s.(queued := None)) && s.phase.Idle?
    ensures Inv(Start(s.(queued := None), flags)) && Pending(Start(s.(queued := None), flags))
  {
    WantedIsGood(s.matched);
  }

  lemma FlushKeepsInv(s: State, flags: Flags)
    requires Inv(s)
    ensures Inv(Flush(s, flags)) && Pending(Flush(s, flags))
  {
    if s.phase.Idle? {
      assert s.(queued := None) == s;
      StartKeepsInv(s, flags);
    }
  }

  lemma FinishKeepsInv(s: State, chunks: seq<seq<Urn>>)
    requires (forall urn | urn in s.matched :: Clean(urn)) && Good(chunks)
    requires Holds(s.remote, chunks) && s.cached == Some(Titles(s.remote))
    ensures Inv(Finish(s, chunks))
  {
    var t := s.(phase := Idle, synced := Keys(chunks), held := chunks, queued := None);
    assert Inv(t);
    if s.queued.Some? {
      assert t.(queued := None) == t;
      StartKeepsInv(t, s.queued.value);
    }
  }

  lemma MatchKeepsInv(s: State, urn: Urn)
    requires Inv(s) && Clean(urn)
    ensures Inv(Step(s, Match(urn)))
  {
    WantedGrows(s.matched, urn);
  }

  // The key of a chunk is the recorded one only if the playlist holds that chunk already.
  lemma UnchangedIsInPlace(s: State, chunks: seq<seq<Urn>>, pos: nat)
    requires Good(s.held) && s.synced == Keys(s.held) && Good(chunks)
    requires pos < |chunks| && Unchanged(s, chunks, pos)
    ensures pos < |s.held| && s.held[pos] == chunks[pos]
  {
    assert s.held[pos] in s.held && chunks[pos] in chunks;
    KeyIsInjective(s.held[pos], chunks[pos]);
  }

  // Writing chunk pos, or leaving it where it is already, is the next step of the rewrite.
  lemma NextIsRewritten(base: Remote, held: seq<seq<Urn>>, chunks: seq<seq<Urn>>, pos: nat)
    requires pos < |chunks|
    ensures Rewrite(base, chunks, pos + 1) == Rewrite(base, chunks, pos)[PlaylistName(pos) := chunks[pos]]
    ensures Holds(base, held) && pos < |held| && held[pos] == chunks[pos] ==>
              Rewrite(base, chunks, pos + 1) == Rewrite(base, chunks, pos)
  {
    RewriteAt(base, chunks, pos, pos);
    if Holds(base, held) && pos < |held| && held[pos] == chunks[pos] {
      var remote := Rewrite(base, chunks, pos);
      assert remote[PlaylistName(pos) := chunks[pos]] == remote;
    }
  }

  lemma WrittenIsKnown(remote: Remote, pos: nat, chunk: seq<Urn>)
    ensures Titles(remote[PlaylistName(pos) := chunk]) == Titles(remote) + {PlaylistName(pos)}
  {
    TitleRoundTrip(pos);
  }

  // A chunk with the recorded key can be skipped.
  lemma SkipIsRewriting(s: State, chunks: seq<seq<Urn>>, pos: nat, known: set<string>)
    requires Good(s.held) && s.synced == Keys(s.held) && Holds(s.base, s.held) && Good(chunks)
    requires pos < |chunks| && Unchanged(s, chunks, pos) && Written(s.base, s.remote, chunks, pos, known)
    ensures Written(s.base, s.remote, chunks, pos + 1, known)
  {
    UnchangedIsInPlace(s, chunks, pos);
    NextIsRewritten(s.base, s.held, chunks, pos);
  }

  lemma WriteIsRewriting(base: Remote, remote: Remote, chunks: seq<seq<Urn>>, pos: nat, known: set<string>)
    requires pos < |chunks| && Written(base, remote, chunks, pos, known)
    ensures Written(base, remote[PlaylistName(pos) := chunks[pos]], chunks, pos + 1, known + {PlaylistName(pos)})
  {
    WrittenIsKnown(remote, pos, chunks[pos]);
    NextIsRewritten(base, [], chunks, pos);
  }

  lemma WriteKeepsPhase(s: State)
    requires Inv(s) && Enabled(s, WriteNext)
    ensures PhaseInv(WriteChunk(s))
  {
    var p := s.phase;
    if !p.flags.finalize && Unchanged(s, p.chunks, p.pos) {
      SkipIsRewriting(s, p.chunks, p.pos, p.known);
    } else {
      WriteIsRewriting(s.base, s.remote, p.chunks, p.pos, p.known);
    }
  }

  // A skipped chunk is already in place, a written one is put in place.
  lemma WriteKeepsInv(s: State)
    requires Inv(s) && Enabled(s, WriteNext)
    ensures Inv(Step(s, WriteNext))
  {
    WriteKeepsPhase(s);
  }

  lemma FullRewriteHolds(base: Remote, chunks: seq<seq<Urn>>)
    ensures Holds(Rewrite(base, chunks, |chunks|), chunks)
  {
    forall i: nat | i < |chunks|
      ensures PlaylistName(i) in Rewrite(base, chunks, |chunks|)
      ensures Rewrite(base, chunks, |chunks|)[PlaylistName(i)] == chunks[i]
    {
      RewriteAt(base, chunks, |chunks|, i);
    }
  }

  lemma LoopDoneKeepsInv(s: State)
    requires Inv(s) && Enabled(s, LoopDone)
    ensures Inv(Step(s, LoopDone))
  {
    var p := s.phase;
    FullRewriteHolds(s.base, p.chunks);
    var t := Recached(s);
    assert t.cached.value == Titles(t.remote);
    if !(p.flags.deleteStale && s.matched != []) {
      FinishKeepsInv(t, p.chunks);
    }
  }

  lemma CleanedKeepsInv(s: State)
    requires Inv(s) && Enabled(s, Cleaned)
    ensures Inv(Step(s, Cleaned))
  {
    var chunks := s.phase.chunks;
    var stale := StaleTitles(s.cached.value, |chunks|);
    var t := WithoutStale(s);
    FullRewriteHolds(s.base, chunks);
    assert t.cached.value == Titles(t.remote);
    forall i: nat | i < |chunks| ensures PlaylistName(i) !in stale {
      TitleRoundTrip(i);
    }
    FinishKeepsInv(t, chunks);
  }

  lemma StepKeepsInv(s: State, a: Action)
    requires Inv(s) && Enabled(s, a)
    ensures Inv(Step(s, a))
  {
    match a
    case Match(urn) => MatchKeepsInv(s, urn);
    case TimerFires => FlushKeepsInv(s.(timer := false), Flags(false, false));
    case FinalFlush(deleteStale) => FlushKeepsInv(s, Flags(true, deleteStale));
    case Found => FoundKeepsInv(s);
    case WriteNext => WriteKeepsInv(s);
    case LoopDone => LoopDoneKeepsInv(s);
    case Cleaned => CleanedKeepsInv(s);
    case RunEnds =>
  }

  lemma FoundKeepsInv(s: State)
    requires Inv(s) && Enabled(s, Found)
    ensures Inv(Step(s, Found))
  {
    WantedIsGood(s.matched);
  }

  predicate Winds(a: Action) {
    a.Found? || a.WriteNext? || a.LoopDone? || a.Cleaned?
  }

  // Winding down neither saves nor loses a match.
  lemma WindingKeepsPending(s: State, a: Action)
    requires Enabled(s, a) && Winds(a)
    ensures Pending(Step(s, a)) <==> Pending(s)
    ensures Step(s, a).matched == s.matched
  {
    if a.LoopDone? {
      FinishIsPending(Recached(s), s.phase.chunks);
    } else if a.Cleaned? {
      FinishIsPending(WithoutStale(s), s.phase.chunks);
    }
  }

  lemma FinishIsPending(s: State, chunks: seq<seq<Urn>>)
    ensures Pending(Finish(s, chunks)) <==> s.queued.Some? || chunks == Wanted(s.matched)
    ensures Finish(s, chunks).matched == s.matched
  {
  }

  // Nothing but the end of a run can lose a match.
  lemma StepKeepsCovered(s: State, a: Action)
    requires Inv(s) && Enabled(s, a) && Covered(s) && (a.RunEnds? ==> Pending(s))
    ensures Covered(Step(s, a))
  {
    if a.TimerFires? {
      FlushKeepsInv(s.(timer := false), Flags(false, false));
    } else if a.FinalFlush? {
      FlushKeepsInv(s, Flags(true, a.deleteStale));
    } else if Winds(a) {
      WindingKeepsPending(s, a);
      if s.queued.None? { WindingKeepsTimer(s, a); }
    }
  }

  lemma WindingKeepsTimer(s: State, a: Action)
    requires Enabled(s, a) && Winds(a) && s.queued.None?
    ensures Step(s, a).timer == s.timer
  {
  }
}
