/**
 * Continuation as it interleaves with listening: a request takes its time, and meanwhile the
 * listener moves about in the queue, runs into its end again, or plays something else.
 */
module ContinuationRuns {
  import opened Options
  import PlayerQueue
  import opened Continuation

  type Track = PlayerQueue.Track
  type Urn = PlayerQueue.Urn

  // A list that is played page by page, with the has_more flag of each page.
  datatype Context = Context(list: seq<Track>, more: nat -> bool)

  type Config = seq<Context>

  // One play(), and the source that was armed with it, if one was. A source is known by its play.
  datatype Play = Play(context: Option<nat>, page: nat, done: bool)

  // What the one call of the autopilot that is in flight waits for: a page of a source, or the
  // wave. Either goes back to the play during which the call began.
  datatype Flight = Asking(play: nat, existing: set<Urn>) | Waving(play: nat, existing: set<Urn>)

  datatype State = State(
    queue: seq<Track>, index: int,
    plays: seq<Play>,
    active: Option<nat>,       // the armed source
    flight: Option<Flight>,
    // history since the last play: a request of its source failed, the wave added tracks, a call
    // that began before it added tracks or gave a source up
    failed: bool, waved: bool, strayed: bool)

  datatype Action =
    | Ended                                                  // next() ran into the end of the queue
    | Arrives(ok: bool)                                      // the pending page request comes back
    | WaveArrives(tracks: seq<Track>)
    | Move(index: nat)                                       // next, prev or playFromQueue
    | PlayOther(tracks: seq<Track>, at: nat)                 // play() of something else
    | PlayContext(context: nat, loaded: nat, at: nat)        // play() of the first entries, then armed

  const INITIAL := State([], -1, [Play(None, 0, false)], None, None, false, false, false)

  // The play whose queue this is.
  function Current(s: State): int { |s.plays| - 1 }

  function CurrentPlay(s: State): Play {
    if s.plays == [] then Play(None, 0, false) else s.plays[|s.plays| - 1]
  }

  function ListOf(c: Config, p: Play): seq<Track> {
    if p.context.Some? && p.context.value < |c| then c[p.context.value].list else []
  }

  function MoreOf(c: Config, p: Play): nat -> bool {
    if p.context.Some? && p.context.value < |c| then c[p.context.value].more else (n: nat) => false
  }

  predicate Enabled(c: Config, s: State, a: Action) {
    match a
    case Ended => 0 <= s.index == |s.queue| - 1
    case Arrives(_) => s.flight.Some? && s.flight.value.Asking? && s.flight.value.play < |s.plays|
    case WaveArrives(_) => s.flight.Some? && s.flight.value.Waving?
    case Move(index) => index < |s.queue|
    case PlayOther(tracks, at) => at < |tracks|
    case PlayContext(k, loaded, at) => k < |c| && at < loaded <= |c[k].list|
  }

  // addToQueue, then next, by a call that began during the given play
  function PlayOn(s: State, play: nat, more: seq<Track>): State {
    s.(queue := s.queue + more, index := s.index + 1, flight := None, strayed := s.strayed || play != Current(s))
  }

  // continueFromContextSource gives up: whatever source is armed goes, and the wave is asked.
  function GiveUp(s: State, play: nat): State {
    s.(active := None, flight := Some(Waving(play, Urns(s.queue))), strayed := s.strayed || play != Current(s))
  }

  function PageArrives(c: Config, s: State): State
    requires Enabled(c, s, Arrives(true))
  {
    var play, existing := s.flight.value.play, s.flight.value.existing;
    var source := s.plays[play];
    if source.done then GiveUp(s, play) else
    var batch, t := Page(ListOf(c, source), source.page), s.(plays := s.plays[play := Asked(c, source)]);
    if batch == [] then GiveUp(t, play)
    else if Unseen(batch, existing) != [] then PlayOn(t, play, Unseen(batch, existing))
    else t.(flight := Some(Asking(play, existing + Urns(batch))))
  }

  // The source after an answer.
  function Asked(c: Config, source: Play): Play {
    source.(page := source.page + 1,
            done := !MoreOf(c, source)(source.page) || Page(ListOf(c, source), source.page) == [])
  }

  function RequestFails(s: State): State
    requires s.flight.Some?
  {
    var play := s.flight.value.play;
    GiveUp(s.(failed := s.failed || play == Current(s)), play)
  }

  function WaveStep(s: State, tracks: seq<Track>): State
    requires s.flight.Some?
  {
    var more := Unseen(tracks, s.flight.value.existing);
    if more == [] then s.(flight := None) else PlayOn(s, s.flight.value.play, more).(waved := true)
  }

  function Begin(s: State, tracks: seq<Track>, at: nat, play: Play): State {
    State(tracks, at, s.plays + [play], if play.context.Some? then Some(|s.plays|) else None, s.flight,
          false, false, false)
  }

  function Step(c: Config, s: State, a: Action): State
    requires Enabled(c, s, a)
  {
    match a
    case Ended =>
      if s.flight.Some? then s                                     // inFlight: ignored
      else if s.active.Some? then s.(flight := Some(Asking(s.active.value, Urns(s.queue))))
      else s.(flight := Some(Waving(if s.plays == [] then 0 else Current(s), Urns(s.queue))))
    case Arrives(ok) => if ok || s.plays[s.flight.value.play].done then PageArrives(c, s) else RequestFails(s)
    case WaveArrives(tracks) => WaveStep(s, tracks)
    case Move(index) => s.(index := index)
    case PlayOther(tracks, at) => Begin(s, tracks, at, Play(None, 0, false))
    case PlayContext(k, loaded, at) =>
      Begin(s, c[k].list[..loaded], at, Play(Some(k), loaded / LIKES_PAGE_SIZE, false))
  }

  function Run(c: Config, actions: seq<Action>): Option<State> {
    if actions == [] then Some(INITIAL) else
    var n := |actions| - 1;
    match Run(c, actions[..n])
    case None => None
    case Some(s) => if Enabled(c, s, actions[n]) then Some(Step(c, s, actions[n])) else None
  }

  // Lists of distinct tracks, with flags that hide no page.
  ghost predicate Stable(c: Config) {
    forall k | 0 <= k < |c| :: StableContext(c[k])
  }

  ghost predicate StableContext(x: Context) {
    Distinct(x.list) && forall p: nat | !x.more(p) :: |x.list| <= (p + 1) * LIKES_PAGE_SIZE
  }

  // ---- What holds in every run ----

  predicate ValidPlay(c: Config, p: Play) { p.context.Some? ==> p.context.value < |c| }

  // A source that is armed is the current play's; a page request of the current play is one of
  // the armed source.
  ghost predicate Identity(c: Config, s: State) {
    && |s.plays| > 0 && -1 <= s.index < |s.queue|
    && (forall p | 0 <= p < |s.plays| :: ValidPlay(c, s.plays[p]))
    && (s.active.Some? ==> s.active.value == Current(s) && CurrentPlay(s).context.Some?)
    && (s.flight.Some? ==> s.flight.value.play < |s.plays|)
    && (s.flight.Some? && s.flight.value.Asking? ==>
          && s.plays[s.flight.value.play].context.Some?
          && (s.flight.value.play == Current(s) ==> s.active.Some?))
    && (s.flight.Some? && s.flight.value.Waving? && s.flight.value.play == Current(s) ==> s.active.None?)
  }

  // The queue and the armed source are in step with the list that is played.
  ghost predicate InOrder(c: Config, s: State) {
    var source := CurrentPlay(s);
    var list := ListOf(c, source);
    && (s.active.Some? ==>
          && !s.waved && !s.failed && InStep(list, s.queue, source.page, source.done)
          && (s.flight.Some? && s.flight.value.Asking? && s.flight.value.play == Current(s) ==>
                s.flight.value.existing == Urns(s.queue)))
    && (s.active.None? && !s.failed ==> list <= s.queue)
    && (!s.waved ==> s.queue <= list)
  }

  ghost predicate Inv(c: Config, s: State) {
    && Identity(c, s)
    && (CurrentPlay(s).context.Some? && !s.strayed ==> InOrder(c, s))
  }

  // Asking for a page changes no identities, and neither does what comes of the answer.
  lemma AskedKeepsIdentity(c: Config, s: State)
    requires Identity(c, s) && Enabled(c, s, Arrives(true))
    ensures var t := s.(plays := s.plays[s.flight.value.play := Asked(c, s.plays[s.flight.value.play])]);
            && Identity(c, t) && |t.plays| == |s.plays|
            && CurrentPlay(t).context == CurrentPlay(s).context
            && ListOf(c, CurrentPlay(t)) == ListOf(c, CurrentPlay(s))
            && (s.flight.value.play != Current(s) ==> CurrentPlay(t) == CurrentPlay(s))
            && (s.flight.value.play == Current(s) ==> CurrentPlay(t) == Asked(c, CurrentPlay(s)))
  {
  }

  lemma OutcomeKeepsIdentity(c: Config, s: State, more: seq<Track>, existing: set<Urn>)
    requires Identity(c, s) && s.flight.Some?
    ensures var play := s.flight.value.play;
            && Identity(c, GiveUp(s, play)) && (more != [] ==> Identity(c, PlayOn(s, play, more)))
            && (s.flight.value.Asking? ==> Identity(c, s.(flight := Some(Asking(play, existing)))))
  {
  }

  lemma PageKeepsIdentity(c: Config, s: State)
    requires Identity(c, s) && Enabled(c, s, Arrives(true))
    ensures Identity(c, PageArrives(c, s))
  {
    var play, existing := s.flight.value.play, s.flight.value.existing;
    var source := s.plays[play];
    var batch, t := Page(ListOf(c, source), source.page), s.(plays := s.plays[play := Asked(c, source)]);
    AskedKeepsIdentity(c, s);
    OutcomeKeepsIdentity(c, s, [], {});
    OutcomeKeepsIdentity(c, t, Unseen(batch, existing), existing + Urns(batch));
  }

  // The request in flight is the current play's, and nothing has strayed into its queue.
  ghost predicate OwnRequest(c: Config, s: State) {
    && Stable(c) && Inv(c, s) && Enabled(c, s, Arrives(true))
    && s.active == Some(s.flight.value.play) && !s.strayed
  }

  // Its source is in step, and its list has the properties pages need.
  lemma OwnSource(c: Config, s: State)
    requires OwnRequest(c, s)
    ensures var source := CurrentPlay(s);
            var list, more := ListOf(c, source), MoreOf(c, source);
            && s.flight.value.play == Current(s) && source == s.plays[Current(s)]
            && InStep(list, s.queue, source.page, source.done) && s.flight.value.existing == Urns(s.queue)
            && !s.waved && !s.failed
            && Distinct(list) && (more(source.page) || |list| <= (source.page + 1) * LIKES_PAGE_SIZE)
  {
    var source := CurrentPlay(s);
    assert ValidPlay(c, s.plays[Current(s)]) && StableContext(c[source.context.value]);
  }

  lemma OwnSourceEnds(c: Config, s: State)
    requires OwnRequest(c, s)
    requires CurrentPlay(s).done || Page(ListOf(c, CurrentPlay(s)), CurrentPlay(s).page) == []
    ensures s.queue == ListOf(c, CurrentPlay(s))
  {
    OwnSource(c, s);
    EmptyMeansAll(ListOf(c, CurrentPlay(s)), s.queue, CurrentPlay(s).page, CurrentPlay(s).done);
  }

  lemma OwnPageGrows(c: Config, s: State, batch: seq<Track>)
    requires OwnRequest(c, s) && !CurrentPlay(s).done
    requires batch == Page(ListOf(c, CurrentPlay(s)), CurrentPlay(s).page) && batch != []
    ensures var source := CurrentPlay(s);
            var list, more, asked := ListOf(c, source), Unseen(batch, Urns(s.queue)), Asked(c, source);
            && InStep(list, s.queue + more, asked.page, asked.done)
            && (more == [] ==> Urns(s.queue) + Urns(batch) == Urns(s.queue))
  {
    OwnSource(c, s);
    var source := CurrentPlay(s);
    var list, more := ListOf(c, source), Unseen(batch, Urns(s.queue));
    if more != [] {
      NewPage(list, s.queue, source.page, Asked(c, source).done, more);
    } else {
      OldPage(list, s.queue, source.page, Asked(c, source).done);
      assert s.queue + more == s.queue;
    }
  }

  lemma InStepIsPrefix(list: seq<Track>, queue: seq<Track>, page: nat, done: bool)
    requires InStep(list, queue, page, done)
    ensures queue <= list
  {
  }

  // A page that arrives for the armed source: more of the list, or all of it is queued.
  lemma OwnPage(c: Config, s: State)
    requires OwnRequest(c, s)
    ensures var t, list := PageArrives(c, s), ListOf(c, CurrentPlay(s));
            && InOrder(c, t) && !t.strayed && t.failed == s.failed
            && (t.flight.None? ==> t.active == s.active && s.queue < t.queue <= list && t.index == s.index + 1)
            && (t.flight.Some? ==> t.queue == s.queue)
            && (t.flight.Some? && t.flight.value.Waving? ==> s.queue == list)
  {
    var source := CurrentPlay(s);
    OwnSource(c, s);
    AskedKeepsIdentity(c, s);
    var list := ListOf(c, source);
    var batch := Page(list, source.page);
    if source.done || batch == [] {
      OwnSourceEnds(c, s);
    } else {
      OwnPageGrows(c, s, batch);
      InStepIsPrefix(list, s.queue + Unseen(batch, Urns(s.queue)), Asked(c, source).page, Asked(c, source).done);
    }
  }

  // The answer to an old request leaves the current play alone.
  lemma StrayKeepsPlay(c: Config, s: State)
    requires Identity(c, s) && Enabled(c, s, Arrives(true)) && s.active != Some(s.flight.value.play)
    ensures s.flight.value.play != Current(s)
    ensures CurrentPlay(PageArrives(c, s)) == CurrentPlay(s) && Current(PageArrives(c, s)) == Current(s)
  {
  }

  // A page that arrives for any other source: it joins the queue, or the armed source goes.
  lemma StrayPage(c: Config, s: State)
    requires Enabled(c, s, Arrives(true)) && s.flight.value.play != Current(s)
    ensures var t, play := PageArrives(c, s), s.flight.value.play;
            var source := s.plays[play];
            && t.failed == s.failed && t.waved == s.waved
            && (t.flight.None? ==>
                  && t.strayed && t.index == s.index + 1
                  && t.queue == s.queue + Unseen(Page(ListOf(c, source), source.page), s.flight.value.existing)
                  && s.queue < t.queue)
            && (t.flight.Some? ==> t.queue == s.queue)
            && (t.flight.Some? && t.flight.value.Waving? ==> t.strayed && t.active.None?)
            && (t.flight.Some? && t.flight.value.Asking? ==>
                  t.strayed == s.strayed && t.active == s.active && t.flight.value.play == play)
  {
  }

  // An old request that goes on asking leaves the current play as it was.
  lemma StrayPageKeepsOrder(c: Config, s: State)
    requires Inv(c, s) && Enabled(c, s, Arrives(true)) && s.active != Some(s.flight.value.play)
    ensures var t := PageArrives(c, s); CurrentPlay(t).context.Some? && !t.strayed ==> InOrder(c, t)
  {
    StrayKeepsPlay(c, s);
    StrayPage(c, s);
  }

  // Once something has strayed into the queue, that stays so until the next play.
  lemma StrayedPage(c: Config, s: State)
    requires Identity(c, s) && Enabled(c, s, Arrives(true)) && s.strayed
    ensures PageArrives(c, s).strayed
  {
  }

  lemma ArrivalKeepsInv(c: Config, s: State, ok: bool)
    requires Stable(c) && Inv(c, s) && Enabled(c, s, Arrives(ok))
    ensures Inv(c, Step(c, s, Arrives(ok)))
  {
    if ok || s.plays[s.flight.value.play].done {
      PageKeepsIdentity(c, s);
      if s.active != Some(s.flight.value.play) {
        StrayPageKeepsOrder(c, s);
      } else if !s.strayed {
        OwnPage(c, s);
      } else {
        StrayedPage(c, s);
      }
    } else {
      FailureKeepsInv(c, s);
    }
  }

  lemma FailureKeepsInv(c: Config, s: State)
    requires Inv(c, s) && Enabled(c, s, Arrives(false))
    ensures Inv(c, RequestFails(s))
  {
  }

  lemma WaveKeepsInv(c: Config, s: State, tracks: seq<Track>)
    requires Inv(c, s) && Enabled(c, s, WaveArrives(tracks))
    ensures Inv(c, WaveStep(s, tracks))
  {
  }

  lemma EndedKeepsInv(c: Config, s: State)
    requires Inv(c, s) && Enabled(c, s, Ended)
    ensures Inv(c, Step(c, s, Ended))
  {
  }

  lemma PlayKeepsInv(c: Config, s: State, a: Action)
    requires Stable(c) && Inv(c, s) && Enabled(c, s, a) && (a.PlayOther? || a.PlayContext?)
    ensures Inv(c, Step(c, s, a))
  {
  }

  lemma StepKeepsInv(c: Config, s: State, a: Action)
    requires Stable(c) && Inv(c, s) && Enabled(c, s, a)
    ensures Inv(c, Step(c, s, a))
  {
    match a
    case Ended => EndedKeepsInv(c, s);
    case Arrives(ok) => ArrivalKeepsInv(c, s, ok);
    case WaveArrives(tracks) => WaveKeepsInv(c, s, tracks);
    case Move(_) =>
    case _ => PlayKeepsInv(c, s, a);
  }

  lemma {:induction false} RunKeepsInv(c: Config, actions: seq<Action>)
    requires Stable(c) && Run(c, actions).Some?
    ensures Inv(c, Run(c, actions).value)
  {
    if actions != [] {
      var n := |actions| - 1;
      RunKeepsInv(c, actions[..n]);
      StepKeepsInv(c, Run(c, actions[..n]).value, actions[n]);
    }
  }

  // ---- Whom a call acts for ----

  // The call goes on asking, neither adding tracks nor giving up.
  predicate GoesOn(t: State) {
    t.flight.Some? && t.flight.value.Asking?
  }

  /**
   * In any run, the request in flight belongs to the play whose queue this is exactly when its
   * source is the armed one. Then what arrives acts for that play: more of its list, in order, or
   * the wave with all of it queued or a request of it failed. Otherwise, and only then, a call
   * strays: its page joins the queue of another play, or it disarms the source of another play.
   */
  lemma {:induction false} CallStraysExactly(c: Config, actions: seq<Action>, ok: bool)
    requires Stable(c) && Run(c, actions).Some? && Enabled(c, Run(c, actions).value, Arrives(ok))
    requires !Run(c, actions).value.strayed
    ensures var s := Run(c, actions).value;
            var t, play := Step(c, s, Arrives(ok)), s.flight.value.play;
            && (s.active == Some(play) <==> play == Current(s))
            && (t.strayed <==> s.active != Some(play) && !GoesOn(t))
  {
    var s := Run(c, actions).value;
    RunKeepsInv(c, actions);
    if ok || s.plays[s.flight.value.play].done {
      if s.active == Some(s.flight.value.play) {
        OwnPage(c, s);
      } else {
        StrayKeepsPlay(c, s);
        StrayPage(c, s);
      }
    }
  }

  /**
   * The same for the wave's answer: it strays exactly when it brings something unseen and the call
   * began during another play; it then joins the queue of that play, in front of what its source,
   * if one is armed, has yet to bring.
   */
  lemma {:induction false} WaveStraysExactly(c: Config, actions: seq<Action>, tracks: seq<Track>)
    requires Stable(c) && Run(c, actions).Some? && Enabled(c, Run(c, actions).value, WaveArrives(tracks))
    requires !Run(c, actions).value.strayed
    ensures var s := Run(c, actions).value;
            var t, wave := Step(c, s, WaveArrives(tracks)), s.flight.value;
            var more := Unseen(tracks, wave.existing);
            && (t.strayed <==> wave.play != Current(s) && more != [])
            && t.queue == s.queue + more && t.active == s.active && t.flight.None?
            && (wave.play == Current(s) ==> s.active.None?)
            && (s.active.Some? ==> (t.strayed <==> t.queue != s.queue))
  {
    RunKeepsInv(c, actions);
    var s := Run(c, actions).value;
    assert s.queue + [] == s.queue;
  }

  /** What a call that does not stray does: playback goes on along the list. */
  lemma {:induction false} OwnCallContinues(c: Config, actions: seq<Action>, ok: bool)
    requires Stable(c) && Run(c, actions).Some? && Enabled(c, Run(c, actions).value, Arrives(ok))
    requires var s := Run(c, actions).value; !s.strayed && s.active == Some(s.flight.value.play)
    ensures var s := Run(c, actions).value;
            var t, list := Step(c, s, Arrives(ok)), ListOf(c, CurrentPlay(s));
            && (t.flight.None? ==>
                  && s.queue < t.queue <= list && t.index == s.index + 1
                  && (s.index == |s.queue| - 1 ==> t.queue[t.index] == list[|s.queue|]))
            && (t.flight.Some? ==> t.queue == s.queue)
            && (t.flight.Some? && t.flight.value.Waving? ==> t.failed || s.queue == list)
            && (t.failed <==> !ok && !CurrentPlay(s).done)     // a source that is done is not asked
  {
    var s := Run(c, actions).value;
    RunKeepsInv(c, actions);
    OwnSource(c, s);
    if ok || s.plays[s.flight.value.play].done { OwnPage(c, s); }
  }

  /** What one that strays does: old likes join the new queue, or the new source is disarmed. */
  lemma {:induction false} StrayCallIntrudes(c: Config, actions: seq<Action>, ok: bool)
    requires Stable(c) && Run(c, actions).Some? && Enabled(c, Run(c, actions).value, Arrives(ok))
    requires var s := Run(c, actions).value; s.active != Some(s.flight.value.play)
    ensures var s := Run(c, actions).value;
            var t, source := Step(c, s, Arrives(ok)), s.plays[s.flight.value.play];
            && (t.flight.None? ==>
                  && s.queue < t.queue && t.index == s.index + 1
                  && t.queue == s.queue + Unseen(Page(ListOf(c, source), source.page), s.flight.value.existing))
            && (t.flight.Some? && t.flight.value.Waving? ==> t.queue == s.queue && t.active.None?)
  {
    var s := Run(c, actions).value;
    RunKeepsInv(c, actions);
    if ok || s.plays[s.flight.value.play].done {
      StrayKeepsPlay(c, s);
      StrayPage(c, s);
    }
  }

  /**
   * However requests interleave with listening, as long as no call has strayed the queue is a
   * prefix of the list that is played until the wave adds to it, and unless a request failed the
   * wave is asked, and adds, only with the whole list queued.
   */
  lemma {:induction false} ListBeforeWave(c: Config, actions: seq<Action>)
    requires Stable(c) && Run(c, actions).Some?
    requires var s := Run(c, actions).value; !s.strayed && CurrentPlay(s).context.Some?
    ensures var s := Run(c, actions).value;
            var list := ListOf(c, CurrentPlay(s));
            && (!s.waved ==> s.queue <= list)
            && (s.waved && !s.failed ==> list <= s.queue)
            && (s.flight.Some? && s.flight.value.Waving? && s.flight.value.play == Current(s) && !s.failed ==>
                  list <= s.queue)
  {
    RunKeepsInv(c, actions);
  }

  // The player as the queue's own actions see it, with shuffle and repeat off.
  function InPlayer(s: State): PlayerQueue.State {
    var current := if 0 <= s.index < |s.queue| then Some(s.queue[s.index]) else None;
    PlayerQueue.State(current, s.queue, None, s.index, false, PlayerQueue.RepeatOff)
  }

  // The player finds a track by its URN, so it plays the first of equal ones.
  predicate IsFirst(tracks: seq<Track>, at: nat)
    requires at < |tracks|
  {
    forall k | 0 <= k < at :: tracks[k].urn != tracks[at].urn
  }

  ghost predicate AsInPlayer(c: Config, s: State, a: Action, t: State)
    requires Enabled(c, s, a)
  {
    match a
    case Move(index) => PlayerQueue.Step(InPlayer(s), PlayerQueue.PlayFromQueue(index), InPlayer(t))
    case PlayOther(tracks, at) =>
      IsFirst(tracks, at) ==> PlayerQueue.Step(InPlayer(s), PlayerQueue.Play(tracks[at], tracks), InPlayer(t))
    case PlayContext(k, loaded, at) =>
      var tracks := c[k].list[..loaded];
      PlayerQueue.Step(InPlayer(s), PlayerQueue.Play(tracks[at], tracks), InPlayer(t))
    case _ => InPlayer(t) == InPlayer(s) || exists more :: AddedAndNext(InPlayer(s), more, InPlayer(t))
  }

  ghost predicate AddedAndNext(s: PlayerQueue.State, more: seq<Track>, t: PlayerQueue.State) {
    exists added ::
      PlayerQueue.Step(s, PlayerQueue.AddToQueue(more), added) && PlayerQueue.Step(added, PlayerQueue.Next, t)
  }

  lemma PlayOnIsThePlayers(s: State, play: nat, more: seq<Track>)
    requires more != [] && -1 <= s.index < |s.queue|
    ensures AddedAndNext(InPlayer(s), more, InPlayer(PlayOn(s, play, more)))
  {
    var added := InPlayer(s).(queue := s.queue + more);
    assert PlayerQueue.Step(InPlayer(s), PlayerQueue.AddToQueue(more), added);
    assert PlayerQueue.Step(added, PlayerQueue.Next, InPlayer(PlayOn(s, play, more)));
  }

  lemma PageIsThePlayers(c: Config, s: State)
    requires Identity(c, s) && Enabled(c, s, Arrives(true))
    ensures AsInPlayer(c, s, Arrives(true), PageArrives(c, s))
  {
    var play, existing := s.flight.value.play, s.flight.value.existing;
    var source := s.plays[play];
    var batch, asked := Page(ListOf(c, source), source.page), s.(plays := s.plays[play := Asked(c, source)]);
    assert InPlayer(asked) == InPlayer(s);
    if !source.done && batch != [] && Unseen(batch, existing) != [] {
      PlayOnIsThePlayers(asked, play, Unseen(batch, existing));
    } else {
      assert InPlayer(PageArrives(c, s)) == InPlayer(s);
    }
  }

  /**
   * Every action leaves in queue and index what the player's own actions make of them: the listener
   * plays a list or an entry, and a call adds tracks and goes on to the next entry, or does nothing.
   */
  lemma {:induction false} ActionsAreThePlayers(c: Config, s: State, a: Action)
    requires Stable(c) && Identity(c, s) && Enabled(c, s, a)
    ensures AsInPlayer(c, s, a, Step(c, s, a))
  {
    if a.Arrives? {
      PageIsThePlayers(c, s);
    } else if a.WaveArrives? {
      var more := Unseen(a.tracks, s.flight.value.existing);
      if more != [] { PlayOnIsThePlayers(s, s.flight.value.play, more); }
    }
  }

  /** At the end of the queue one call is begun, of the armed source if there is one, and never a second. */
  lemma EndedAsks(c: Config, s: State)
    requires Identity(c, s) && Enabled(c, s, Ended)
    ensures var t := Step(c, s, Ended);
            && t.flight.Some? && (s.flight.Some? ==> t == s)
            && (s.flight.None? ==>
                  && t == s.(flight := t.flight) && t.flight.value.play == Current(s)
                  && t.flight.value.existing == Urns(s.queue) && (t.flight.value.Asking? <==> s.active.Some?))
  {
  }

  // The state after n pages have arrived, one upon the other.
  function Arrivals(c: Config, s: State, n: nat): Option<State> {
    if n == 0 then Some(s) else
    match Arrivals(c, s, n - 1)
    case None => None
    case Some(t) => if Enabled(c, t, Arrives(true)) then Some(Step(c, t, Arrives(true))) else None
  }

  lemma {:induction false} ArrivalsFrom(c: Config, s: State, n: nat)
    requires Enabled(c, s, Arrives(true)) && Arrivals(c, Step(c, s, Arrives(true)), n).Some?
    ensures Arrivals(c, s, n + 1) == Arrivals(c, Step(c, s, Arrives(true)), n)
  {
    if n > 0 { ArrivalsFrom(c, s, n - 1); }
  }

  // How far the current play has got.
  function Got(s: State): Progress { Progress(|s.queue|, CurrentPlay(s).page) }

  // What becomes of the armed source and the queue when a page of it arrives.
  lemma OwnPageCases(c: Config, s: State)
    requires OwnRequest(c, s)
    ensures var t, source := PageArrives(c, s), CurrentPlay(s);
            var batch := Page(ListOf(c, source), source.page);
            var more := Unseen(batch, Urns(s.queue));
            && ListOf(c, CurrentPlay(t)) == ListOf(c, source)
            && (t.flight.None? ==> t.queue == s.queue + more && more != [])
            && (GoesOn(t) ==>
                  t.queue == s.queue && more == [] && t.active == s.active && t.flight.value.play == Current(t))
            && (t.flight.None? || GoesOn(t) ==> !source.done && batch != [] && CurrentPlay(t) == Asked(c, source))
  {
    OwnSource(c, s);
    AskedKeepsIdentity(c, s);
  }

  // One page for the armed source, against the count of likes queued.
  lemma OwnPageCounts(c: Config, s: State)
    requires OwnRequest(c, s)
    ensures var t, total := PageArrives(c, s), |ListOf(c, CurrentPlay(s))|;
            && (t.flight.None? ==> Got(t) == Continued(total, Got(s)))
            && (GoesOn(t) ==>
                  && CurrentPlay(s).page * LIKES_PAGE_SIZE < total && CurrentPlay(t).page == CurrentPlay(s).page + 1
                  && Continued(total, Got(t)) == Continued(total, Got(s)))
  {
    var t, source := PageArrives(c, s), CurrentPlay(s);
    var list, asked := ListOf(c, source), Asked(c, source);
    OwnSource(c, s);
    OwnPageCases(c, s);
    if t.flight.None? {
      NewPage(list, s.queue, source.page, asked.done, Unseen(Page(list, source.page), Urns(s.queue)));
    } else if GoesOn(t) {
      OldPage(list, s.queue, source.page, asked.done);
    }
  }

  lemma OwnCallStaysOwn(c: Config, s: State)
    requires OwnRequest(c, s) && GoesOn(PageArrives(c, s))
    ensures OwnRequest(c, PageArrives(c, s))
  {
    OwnPage(c, s);
    OwnPageCases(c, s);
    PageKeepsIdentity(c, s);
  }

  /**
   * If its pages keep coming, a call of the armed source ends: with the queue continued to the end
   * of the first page that has anything new, or turning to the wave with the whole list queued.
   */
  lemma {:induction false} CallComesToAnEnd(c: Config, s: State) returns (n: nat)
    requires OwnRequest(c, s)
    ensures Arrivals(c, s, n).Some?
    ensures var t, total := Arrivals(c, s, n).value, |ListOf(c, CurrentPlay(s))|;
            && (t.flight.None? ==> Got(t) == Continued(total, Got(s)) && t.active.Some?)
            && (t.flight.Some? ==> t.flight.value.Waving? && t.queue == ListOf(c, CurrentPlay(s)))
    decreases |ListOf(c, CurrentPlay(s))| - CurrentPlay(s).page * LIKES_PAGE_SIZE
  {
    var t := PageArrives(c, s);
    OwnPage(c, s);
    OwnPageCases(c, s);
    OwnPageCounts(c, s);
    assert Step(c, s, Arrives(true)) == t;
    if GoesOn(t) {
      OwnCallStaysOwn(c, s);
      n := CallComesToAnEnd(c, t);
      ArrivalsFrom(c, s, n);
      n := n + 1;
    } else {
      n := 1;
      assert Arrivals(c, s, 0) == Some(s);
    }
  }

  // Nothing else is played while a call is in flight.
  ghost predicate Undisturbed(c: Config, actions: seq<Action>) {
    actions != [] ==>
      var n := |actions| - 1;
      && Undisturbed(c, actions[..n])
      && (Run(c, actions[..n]).Some? && (actions[n].PlayOther? || actions[n].PlayContext?) ==>
            Run(c, actions[..n]).value.flight.None?)
  }

  /** And no call strays in a run in which nothing else is played while a call is in flight. */
  lemma {:induction false} UndisturbedNeverStrays(c: Config, actions: seq<Action>)
    requires Stable(c) && Run(c, actions).Some? && Undisturbed(c, actions)
    ensures var s := Run(c, actions).value;
            !s.strayed && (s.flight.Some? ==> s.flight.value.play == Current(s))
  {
    if actions != [] {
      var n := |actions| - 1;
      UndisturbedNeverStrays(c, actions[..n]);
      RunKeepsInv(c, actions[..n]);
    }
  }

  // ---- What a stray call does ----

  lemma Extends(c: Config, before: seq<Action>, s: State, a: Action, actions: seq<Action>, t: State)
    requires Run(c, before) == Some(s) && actions == before + [a]
    requires Enabled(c, s, a) && Step(c, s, a) == t
    ensures Run(c, actions) == Some(t)
  {
    assert actions[..|actions| - 1] == before;
  }

  /** A page that arrives after something else was played joins the new queue and is played on to. */
  lemma {:induction false} StalePageJoinsNewQueue(x: Context, tracks: seq<Track>)
    requires StableContext(x) && |x.list| > 1 && tracks != []
    ensures var actions := [PlayContext(0, 1, 0), Ended, PlayOther(tracks, 0), Arrives(true)];
            && Run([x], actions).Some?
            && tracks < Run([x], actions).value.queue && x.list[1] in Run([x], actions).value.queue
            && Run([x], actions).value.index == 1 && Run([x], actions).value.strayed
  {
    var c, actions := [x], [PlayContext(0, 1, 0), Ended, PlayOther(tracks, 0), Arrives(true)];
    var likes := Play(Some(0), 0, false);
    var s1 := Begin(INITIAL, x.list[..1], 0, likes);
    var s2 := s1.(flight := Some(Asking(1, Urns(x.list[..1]))));
    var s3 := Begin(s2, tracks, 0, Play(None, 0, false));
    assert s3.plays[1] == likes;
    FirstPageIsStale(x, s3);
    Extends(c, actions[..0], INITIAL, actions[0], actions[..1], s1);
    Extends(c, actions[..1], s1, actions[1], actions[..2], s2);
    Extends(c, actions[..2], s2, actions[2], actions[..3], s3);
    Extends(c, actions[..3], s3, actions[3], actions, PageArrives(c, s3));
  }

  // The first page of a list of which one entry was known, arriving during another play.
  lemma FirstPageIsStale(x: Context, s: State)
    requires StableContext(x) && |x.list| > 1
    requires |s.plays| > 2 && s.plays[1] == Play(Some(0), 0, false) && s.flight == Some(Asking(1, Urns(x.list[..1])))
    ensures var t := PageArrives([x], s);
            s.queue < t.queue && x.list[1] in t.queue && t.index == s.index + 1 && t.strayed
  {
    var end := PageEnds(x.list, x.list[..1], 0);
    var more := Unseen(Page(x.list, 0), Urns(x.list[..1]));
    assert more == x.list[1..end] && more[0] == x.list[1];
  }

  // Likes played to their end, other likes played while the last page is on its way.
  function RearmRun(whole: nat, loaded: nat, tracks: seq<Track>): seq<Action>
    requires whole > 0 && loaded > 0
  {
    [PlayContext(0, whole, whole - 1), Ended, PlayContext(1, loaded, loaded - 1), Arrives(true), WaveArrives(tracks)]
  }

  /**
   * The give-up of a call disarms whatever source is armed by then. A list that is used up is
   * found to be so after other likes are played, their new source goes without ever having been
   * asked, and the wave joins a queue that holds only the first of them.
   */
  lemma {:induction false} StaleGiveUpDisarmsNewSource(played: Context, next: Context, loaded: nat, track: Track)
    requires |played.list| > 0 && |played.list| % LIKES_PAGE_SIZE == 0
    requires 0 < loaded < |next.list| && track.urn !in Urns(next.list[..loaded]) && track != next.list[loaded]
    ensures var c, actions := [played, next], RearmRun(|played.list|, loaded, [track]);
            && Run(c, actions).Some?
            && var s := Run(c, actions).value;
            && ListOf(c, CurrentPlay(s)) == next.list
            && s.queue == next.list[..loaded] + [track] && !(next.list <= s.queue)
            && s.waved && !s.failed && s.active.None?
            && CurrentPlay(s) == Play(Some(1), loaded / LIKES_PAGE_SIZE, false)
  {
    var whole, head := |played.list|, next.list[..loaded];
    var c, actions := [played, next], RearmRun(whole, loaded, [track]);
    var s3 := PlayedAgain(played, next, loaded, [track]);
    var s4 := PageArrives(c, s3);
    UsedUp(c, s3, whole / LIKES_PAGE_SIZE);
    assert Unseen([track], Urns(head)) == [track];
    Extends(c, actions[..3], s3, actions[3], actions[..4], s4);
    Extends(c, actions[..4], s4, actions[4], actions, WaveStep(s4, [track]));
  }

  lemma PlayedAgain(played: Context, next: Context, loaded: nat, tracks: seq<Track>) returns (s3: State)
    requires |played.list| > 0 && 0 < loaded <= |next.list|
    ensures var whole, last := |played.list|, Play(Some(0), |played.list| / LIKES_PAGE_SIZE, false);
            && s3 == State(next.list[..loaded], loaded - 1,
                           [Play(None, 0, false), last, Play(Some(1), loaded / LIKES_PAGE_SIZE, false)],
                           Some(2), Some(Asking(1, Urns(played.list[..whole]))), false, false, false)
            && Run([played, next], RearmRun(whole, loaded, tracks)[..3]) == Some(s3)
  {
    var whole, head := |played.list|, next.list[..loaded];
    var c, actions := [played, next], RearmRun(whole, loaded, tracks);
    var s1 := Begin(INITIAL, played.list[..whole], whole - 1, Play(Some(0), whole / LIKES_PAGE_SIZE, false));
    var s2 := s1.(flight := Some(Asking(1, Urns(s1.queue))));
    s3 := Begin(s2, head, loaded - 1, Play(Some(1), loaded / LIKES_PAGE_SIZE, false));
    Extends(c, actions[..0], INITIAL, actions[0], actions[..1], s1);
    Extends(c, actions[..1], s1, actions[1], actions[..2], s2);
    Extends(c, actions[..2], s2, actions[2], actions[..3], s3);
  }

  // The page behind the last full one is empty, and whoever asked for it gives up.
  lemma UsedUp(c: Config, s: State, pages: nat)
    requires Enabled(c, s, Arrives(true)) && s.plays[s.flight.value.play].page == pages
    requires |ListOf(c, s.plays[s.flight.value.play])| == pages * LIKES_PAGE_SIZE
    requires s.flight.value.play < |s.plays| - 1
    ensures var t := PageArrives(c, s);
            && t.active.None? && t.flight == Some(Waving(s.flight.value.play, Urns(s.queue)))
            && t.queue == s.queue && t.index == s.index && CurrentPlay(t) == CurrentPlay(s)
            && t.failed == s.failed
  {
    assert Page(ListOf(c, s.plays[s.flight.value.play]), pages) == [];
  }
}
