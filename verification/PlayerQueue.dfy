/**
 The desktop player's queue: what every store action does to it, as a relation
 (random choices make it one), what every run of actions keeps, and what
 shuffle gives back when it is switched off again.
 */
module PlayerQueue {
  import opened Options

  type Urn = nat
  datatype Track = Track(urn: Urn, fields: map<string, int>)   // the fields of the object but its URN

  datatype Repeat = RepeatOff | RepeatOne | RepeatAll

  datatype State = State(
    current: Option<Track>,
    queue: seq<Track>,
    original: Option<seq<Track>>,
    index: int,
    shuffle: bool,
    repeat: Repeat
  )

  const INITIAL := State(None, [], None, -1, false, RepeatOff)

  datatype Op =
    | Play(track: Track, tracks: seq<Track>)
    | PlayAlone(track: Track)                   // play without a queue
    | PlayFromQueue(at: int)
    | Next
    | Prev
    | SetQueue(tracks: seq<Track>)
    | AddToQueue(tracks: seq<Track>)
    | AddToQueueNext(tracks: seq<Track>)
    | RemoveFromQueue(at: int)
    | MoveInQueue(from: int, to: int)
    | ClearQueue
    | ToggleShuffle
    | ToggleRepeat
    | ReplaceMetadata(track: Track)
    | SetAccess(access: int)

  // ------------------------------------------------------------ array helpers of the source language

  // findIndex by URN, -1 when absent
  function Find(tracks: seq<Track>, urn: Urn): (i: int)
    ensures -1 <= i < |tracks|
    ensures i >= 0 ==> tracks[i].urn == urn && forall k | 0 <= k < i :: tracks[k].urn != urn
    ensures i == -1 ==> forall k | 0 <= k < |tracks| :: tracks[k].urn != urn
  {
    if tracks == [] then -1
    else if tracks[0].urn == urn then 0
    else
      var k := Find(tracks[1..], urn);
      if k == -1 then -1 else k + 1
  }

  function Without(tracks: seq<Track>, i: nat): seq<Track> {
    if i < |tracks| then tracks[..i] + tracks[i + 1..] else tracks
  }

  // splice(i, 0, ...more)
  function Insert(tracks: seq<Track>, i: nat, more: seq<Track>): seq<Track> {
    if i < |tracks| then tracks[..i] + more + tracks[i..] else tracks + more
  }

  // slice(0, index + 1)
  function Head(tracks: seq<Track>, index: int): seq<Track> {
    if index < 0 then [] else if index < |tracks| then tracks[..index + 1] else tracks
  }

  // slice(index + 1), for index >= -1
  function Tail(tracks: seq<Track>, index: int): seq<Track> {
    if index < 0 then tracks else if index < |tracks| then tracks[index + 1..] else []
  }

  ghost predicate Reordered(a: seq<Track>, b: seq<Track>) {
    multiset(a) == multiset(b)
  }

  // b is a with `more` inserted one by one, each at or behind position `from`.
  ghost predicate Scattered(a: seq<Track>, from: nat, more: seq<Track>, b: seq<Track>)
    decreases |more|
  {
    if more == [] then a == b
    else exists pos: nat :: from <= pos && Scattered(Insert(a, pos, [more[0]]), from, more[1..], b)
  }

  // { ...item, ...track } for the same URN
  function Merge(item: Track, track: Track): Track {
    if item.urn == track.urn then Track(item.urn, item.fields + track.fields) else item
  }

  function MergeAll(tracks: seq<Track>, track: Track): (merged: seq<Track>)
    ensures |merged| == |tracks|
    ensures forall i | 0 <= i < |tracks| :: merged[i] == Merge(tracks[i], track)
  {
    if tracks == [] then [] else [Merge(tracks[0], track)] + MergeAll(tracks[1..], track)
  }

  function Extend(original: Option<seq<Track>>, more: seq<Track>): Option<seq<Track>> {
    if original.Some? then Some(original.value + more) else None
  }

  // ------------------------------------------------------------ the store actions

  ghost predicate Step(s: State, op: Op, t: State) {
    match op
    case Play(track, tracks) => PlayStep(s, track, tracks, t)
    case PlayAlone(track) =>
      t == s.(current := Some(track), queue := s.queue + [track], index := |s.queue|)
    case PlayFromQueue(i) =>
      if 0 <= i < |s.queue| then t == s.(current := Some(s.queue[i]), index := i) else t == s
    case Next => NextStep(s, t)
    case Prev =>
      var i := if s.index > 1 then s.index - 1 else 0;
      t == s.(current := if i < |s.queue| then Some(s.queue[i]) else None, index := i)
    case SetQueue(tracks) => SetQueueStep(s, tracks, t)
    case AddToQueue(tracks) => AddStep(s, tracks, t)
    case AddToQueueNext(tracks) =>
      t == s.(queue := Insert(s.queue, if s.index >= 0 then s.index + 1 else 0, tracks),
              original := Extend(s.original, tracks))
    case RemoveFromQueue(i) => RemoveStep(s, i, t)
    case MoveInQueue(from, to) => MoveStep(s, from, to, t)
    case ClearQueue => t == s.(queue := [], index := -1, original := None)
    case ToggleShuffle => if s.shuffle then ShuffleOffStep(s, t) else ShuffleOnStep(s, t)
    case ToggleRepeat =>
      t == s.(repeat := match s.repeat
                        case RepeatOff => RepeatAll
                        case RepeatAll => RepeatOne
                        case RepeatOne => RepeatOff)
    case ReplaceMetadata(track) =>
      t == s.(current := if s.current.Some? then Some(Merge(s.current.value, track)) else None,
              queue := MergeAll(s.queue, track),
              original := if s.original.Some? then Some(MergeAll(s.original.value, track)) else None)
    case SetAccess(access) =>
      t == if s.current.None? then s else
           var track := s.current.value;
           s.(current := Some(track.(fields := track.fields["access" := access])))
  }

  ghost predicate PlayStep(s: State, track: Track, tracks: seq<Track>, t: State) {
    var found := Find(tracks, track.urn);
    var i := if found >= 0 then found else 0;
    if s.shuffle then
      && t.queue != [] && t.queue[0] == track
      && Reordered(Without(tracks, i), t.queue[1..])
      && t == s.(current := Some(track), queue := t.queue, index := 0, original := Some(tracks))
    else
      t == s.(current := Some(track), queue := tracks, index := i, original := None)
  }

  ghost predicate AddStep(s: State, tracks: seq<Track>, t: State) {
    && t == s.(queue := t.queue, original := Extend(s.original, tracks))
    && if s.shuffle && s.index >= 0 then Scattered(s.queue, s.index + 1, tracks, t.queue)
       else t.queue == s.queue + tracks
  }

  lemma AddIsStep(s: State, tracks: seq<Track>, t: State)
    requires AddStep(s, tracks, t)
    ensures Step(s, AddToQueue(tracks), t)
  {
  }

  ghost predicate NextStep(s: State, t: State) {
    if s.queue == [] then t == s
    else if s.index + 1 < |s.queue| then
      s.index >= -1 && t == s.(current := Some(s.queue[s.index + 1]), index := s.index + 1)
    else if s.repeat == RepeatAll then t == s.(current := Some(s.queue[0]), index := 0)
    else t == s      // the end-of-queue handler takes over, or playback stops
  }

  ghost predicate SetQueueStep(s: State, tracks: seq<Track>, t: State) {
    var i := if s.current.Some? then Find(tracks, s.current.value.urn) else -1;
    if s.shuffle && i >= 0 then
      && t.queue != [] && t.queue[0] == tracks[i]
      && Reordered(Without(tracks, i), t.queue[1..])
      && t == s.(queue := t.queue, index := 0, original := Some(tracks))
    else
      t == s.(queue := tracks, index := if i >= 0 then i else s.index,
              original := if s.shuffle then Some(tracks) else None)
  }

  // An index out of range removes nothing, but one below the playing entry moves it up all the same.
  ghost predicate RemoveStep(s: State, i: int, t: State) {
    var there := 0 <= i < |s.queue|;
    var queue := if there then Without(s.queue, i) else s.queue;
    var index := if i < s.index then s.index - 1
                 else if i == s.index && s.index > |queue| - 1 then |queue| - 1
                 else s.index;
    t == s.(queue := queue, index := index,
            original := if there then RemoveFirst(s.original, s.queue[i].urn) else s.original)
  }

  function RemoveFirst(original: Option<seq<Track>>, urn: Urn): Option<seq<Track>> {
    if original.Some? && Find(original.value, urn) >= 0
    then Some(Without(original.value, Find(original.value, urn)))
    else original
  }

  ghost predicate MoveStep(s: State, from: int, to: int, t: State) {
    0 <= from < |s.queue| && 0 <= to < |s.queue| &&
    var index := if s.index == from then to
                 else if from < s.index && to >= s.index then s.index - 1
                 else if from > s.index && to <= s.index then s.index + 1
                 else s.index;
    t == s.(queue := Insert(Without(s.queue, from), to, [s.queue[from]]), index := index)
  }

  ghost predicate ShuffleOnStep(s: State, t: State) {
    && |Head(s.queue, s.index)| <= |t.queue|
    && t.queue[..|Head(s.queue, s.index)|] == Head(s.queue, s.index)
    && Reordered(Tail(s.queue, s.index), t.queue[|Head(s.queue, s.index)|..])
    && t == s.(shuffle := true, original := Some(s.queue), queue := t.queue)
  }

  ghost predicate ShuffleOffStep(s: State, t: State) {
    if s.original.Some? && s.current.Some? then
      var i := Find(s.original.value, s.current.value.urn);
      t == s.(shuffle := false, queue := s.original.value, index := if i >= 0 then i else 0, original := None)
    else
      t == s.(shuffle := false, original := None)
  }

  // ------------------------------------------------------------ the invariant

  function Bag(tracks: seq<Track>): multiset<Urn> {
    if tracks == [] then multiset{} else multiset{tracks[0].urn} + Bag(tracks[1..])
  }

  predicate IndexOk(s: State) {
    && -1 <= s.index < |s.queue|
    && (s.index >= 0 ==> s.current.Some? && s.current.value.urn == s.queue[s.index].urn)
  }

  // The remembered order holds no track the queue does not hold.
  predicate OriginalOk(s: State) {
    s.original.Some? ==> s.shuffle && Bag(s.original.value) <= Bag(s.queue)
  }

  // ... and holds every one of them.
  predicate OriginalExact(s: State) {
    s.original.Some? ==> Bag(s.original.value) == Bag(s.queue)
  }

  predicate Inv(s: State) {
    IndexOk(s) && OriginalOk(s)
  }

  // Rows of the queue view hand in their own positions.
  predicate InRange(s: State, op: Op) {
    match op
    case MoveInQueue(from, to) => 0 <= from < |s.queue| && 0 <= to < |s.queue|
    case _ => true
  }

  // Exactly when an action keeps the invariant.
  predicate Guard(s: State, op: Op) {
    match op
    case Play(track, tracks) => Find(tracks, track.urn) >= 0 || (s.shuffle && tracks == [])
    case Prev => s.queue != []
    case SetQueue(tracks) =>
      s.index == -1 || (s.current.Some? && Find(tracks, s.current.value.urn) >= 0)
    case RemoveFromQueue(i) =>
      if 0 <= i < |s.queue| then
        i != s.index || |s.queue| == 1
        || s.queue[if i + 1 < |s.queue| then i + 1 else i - 1].urn == s.queue[i].urn
      else
        i >= s.index || s.index == 0
        || (0 < s.index < |s.queue| && s.queue[s.index - 1].urn == s.queue[s.index].urn)
    case ToggleShuffle =>
      s.shuffle && s.original.Some? && s.current.Some? ==>
        Find(s.original.value, s.current.value.urn) >= 0
    case _ => true
  }

  // ------------------------------------------------------------ bags of URNs

  lemma {:induction false} BagConcat(a: seq<Track>, b: seq<Track>)
    ensures Bag(a + b) == Bag(a) + Bag(b)
  {
    if a == [] {
      assert a + b == b;
    } else {
      assert (a + b)[1..] == a[1..] + b;
      BagConcat(a[1..], b);
    }
  }

  lemma BagSplit(a: seq<Track>, i: nat)
    requires i <= |a|
    ensures Bag(a) == Bag(a[..i]) + Bag(a[i..])
  {
    assert a == a[..i] + a[i..];
    BagConcat(a[..i], a[i..]);
  }

  lemma BagInsert(a: seq<Track>, i: nat, more: seq<Track>)
    ensures Bag(Insert(a, i, more)) == Bag(a) + Bag(more)
  {
    if i < |a| {
      BagSplit(a, i);
      BagConcat(a[..i] + more, a[i..]);
      BagConcat(a[..i], more);
    } else {
      BagConcat(a, more);
    }
  }

  lemma BagWithout(a: seq<Track>, i: nat)
    requires i < |a|
    ensures Bag(a) == Bag(Without(a, i)) + multiset{a[i].urn}
  {
    BagSplit(a, i);
    assert a[i..][1..] == a[i + 1..];
    BagConcat(a[..i], a[i + 1..]);
  }

  lemma WithoutTakesOne(a: seq<Track>, i: nat)
    requires i < |a|
    ensures multiset(a) == multiset(Without(a, i)) + multiset{a[i]}
  {
    assert a == a[..i] + ([a[i]] + a[i + 1..]);
    assert Without(a, i) == a[..i] + a[i + 1..];
  }

  lemma CancelOne(x: multiset<Track>, y: multiset<Track>, e: Track)
    requires x + multiset{e} == y + multiset{e}
    ensures x == y
  {
    forall k: Track ensures x[k] == y[k] {
      assert (x + multiset{e})[k] == (y + multiset{e})[k];
    }
  }

  lemma {:induction false} BagReordered(a: seq<Track>, b: seq<Track>)
    requires Reordered(a, b)
    ensures Bag(a) == Bag(b)
  {
    assert |multiset(a)| == |multiset(b)|;
    if a != [] {
      assert a[0] in multiset(b);
      var i :| 0 <= i < |b| && b[i] == a[0];
      WithoutTakesOne(a, 0);
      WithoutTakesOne(b, i);
      CancelOne(multiset(Without(a, 0)), multiset(Without(b, i)), a[0]);
      assert Without(a, 0) == a[1..];
      BagReordered(a[1..], Without(b, i));
      BagWithout(b, i);
    }
  }

  lemma {:induction false} BagScattered(a: seq<Track>, from: nat, more: seq<Track>, b: seq<Track>)
    requires Scattered(a, from, more, b)
    ensures Bag(b) == Bag(a) + Bag(more)
    decreases |more|
  {
    if more != [] {
      var pos: nat :| from <= pos && Scattered(Insert(a, pos, [more[0]]), from, more[1..], b);
      BagScattered(Insert(a, pos, [more[0]]), from, more[1..], b);
      BagOneMore(a, pos, more[0], Bag(more[1..]));
    }
  }

  lemma BagOneMore(a: seq<Track>, pos: nat, track: Track, rest: multiset<Urn>)
    ensures Bag(Insert(a, pos, [track])) + rest == Bag(a) + (multiset{track.urn} + rest)
  {
    BagInsert(a, pos, [track]);
    assert Bag([track]) == multiset{track.urn};
  }

  // Whatever the rest may scatter to from here, all of it may from the queue.
  ghost predicate LeadsOn(queue: seq<Track>, from: nat, more: seq<Track>, mixed: seq<Track>, rest: seq<Track>) {
    forall end :: Scattered(mixed, from, rest, end) ==> Scattered(queue, from, more, end)
  }

  lemma ScatterOne(queue: seq<Track>, from: nat, more: seq<Track>, mixed: seq<Track>, rest: seq<Track>, pos: nat)
    requires LeadsOn(queue, from, more, mixed, rest) && rest != [] && from <= pos
    ensures LeadsOn(queue, from, more, Insert(mixed, pos, [rest[0]]), rest[1..])
  {
    forall end | Scattered(Insert(mixed, pos, [rest[0]]), from, rest[1..], end)
      ensures Scattered(queue, from, more, end)
    {
      assert Scattered(mixed, from, rest, end);
    }
  }

  lemma ScatteredAll(queue: seq<Track>, from: nat, more: seq<Track>, mixed: seq<Track>)
    requires LeadsOn(queue, from, more, mixed, [])
    ensures Scattered(queue, from, more, mixed)
  {
    assert Scattered(mixed, from, [], mixed);
  }

  // Scattering leaves everything in front of `from` where it was.
  lemma {:induction false} ScatteredKeeps(a: seq<Track>, from: nat, more: seq<Track>, b: seq<Track>, i: nat)
    requires Scattered(a, from, more, b) && i < |a| && i < from
    ensures i < |b| && b[i] == a[i]
    decreases |more|
  {
    if more != [] {
      var pos: nat :| from <= pos && Scattered(Insert(a, pos, [more[0]]), from, more[1..], b);
      ScatteredKeeps(Insert(a, pos, [more[0]]), from, more[1..], b, i);
    }
  }

  lemma {:induction false} BagMerge(a: seq<Track>, track: Track)
    ensures Bag(MergeAll(a, track)) == Bag(a)
  {
    if a != [] {
      assert MergeAll(a, track)[1..] == MergeAll(a[1..], track);
      BagMerge(a[1..], track);
    }
  }

  lemma {:induction false} BagHas(a: seq<Track>, urn: Urn)
    ensures urn in Bag(a) <==> Find(a, urn) >= 0
  {
    if a != [] {
      BagHas(a[1..], urn);
    }
  }

  // ------------------------------------------------------------ one action

  // An action within its guard leaves the index on the track that plays.
  lemma IndexKept(s: State, op: Op, t: State)
    requires Inv(s) && Step(s, op, t) && InRange(s, op) && Guard(s, op)
    ensures IndexOk(t)
  {
    if op.AddToQueue? {
      AddKeepsIndex(s, op.tracks, t);
    } else if op.MoveInQueue? {
      if s.index >= 0 { MoveFollowsTheEntry(s, op.from, op.to, t); }
    } else if op.RemoveFromQueue? {
      RemoveKeepsIndex(s, op.at, t);
    } else if op.ReplaceMetadata? || op.AddToQueueNext? || op.ToggleShuffle? {
      SamePlaceKeepsIndex(s, op, t);
    }
  }

  lemma SamePlaceKeepsIndex(s: State, op: Op, t: State)
    requires IndexOk(s) && Step(s, op, t) && Guard(s, op)
    requires op.ReplaceMetadata? || op.AddToQueueNext? || op.ToggleShuffle?
    ensures IndexOk(t)
  {
    if op.ToggleShuffle? && !s.shuffle && s.index >= 0 {
      assert t.queue[s.index] == Head(s.queue, s.index)[s.index];
    }
  }

  lemma AddKeepsIndex(s: State, tracks: seq<Track>, t: State)
    requires IndexOk(s) && Step(s, AddToQueue(tracks), t)
    ensures IndexOk(t)
  {
    if s.shuffle && s.index >= 0 {
      ScatteredKeeps(s.queue, s.index + 1, tracks, t.queue, s.index);
    }
  }

  lemma RemoveKeepsIndex(s: State, i: int, t: State)
    requires IndexOk(s) && RemoveStep(s, i, t)
    ensures IndexOk(t) <==> Guard(s, RemoveFromQueue(i))
  {
  }

  lemma MoveFollowsTheEntry(s: State, from: int, to: int, t: State)
    requires MoveStep(s, from, to, t) && 0 <= s.index < |s.queue|
    ensures 0 <= t.index < |t.queue| && t.queue[t.index] == s.queue[s.index]
  {
  }

  // The actions that put a track into the queue but not into the remembered order.
  predicate QueueOnly(op: Op) {
    op.PlayAlone? || (op.Play? && op.tracks == [])
  }

  // The actions that take a new copy of the order.
  predicate Remembers(op: Op) {
    op.Play? || op.SetQueue? || op.ClearQueue? || op.ToggleShuffle?
  }

  predicate KeepsOriginal(s: State, op: Op, t: State) {
    && OriginalOk(t)
    && (!QueueOnly(op) && (OriginalExact(s) || Remembers(op)) ==> OriginalExact(t))
  }

  lemma OriginalKept(s: State, op: Op, t: State)
    requires Inv(s) && Step(s, op, t) && InRange(s, op) && Guard(s, op)
    ensures KeepsOriginal(s, op, t)
  {
    if op.Play? || op.PlayAlone? || op.SetQueue? || op.ToggleShuffle? || op.ReplaceMetadata? {
      NewOrderKeepsOriginal(s, op, t);
    } else if op.AddToQueue? || op.AddToQueueNext? {
      GrowthKeepsOriginal(s, op, t);
    } else if op.RemoveFromQueue? || op.MoveInQueue? {
      EditKeepsOriginal(s, op, t);
    } else {
      OtherwiseUntouched(s, op, t);
      UntouchedKeepsOriginal(s, op, t);
    }
  }

  lemma EditKeepsOriginal(s: State, op: Op, t: State)
    requires Inv(s) && Step(s, op, t) && (op.RemoveFromQueue? || op.MoveInQueue?)
    ensures KeepsOriginal(s, op, t)
  {
    EditIsStep(s, op, t);
    if op.RemoveFromQueue? {
      RemoveKeepsOriginal(s, op.at, t);
    } else {
      MoveIsKept(s, op.from, op.to, t);
    }
  }

  lemma EditIsStep(s: State, op: Op, t: State)
    requires Step(s, op, t)
    ensures op.RemoveFromQueue? ==> RemoveStep(s, op.at, t)
    ensures op.MoveInQueue? ==> MoveStep(s, op.from, op.to, t)
  {
  }

  lemma MoveIsKept(s: State, from: int, to: int, t: State)
    requires OriginalOk(s) && MoveStep(s, from, to, t)
    ensures OriginalOk(t) && (OriginalExact(s) ==> OriginalExact(t))
  {
    MoveKeepsOriginal(s, from, to, t);
  }

  lemma UntouchedKeepsOriginal(s: State, op: Op, t: State)
    requires Inv(s) && (Remembers(op) ==> t.original.None?)
    requires t.original.None? || (t.original == s.original && t.queue == s.queue && t.shuffle == s.shuffle)
    ensures KeepsOriginal(s, op, t)
  {
  }

  lemma NewOrderKeepsOriginal(s: State, op: Op, t: State)
    requires Inv(s) && Step(s, op, t) && Guard(s, op)
    requires op.Play? || op.PlayAlone? || op.SetQueue? || op.ToggleShuffle? || op.ReplaceMetadata?
    ensures KeepsOriginal(s, op, t)
  {
    if op.Play? {
      PlayKeepsOriginal(s, op.track, op.tracks, t);
    } else if op.PlayAlone? {
      BagConcat(s.queue, [op.track]);
    } else if op.SetQueue? {
      SetQueueKeepsOriginal(s, op.tracks, t);
    } else if op.ReplaceMetadata? {
      MergeKeepsOriginal(s, op.track, t);
    } else if !s.shuffle {
      ShuffleOnKeepsOriginal(s, t);
    }
  }

  lemma GrowthKeepsOriginal(s: State, op: Op, t: State)
    requires Inv(s) && Step(s, op, t) && (op.AddToQueue? || op.AddToQueueNext?)
    ensures KeepsOriginal(s, op, t)
  {
    if op.AddToQueue? {
      AddKeepsOriginal(s, op.tracks, t);
    } else {
      AddNextKeepsOriginal(s, op.tracks, t);
    }
  }

  lemma OtherwiseUntouched(s: State, op: Op, t: State)
    requires Step(s, op, t)
    requires op.PlayFromQueue? || op.Next? || op.Prev? || op.ClearQueue? || op.ToggleRepeat? || op.SetAccess?
    ensures t.original.None? || (t.original == s.original && t.queue == s.queue && t.shuffle == s.shuffle)
    ensures op.ClearQueue? ==> t.original.None?
  {
  }

  lemma MoveKeepsOriginal(s: State, from: int, to: int, t: State)
    requires MoveStep(s, from, to, t)
    ensures Bag(t.queue) == Bag(s.queue) && t.original == s.original && t.shuffle == s.shuffle
  {
    BagWithout(s.queue, from);
    BagInsert(Without(s.queue, from), to, [s.queue[from]]);
    assert Bag([s.queue[from]]) == multiset{s.queue[from].urn};
  }

  lemma MergeKeepsOriginal(s: State, track: Track, t: State)
    requires Step(s, ReplaceMetadata(track), t)
    ensures Bag(t.queue) == Bag(s.queue) && t.shuffle == s.shuffle
    ensures t.original.Some? <==> s.original.Some?
    ensures t.original.Some? ==> Bag(t.original.value) == Bag(s.original.value)
  {
    BagMerge(s.queue, track);
    if s.original.Some? { BagMerge(s.original.value, track); }
  }

  lemma PlayKeepsOriginal(s: State, track: Track, tracks: seq<Track>, t: State)
    requires PlayStep(s, track, tracks, t) && Guard(s, Play(track, tracks))
    ensures OriginalOk(t) && (tracks != [] ==> OriginalExact(t))
  {
    if s.shuffle {
      var found := Find(tracks, track.urn);
      BagReordered(Without(tracks, if found >= 0 then found else 0), t.queue[1..]);
      if found >= 0 { BagWithout(tracks, found); }
    }
  }

  lemma SetQueueKeepsOriginal(s: State, tracks: seq<Track>, t: State)
    requires SetQueueStep(s, tracks, t)
    ensures OriginalOk(t) && OriginalExact(t)
  {
    if s.shuffle && s.current.Some? && Find(tracks, s.current.value.urn) >= 0 {
      var i := Find(tracks, s.current.value.urn);
      BagReordered(Without(tracks, i), t.queue[1..]);
      BagWithout(tracks, i);
    }
  }

  lemma AddKeepsOriginal(s: State, tracks: seq<Track>, t: State)
    requires OriginalOk(s) && Step(s, AddToQueue(tracks), t)
    ensures OriginalOk(t) && (OriginalExact(s) ==> OriginalExact(t))
  {
    if s.shuffle && s.index >= 0 {
      BagScattered(s.queue, s.index + 1, tracks, t.queue);
    } else {
      BagConcat(s.queue, tracks);
    }
    if s.original.Some? { BagConcat(s.original.value, tracks); }
  }

  lemma AddNextKeepsOriginal(s: State, tracks: seq<Track>, t: State)
    requires OriginalOk(s) && Step(s, AddToQueueNext(tracks), t)
    ensures OriginalOk(t) && (OriginalExact(s) ==> OriginalExact(t))
  {
    BagInsert(s.queue, if s.index >= 0 then s.index + 1 else 0, tracks);
    if s.original.Some? { BagConcat(s.original.value, tracks); }
  }

  lemma RemoveKeepsOriginal(s: State, i: int, t: State)
    requires OriginalOk(s) && RemoveStep(s, i, t)
    ensures OriginalOk(t) && (OriginalExact(s) ==> OriginalExact(t))
  {
    if s.original.Some? && 0 <= i < |s.queue| {
      var urn := s.queue[i].urn;
      BagWithout(s.queue, i);
      BagHas(s.original.value, urn);
      if Find(s.original.value, urn) >= 0 {
        BagWithout(s.original.value, Find(s.original.value, urn));
        DropBoth(Bag(t.original.value), Bag(t.queue), urn);
      } else {
        DropMissing(Bag(t.original.value), Bag(t.queue), urn);
      }
    }
  }

  lemma DropBoth(x: multiset<Urn>, y: multiset<Urn>, urn: Urn)
    requires x + multiset{urn} <= y + multiset{urn}
    ensures x <= y
    ensures x + multiset{urn} == y + multiset{urn} ==> x == y
  {
    forall k: Urn
      ensures x[k] <= y[k]
      ensures x + multiset{urn} == y + multiset{urn} ==> x[k] == y[k]
    {
      assert (x + multiset{urn})[k] <= (y + multiset{urn})[k];
      assert x + multiset{urn} == y + multiset{urn} ==> (x + multiset{urn})[k] == (y + multiset{urn})[k];
    }
  }

  lemma DropMissing(x: multiset<Urn>, y: multiset<Urn>, urn: Urn)
    requires x <= y + multiset{urn} && urn !in x
    ensures x <= y && x != y + multiset{urn}
  {
    forall k: Urn ensures x[k] <= y[k] {
      assert x[k] <= (y + multiset{urn})[k];
    }
    assert (y + multiset{urn})[urn] > 0;
  }

  lemma ShuffleOnKeepsOriginal(s: State, t: State)
    requires IndexOk(s) && ShuffleOnStep(s, t)
    ensures OriginalOk(t) && OriginalExact(t)
  {
    var head, tail := Head(s.queue, s.index), Tail(s.queue, s.index);
    var after := t.queue[|head|..];
    assert s.queue == head + tail;
    assert t.queue == head + after;
    BagOfParts(head, tail, after);
  }

  lemma BagOfParts(head: seq<Track>, tail: seq<Track>, after: seq<Track>)
    requires Reordered(tail, after)
    ensures Bag(head + after) == Bag(head + tail)
  {
    BagConcat(head, tail);
    BagConcat(head, after);
    BagReordered(tail, after);
  }

  /** Every store action keeps the invariant exactly when its guard holds. */
  lemma {:induction false} GuardIsExact(s: State, op: Op, t: State)
    requires Inv(s) && Step(s, op, t) && InRange(s, op)
    ensures Inv(t) <==> Guard(s, op)
  {
    if Guard(s, op) {
      IndexKept(s, op, t);
      OriginalKept(s, op, t);
    } else if op.Play? && s.shuffle {
      PlayOfAForeignTrack(s, op.track, op.tracks, t);
    } else {
      IndexBreaks(s, op, t);
    }
  }

  // Outside its guard an action puts the index on another track.
  lemma IndexBreaks(s: State, op: Op, t: State)
    requires IndexOk(s) && Step(s, op, t) && InRange(s, op) && !Guard(s, op) && !(op.Play? && s.shuffle)
    ensures !IndexOk(t)
  {
    if op.Play? {
      PointsElsewhere(t, op.tracks, op.track.urn);
    } else if op.RemoveFromQueue? {
      RemoveKeepsIndex(s, op.at, t);
    } else {
      OtherBreaches(s, op, t);
    }
  }

  lemma OtherBreaches(s: State, op: Op, t: State)
    requires IndexOk(s) && Step(s, op, t) && !Guard(s, op) && (op.Prev? || op.SetQueue? || op.ToggleShuffle?)
    ensures !IndexOk(t)
  {
    if op.SetQueue? {
      PointsElsewhere(t, op.tracks, s.current.value.urn);
    } else if op.ToggleShuffle? {
      PointsElsewhere(t, s.original.value, s.current.value.urn);
    }
  }

  lemma PointsElsewhere(t: State, tracks: seq<Track>, urn: Urn)
    requires t.queue == tracks && Find(tracks, urn) < 0 && t.index >= 0
    requires t.current.Some? && t.current.value.urn == urn
    ensures !IndexOk(t)
  {
  }

  // The first track of the list is dropped from the queue, not from the copy.
  lemma {:induction false} PlayOfAForeignTrack(s: State, track: Track, tracks: seq<Track>, t: State)
    requires s.shuffle && PlayStep(s, track, tracks, t) && tracks != [] && Find(tracks, track.urn) < 0
    ensures !OriginalOk(t)
  {
    BagReordered(Without(tracks, 0), t.queue[1..]);
    BagWithout(tracks, 0);
    assert tracks[0].urn != track.urn;
    assert Bag(tracks)[tracks[0].urn] == Bag(t.queue)[tracks[0].urn] + 1;
  }

  // ------------------------------------------------------------ runs

  // ops[i] leads from states[i] to states[i + 1].
  ghost predicate StepAt(states: seq<State>, ops: seq<Op>, i: nat)
    requires i < |ops| < |states|
  {
    Step(states[i], ops[i], states[i + 1])
  }

  ghost predicate GuardAt(states: seq<State>, ops: seq<Op>, i: nat)
    requires i < |ops| < |states|
  {
    InRange(states[i], ops[i]) && Guard(states[i], ops[i])
  }

  ghost predicate IsPath(states: seq<State>, ops: seq<Op>) {
    |states| == |ops| + 1 && forall i: nat | i < |ops| :: StepAt(states, ops, i)
  }

  ghost predicate Guarded(states: seq<State>, ops: seq<Op>)
    requires |states| == |ops| + 1
  {
    forall i: nat | i < |ops| :: GuardAt(states, ops, i)
  }

  /** Over every guarded run the index points at the playing track and the remembered order fits. */
  lemma {:induction false} RunKeepsInv(states: seq<State>, ops: seq<Op>, k: nat)
    requires IsPath(states, ops) && Guarded(states, ops) && Inv(states[0]) && k <= |ops|
    ensures Inv(states[k])
  {
    if k > 0 {
      RunKeepsInv(states, ops, k - 1);
      assert StepAt(states, ops, k - 1) && GuardAt(states, ops, k - 1);
      GuardIsExact(states[k - 1], ops[k - 1], states[k]);
    }
  }

  /** Since the order was last remembered, it is exact until a queue-less play. */
  lemma {:induction false} ExactSinceRemembered(states: seq<State>, ops: seq<Op>, i: nat, k: nat)
    requires IsPath(states, ops) && Guarded(states, ops) && Inv(states[0])
    requires i < k <= |ops| && Remembers(ops[i])
    requires forall j | i <= j < k :: !QueueOnly(ops[j])
    ensures OriginalExact(states[k])
  {
    RunKeepsInv(states, ops, k - 1);
    if k > i + 1 {
      ExactSinceRemembered(states, ops, i, k - 1);
    }
    ExactAt(states, ops, k - 1);
  }

  lemma ExactAt(states: seq<State>, ops: seq<Op>, j: nat)
    requires IsPath(states, ops) && Guarded(states, ops) && j < |ops| && Inv(states[j])
    requires !QueueOnly(ops[j]) && (Remembers(ops[j]) || OriginalExact(states[j]))
    ensures OriginalExact(states[j + 1])
  {
    assert StepAt(states, ops, j) && GuardAt(states, ops, j);
    OriginalKept(states[j], ops[j], states[j + 1]);
  }

  /**
   A queue-less play during shuffle, then shuffle off: the restored queue does
   not hold the playing track, yet the index points at its first entry.
   */
  lemma QueueLessPlayUnderShuffle(a: Track, b: Track)
    requires a.urn != b.urn
    ensures
      var s0 := INITIAL.(queue := [a]);
      var s1 := s0.(shuffle := true, original := Some([a]));
      var s2 := s1.(current := Some(b), queue := [a, b], index := 1);
      var s3 := State(Some(b), [a], None, 0, false, RepeatOff);
      && IsPath([s0, s1, s2, s3], [ToggleShuffle, PlayAlone(b), ToggleShuffle])
      && Inv(s0) && Inv(s2) && !Guard(s2, ToggleShuffle)
      && 0 <= s3.index < |s3.queue| && s3.queue[s3.index].urn != b.urn
  {
    var s0 := INITIAL.(queue := [a]);
    var s1 := s0.(shuffle := true, original := Some([a]));
    var s2 := s1.(current := Some(b), queue := [a, b], index := 1);
    var s3 := State(Some(b), [a], None, 0, false, RepeatOff);
    assert Step(s0, ToggleShuffle, s1) && Step(s1, PlayAlone(b), s2) && Step(s2, ToggleShuffle, s3);
    assert Find([a], b.urn) == -1;
    assert Bag(s2.queue) == multiset{a.urn} + Bag([b]);
    assert Bag(s1.queue) == multiset{a.urn};
  }

  // The actions of a listening session.
  predicate Listening(op: Op) {
    op.Next? || op.Prev? || op.PlayFromQueue? || op.AddToQueue? || op.AddToQueueNext?
  }

  // What a session adds, in call order.
  function Added(ops: seq<Op>): seq<Track> {
    if ops == [] then [] else
    Added(ops[..|ops| - 1]) + More(ops[|ops| - 1])
  }

  // What the action adds to the remembered order.
  function More(op: Op): seq<Track> {
    if op.AddToQueue? || op.AddToQueueNext? then op.tracks else []
  }

  // Shuffle on, any listening actions, shuffle off.
  ghost predicate ShuffleSession(states: seq<State>, ops: seq<Op>) {
    && |ops| >= 1
    && IsPath(states, [ToggleShuffle] + ops)
    && ops[|ops| - 1].ToggleShuffle?
    && (forall i | 0 <= i < |ops| - 1 :: Listening(ops[i]))
    && !states[0].shuffle
  }

  lemma {:induction false} SessionRemembers(states: seq<State>, ops: seq<Op>, k: nat)
    requires ShuffleSession(states, ops) && k < |ops|
    ensures states[k + 1].shuffle
    ensures states[k + 1].original == Some(states[0].queue + Added(ops[..k]))
  {
    if k == 0 {
      SessionStarts(states, ops);
    } else {
      SessionRemembers(states, ops, k - 1);
      var order := states[0].queue + Added(ops[..k - 1]);
      SessionGoesOn(states, ops, k, order);
      AddedOneMore(ops, k, states[0].queue);
    }
  }

  lemma SessionStarts(states: seq<State>, ops: seq<Op>)
    requires ShuffleSession(states, ops)
    ensures states[1].shuffle && states[1].original == Some(states[0].queue + Added(ops[..0]))
  {
    assert StepAt(states, [ToggleShuffle] + ops, 0);
    assert states[0].queue + Added(ops[..0]) == states[0].queue;
  }

  lemma SessionGoesOn(states: seq<State>, ops: seq<Op>, k: nat, order: seq<Track>)
    requires ShuffleSession(states, ops) && 0 < k < |ops|
    requires states[k].shuffle && states[k].original == Some(order)
    ensures states[k + 1].shuffle && states[k + 1].original == Some(order + More(ops[k - 1]))
  {
    var all := [ToggleShuffle] + ops;
    assert StepAt(states, all, k) && all[k] == ops[k - 1] && Listening(ops[k - 1]);
    SessionStep(states[k], ops[k - 1], states[k + 1], order);
    assert order + [] == order;
  }

  lemma AddedOneMore(ops: seq<Op>, k: nat, queue: seq<Track>)
    requires 0 < k < |ops|
    ensures queue + Added(ops[..k]) == (queue + Added(ops[..k - 1])) + More(ops[k - 1])
  {
    assert ops[..k][..k - 1] == ops[..k - 1];
    assert Added(ops[..k]) == Added(ops[..k - 1]) + More(ops[k - 1]);
  }

  lemma SessionStep(s: State, op: Op, t: State, order: seq<Track>)
    requires Step(s, op, t) && Listening(op) && s.original == Some(order)
    ensures t.shuffle == s.shuffle
    ensures t.original == if op.AddToQueue? || op.AddToQueueNext? then Some(order + op.tracks) else Some(order)
  {
  }

  /**
   Whatever the random choices were, shuffle off gives back the queue as it was
   at shuffle on, followed by everything added since in call order.  Without a
   current track there is nothing to restore around and the queue stays mixed.
   */
  lemma ShuffleGivesTheOrderBack(states: seq<State>, ops: seq<Op>)
    requires ShuffleSession(states, ops)
    ensures var last, end := states[|ops|], states[|ops| + 1];
            !end.shuffle && end.original.None?
            && if last.current.Some? then end.queue == states[0].queue + Added(ops[..|ops| - 1])
               else end.queue == last.queue
  {
    SessionRemembers(states, ops, |ops| - 1);
    assert StepAt(states, [ToggleShuffle] + ops, |ops|);
  }

  /** ... and if an entry of the queue was playing, the index is on it again. */
  lemma ShuffleGivesThePlaceBack(states: seq<State>, ops: seq<Op>)
    requires ShuffleSession(states, ops) && Inv(states[0]) && states[|ops|].index >= 0
    requires forall i | 0 <= i < |ops| - 1 :: Guard(states[i + 1], ops[i])
    ensures var end := states[|ops| + 1];
            && 0 <= end.index < |end.queue| && end.current == states[|ops|].current
            && end.current.Some? && end.queue[end.index].urn == end.current.value.urn
  {
    var all := [ToggleShuffle] + ops;
    var last, end := states[|ops|], states[|ops| + 1];
    var path, before := states[..|ops| + 1], all[..|ops|];
    SessionRemembers(states, ops, |ops| - 1);
    SessionIsGuarded(states, ops);
    RunKeepsInv(path, before, |ops|);
    ExactSinceRemembered(path, before, 0, |ops|);
    assert StepAt(states, all, |ops|);
    CurrentIsRemembered(last);
  }

  lemma SessionIsGuarded(states: seq<State>, ops: seq<Op>)
    requires ShuffleSession(states, ops)
    requires forall i | 0 <= i < |ops| - 1 :: Guard(states[i + 1], ops[i])
    ensures var path, before := states[..|ops| + 1], ([ToggleShuffle] + ops)[..|ops|];
            IsPath(path, before) && (Inv(states[0]) ==> Guarded(path, before))
  {
    var all := [ToggleShuffle] + ops;
    var path, before := states[..|ops| + 1], all[..|ops|];
    forall i: nat | i < |before| ensures StepAt(path, before, i) {
      assert StepAt(states, all, i);
    }
    if Inv(states[0]) {
      forall i: nat | i < |before| ensures GuardAt(path, before, i) {
        if i > 0 { assert before[i] == ops[i - 1] && Listening(ops[i - 1]); }
      }
    }
  }

  lemma CurrentIsRemembered(s: State)
    requires IndexOk(s) && OriginalExact(s) && s.original.Some? && s.index >= 0
    ensures Find(s.original.value, s.current.value.urn) >= 0
  {
    BagHas(s.queue, s.current.value.urn);
    BagHas(s.original.value, s.current.value.urn);
  }

  // ------------------------------------------------------------ where next and prev lead

  // k times the same action.
  ghost predicate Repeats(states: seq<State>, op: Op) {
    |states| > 0 && forall i | 0 <= i < |states| - 1 :: OneStep(states, op, i)
  }

  ghost predicate OneStep(states: seq<State>, op: Op, i: nat)
    requires i + 1 < |states|
  {
    Step(states[i], op, states[i + 1])
  }

  // The walk moves in the queue of its first state, and plays what it comes to.
  predicate Walks(s: State, t: State, to: int) {
    && t.queue == s.queue && t.original == s.original && t.shuffle == s.shuffle && t.repeat == s.repeat
    && t.index == to && 0 <= to < |s.queue|
    && (t.current == Some(s.queue[to]) || (t.current == s.current && to == s.index))
  }

  /** `next` goes on to the next entry, at the end round to the first under repeat-all, and else stays. */
  lemma NextLeads(s: State, t: State)
    requires Step(s, Next, t) && 0 <= s.index < |s.queue|
    ensures Walks(s, t, if s.index < |s.queue| - 1 then s.index + 1
                        else if s.repeat == RepeatAll then 0 else s.index)
  {
  }

  /** `prev` goes back to the entry before, and at the first one starts it again. */
  lemma PrevLeads(s: State, t: State)
    requires Step(s, Prev, t) && 0 <= s.index < |s.queue|
    ensures Walks(s, t, if s.index > 0 then s.index - 1 else 0) && t.current == Some(s.queue[t.index])
  {
  }

  lemma OneRoundMore(rounds: nat, n: nat)
    ensures (rounds + 1) * n == rounds * n + n
  {
  }

  lemma RunsOnOnce(states: seq<State>, k: nat)
    requires Repeats(states, Next) && k + 1 < |states| && 0 <= states[k].index < |states[k].queue|
    ensures Walks(states[k], states[k + 1],
                  if states[k].index < |states[k].queue| - 1 then states[k].index + 1
                  else if states[k].repeat == RepeatAll then 0 else states[k].index)
  {
    assert OneStep(states, Next, k);
    NextLeads(states[k], states[k + 1]);
  }

  /**
   However often: `next` runs through the queue in order, and then stays at the last entry, or under
   repeat-all starts another round with the first.
   */
  lemma {:induction false} NextRunsOn(states: seq<State>, k: nat) returns (rounds: nat)
    requires Repeats(states, Next) && k < |states|
    requires 0 <= states[0].index < |states[0].queue|
    ensures states[k].queue == states[0].queue && states[k].repeat == states[0].repeat
    ensures 0 <= states[k].index < |states[0].queue|
    ensures if states[0].repeat == RepeatAll
            then states[0].index + k == rounds * |states[0].queue| + states[k].index
            else states[k].index == if states[0].index + k < |states[0].queue| then states[0].index + k
                                    else |states[0].queue| - 1
  {
    rounds := 0;
    if k > 0 {
      rounds := NextRunsOn(states, k - 1);
      RunsOnOnce(states, k - 1);
      if states[k - 1].index == |states[0].queue| - 1 {
        OneRoundMore(rounds, |states[0].queue|);
        rounds := rounds + 1;
      }
    }
  }

  /** And `prev` runs back to the first entry and stays there. */
  lemma {:induction false} PrevRunsBack(states: seq<State>, k: nat)
    requires Repeats(states, Prev) && k < |states|
    requires 0 <= states[0].index < |states[0].queue|
    ensures states[k].queue == states[0].queue
    ensures states[k].index == if k <= states[0].index then states[0].index - k else 0
    ensures k > 0 ==> states[k].current == Some(states[0].queue[states[k].index])
  {
    if k > 0 {
      PrevRunsBack(states, k - 1);
      assert OneStep(states, Prev, k - 1);
      PrevLeads(states[k - 1], states[k]);
    }
  }

  /** Merging takes every field of the incoming track and keeps the others; the URN stays. */
  lemma MergeIsFieldwise(item: Track, track: Track, field: string)
    requires item.urn == track.urn
    ensures var merged := Merge(item, track);
            && merged.urn == item.urn
            && (field in merged.fields <==> field in item.fields || field in track.fields)
            && (field in track.fields ==> merged.fields[field] == track.fields[field])
            && (field in item.fields && field !in track.fields ==> merged.fields[field] == item.fields[field])
  {
  }
}
