/** The store itself: the fields its actions assign, each action tied to PlayerQueue.Step. */
module PlayerStore {
  import opened Options
  import opened PlayerQueue

  // shuffleArray: Fisher-Yates in place, any choice of the random index
  method ShuffleArray(arr: array<Track>)
    modifies arr
    ensures Reordered(old(arr[..]), arr[..])
  {
    if arr.Length == 0 { return; }
    var i := arr.Length - 1;
    while i > 0
      invariant 0 <= i < arr.Length
      invariant Reordered(old(arr[..]), arr[..])
    {
      var j :| 0 <= j <= i;
      ghost var before := arr[..];
      arr[i], arr[j] := arr[j], arr[i];
      assert arr[..] == before[i := before[j]][j := before[i]];
      i := i - 1;
    }
  }

  method Shuffled(tracks: seq<Track>) returns (mixed: seq<Track>)
    ensures Reordered(tracks, mixed)
  {
    if tracks == [] { return []; }
    var arr := new Track[|tracks|](i requires 0 <= i < |tracks| => tracks[i]);
    assert arr[..] == tracks;
    ShuffleArray(arr);
    mixed := arr[..];
  }

  // Each track is spliced in at a random place from `from` on.
  method Spread(queue: seq<Track>, from: nat, tracks: seq<Track>) returns (mixed: seq<Track>)
    ensures Scattered(queue, from, tracks, mixed)
  {
    mixed := queue;
    var k := 0;
    while k < |tracks|
      invariant 0 <= k <= |tracks|
      invariant LeadsOn(queue, from, tracks, mixed, tracks[k..])
    {
      // splice puts an insertion behind the last entry at the end
      var pos: nat :| from <= pos;
      ScatterOne(queue, from, tracks, mixed, tracks[k..], pos);
      mixed := Insert(mixed, pos, [tracks[k]]);
      assert tracks[k..][1..] == tracks[k + 1..];
      k := k + 1;
    }
    assert tracks[k..] == [];
    ScatteredAll(queue, from, tracks, mixed);
  }

  class Player {
    var currentTrack: Option<Track>
    var queue: seq<Track>
    var originalQueue: Option<seq<Track>>
    var queueIndex: int
    var shuffle: bool
    var repeat: Repeat

    ghost function Now(): State
      reads this
    {
      State(currentTrack, queue, originalQueue, queueIndex, shuffle, repeat)
    }

    constructor ()
      ensures Now() == INITIAL
    {
      currentTrack, queue, originalQueue, queueIndex := None, [], None, -1;
      shuffle, repeat := false, RepeatOff;
    }

    method Play(track: Track, tracks: seq<Track>)
      modifies this
      ensures Step(old(Now()), Op.Play(track, tracks), Now())
    {
      var found := Find(tracks, track.urn);
      var realIdx := if found >= 0 then found else 0;
      if shuffle {
        var rest := Shuffled(Without(tracks, realIdx));
        currentTrack, queue, queueIndex, originalQueue := Some(track), [track] + rest, 0, Some(tracks);
        assert queue[1..] == rest;
      } else {
        currentTrack, queue, queueIndex, originalQueue := Some(track), tracks, realIdx, None;
      }
    }

    method PlayAlone(track: Track)
      modifies this
      ensures Step(old(Now()), Op.PlayAlone(track), Now())
    {
      currentTrack, queueIndex := Some(track), |queue|;
      queue := queue + [track];
    }

    method PlayFromQueue(index: int)
      modifies this
      ensures Step(old(Now()), Op.PlayFromQueue(index), Now())
    {
      if index < 0 || index >= |queue| { return; }
      currentTrack, queueIndex := Some(queue[index]), index;
    }

    // Returns the last track when the end-of-queue handler is to take over.
    method Next() returns (ended: Option<Track>)
      requires queueIndex >= -1
      modifies this
      ensures Step(old(Now()), Op.Next, Now())
      ensures ended.Some? <==> old(0 <= queueIndex == |queue| - 1 && repeat != RepeatAll)
      ensures ended.Some? ==> ended.value == queue[queueIndex] && Now() == old(Now())
    {
      ended := None;
      if |queue| == 0 { return; }
      var nextIdx := queueIndex + 1;
      if nextIdx >= |queue| {
        if repeat == RepeatAll {
          nextIdx := 0;
        } else {
          if queueIndex < |queue| { ended := Some(queue[queueIndex]); }
          return;
        }
      }
      currentTrack, queueIndex := Some(queue[nextIdx]), nextIdx;
    }

    method Prev()
      modifies this
      ensures Step(old(Now()), Op.Prev, Now())
    {
      var prevIdx := if queueIndex - 1 > 0 then queueIndex - 1 else 0;
      currentTrack := if prevIdx < |queue| then Some(queue[prevIdx]) else None;
      queueIndex := prevIdx;
    }

    method SetQueue(tracks: seq<Track>)
      modifies this
      ensures Step(old(Now()), Op.SetQueue(tracks), Now())
    {
      var idx := if currentTrack.Some? then Find(tracks, currentTrack.value.urn) else -1;
      if shuffle && idx >= 0 {
        var after := Shuffled(Without(tracks, idx));
        queue, queueIndex, originalQueue := [tracks[idx]] + after, 0, Some(tracks);
        assert queue[1..] == after;
      } else {
        queue := tracks;
        queueIndex := if idx >= 0 then idx else queueIndex;
        originalQueue := if shuffle then Some(tracks) else None;
      }
    }

    method AddToQueue(tracks: seq<Track>)
      modifies this
      ensures Step(old(Now()), Op.AddToQueue(tracks), Now())
    {
      ghost var before := Now();
      if shuffle && queueIndex >= 0 {
        queue := Spread(queue, queueIndex + 1, tracks);
      } else {
        queue := queue + tracks;
      }
      originalQueue := Extend(originalQueue, tracks);
      AddIsStep(before, tracks, Now());
    }

    method AddToQueueNext(tracks: seq<Track>)
      modifies this
      ensures Step(old(Now()), Op.AddToQueueNext(tracks), Now())
    {
      var insertIndex := if queueIndex >= 0 then queueIndex + 1 else 0;
      queue := Insert(queue, insertIndex, tracks);
      originalQueue := Extend(originalQueue, tracks);
    }

    method RemoveFromQueue(index: int)
      modifies this
      ensures Step(old(Now()), Op.RemoveFromQueue(index), Now())
    {
      var removed := if 0 <= index < |queue| then Some(queue[index]) else None;
      queue := if removed.Some? then Without(queue, index) else queue;
      queueIndex := if index < queueIndex then queueIndex - 1
                    else if index == queueIndex && queueIndex > |queue| - 1 then |queue| - 1
                    else queueIndex;
      if originalQueue.Some? && removed.Some? {
        var oi := Find(originalQueue.value, removed.value.urn);
        if oi >= 0 { originalQueue := Some(Without(originalQueue.value, oi)); }
      }
    }

    method MoveInQueue(from: int, to: int)
      requires 0 <= from < |queue| && 0 <= to < |queue|
      modifies this
      ensures Step(old(Now()), Op.MoveInQueue(from, to), Now())
    {
      var item := queue[from];
      queue := Insert(Without(queue, from), to, [item]);
      if queueIndex == from { queueIndex := to; }
      else if from < queueIndex && to >= queueIndex { queueIndex := queueIndex - 1; }
      else if from > queueIndex && to <= queueIndex { queueIndex := queueIndex + 1; }
    }

    method ClearQueue()
      modifies this
      ensures Step(old(Now()), Op.ClearQueue, Now())
    {
      queue, queueIndex, originalQueue := [], -1, None;
    }

    method ToggleShuffle()
      modifies this
      ensures Step(old(Now()), Op.ToggleShuffle, Now())
    {
      if !shuffle {
        var original := queue;
        var head := Head(queue, queueIndex);
        var after := Shuffled(Tail(queue, queueIndex));
        shuffle, originalQueue, queue := true, Some(original), head + after;
        assert queue[|head|..] == after;
      } else if originalQueue.Some? && currentTrack.Some? {
        var idx := Find(originalQueue.value, currentTrack.value.urn);
        shuffle, queue := false, originalQueue.value;
        queueIndex, originalQueue := if idx >= 0 then idx else 0, None;
      } else {
        shuffle, originalQueue := false, None;
      }
    }

    method ToggleRepeat()
      modifies this
      ensures Step(old(Now()), Op.ToggleRepeat, Now())
    {
      repeat := if repeat == RepeatOff then RepeatAll else if repeat == RepeatAll then RepeatOne else RepeatOff;
    }

    method ReplaceTrackMetadata(track: Track)
      modifies this
      ensures Step(old(Now()), Op.ReplaceMetadata(track), Now())
    {
      if currentTrack.Some? { currentTrack := Some(Merge(currentTrack.value, track)); }
      queue := MergeAll(queue, track);
      if originalQueue.Some? { originalQueue := Some(MergeAll(originalQueue.value, track)); }
    }
  }
}
