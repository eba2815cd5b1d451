/**
 * Playing a list of likes to its end: a paged source of the list, and the autopilot that asks it
 * for more whenever the queue runs out, and turns to the wave only when the list is used up.
 */
module Continuation {
  import opened Options
  import opened Basics
  import opened PlayerQueue
  import PlayerStore

  const LIKES_PAGE_SIZE := 50

  // ---- Pages of a stable list ----

  function Page(list: seq<Track>, page: nat): seq<Track> {
    list[Min(page * LIKES_PAGE_SIZE, |list|)..Min((page + 1) * LIKES_PAGE_SIZE, |list|)]
  }

  predicate Distinct(list: seq<Track>) {
    forall i, j | 0 <= i < j < |list| :: list[i].urn != list[j].urn
  }

  class PagedSource {
    const list: seq<Track>      // what the endpoint serves
    const more: nat -> bool     // its has_more flag, page by page
    var page: nat
    var done: bool

    // The flag may promise a page that turns out empty, but never hides one that is not.
    ghost predicate Honest() {
      forall p: nat | !more(p) :: |list| <= (p + 1) * LIKES_PAGE_SIZE
    }

    // The first `loaded` likes are in the queue already.
    constructor (list: seq<Track>, more: nat -> bool, loaded: nat)
      ensures this.list == list && this.more == more && page == loaded / LIKES_PAGE_SIZE && !done
    {
      this.list, this.more := list, more;
      page, done := loaded / LIKES_PAGE_SIZE, false;
    }

    // None when the request fails; a source that is done answers with an empty page.
    method Next() returns (batch: Option<seq<Track>>)
      modifies this
      ensures old(done) ==> batch == Some([]) && page == old(page) && done
      ensures !old(done) && batch.None? ==> page == old(page) && !done
      ensures !old(done) && batch.Some? ==>
                && batch.value == Page(list, old(page)) && page == old(page) + 1
                && (done <==> !more(old(page)) || batch.value == [])
    {
      if done { return Some([]); }
      if * { return None; }
      var collection := Page(list, page);
      var hasMore := more(page);
      page := page + 1;
      if !hasMore || |collection| == 0 { done := true; }
      return Some(collection);
    }
  }

  // ---- Leaving out what the queue has already ----

  function Urns(tracks: seq<Track>): set<Urn> {
    set i | 0 <= i < |tracks| :: tracks[i].urn
  }

  function Unseen(batch: seq<Track>, existing: set<Urn>): seq<Track> {
    if batch == [] then [] else
    (if batch[0].urn in existing then [] else [batch[0]]) + Unseen(batch[1..], existing)
  }

  lemma {:induction false} UnseenConcat(a: seq<Track>, b: seq<Track>, existing: set<Urn>)
    ensures Unseen(a + b, existing) == Unseen(a, existing) + Unseen(b, existing)
  {
    if a == [] {
      assert a + b == b;
    } else {
      assert (a + b)[1..] == a[1..] + b;
      UnseenConcat(a[1..], b, existing);
    }
  }

  lemma {:induction false} UnseenExtremes(batch: seq<Track>, existing: set<Urn>)
    ensures (forall t | t in batch :: t.urn in existing) ==> Unseen(batch, existing) == []
    ensures (forall t | t in batch :: t.urn !in existing) ==> Unseen(batch, existing) == batch
  {
    if batch != [] {
      UnseenExtremes(batch[1..], existing);
      assert batch == [batch[0]] + batch[1..];
    }
  }

  lemma SliceBySeen(list: seq<Track>, m: nat, start: nat, end: nat)
    requires Distinct(list) && m <= |list| && start <= end <= |list|
    ensures end <= m ==> forall t | t in list[start..end] :: t.urn in Urns(list[..m])
    ensures m <= start ==> forall t | t in list[start..end] :: t.urn !in Urns(list[..m])
  {
    forall i | start <= i < end ensures list[i].urn in Urns(list[..m]) <==> i < m {
      SeenExactly(list, m, i);
    }
  }

  lemma UnseenOfSuffix(list: seq<Track>, m: nat, start: nat, end: nat)
    requires Distinct(list) && m <= |list| && start <= end <= |list|
    ensures Unseen(list[start..end], Urns(list[..m])) ==
            (if m <= start then list[start..end] else if m < end then list[m..end] else [])
  {
    var mid := if m <= start then start else if m < end then m else end;
    var existing := Urns(list[..m]);
    assert list[start..end] == list[start..mid] + list[mid..end];
    UnseenConcat(list[start..mid], list[mid..end], existing);
    SliceBySeen(list, m, start, mid);
    SliceBySeen(list, m, mid, end);
    UnseenExtremes(list[start..mid], existing);
    UnseenExtremes(list[mid..end], existing);
  }

  lemma SeenExactly(list: seq<Track>, m: nat, i: nat)
    requires Distinct(list) && m <= |list| && i < |list|
    ensures list[i].urn in Urns(list[..m]) <==> i < m
  {
    if i < m { assert list[..m][i] == list[i]; }
  }

  // ---- How far the queue gets ----

  // The number of likes in the queue and the next page to ask for.
  datatype Progress = Progress(queued: nat, page: nat)

  // One continuation of a list of `total`: the first page that reaches past the queue.
  function Continued(total: nat, p: Progress): Progress
    decreases total - p.page * LIKES_PAGE_SIZE
  {
    if total <= p.page * LIKES_PAGE_SIZE then p
    else
      var end := Min((p.page + 1) * LIKES_PAGE_SIZE, total);
      if p.queued < end then Progress(end, p.page + 1)
      else Continued(total, Progress(p.queued, p.page + 1))
  }

  // Every page before the next one is in the queue.
  predicate Reached(total: nat, p: Progress) {
    Min(p.page * LIKES_PAGE_SIZE, total) <= p.queued <= total
  }

  function Times(total: nat, p: Progress, k: nat): Progress {
    if k == 0 then p else Continued(total, Times(total, p, k - 1))
  }

  /** A continuation makes progress unless the whole list is in the queue. */
  lemma {:induction false} ContinuedGrows(total: nat, p: Progress)
    requires Reached(total, p)
    ensures var q := Continued(total, p);
            && Reached(total, q)
            && (p.queued < total ==>
                  q.queued > p.queued && q.page > p.page && q.queued == Min(q.page * LIKES_PAGE_SIZE, total))
            && (p.queued == total ==> q.queued == total)
    decreases total - p.page * LIKES_PAGE_SIZE
  {
    if total > p.page * LIKES_PAGE_SIZE && p.queued >= Min((p.page + 1) * LIKES_PAGE_SIZE, total) {
      ContinuedGrows(total, Progress(p.queued, p.page + 1));
    }
  }

  /**
   * Armed with any number of likes loaded, repeated continuation gets the whole list into the
   * queue, within one continuation per page not yet complete.
   */
  lemma {:induction false} WholeListIsQueued(total: nat, loaded: nat, k: nat)
    requires loaded <= total
    ensures var q := Times(total, Progress(loaded, loaded / LIKES_PAGE_SIZE), k);
            && Reached(total, q) && q.queued >= loaded
            && (q.queued == total || q.page >= loaded / LIKES_PAGE_SIZE + k)
            && (k > total / LIKES_PAGE_SIZE - loaded / LIKES_PAGE_SIZE ==> q.queued == total)
  {
    var pages := loaded / LIKES_PAGE_SIZE;
    assert pages * LIKES_PAGE_SIZE <= loaded < (pages + 1) * LIKES_PAGE_SIZE;
    if k > 0 {
      WholeListIsQueued(total, loaded, k - 1);
      ContinuedGrows(total, Times(total, Progress(loaded, pages), k - 1));
    }
  }

  // ---- The autopilot ----

  ghost predicate InStep(list: seq<Track>, queue: seq<Track>, page: nat, done: bool) {
    && |queue| <= |list| && queue == list[..|queue|]
    && Reached(|list|, Progress(|queue|, page))
    && (done ==> |list| <= page * LIKES_PAGE_SIZE)
  }

  // An empty answer means that the whole list is queued.
  lemma EmptyMeansAll(list: seq<Track>, queue: seq<Track>, page: nat, done: bool)
    requires InStep(list, queue, page, done) && (done || Page(list, page) == [])
    ensures queue == list
  {
  }

  lemma PageEnds(list: seq<Track>, queue: seq<Track>, page: nat) returns (end: nat)
    requires Distinct(list) && InStep(list, queue, page, false) && Page(list, page) != []
    ensures end == Min((page + 1) * LIKES_PAGE_SIZE, |list|) && page * LIKES_PAGE_SIZE < end
    ensures Unseen(Page(list, page), Urns(queue)) == (if |queue| < end then list[|queue|..end] else [])
    ensures Unseen(Page(list, page), Urns(queue)) == [] <==> end <= |queue|
  {
    end := Min((page + 1) * LIKES_PAGE_SIZE, |list|);
    UnseenOfPage(list, |queue|, page);
  }

  lemma PrefixGrows(list: seq<Track>, queue: seq<Track>, end: nat)
    requires |queue| < end <= |list| && queue == list[..|queue|]
    ensures queue + list[|queue|..end] == list[..end] && (queue + list[|queue|..end])[|queue|] == list[|queue|]
  {
  }

  // The queue with more of the list behind it is where a continuation was to get.
  ghost predicate Grows(list: seq<Track>, queue: seq<Track>, more: seq<Track>, page: nat, done: bool, p: Progress) {
    && more != [] && |queue| < |list| && more[0] == list[|queue|]
    && InStep(list, queue + more, page, done) && p == Progress(|queue + more|, page)
  }

  // A page that brings something new brings the next part of the list.
  lemma NewPage(list: seq<Track>, queue: seq<Track>, page: nat, done: bool, more: seq<Track>)
    requires Distinct(list) && InStep(list, queue, page, false) && Page(list, page) != []
    requires more == Unseen(Page(list, page), Urns(queue)) && more != []
    requires done ==> |list| <= (page + 1) * LIKES_PAGE_SIZE
    ensures Grows(list, queue, more, page + 1, done, Continued(|list|, Progress(|queue|, page)))
  {
    var end := PageEnds(list, queue, page);
    PrefixGrows(list, queue, end);
  }

  lemma PassedOver(total: nat, queued: nat, page: nat, end: nat)
    requires end == Min((page + 1) * LIKES_PAGE_SIZE, total) && page * LIKES_PAGE_SIZE < end <= queued <= total
    ensures Continued(total, Progress(queued, page)) == Continued(total, Progress(queued, page + 1))
    ensures Reached(total, Progress(queued, page + 1))
  {
  }

  // A page that brings nothing new is passed over.
  lemma OldPage(list: seq<Track>, queue: seq<Track>, page: nat, done: bool)
    requires Distinct(list) && InStep(list, queue, page, false) && Page(list, page) != []
    requires Unseen(Page(list, page), Urns(queue)) == []
    requires done ==> |list| <= (page + 1) * LIKES_PAGE_SIZE
    ensures InStep(list, queue, page + 1, done)
    ensures Continued(|list|, Progress(|queue|, page)) == Continued(|list|, Progress(|queue|, page + 1))
    ensures Urns(queue) + Urns(Page(list, page)) == Urns(queue)
  {
    NothingUnseen(Page(list, page), Urns(queue));
    var end := PageEnds(list, queue, page);
    PassedOver(|list|, |queue|, page, end);
  }

  // Between two requests of one continuation: the source is in step, and the goal has not moved.
  ghost predicate Fetching(list: seq<Track>, queue: seq<Track>, page: nat, done: bool, goal: Progress) {
    InStep(list, queue, page, done) && goal == Continued(|list|, Progress(|queue|, page))
  }

  lemma FetchedPage(list: seq<Track>, queue: seq<Track>, page: nat, done: bool, goal: Progress)
    requires Distinct(list) && Fetching(list, queue, page, false, goal) && Page(list, page) != []
    requires done ==> |list| <= (page + 1) * LIKES_PAGE_SIZE
    ensures var more := Unseen(Page(list, page), Urns(queue));
            if more == [] then Fetching(list, queue, page + 1, done, goal)
            else Grows(list, queue, more, page + 1, done, goal)
  {
    var more := Unseen(Page(list, page), Urns(queue));
    if more == [] {
      OldPage(list, queue, page, done);
    } else {
      NewPage(list, queue, page, done, more);
    }
  }

  lemma {:induction false} NothingUnseen(batch: seq<Track>, existing: set<Urn>)
    requires Unseen(batch, existing) == []
    ensures existing + Urns(batch) == existing
  {
    if batch != [] {
      NothingUnseen(batch[1..], existing);
      assert forall i | 1 <= i < |batch| :: batch[i] == batch[1..][i - 1];
      assert forall i | 1 <= i < |batch| :: batch[i].urn in Urns(batch[1..]);
    }
  }

  class Autopilot {
    const player: PlayerStore.Player
    var active: PagedSource?
    var inFlight: bool

    // The queue is the first likes in order, and every page before the source's next is in it.
    ghost predicate Playing(source: PagedSource)
      reads this, player, source
    {
      && Distinct(source.list) && source.Honest() && InStep(source.list, player.queue, source.page, source.done)
      && !player.shuffle && -1 <= player.queueIndex
    }

    // addToQueue, then next
    method PlayOn(more: seq<Track>)
      requires more != [] && -1 <= player.queueIndex
      modifies player
      ensures exists added :: Step(old(player.Now()), Op.AddToQueue(more), added) && Step(added, Op.Next, player.Now())
      ensures player.shuffle == old(player.shuffle) && -1 <= player.queueIndex
      ensures |player.queue| == old(|player.queue|) + |more|
      ensures !player.shuffle ==> player.queue == old(player.queue) + more
      ensures !player.shuffle && old(player.queueIndex) == old(|player.queue|) - 1 ==>
                player.queueIndex == old(|player.queue|) && player.currentTrack == Some(more[0])
    {
      ghost var before := player.Now();
      player.AddToQueue(more);
      ghost var added := player.Now();
      if before.shuffle && before.index >= 0 {
        ScatteredLength(before.queue, before.index + 1, more, added.queue);
      }
      var _ := player.Next();
      assert Step(added, Op.Next, player.Now());
    }

    constructor (player: PlayerStore.Player)
      ensures this.player == player && active == null && !inFlight
    {
      this.player, active, inFlight := player, null, false;
    }

    method ArmLikesContinuation(list: seq<Track>, more: nat -> bool)
      modifies this`active
      ensures active != null && fresh(active) && active.list == list && active.more == more && !active.done
      ensures active.page == |player.queue| / LIKES_PAGE_SIZE
      ensures (&& Distinct(list) && active.Honest() && player.queue <= list
               && !player.shuffle && -1 <= player.queueIndex) ==> Playing(active)
    {
      active := new PagedSource(list, more, |player.queue|);
    }

    // Pages are asked for until one brings something the queue lacks: that, or nothing when the
    // source is used up, or None when a request failed.
    method FetchUnseen(source: PagedSource) returns (more: Option<seq<Track>>)
      modifies source
      ensures more.Some? ==> NoneQueued(more.value, Urns(player.queue))
      ensures old(Playing(source)) && more == Some([]) ==> player.queue == source.list
      ensures old(Playing(source)) && more.Some? && more.value != [] ==>
                Grows(source.list, player.queue, more.value, source.page, source.done,
                      Continued(|source.list|, Progress(|player.queue|, old(source.page))))
    {
      var existing := Urns(player.queue);
      ghost var list, queue, playing := source.list, player.queue, Playing(source);
      ghost var goal := Continued(|list|, Progress(|queue|, source.page));
      while true
        invariant existing == Urns(queue)
        invariant playing ==> Fetching(list, queue, source.page, source.done, goal)
        decreases |list| - source.page * LIKES_PAGE_SIZE
      {
        ghost var page, wasDone := source.page, source.done;
        var batch := source.Next();
        if batch.None? { return None; }
        if |batch.value| == 0 {
          if playing { EmptyMeansAll(list, queue, page, wasDone); }
          return Some([]);
        }
        var freshOnes := Unseen(batch.value, existing);
        if playing { FetchedPage(list, queue, page, source.done, goal); }
        if |freshOnes| > 0 {
          UnseenIsUnseen(batch.value, existing);
          return Some(freshOnes);
        }
        NothingUnseen(batch.value, existing);
        existing := existing + Urns(batch.value);
      }
    }

    /**
     * True with something added that the queue did not have, and playback moved on; false with the
     * queue untouched and the source given up. When a list of likes is being played, true means
     * that the queue has grown to the end of a page, in the list's order, and false that the whole
     * list is queued or that a request failed.
     */
    method ContinueFromContextSource() returns (continued: bool, ghost failed: bool)
      requires -1 <= player.queueIndex
      modifies this`active, active, player
      ensures -1 <= player.queueIndex && player.shuffle == old(player.shuffle)
      ensures continued <==> active != null
      ensures continued ==>
                var source := old(active);
                && active == source && |player.queue| > old(|player.queue|)
                && (old(active != null && Playing(active)) ==>
                      && Playing(source)
                      && Progress(|player.queue|, source.page) ==
                         Continued(|source.list|, Progress(old(|player.queue|), old(active.page)))
                      && (old(player.queueIndex) == old(|player.queue|) - 1 ==>
                            player.queueIndex == old(|player.queue|)
                            && player.currentTrack == Some(source.list[old(|player.queue|)])))
      ensures !continued ==> player.Now() == old(player.Now())
      ensures !continued && old(active != null && Playing(active)) && !failed ==> player.queue == old(active).list
    {
      failed := false;
      if active == null { return false, false; }
      var more := FetchUnseen(active);
      if more.None? || more.value == [] {
        active, failed := null, more.None?;
        return false, failed;
      }
      PlayOn(more.value);
      return true, failed;
    }

    /**
     * What the end of the queue calls. While one continuation is under way another does nothing.
     * `wave` is what the wave or the related tracks would bring; it is asked for only when the
     * context has nothing more to give, which means for a list of likes, unless a request failed,
     * that the whole list is in the queue.
     */
    method AutopilotContinueFromTrack(wave: seq<Track>) returns (waved: bool, ghost failed: bool)
      requires -1 <= player.queueIndex
      modifies this`active, this`inFlight, active, player
      ensures inFlight == old(inFlight)
      ensures old(inFlight) ==> !waved && player.Now() == old(player.Now()) && active == old(active)
      ensures waved ==>
                active == null
                && (!player.shuffle ==> player.queue == old(player.queue) + Unseen(wave, Urns(old(player.queue))))
      ensures waved && old(active != null && Playing(active)) && !failed ==> old(active).list <= player.queue
      ensures active != null && !old(inFlight) ==> active == old(active) && |player.queue| > old(|player.queue|)
      ensures active != null && !old(inFlight) && old(active != null && Playing(active)) ==> Playing(active)
    {
      failed := false;
      if inFlight { return false, false; }
      inFlight := true;
      var continued: bool;
      continued, failed := ContinueFromContextSource();
      waved := false;
      if !continued {
        var freshOnes := Unseen(wave, Urns(player.queue));
        if |freshOnes| > 0 {
          PlayOn(freshOnes);
          waved := true;
        }
      }
      inFlight := false;
    }
  }

  lemma {:induction false} ScatteredLength(a: seq<Track>, from: nat, more: seq<Track>, b: seq<Track>)
    requires Scattered(a, from, more, b)
    ensures |b| == |a| + |more|
    decreases |more|
  {
    if more != [] {
      var pos: nat :| from <= pos && Scattered(Insert(a, pos, [more[0]]), from, more[1..], b);
      ScatteredLength(Insert(a, pos, [more[0]]), from, more[1..], b);
    }
  }

  predicate NoneQueued(tracks: seq<Track>, existing: set<Urn>) {
    forall t | t in tracks :: t.urn !in existing
  }

  lemma {:induction false} UnseenIsUnseen(batch: seq<Track>, existing: set<Urn>)
    ensures NoneQueued(Unseen(batch, existing), existing)
  {
    if batch != [] { UnseenIsUnseen(batch[1..], existing); }
  }

  // What the queue lacks of the next page.
  lemma UnseenOfPage(list: seq<Track>, queued: nat, page: nat)
    requires Distinct(list) && Reached(|list|, Progress(queued, page)) && page * LIKES_PAGE_SIZE < |list|
    ensures var end := Min((page + 1) * LIKES_PAGE_SIZE, |list|);
            Unseen(Page(list, page), Urns(list[..queued])) == (if queued < end then list[queued..end] else [])
  {
    UnseenOfSuffix(list, queued, page * LIKES_PAGE_SIZE, Min((page + 1) * LIKES_PAGE_SIZE, |list|));
  }
}
