/**
 The chunked lazy list cache: an upstream list is pulled chunk by chunk behind
 opaque next_href links, kept in a store that may lose or refuse entries, and
 served page by page.
 */
module ListCache {
  import opened Options
  import opened Basics

  type Item = int
  type Href = string

  const MAX_CHUNKS_PER_REQUEST: nat := 8

  datatype Chunk = Chunk(items: seq<Item>, next: Option<Href>)

  // What the upstream answers to a link; None starts at the beginning.
  type Upstream = Option<Href> -> Chunk

  datatype ListState = ListState(items: seq<Item>, next: Option<Href>, exhausted: bool)

  const FRESH := ListState([], None, false)

  function AddChunk(s: ListState, c: Chunk): ListState {
    ListState(s.items + c.items, c.next, c.next.None? || c.items == [])
  }

  /** The reference: the list after k chunks. */
  function After(up: Upstream, k: nat): ListState {
    if k == 0 then FRESH else
    var s := After(up, k - 1);
    if s.exhausted then s else AddChunk(s, up(s.next))
  }

  ghost predicate Snapshot(up: Upstream, s: ListState) {
    exists k :: s == After(up, k)
  }

  // ------------------------------------------------------------ pages

  datatype Page = Page(collection: seq<Item>, page: nat, pageSize: nat, hasMore: bool)

  function Slice(items: seq<Item>, start: nat, end: nat): seq<Item>
    requires start <= end
  {
    if start >= |items| then [] else items[start..Min(end, |items|)]
  }

  function SlicePage(s: ListState, page: nat, limit: nat): Page {
    var start, end := page * limit, page * limit + limit;
    Page(Slice(s.items, start, end), page, limit, !s.exhausted || end < |s.items|)
  }

  // The while loop of get_page: fetch until there is enough, or the budget is spent.
  function Advance(up: Upstream, s: ListState, need: nat, budget: nat): ListState
    decreases budget
  {
    if budget == 0 || |s.items| >= need || s.exhausted then s
    else Advance(up, AddChunk(s, up(s.next)), need, budget - 1)
  }

  lemma {:induction false} AdvanceIsAfter(up: Upstream, k: nat, need: nat, budget: nat) returns (m: nat)
    ensures k <= m <= k + budget && Advance(up, After(up, k), need, budget) == After(up, m)
    ensures |After(up, m).items| >= need || After(up, m).exhausted || m == k + budget
    decreases budget
  {
    var s := After(up, k);
    if budget == 0 || |s.items| >= need || s.exhausted {
      m := k;
    } else {
      assert After(up, k + 1) == AddChunk(s, up(s.next));
      m := AdvanceIsAfter(up, k + 1, need, budget - 1);
    }
  }

  // ------------------------------------------------------------ growing

  lemma {:induction false} AfterGrows(up: Upstream, k: nat, m: nat)
    requires k <= m
    ensures After(up, k).items <= After(up, m).items
    ensures After(up, k).exhausted ==> After(up, m) == After(up, k)
  {
    if k < m {
      AfterGrows(up, k, m - 1);
    }
  }

  /** Every page ever served is a prefix of what a longer snapshot serves, and a last page is final. */
  lemma PagesArePrefixes(up: Upstream, k: nat, m: nat, page: nat, limit: nat)
    requires k <= m
    ensures SlicePage(After(up, k), page, limit).collection <= SlicePage(After(up, m), page, limit).collection
    ensures !SlicePage(After(up, k), page, limit).hasMore ==>
              SlicePage(After(up, m), page, limit) == SlicePage(After(up, k), page, limit)
  {
    AfterGrows(up, k, m);
  }

  // Snapshot `last` reaches to the end of the page, or of the list: its slice is the true one.
  predicate Reaches(up: Upstream, last: nat, end: nat) {
    After(up, last).exhausted || |After(up, last).items| >= end
  }

  // The snapshot has every item of the page.
  predicate HasPage(up: Upstream, k: nat, last: nat, start: nat, end: nat) {
    start >= |After(up, last).items| || |After(up, k).items| >= Min(end, |After(up, last).items|)
  }

  // Cutting a page from a list and from a prefix of it.
  lemma SlicesAgree(a: seq<Item>, b: seq<Item>, start: nat, end: nat)
    requires (start < end || start == end == 0) && a <= b
    ensures Slice(a, start, end) == Slice(b, start, end) <==> start >= |b| || |a| >= Min(end, |b|)
  {
    assert |Slice(a, start, end)| == if start >= |a| then 0 else Min(end, |a|) - start;
    assert |Slice(b, start, end)| == if start >= |b| then 0 else Min(end, |b|) - start;
  }

  // Exactly when a snapshot serves a page in full.
  lemma SnapshotPageExactly(up: Upstream, k: nat, last: nat, start: nat, end: nat)
    requires (start < end || start == end == 0) && Reaches(up, last, end)
    ensures Slice(After(up, k).items, start, end) == Slice(After(up, last).items, start, end)
            <==> HasPage(up, k, last, start, end)
  {
    if k <= last {
      AfterGrows(up, k, last);
      SlicesAgree(After(up, k).items, After(up, last).items, start, end);
    } else {
      AfterGrows(up, last, k);
      SlicesAgree(After(up, last).items, After(up, k).items, start, end);
    }
  }

  // ------------------------------------------------------------ the service

  datatype Answer = Served(page: Page) | Failed

  // Outcomes of the calls one request makes to the store and upstream.
  datatype Luck = Luck(firstLoad: bool, secondLoad: bool, save: bool, fetches: nat -> bool)

  // How far the fetches get: None if one of them fails first.
  function Try(up: Upstream, s: ListState, need: nat, budget: nat, done: nat, luck: Luck): Option<ListState>
    decreases budget
  {
    if budget == 0 || |s.items| >= need || s.exhausted then Some(s)
    else if !luck.fetches(done) then None
    else Try(up, AddChunk(s, up(s.next)), need, budget - 1, done + 1, luck)
  }

  lemma {:induction false} TryIsAdvance(up: Upstream, s: ListState, need: nat, budget: nat, done: nat, luck: Luck)
    ensures Try(up, s, need, budget, done, luck).Some? ==>
              Try(up, s, need, budget, done, luck).value == Advance(up, s, need, budget)
    ensures (forall i :: luck.fetches(i)) ==> Try(up, s, need, budget, done, luck).Some?
    decreases budget
  {
    if !(budget == 0 || |s.items| >= need || s.exhausted) && luck.fetches(done) {
      TryIsAdvance(up, AddChunk(s, up(s.next)), need, budget - 1, done + 1, luck);
    }
  }

  // What a request answers, given the entry as it read it before and after it got the lock.
  function Reply(up: Upstream, quick: ListState, loaded: ListState, page: nat, limit: nat, luck: Luck): Answer {
    var need := (page + 1) * limit;
    if |quick.items| >= need || quick.exhausted then Served(SlicePage(quick, page, limit))
    else match Try(up, loaded, need, MAX_CHUNKS_PER_REQUEST, 0, luck)
         case None => Failed
         case Some(reached) => Served(SlicePage(reached, page, limit))
  }

  // A request gets from snapshot j to one that has the page exactly if eight more chunks have it.
  lemma ReachedHasPage(up: Upstream, j: nat, last: nat, start: nat, end: nat) returns (m: nat)
    ensures Advance(up, After(up, j), end, MAX_CHUNKS_PER_REQUEST) == After(up, m)
    ensures HasPage(up, m, last, start, end) <==> HasPage(up, j + MAX_CHUNKS_PER_REQUEST, last, start, end)
  {
    m := AdvanceIsAfter(up, j, end, MAX_CHUNKS_PER_REQUEST);
    AfterGrows(up, m, j + MAX_CHUNKS_PER_REQUEST);
  }

  // A snapshot that already reaches the end of the page has it, and so have all later ones.
  lemma ReachingHasPage(up: Upstream, i: nat, k: nat, last: nat, start: nat, end: nat)
    requires i <= k && Reaches(up, i, end) && Reaches(up, last, end)
    ensures HasPage(up, i, last, start, end) && HasPage(up, k, last, start, end)
  {
    AfterGrows(up, i, k);
    if i <= last { AfterGrows(up, i, last); } else { AfterGrows(up, last, i); }
  }

  // The list a request cuts its page from.
  function Source(up: Upstream, quick: ListState, loaded: ListState, need: nat): ListState {
    if |quick.items| >= need || quick.exhausted then quick else Advance(up, loaded, need, MAX_CHUNKS_PER_REQUEST)
  }

  lemma ReplyIsCut(up: Upstream, quick: ListState, loaded: ListState, page: nat, limit: nat, luck: Luck,
                   start: nat, end: nat)
    requires start == page * limit && end == start + limit && end == (page + 1) * limit
    requires Reply(up, quick, loaded, page, limit, luck).Served?
    ensures Reply(up, quick, loaded, page, limit, luck).page.collection
            == Slice(Source(up, quick, loaded, end).items, start, end)
  {
    TryIsAdvance(up, loaded, end, MAX_CHUNKS_PER_REQUEST, 0, luck);
  }

  /**
   A request for the page from `start` to `end` that is answered serves it in full exactly when the
   page lies beyond the list, or the stored snapshot and the eight chunks after it reach to the end
   of the page or of the list.
   */
  lemma {:induction false} FullPageExactly(up: Upstream, i: nat, j: nat, last: nat,
                                           page: nat, limit: nat, start: nat, end: nat, luck: Luck)
    requires i <= j && end == start + limit
    ensures var reply := Reply(up, After(up, i), After(up, j), page, limit, luck);
            start == page * limit && Reaches(up, last, end) && reply.Served? ==>
              (reply.page.collection == Slice(After(up, last).items, start, end)
               <==> HasPage(up, j + MAX_CHUNKS_PER_REQUEST, last, start, end))
  {
    if start == page * limit && Reaches(up, last, end)
       && Reply(up, After(up, i), After(up, j), page, limit, luck).Served? {
      var _, _ := PageBounds(page, limit);
      ReplyIsCut(up, After(up, i), After(up, j), page, limit, luck, start, end);
      FullSliceExactly(up, i, j, last, start, end);
    }
  }

  lemma PageBounds(page: nat, limit: nat) returns (start: nat, end: nat)
    ensures start == page * limit && end == start + limit && end == (page + 1) * limit
    ensures start < end || start == end == 0
  {
    start, end := page * limit, page * limit + limit;
    NextMultiple(page, limit);
  }

  lemma FullSliceExactly(up: Upstream, i: nat, j: nat, last: nat, start: nat, end: nat)
    requires i <= j && Reaches(up, last, end) && (start < end || start == end == 0)
    ensures Slice(Source(up, After(up, i), After(up, j), end).items, start, end)
            == Slice(After(up, last).items, start, end)
            <==> HasPage(up, j + MAX_CHUNKS_PER_REQUEST, last, start, end)
  {
    if Reaches(up, i, end) {
      ReachingHasPage(up, i, j + MAX_CHUNKS_PER_REQUEST, last, start, end);
      SnapshotPageExactly(up, i, last, start, end);
    } else {
      var m := ReachedHasPage(up, j, last, start, end);
      SnapshotPageExactly(up, m, last, start, end);
    }
  }

  class ListCacheService {
    var store: map<string, ListState>

    constructor ()
      ensures store == map[]
    {
      store := map[];
    }

    // A missing, unreadable or unreachable entry reads as a fresh list.
    function Load(key: string, reachable: bool): ListState
      reads this
    {
      if reachable && key in store then store[key] else FRESH
    }

    method GetPage(key: string, page: nat, limit: nat, up: Upstream, luck: Luck) returns (answer: Answer)
      modifies this
      ensures var need, quick := (page + 1) * limit, old(Load(key, luck.firstLoad));
              var loaded := old(Load(key, luck.secondLoad));
              var reached := Try(up, loaded, need, MAX_CHUNKS_PER_REQUEST, 0, luck);
              && answer == Reply(up, quick, loaded, page, limit, luck)
              && store == if |quick.items| < need && !quick.exhausted && reached.Some?
                             && luck.save && |loaded.items| < need && !loaded.exhausted
                          then old(store)[key := reached.value] else old(store)
    {
      var need := (page + 1) * limit;
      var state := Load(key, luck.firstLoad);
      if |state.items| >= need || state.exhausted {
        return Served(SlicePage(state, page, limit));
      }
      state := Load(key, luck.secondLoad);
      ghost var loaded := state;
      var chunks := 0;
      while |state.items| < need && !state.exhausted && chunks < MAX_CHUNKS_PER_REQUEST
        invariant 0 <= chunks <= MAX_CHUNKS_PER_REQUEST && store == old(store)
        invariant chunks == 0 ==> state == loaded
        invariant chunks > 0 ==> !(|loaded.items| >= need || loaded.exhausted)
        invariant Try(up, loaded, need, MAX_CHUNKS_PER_REQUEST, 0, luck)
               == Try(up, state, need, MAX_CHUNKS_PER_REQUEST - chunks, chunks, luck)
      {
        if !luck.fetches(chunks) { return Failed; }
        var fetched := up(state.next);
        state := ListState(state.items + fetched.items, fetched.next, fetched.next.None? || |fetched.items| == 0);
        chunks := chunks + 1;
      }
      if chunks > 0 && luck.save {
        store := store[key := state];
      }
      answer := Served(SlicePage(state, page, limit));
    }
  }

  // ------------------------------------------------------------ any number of requests at once

  // One list, its stored entry, and the requests working on it; the lock table
  // may have dropped a lock, so nothing is assumed about who waits for whom.
  datatype World = World(stored: Option<ListState>, local: map<nat, ListState>, served: seq<Page>)

  datatype Action =
    | Load(client: nat, reachable: bool)
    | Fetch(client: nat)
    | Save(client: nat)
    | Serve(client: nat, page: nat, limit: nat)
    | Abort(client: nat)      // a fetch failed
    | Lose                    // expiry, eviction or invalidation

  predicate May(w: World, a: Action) {
    match a
    case Load(_, _) => true
    case Fetch(c) => c in w.local && !w.local[c].exhausted
    case Save(c) => c in w.local
    case Serve(c, _, _) => c in w.local
    case Abort(_) => true
    case Lose => true
  }

  function Step(up: Upstream, w: World, a: Action): World
    requires May(w, a)
  {
    match a
    case Load(c, reachable) =>
      w.(local := w.local[c := if reachable && w.stored.Some? then w.stored.value else FRESH])
    case Fetch(c) => w.(local := w.local[c := AddChunk(w.local[c], up(w.local[c].next))])
    case Save(c) => w.(stored := Some(w.local[c]))
    case Serve(c, page, limit) => w.(served := w.served + [SlicePage(w.local[c], page, limit)])
    case Abort(c) => w.(local := w.local - {c})
    case Lose => w.(stored := None)
  }

  function Run(up: Upstream, actions: seq<Action>): Option<World> {
    if actions == [] then Some(World(None, map[], [])) else
    match Run(up, actions[..|actions| - 1])
    case None => None
    case Some(w) =>
      if May(w, actions[|actions| - 1]) then Some(Step(up, w, actions[|actions| - 1])) else None
  }

  ghost predicate ServedFrom(up: Upstream, p: Page) {
    exists k :: p == SlicePage(After(up, k), p.page, p.pageSize)
  }

  ghost predicate Faithful(up: Upstream, w: World) {
    && (w.stored.Some? ==> Snapshot(up, w.stored.value))
    && (forall c | c in w.local :: Snapshot(up, w.local[c]))
    && (forall p | p in w.served :: ServedFrom(up, p))
  }

  lemma NextSnapshot(up: Upstream, s: ListState)
    requires Snapshot(up, s) && !s.exhausted
    ensures Snapshot(up, AddChunk(s, up(s.next)))
  {
    var k: nat :| s == After(up, k);
    assert After(up, k + 1) == AddChunk(s, up(s.next));
  }

  lemma StepIsFaithful(up: Upstream, w: World, a: Action)
    requires Faithful(up, w) && May(w, a)
    ensures Faithful(up, Step(up, w, a))
  {
    match a
    case Load(c, _) => assert FRESH == After(up, 0);
    case Fetch(c) => NextSnapshot(up, w.local[c]);
    case Serve(c, page, limit) =>
      var k: nat :| w.local[c] == After(up, k);
      var p := SlicePage(w.local[c], page, limit);
      assert p == SlicePage(After(up, k), p.page, p.pageSize);
    case _ =>
  }

  /**
   Whatever requests overlap and whatever the store loses, everything stored is
   the upstream list cut at a chunk boundary with its own link and flag, and
   every page served was cut from such a snapshot.
   */
  lemma {:induction false} EveryStateIsASnapshot(up: Upstream, actions: seq<Action>)
    requires Run(up, actions).Some?
    ensures Faithful(up, Run(up, actions).value)
  {
    if actions == [] {
    } else {
      EveryStateIsASnapshot(up, actions[..|actions| - 1]);
      StepIsFaithful(up, Run(up, actions[..|actions| - 1]).value, actions[|actions| - 1]);
    }
  }

  // ------------------------------------------------------------ the list itself

  function LinkAfter(links: seq<Href>, i: nat): Option<Href> {
    if i < |links| then Some(links[i]) else None
  }

  // The upstream list, chunk by chunk: link i leads to chunk i + 1, and the last chunk has none.
  ghost predicate Serves(up: Upstream, chunks: seq<seq<Item>>, links: seq<Href>) {
    && |chunks| == |links| + 1
    && up(None) == Chunk(chunks[0], LinkAfter(links, 0))
    && forall i | 0 <= i < |links| :: up(Some(links[i])) == Chunk(chunks[i + 1], LinkAfter(links, i + 1))
  }

  function Flatten(chunks: seq<seq<Item>>): seq<Item> {
    if chunks == [] then [] else Flatten(chunks[..|chunks| - 1]) + chunks[|chunks| - 1]
  }

  // The list ends with its n-th chunk: the last one, or the first that is empty.
  predicate EndsAt(chunks: seq<seq<Item>>, n: nat) {
    && 0 < n <= |chunks|
    && (forall i | 0 <= i < n - 1 :: chunks[i] != [])
    && (n == |chunks| || chunks[n - 1] == [])
  }

  // The first k chunks, with the link behind them, and whether the list has ended.
  function FirstChunks(chunks: seq<seq<Item>>, links: seq<Href>, n: nat, k: nat): ListState
    requires n <= |chunks|
  {
    var m := Min(k, n);
    ListState(Flatten(chunks[..m]), if m == 0 then None else LinkAfter(links, m - 1), k >= n)
  }

  /** A snapshot is the list cut behind its first k chunks, and it has ended exactly from chunk n on. */
  lemma {:induction false} AfterIs(up: Upstream, chunks: seq<seq<Item>>, links: seq<Href>, n: nat, k: nat)
    requires Serves(up, chunks, links) && EndsAt(chunks, n)
    ensures After(up, k) == FirstChunks(chunks, links, n, k)
  {
    if k > 0 {
      AfterIs(up, chunks, links, n, k - 1);
      if k <= n {
        NextIs(up, chunks, links, k - 1);
        OneChunkMore(chunks, links, n, k - 1);
      }
    }
  }

  lemma OneChunkMore(chunks: seq<seq<Item>>, links: seq<Href>, n: nat, k: nat)
    requires EndsAt(chunks, n) && |links| + 1 == |chunks| && k < n
    ensures AddChunk(FirstChunks(chunks, links, n, k), Chunk(chunks[k], LinkAfter(links, k)))
            == FirstChunks(chunks, links, n, k + 1)
  {
    assert chunks[..k + 1][..k] == chunks[..k];
    assert Flatten(chunks[..k + 1]) == Flatten(chunks[..k]) + chunks[k];
  }

  // What the link behind the first k chunks leads to.
  lemma NextIs(up: Upstream, chunks: seq<seq<Item>>, links: seq<Href>, k: nat)
    requires Serves(up, chunks, links) && k < |chunks|
    ensures up(if k == 0 then None else LinkAfter(links, k - 1)) == Chunk(chunks[k], LinkAfter(links, k))
  {
    if k > 0 { assert 0 <= k - 1 < |links|; }
  }

  /** Whatever overlaps and whatever is lost, what is stored is the list up to the end of a chunk. */
  lemma {:induction false} StoredIsFirstChunks(up: Upstream, chunks: seq<seq<Item>>, links: seq<Href>, n: nat,
                                               actions: seq<Action>)
    requires Serves(up, chunks, links) && EndsAt(chunks, n)
    requires Run(up, actions).Some? && Run(up, actions).value.stored.Some?
    ensures exists k: nat :: Run(up, actions).value.stored == Some(FirstChunks(chunks, links, n, k))
  {
    EveryStateIsASnapshot(up, actions);
    var k: nat :| Run(up, actions).value.stored.value == After(up, k);
    AfterIs(up, chunks, links, n, k);
  }

  // ------------------------------------------------------------ reading the whole list

  // Eight chunks like the one behind snapshot k are worth a page, unless it is the last.
  ghost predicate DenseAt(up: Upstream, limit: nat, k: nat) {
    !After(up, k + 1).exhausted ==> MAX_CHUNKS_PER_REQUEST * |up(After(up, k).next).items| >= limit
  }

  ghost predicate Dense(up: Upstream, limit: nat) {
    forall k: nat :: DenseAt(up, limit, k)
  }

  lemma {:induction false} DenseChunksFillPages(up: Upstream, limit: nat, k: nat, n: nat)
    requires Dense(up, limit) && !After(up, k + n).exhausted
    ensures MAX_CHUNKS_PER_REQUEST * |After(up, k + n).items|
         >= MAX_CHUNKS_PER_REQUEST * |After(up, k).items| + n * limit
  {
    if n > 0 {
      var before := k + n - 1;
      AfterGrows(up, before, k + n);
      DenseChunksFillPages(up, limit, k, n - 1);
      assert DenseAt(up, limit, before);
      assert |After(up, k + n).items| == |After(up, before).items| + |up(After(up, before).next).items|;
      NextMultiple(n - 1, limit);
    }
  }

  lemma NextMultiple(n: nat, limit: nat)
    ensures (n + 1) * limit == n * limit + limit
  {
  }

  const LUCKY := Luck(true, true, true, i => true)

  // What is stored under the key, as a number of chunks.
  ghost predicate StoredAt(service: ListCacheService, key: string, up: Upstream, k: nat)
    reads service
  {
    service.Load(key, true) == After(up, k)
  }

  // One page of a dense list whose cached state holds all pages before it.
  method ReadPage(service: ListCacheService, key: string, page: nat, limit: nat, up: Upstream,
                  ghost k: nat, ghost last: nat) returns (p: Page, ghost m: nat)
    requires Dense(up, limit) && After(up, last).exhausted
    requires StoredAt(service, key, up, k)
    requires |After(up, k).items| >= page * limit || After(up, k).exhausted
    modifies service
    ensures StoredAt(service, key, up, m)
    ensures |After(up, m).items| >= page * limit + limit || After(up, m).exhausted
    ensures p == SlicePage(After(up, m), page, limit)
  {
    var answer := service.GetPage(key, page, limit, up, LUCKY);
    ghost var start, need := PageBounds(page, limit);
    m := DenseReply(up, k, start, limit, need);
    p := answer.page;
  }

  // What a request makes of snapshot k of a dense list.
  lemma DenseReply(up: Upstream, k: nat, start: nat, limit: nat, need: nat) returns (m: nat)
    requires Dense(up, limit) && need == start + limit
    requires |After(up, k).items| >= start || After(up, k).exhausted
    ensures |After(up, m).items| >= need || After(up, m).exhausted
    ensures Try(up, After(up, k), need, MAX_CHUNKS_PER_REQUEST, 0, LUCKY) == Some(After(up, m))
    ensures |After(up, k).items| >= need || After(up, k).exhausted ==> After(up, m) == After(up, k)
  {
    TryIsAdvance(up, After(up, k), need, MAX_CHUNKS_PER_REQUEST, 0, LUCKY);
    m := DenseAdvance(up, k, start, limit);
  }

  lemma DenseAdvance(up: Upstream, k: nat, start: nat, limit: nat) returns (m: nat)
    requires Dense(up, limit)
    requires |After(up, k).items| >= start || After(up, k).exhausted
    ensures After(up, m) == Advance(up, After(up, k), start + limit, MAX_CHUNKS_PER_REQUEST)
    ensures |After(up, m).items| >= start + limit || After(up, m).exhausted
  {
    var far, need := k + MAX_CHUNKS_PER_REQUEST, start + limit;
    m := AdvanceIsAfter(up, k, need, MAX_CHUNKS_PER_REQUEST);
    if After(up, k).exhausted {
      AfterGrows(up, k, m);
    } else if m == far {
      EightAreAPage(up, k, limit, far);
    }
  }

  lemma EightAreAPage(up: Upstream, k: nat, limit: nat, far: nat)
    requires Dense(up, limit) && far == k + MAX_CHUNKS_PER_REQUEST && !After(up, k).exhausted
    ensures |After(up, far).items| >= |After(up, k).items| + limit || After(up, far).exhausted
  {
    if !After(up, far).exhausted { DenseChunksFillPages(up, limit, k, MAX_CHUNKS_PER_REQUEST); }
  }

  // Eight times any chunk but the last fills a page.
  predicate DenseList(chunks: seq<seq<Item>>, limit: nat) {
    forall i | 0 <= i < |chunks| - 1 :: MAX_CHUNKS_PER_REQUEST * |chunks[i]| >= limit
  }

  lemma DenseListIsDense(up: Upstream, chunks: seq<seq<Item>>, links: seq<Href>, limit: nat)
    requires Serves(up, chunks, links) && DenseList(chunks, limit) && limit > 0
    ensures EndsAt(chunks, |chunks|) && Dense(up, limit)
    ensures After(up, |chunks|).exhausted && After(up, |chunks|).items == Flatten(chunks)
  {
    var n := |chunks|;
    forall k: nat ensures DenseAt(up, limit, k) {
      AfterIs(up, chunks, links, n, k);
      AfterIs(up, chunks, links, n, k + 1);
      if k + 1 < n { NextIs(up, chunks, links, k); }
    }
    AfterIs(up, chunks, links, n, n);
    assert chunks[..n] == chunks;
  }

  /**
   Pages 0, 1, 2, ... of a dense list, until one says there is no more, are the whole list, whatever
   part of it was stored before.
   */
  method ReadAll(service: ListCacheService, key: string, limit: nat, up: Upstream,
                 ghost chunks: seq<seq<Item>>, ghost links: seq<Href>, ghost stored: nat) returns (all: seq<Item>)
    requires limit > 0 && Serves(up, chunks, links) && DenseList(chunks, limit)
    requires StoredAt(service, key, up, stored)
    modifies service
    ensures all == Flatten(chunks)
  {
    all := [];
    var page, more := 0, true;
    ghost var k, start, last := stored, 0, |chunks|;
    DenseListIsDense(up, chunks, links, limit);
    ghost var whole := Flatten(chunks);
    while more
      invariant StoredAt(service, key, up, k)
      invariant start == page * limit
      invariant |After(up, k).items| >= start || After(up, k).exhausted
      invariant all == whole[..Min(start, |whole|)]
      invariant if more then start <= |whole| else Min(start, |whole|) == |whole|
      decreases more, |whole| + limit - start
    {
      var p;
      ghost var m;
      p, m := ReadPage(service, key, page, limit, up, k, last);
      PageFits(up, m, last, page, limit);
      NextMultiple(page, limit);
      all := all + p.collection;
      more := p.hasMore;
      k, page, start := m, page + 1, start + limit;
    }
  }

  lemma PageFits(up: Upstream, m: nat, last: nat, page: nat, limit: nat)
    requires After(up, last).exhausted
    requires |After(up, m).items| >= page * limit + limit || After(up, m).exhausted
    requires page * limit <= |After(up, last).items|
    ensures var whole, p := After(up, last).items, SlicePage(After(up, m), page, limit);
            && whole[..page * limit] + p.collection == whole[..Min(page * limit + limit, |whole|)]
            && (p.hasMore ==> page * limit + limit <= |whole|)
            && (!p.hasMore ==> Min(page * limit + limit, |whole|) == |whole|)
  {
    if m <= last { AfterGrows(up, m, last); } else { AfterGrows(up, last, m); }
  }

  // ------------------------------------------------------------ when chunks are too small

  // An upstream that hands out one item at a time.
  function OneByOne(link: Option<Href>): Chunk {
    var n := if link.None? then 0 else |link.value|;
    Chunk([n], Some(if link.None? then "x" else link.value + "x"))
  }

  lemma {:induction false} OneByOneAt(k: nat)
    ensures var s := After(OneByOne, k);
            && |s.items| == k && (forall i | 0 <= i < k :: s.items[i] == i) && !s.exhausted
            && (if s.next.None? then 0 else |s.next.value|) == k
  {
    if k > 0 { OneByOneAt(k - 1); }
  }

  /** With one-item chunks and pages of 16, items 8 to 15 are on neither of the first two pages. */
  lemma {:induction false} SparseChunksSkipItems(item: Item)
    requires 8 <= item < 16
    ensures var first := Advance(OneByOne, FRESH, 16, MAX_CHUNKS_PER_REQUEST);
            var second := Advance(OneByOne, first, 32, MAX_CHUNKS_PER_REQUEST);
            && item !in SlicePage(first, 0, 16).collection && SlicePage(first, 0, 16).hasMore
            && item !in SlicePage(second, 1, 16).collection && item in second.items
  {
    var m := OneByOnePage(0, 16);
    var n := OneByOnePage(m, 32);
    assert After(OneByOne, n).items[item] == item;
  }

  // A request gets eight items further.
  lemma OneByOnePage(k: nat, need: nat) returns (m: nat)
    requires k + MAX_CHUNKS_PER_REQUEST <= need
    ensures m == k + MAX_CHUNKS_PER_REQUEST
    ensures Advance(OneByOne, After(OneByOne, k), need, MAX_CHUNKS_PER_REQUEST) == After(OneByOne, m)
    ensures |After(OneByOne, m).items| == m && !After(OneByOne, m).exhausted
    ensures forall i | 0 <= i < m :: After(OneByOne, m).items[i] == i
  {
    m := AdvanceIsAfter(OneByOne, k, need, MAX_CHUNKS_PER_REQUEST);
    OneByOneAt(m);
  }
}
