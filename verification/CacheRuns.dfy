/**
 * Whole runs against the store: writes, and clears that read an index, delete its members chunk
 * by chunk and then drop it, all interleaved one command at a time.
 */
module CacheRuns {
  import opened Options
  import opened CacheIndex

  datatype Clearing = Clearing(index: string, todo: seq<string>)

  datatype State = State(redis: Redis, clock: int, clears: map<nat, Clearing>)

  datatype Action =
    | Store(w: Write, at: int)
    | Begin(id: nat, index: string, members: seq<string>, at: int)
    | Delete(id: nat, at: int)
    | Finish(id: nat, at: int)

  const INITIAL := State(Redis(map[], map[]), 0, map[])

  // The store's clock never runs back, and no caller's clock is ahead of it.
  predicate Enabled(s: State, a: Action) {
    s.clock <= a.at &&
    match a
    case Store(w, at) => w.now <= at
    case Begin(id, index, members, at) =>
      id !in s.clears && (set i | 0 <= i < |members| :: members[i]) == Members(s.redis, index, at)
    case Delete(id, _) => id in s.clears && s.clears[id].todo != []
    case Finish(id, _) => id in s.clears && s.clears[id].todo == []
  }

  function Step(s: State, a: Action): State
    requires Enabled(s, a)
  {
    match a
    case Store(w, at) => State(Set(s.redis, w, at), at, s.clears)
    case Begin(id, index, members, at) => State(s.redis, at, s.clears[id := Clearing(index, members)])
    case Delete(id, at) => DeleteStep(s, id, at)
    case Finish(id, at) =>
      State(s.redis.(indexes := s.redis.indexes - {s.clears[id].index}), at, s.clears - {id})
  }

  function DeleteStep(s: State, id: nat, at: int): State
    requires id in s.clears
  {
    var todo := s.clears[id].todo;
    var n := if |todo| <= DEL_CHUNK then |todo| else DEL_CHUNK;
    State(s.redis.(data := s.redis.data - Front(todo, n)), at,
          s.clears[id := Clearing(s.clears[id].index, todo[n..])])
  }

  function Run(actions: seq<Action>): Option<State> {
    if actions == [] then Some(INITIAL) else
    var n := |actions| - 1;
    match Run(actions[..n])
    case None => None
    case Some(s) => if Enabled(s, actions[n]) then Some(Step(s, actions[n])) else None
  }

  // ---- The cover ----

  // This entry was written under the index, which recorded an expiry still to come.
  predicate LiveIn(r: Redis, key: string, index: string, at: int) {
    key in r.data && r.data[key].tag.Some? && r.data[key].tag.value.index == index && at < r.data[key].tag.value.score
  }

  // The index exists as long as the entry's recorded expiry, and lists it with that expiry.
  predicate Registered(r: Redis, key: string, index: string)
    requires key in r.data && r.data[key].tag.Some?
  {
    var score := r.data[key].tag.value.score;
    && index in r.indexes && score <= r.indexes[index].expireAt
    && key in r.indexes[index].scores && r.indexes[index].scores[key] == score
  }

  ghost predicate Covered(r: Redis, at: int) {
    forall key, index | LiveIn(r, key, index, at) :: Registered(r, key, index)
  }

  // The new expiry is no earlier than that of any other entry that lives under the index.
  ghost predicate NonDecreasing(r: Redis, w: Write, at: int) {
    w.index.Some? ==>
      forall key | LiveIn(r, key, w.index.value, at) && !(key == w.key && w.ttl > 0) ::
        r.data[key].tag.value.score <= Expiry(w)
  }

  // What a write does to the registration of one entry.
  lemma EntryAfterSet(r: Redis, w: Write, at: int, key: string, index: string)
    requires w.now <= at && Covered(r, at) && LiveIn(Set(r, w, at), key, index, at)
    ensures var t := Set(r, w, at);
            if w.index != Some(index) then Registered(t, key, index)
            else if key == w.key && w.ttl > 0 then Registered(t, key, index)
            else Registered(t, key, index) <==> r.data[key].tag.value.score <= Expiry(w)
    ensures !(key == w.key && w.ttl > 0) ==> LiveIn(r, key, index, at)
  {
    var t := Set(r, w, at);
    var scores := SetScores(r, w, index, at);
    if !(key == w.key && w.ttl > 0) {
      assert t.data[key] == r.data[key];
      assert LiveIn(r, key, index, at) && Registered(r, key, index);
      assert key != w.key ==> key in scores && scores[key] == r.data[key].tag.value.score;
    } else if w.index == Some(index) {
      assert key in scores && scores[key] == Expiry(w);
    }
  }

  /** A write keeps every live entry in its index exactly when it does not shorten the index's life. */
  lemma SetKeepsCoverExactly(r: Redis, w: Write, at: int)
    requires w.now <= at && Covered(r, at)
    ensures Covered(Set(r, w, at), at) <==> NonDecreasing(r, w, at)
  {
    var t := Set(r, w, at);
    forall key, index | LiveIn(t, key, index, at) && NonDecreasing(r, w, at)
      ensures Registered(t, key, index)
    {
      EntryAfterSet(r, w, at, key, index);
    }
    if Covered(t, at) && w.index.Some? {
      forall key | LiveIn(r, key, w.index.value, at) && !(key == w.key && w.ttl > 0)
        ensures r.data[key].tag.value.score <= Expiry(w)
      {
        assert LiveIn(t, key, w.index.value, at);
        EntryAfterSet(r, w, at, key, w.index.value);
      }
    }
  }

  // Every clear under way of this index is still to delete the key.
  ghost predicate WillBeDeleted(s: State, key: string, index: string) {
    forall id | id in s.clears && s.clears[id].index == index :: key in s.clears[id].todo
  }

  // The write does not shorten the index's life, and if it makes an entry that lives under an index
  // being cleared, the clear has the entry on its list.
  ghost predicate Harmless(s: State, w: Write, at: int) {
    w.index.Some? ==>
      && NonDecreasing(s.redis, w, at)
      && (at < Expiry(w) ==> WillBeDeleted(s, w.key, w.index.value))
  }

  ghost predicate Calm(s: State, a: Action) {
    a.Store? ==> Harmless(s, a.w, a.at)
  }

  ghost predicate CalmRun(actions: seq<Action>) {
    actions != [] ==>
      var n := |actions| - 1;
      CalmRun(actions[..n]) && (Run(actions[..n]).Some? ==> Calm(Run(actions[..n]).value, actions[n]))
  }

  // A clear under way has yet to delete every entry that still lives under its index.
  ghost predicate Pending(s: State, id: nat)
    requires id in s.clears
  {
    forall key | LiveIn(s.redis, key, s.clears[id].index, s.clock) :: key in s.clears[id].todo
  }

  ghost predicate Inv(s: State) {
    Covered(s.redis, s.clock) && forall id | id in s.clears :: Pending(s, id)
  }

  lemma CoverLasts(r: Redis, at: int, later: int)
    requires Covered(r, at) && at <= later
    ensures Covered(r, later)
  {
    forall key, index | LiveIn(r, key, index, later) ensures Registered(r, key, index) {
      assert LiveIn(r, key, index, at);
    }
  }

  // What lives under an index after a write lived there before, but for the entry written.
  lemma LiveAfterSet(r: Redis, w: Write, at: int, key: string, index: string)
    requires w.now <= at
    ensures LiveIn(Set(r, w, at), key, index, at) <==>
            if key == w.key && w.ttl > 0 then w.index == Some(index) && at < Expiry(w)
            else LiveIn(r, key, index, at)
  {
  }

  lemma PendingAfterSet(s: State, w: Write, at: int, id: nat)
    requires Enabled(s, Store(w, at)) && id in s.clears && Pending(s, id)
    ensures Pending(Step(s, Store(w, at)), id) <==>
            (w.index == Some(s.clears[id].index) && at < Expiry(w) ==> w.key in s.clears[id].todo)
  {
    var t, index := Step(s, Store(w, at)), s.clears[id].index;
    forall key ensures LiveIn(s.redis, key, index, at) ==> key in s.clears[id].todo {
      assert LiveIn(s.redis, key, index, at) ==> LiveIn(s.redis, key, index, s.clock);
    }
    forall key
      ensures LiveIn(t.redis, key, index, at) <==>
              if key == w.key && w.ttl > 0 then w.index == Some(index) && at < Expiry(w)
              else LiveIn(s.redis, key, index, at)
    {
      LiveAfterSet(s.redis, w, at, key, index);
    }
  }

  /**
   * A write keeps the invariant exactly when it is harmless: the guard a writer would have to check
   * for its entry to be found, or deleted, by every clear of its index, now or later.
   */
  lemma StoreKeepsInvExactly(s: State, w: Write, at: int)
    requires Inv(s) && Enabled(s, Store(w, at))
    ensures Inv(Step(s, Store(w, at))) <==> Harmless(s, w, at)
  {
    CoverLasts(s.redis, s.clock, at);
    SetKeepsCoverExactly(s.redis, w, at);
    forall id | id in s.clears
      ensures Pending(Step(s, Store(w, at)), id) <==>
              (w.index == Some(s.clears[id].index) && at < Expiry(w) ==> w.key in s.clears[id].todo)
    {
      assert Pending(s, id);
      PendingAfterSet(s, w, at, id);
    }
  }

  lemma LiveIsMember(r: Redis, key: string, index: string, at: int)
    requires Covered(r, at) && LiveIn(r, key, index, at)
    ensures key in Members(r, index, at)
  {
    assert Registered(r, key, index);
  }

  lemma BeginKeepsInv(s: State, id: nat, index: string, members: seq<string>, at: int)
    requires Inv(s) && Enabled(s, Begin(id, index, members, at))
    ensures Inv(Step(s, Begin(id, index, members, at)))
  {
    var t := Step(s, Begin(id, index, members, at));
    CoverLasts(s.redis, s.clock, at);
    forall i | i in t.clears ensures Pending(t, i) {
      forall key | LiveIn(t.redis, key, t.clears[i].index, at) ensures key in t.clears[i].todo {
        if i == id {
          LiveIsMember(s.redis, key, index, at);
          assert key in (set k | 0 <= k < |members| :: members[k]);
        } else {
          assert Pending(s, i) && LiveIn(s.redis, key, s.clears[i].index, s.clock);
        }
      }
    }
  }

  lemma FrontOrRest(todo: seq<string>, n: nat, key: string)
    requires n <= |todo| && key in todo
    ensures key in Front(todo, n) || key in todo[n..]
  {
    var i :| 0 <= i < |todo| && todo[i] == key;
    if i >= n { assert todo[n..][i - n] == key; }
  }

  lemma DeleteKeepsInv(s: State, id: nat, at: int)
    requires Inv(s) && Enabled(s, Delete(id, at))
    ensures Inv(DeleteStep(s, id, at))
  {
    var t := DeleteStep(s, id, at);
    forall key, index | LiveIn(t.redis, key, index, at) ensures Registered(t.redis, key, index) {
      assert LiveIn(s.redis, key, index, s.clock);
    }
    forall i | i in t.clears ensures Pending(t, i) {
      forall key | LiveIn(t.redis, key, t.clears[i].index, at) ensures key in t.clears[i].todo {
        assert Pending(s, i) && LiveIn(s.redis, key, s.clears[i].index, s.clock);
        if i == id { FrontOrRest(s.clears[id].todo, |s.clears[id].todo| - |t.clears[id].todo|, key); }
      }
    }
  }

  lemma FinishKeepsInv(s: State, id: nat, at: int)
    requires Inv(s) && Enabled(s, Finish(id, at))
    ensures Inv(Step(s, Finish(id, at)))
  {
    var t := Step(s, Finish(id, at));
    forall key, index | LiveIn(t.redis, key, index, at) ensures Registered(t.redis, key, index) {
      assert LiveIn(s.redis, key, index, s.clock) && Pending(s, id);
    }
    forall i | i in t.clears ensures Pending(t, i) {
      forall key | LiveIn(t.redis, key, t.clears[i].index, at) ensures key in t.clears[i].todo {
        assert Pending(s, i) && LiveIn(s.redis, key, s.clears[i].index, s.clock);
      }
    }
  }

  /** Dropping an index keeps the cover exactly when no entry still lives under it. */
  lemma FinishKeepsCoverExactly(s: State, id: nat, at: int)
    requires Covered(s.redis, at) && Enabled(s, Finish(id, at))
    ensures Covered(Step(s, Finish(id, at)).redis, at) <==>
            forall key :: !LiveIn(s.redis, key, s.clears[id].index, at)
  {
    var r, t, dropped := s.redis, Step(s, Finish(id, at)).redis, s.clears[id].index;
    if forall key :: !LiveIn(r, key, dropped, at) {
      forall key, index | LiveIn(t, key, index, at) ensures Registered(t, key, index) {
        assert LiveIn(r, key, index, at) && Registered(r, key, index);
      }
    } else {
      var key :| LiveIn(r, key, dropped, at);
      assert LiveIn(t, key, dropped, at) && !Registered(t, key, dropped);
    }
  }

  lemma StepKeepsInv(s: State, a: Action)
    requires Inv(s) && Enabled(s, a) && Calm(s, a)
    ensures Inv(Step(s, a))
  {
    match a
    case Store(w, at) => StoreKeepsInvExactly(s, w, at);
    case Begin(id, index, members, at) => BeginKeepsInv(s, id, index, members, at);
    case Delete(id, at) => DeleteKeepsInv(s, id, at);
    case Finish(id, at) => FinishKeepsInv(s, id, at);
  }

  /** In every calm run, every entry whose recorded expiry is still to come is in its live index. */
  lemma {:induction false} RunKeepsInv(actions: seq<Action>)
    requires Run(actions).Some? && CalmRun(actions)
    ensures Inv(Run(actions).value)
  {
    if actions != [] {
      var n := |actions| - 1;
      RunKeepsInv(actions[..n]);
      StepKeepsInv(Run(actions[..n]).value, actions[n]);
    }
  }

  // No entry written under the index can be read, but for one past its recorded expiry, which
  // the store keeps for as long as the write took to reach it.
  ghost predicate OnlyLate(r: Redis, index: string, at: int) {
    forall key | Readable(r, key, at) && r.data[key].tag.Some? && r.data[key].tag.value.index == index ::
      r.data[key].tag.value.score <= at
  }

  /** When a clear finishes in a calm run, nothing written under its index can be read any more. */
  lemma {:induction false} ClearLeavesNothing(actions: seq<Action>, id: nat, at: int)
    requires Run(actions).Some? && CalmRun(actions) && Enabled(Run(actions).value, Finish(id, at))
    ensures OnlyLate(Step(Run(actions).value, Finish(id, at)).redis, Run(actions).value.clears[id].index, at)
  {
    var s := Run(actions).value;
    RunKeepsInv(actions);
    assert Pending(s, id);
    forall key | Readable(s.redis, key, at) && s.redis.data[key].tag.Some?
                 && s.redis.data[key].tag.value.index == s.clears[id].index
      ensures s.redis.data[key].tag.value.score <= at
    {
      assert !LiveIn(s.redis, key, s.clears[id].index, s.clock);
    }
  }

  /** The same for the service's own clear of several cache keys, for every index that did not fail. */
  lemma ClearedKeysAreGone(r: Redis, t: Redis, cacheKeys: seq<string>, session: Option<string>,
                           indexKeys: set<string>, breaks: string -> Option<nat>, at: int, index: string)
    requires Covered(r, at) && Cleared(r, t, indexKeys, Unbroken(indexKeys, breaks), at)
    requires forall i :: i in indexKeys <==> Named(cacheKeys, session, i)
    requires Named(cacheKeys, session, index) && breaks(index).None?
    ensures OnlyLate(t, index, at)
  {
    forall key | Readable(t, key, at) && t.data[key].tag.Some? && t.data[key].tag.value.index == index
      ensures t.data[key].tag.value.score <= at
    {
      if LiveIn(r, key, index, at) { LiveIsMember(r, key, index, at); }
    }
  }

  /** An entry that reached the store the moment its caller read the clock is never late. */
  lemma PromptEntriesAreGone(r: Redis, w: Write, at: int, index: string, later: int)
    requires w.index == Some(index) && w.ttl > 0 && w.now == at
    requires OnlyLate(r, index, later) && w.key in r.data && r.data[w.key] == Set(r, w, at).data[w.key]
    ensures !Readable(r, w.key, later)
  {
  }

  // ---- What goes wrong without these conditions ----

  lemma RunExtends(actions: seq<Action>, a: Action)
    requires Run(actions).Some? && Enabled(Run(actions).value, a)
    ensures Run(actions + [a]) == Some(Step(Run(actions).value, a))
  {
    assert (actions + [a])[..|actions|] == actions;
  }

  /**
   * A write that lands between the reading of an index and its removal, and is not on the clear's
   * list, is left readable and in no index, so no later clear of that index finds it.
   */
  lemma RaceOrphansAnEntry(index: string, key: string, payload: string, ttl: nat)
    requires ttl > 0
    ensures var w := Write(key, payload, ttl, Some(index), 0);
            var actions := [Begin(0, index, [], 0), Store(w, 0), Finish(0, 0)];
            && Run(actions).Some? && Readable(Run(actions).value.redis, key, 0)
            && Members(Run(actions).value.redis, index, 0) == {}
  {
    var w := Write(key, payload, ttl, Some(index), 0);
    var actions := [Begin(0, index, [], 0), Store(w, 0), Finish(0, 0)];
    assert actions[..0] + [actions[0]] == actions[..1];
    RunExtends(actions[..0], actions[0]);
    assert actions[..1] + [actions[1]] == actions[..2];
    RunExtends(actions[..1], actions[1]);
    assert actions[..2] + [actions[2]] == actions;
    RunExtends(actions[..2], actions[2]);
  }

  /** A later write with a shorter life takes the index down with it, and leaves the longer entry out. */
  lemma ShorterLifeOrphansAnEntry(index: string, long: string, short: string, payload: string)
    requires long != short
    ensures var actions := [Store(Write(long, payload, 10, Some(index), 0), 0),
                            Store(Write(short, payload, 1, Some(index), 0), 0)];
            && Run(actions).Some? && Readable(Run(actions).value.redis, long, 2000)
            && Members(Run(actions).value.redis, index, 2000) == {}
  {
    var actions := [Store(Write(long, payload, 10, Some(index), 0), 0),
                    Store(Write(short, payload, 1, Some(index), 0), 0)];
    assert actions[..0] + [actions[0]] == actions[..1];
    RunExtends(actions[..0], actions[0]);
    assert actions[..1] + [actions[1]] == actions;
    RunExtends(actions[..1], actions[1]);
  }

  // ---- What stays as it is ----

  /** An entry goes only by being on the list of a clear, and changes only by being written. */
  lemma OnlyListedEntriesGo(s: State, a: Action, key: string)
    requires Enabled(s, a) && key in s.redis.data
    ensures var data := Step(s, a).redis.data;
            && (key !in data ==> a.Delete? && key in s.clears[a.id].todo)
            && (key in data && data[key] != s.redis.data[key] ==> a.Store? && a.w.key == key && a.w.ttl > 0)
  {
  }

  /** A deletion takes the next 500 of its list, or all that is left, and leaves the rest of the list. */
  lemma DeletesInChunks(s: State, id: nat, at: int, key: string)
    requires Enabled(s, Delete(id, at))
    ensures var t, todo := Step(s, Delete(id, at)), s.clears[id].todo;
            var n := |todo| - |t.clears[id].todo|;
            && n == (if |todo| < 500 then |todo| else 500) && t.clears[id].todo == todo[n..]
            && (key in t.redis.data <==> key in s.redis.data && key !in todo[..n])
  {
    var todo := s.clears[id].todo;
    var n := if |todo| <= DEL_CHUNK then |todo| else DEL_CHUNK;
    assert key in todo[..n] <==> key in Front(todo, n) by {
      if key in todo[..n] {
        var i :| 0 <= i < n && todo[..n][i] == key;
        assert todo[i] == key;
      }
      if key in Front(todo, n) {
        var i :| 0 <= i < n && todo[i] == key;
        assert todo[..n][i] == key;
      }
    }
  }
}
