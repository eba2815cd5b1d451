/**
 * The response cache and its inverted index: entries with a time to live, the index of entries
 * per cache key, and the clearing of everything a cache key names.
 */
module CacheIndex {
  import opened Options

  const DEL_CHUNK := 500

  datatype CacheScope = Shared | User

  // ---- Index names ----

  function BuildIndexKey(cacheKey: string, scope: CacheScope, session: Option<string>): string {
    match scope
    case User => "idx:user:" + (if session.Some? then session.value else "") + ":" + cacheKey
    case Shared => "idx:shared:" + cacheKey
  }

  lemma PrefixesAgree(a: string, b: string, x: string, y: string)
    requires ':' !in a && ':' !in b && a + ":" + x == b + ":" + y
    ensures a == b && x == y
  {
    var s := a + ":" + x;
    assert s[|a|] == ':' && s[|b|] == ':';
    assert forall i | 0 <= i < |a| :: s[i] == a[i];
    assert forall i | 0 <= i < |b| :: s[i] == b[i];
    assert |a| == |b|;
    assert a == s[..|a|] && b == s[..|b|];
    assert x == s[|a| + 1..] && y == s[|b| + 1..];
  }

  lemma DropPrefix(p: string, x: string, y: string)
    ensures p + x == p + y <==> x == y
  {
    if p + x == p + y { assert x == (p + x)[|p|..]; assert y == (p + y)[|p|..]; }
  }

  function SessionPart(scope: CacheScope, session: Option<string>): string {
    if scope.User? && session.Some? then session.value else ""
  }

  lemma ScopesDiffer(x: string, y: string)
    ensures "idx:user:" + x != "idx:shared:" + y
  {
    assert ("idx:user:" + x)[4] == 'u' && ("idx:shared:" + y)[4] == 's';
  }

  lemma UserKeyParts(ck: string, session: Option<string>)
    ensures BuildIndexKey(ck, User, session) == "idx:user:" + (SessionPart(User, session) + ":" + ck)
  {
  }

  lemma UserKeyIsInjective(ck1: string, s1: Option<string>, ck2: string, s2: Option<string>)
    requires ':' !in SessionPart(User, s1) && ':' !in SessionPart(User, s2)
    requires BuildIndexKey(ck1, User, s1) == BuildIndexKey(ck2, User, s2)
    ensures ck1 == ck2 && SessionPart(User, s1) == SessionPart(User, s2)
  {
    var p1, p2 := SessionPart(User, s1), SessionPart(User, s2);
    UserKeyParts(ck1, s1);
    UserKeyParts(ck2, s2);
    DropPrefix("idx:user:", p1 + ":" + ck1, p2 + ":" + ck2);
    PrefixesAgree(p1, p2, ck1, ck2);
  }

  /** With session ids free of colons, two indexes share a name only if they are the same index. */
  lemma IndexKeyIsInjective(ck1: string, scope1: CacheScope, s1: Option<string>,
                            ck2: string, scope2: CacheScope, s2: Option<string>)
    requires ':' !in SessionPart(scope1, s1) && ':' !in SessionPart(scope2, s2)
    ensures BuildIndexKey(ck1, scope1, s1) == BuildIndexKey(ck2, scope2, s2) <==>
            ck1 == ck2 && scope1 == scope2 && SessionPart(scope1, s1) == SessionPart(scope2, s2)
  {
    if scope1.Shared? && scope2.Shared? {
      DropPrefix("idx:shared:", ck1, ck2);
    } else if scope1.User? && scope2.User? {
      if BuildIndexKey(ck1, User, s1) == BuildIndexKey(ck2, User, s2) { UserKeyIsInjective(ck1, s1, ck2, s2); }
    } else if scope1.User? {
      UserKeyParts(ck1, s1);
      ScopesDiffer(SessionPart(User, s1) + ":" + ck1, ck2);
    } else {
      UserKeyParts(ck2, s2);
      ScopesDiffer(SessionPart(User, s2) + ":" + ck2, ck1);
    }
  }

  /** A colon in the session id lets two users' indexes coincide. */
  lemma ColonSessionsCollide()
    ensures BuildIndexKey("c", User, Some("a:b")) == BuildIndexKey("b:c", User, Some("a"))
  {
    assert BuildIndexKey("c", User, Some("a:b")) == "idx:user:a:b:c";
    assert BuildIndexKey("b:c", User, Some("a")) == "idx:user:a:b:c";
  }

  // ---- The store ----

  // Which index a write named, and the expiry it recorded there; the store itself knows only
  // the payload and the expiry of the data.
  datatype Tag = Tag(index: string, score: int)

  datatype Entry = Entry(payload: string, expireAt: int, tag: Option<Tag>)

  datatype Index = Index(scores: map<string, int>, expireAt: int)

  // Data and indexes live under different key prefixes. Times are milliseconds.
  datatype Redis = Redis(data: map<string, Entry>, indexes: map<string, Index>)

  predicate Readable(r: Redis, key: string, at: int) {
    key in r.data && at < r.data[key].expireAt
  }

  function Scores(r: Redis, index: string, at: int): map<string, int> {
    if index in r.indexes && at < r.indexes[index].expireAt then r.indexes[index].scores else map[]
  }

  function Members(r: Redis, index: string, at: int): set<string> {
    Scores(r, index, at).Keys
  }

  // One set_raw: the caller read its clock at `now`, before the transaction ran.
  datatype Write = Write(key: string, payload: string, ttl: nat, index: Option<string>, now: int)

  function Expiry(w: Write): int { w.now + w.ttl * 1000 }

  function SetData(r: Redis, w: Write, at: int): map<string, Entry> {
    var tag := if w.index.Some? then Some(Tag(w.index.value, Expiry(w))) else None;
    if w.ttl == 0 then r.data   // SETEX refuses a zero time to live, the rest still runs
    else r.data[w.key := Entry(w.payload, at + w.ttl * 1000, tag)]
  }

  function SetScores(r: Redis, w: Write, index: string, at: int): map<string, int> {
    var added := Scores(r, index, at)[w.key := Expiry(w)];
    map m | m in added && !(0 <= added[m] <= w.now) :: added[m]
  }

  function SetIndexes(r: Redis, w: Write, at: int): map<string, Index> {
    if w.index.None? then r.indexes else
    var index := w.index.value;
    var scores := SetScores(r, w, index, at);
    if scores == map[] || Expiry(w) <= at then r.indexes - {index}
    else r.indexes[index := Index(scores, Expiry(w))]
  }

  function Set(r: Redis, w: Write, at: int): Redis {
    Redis(SetData(r, w, at), SetIndexes(r, w, at))
  }

  // ---- Clearing, as the service runs it ----

  predicate IsSpace(c: char) {
    var n := c as int;
    || 9 <= n <= 13 || n == 0x20 || n == 0x85 || n == 0xA0 || n == 0x1680 || 0x2000 <= n <= 0x200A
    || n == 0x2028 || n == 0x2029 || n == 0x202F || n == 0x205F || n == 0x3000
  }

  function Trim(s: string): string {
    if s == "" then s
    else if IsSpace(s[0]) then Trim(s[1..])
    else if IsSpace(s[|s| - 1]) then Trim(s[..|s| - 1])
    else s
  }

  predicate AllSpace(s: string) { forall i | 0 <= i < |s| :: IsSpace(s[i]) }

  lemma SpaceAdds(s: string, t: string)
    requires AllSpace(s) && AllSpace(t)
    ensures AllSpace(s + t)
  {
  }

  lemma Framed(a: string, front: string, s: string, back: string, b: string)
    ensures a + (front + s + back) + b == (a + front) + s + (back + b)
  {
  }

  /** Trimming takes off white space at both ends, and as much of it as there is. */
  lemma {:induction false} TrimTakesTheEnds(s: string) returns (front: string, back: string)
    ensures s == front + Trim(s) + back && AllSpace(front) && AllSpace(back)
    ensures Trim(s) != "" ==> !IsSpace(Trim(s)[0]) && !IsSpace(Trim(s)[|Trim(s)| - 1])
  {
    if s == "" {
      front, back := "", "";
    } else if IsSpace(s[0]) {
      front, back := TrimTakesTheEnds(s[1..]);
      SpaceAdds(s[..1], front);
      Framed(s[..1], front, Trim(s), back, []);
      front := s[..1] + front;
    } else if IsSpace(s[|s| - 1]) {
      front, back := TrimTakesTheEnds(s[..|s| - 1]);
      SpaceAdds(back, s[|s| - 1..]);
      Framed([], front, Trim(s), back, s[|s| - 1..]);
      back := back + s[|s| - 1..];
    } else {
      front, back := "", "";
    }
  }

  // The index is one of those that clearing these cache keys goes through.
  predicate Named(cacheKeys: seq<string>, session: Option<string>, index: string) {
    exists i | 0 <= i < |cacheKeys| :: NamedBy(cacheKeys[i], session, index)
  }

  predicate NamedBy(cacheKey: string, session: Option<string>, index: string) {
    var name := Trim(cacheKey);
    && name != ""
    && (|| index == BuildIndexKey(name, Shared, None)
        || (session.Some? && index == BuildIndexKey(name, User, session)))
  }

  // The entry is listed in one of these indexes.
  ghost predicate Listed(r: Redis, indexes: set<string>, key: string, at: int) {
    exists index | index in indexes :: key in Members(r, index, at)
  }

  // What is left after these indexes were tried and those of them cleared: nothing a cleared one
  // lists, everything that none lists, and for the rest, whatever the failed clears got to.
  ghost predicate Cleared(r: Redis, t: Redis, tried: set<string>, cleared: set<string>, at: int) {
    && (forall k | k in t.data :: k in r.data && t.data[k] == r.data[k] && !Listed(r, cleared, k, at))
    && (forall k | k in r.data && k !in t.data :: Listed(r, tried, k, at))
    && t.indexes == r.indexes - cleared
  }

  class CacheService {
    var redis: Redis

    constructor ()
      ensures redis == Redis(map[], map[])
    {
      redis := Redis(map[], map[]);
    }

    method SetRaw(key: string, payload: string, ttl: nat, cacheKey: Option<string>, scope: CacheScope,
                  session: Option<string>, now: int, at: int)
      modifies this
      ensures var index := if cacheKey.Some? then Some(BuildIndexKey(cacheKey.value, scope, session)) else None;
              redis == Set(old(redis), Write(key, payload, ttl, index, now), at)
    {
      var data, indexes := redis.data, redis.indexes;
      ghost var index := if cacheKey.Some? then Some(BuildIndexKey(cacheKey.value, scope, session)) else None;
      ghost var w := Write(key, payload, ttl, index, now);
      if ttl > 0 {
        var tag := if cacheKey.None? then None
                   else Some(Tag(BuildIndexKey(cacheKey.value, scope, session), now + ttl * 1000));
        data := data[key := Entry(payload, at + ttl * 1000, tag)];
      }
      if cacheKey.Some? {
        var indexKey := BuildIndexKey(cacheKey.value, scope, session);
        var expireAt := now + ttl * 1000;
        var scores := Scores(redis, indexKey, at)[key := expireAt];
        scores := map m | m in scores && !(0 <= scores[m] <= now) :: scores[m];
        assert scores == SetScores(redis, w, indexKey, at);
        if scores == map[] || expireAt <= at {
          indexes := indexes - {indexKey};
        } else {
          indexes := indexes[indexKey := Index(scores, expireAt)];
        }
      }
      redis := Redis(data, indexes);
    }

    method ZRange(index: string, at: int) returns (members: seq<string>)
      ensures forall m :: m in members <==> m in Members(redis, index, at)
    {
      members := [];
      var rest := Members(redis, index, at);
      while rest != {}
        invariant forall m :: m in Members(redis, index, at) <==> m in members || m in rest
        decreases rest
      {
        var m :| m in rest;
        members, rest := members + [m], rest - {m};
      }
    }

    // `breaks` is after how many deletions the store fails, if it does.
    method ClearIndex(index: string, at: int, breaks: Option<nat>) returns (ok: bool)
      modifies this
      ensures ok <==> breaks.None?
      ensures ok ==> redis.data == old(redis).data - Members(old(redis), index, at)
                     && redis.indexes == old(redis).indexes - {index}
      ensures !ok ==> redis.indexes == old(redis).indexes
                      && exists gone | gone <= Members(old(redis), index, at) :: redis.data == old(redis).data - gone
    {
      var members := ZRange(index, at);
      var data, from, chunks := redis.data, 0, 0;
      FrontIsAll(members, Members(redis, index, at));
      while from < |members|
        invariant 0 <= from <= |members| && 0 <= chunks
        invariant redis == old(redis) && data == redis.data - Front(members, from)
      {
        if breaks == Some(chunks) {
          FrontIsPart(members, from);
          redis := Redis(data, redis.indexes);
          return false;
        }
        var to := if from + DEL_CHUNK <= |members| then from + DEL_CHUNK else |members|;
        FrontGrows(redis.data, members, from, to);
        data := data - (set i | from <= i < to :: members[i]);
        from, chunks := to, chunks + 1;
      }
      ok := breaks.None?;
      redis := Redis(data, if ok then redis.indexes - {index} else redis.indexes);
    }

    // The indexes to clear, each once.
    method IndexKeys(cacheKeys: seq<string>, session: Option<string>) returns (indexKeys: set<string>)
      ensures forall index :: index in indexKeys <==> Named(cacheKeys, session, index)
    {
      var seen: set<string> := {};
      var i := 0;
      while i < |cacheKeys|
        invariant 0 <= i <= |cacheKeys|
        invariant forall name :: name in seen <==>
          name != "" && exists j | 0 <= j < i :: Trim(cacheKeys[j]) == name
      {
        if Trim(cacheKeys[i]) != "" { seen := seen + {Trim(cacheKeys[i])}; }
        i := i + 1;
      }
      indexKeys := set name | name in seen :: BuildIndexKey(name, Shared, None);
      if session.Some? {
        indexKeys := indexKeys + set name | name in seen :: BuildIndexKey(name, User, session);
      }
      NamesAreComplete(cacheKeys, session, seen, indexKeys);
    }

    // One index at a time, in whatever order; one that fails is skipped.
    method ClearByCacheKeys(cacheKeys: seq<string>, session: Option<string>, at: int, breaks: string -> Option<nat>)
        returns (indexKeys: set<string>)
      modifies this
      ensures forall index :: index in indexKeys <==> Named(cacheKeys, session, index)
      ensures Cleared(old(redis), redis, indexKeys, Unbroken(indexKeys, breaks), at)
    {
      indexKeys := IndexKeys(cacheKeys, session);
      var rest, done: set<string> := indexKeys, {};
      ClearedNothing(redis, at, breaks);
      while rest != {}
        invariant done + rest == indexKeys && done !! rest
        invariant Cleared(old(redis), redis, done, Unbroken(done, breaks), at)
        decreases rest
      {
        var index :| index in rest;
        ghost var before := redis;
        var ok := ClearIndex(index, at, breaks(index));
        ClearedOneMore(old(redis), before, redis, done, index, at, breaks);
        rest, done := rest - {index}, done + {index};
      }
      assert done == indexKeys;
    }
  }

  function Unbroken(indexes: set<string>, breaks: string -> Option<nat>): set<string> {
    set index | index in indexes && breaks(index).None?
  }

  function Front(members: seq<string>, n: nat): set<string>
    requires n <= |members|
  {
    set i | 0 <= i < n :: members[i]
  }

  lemma FrontIsAll(members: seq<string>, all: set<string>)
    requires forall m :: m in members <==> m in all
    ensures Front(members, |members|) == all
  {
    forall m | m in all ensures m in Front(members, |members|) {
      var i :| 0 <= i < |members| && members[i] == m;
    }
  }

  lemma FrontIsPart(members: seq<string>, n: nat)
    requires n <= |members|
    ensures Front(members, n) <= Front(members, |members|)
  {
  }

  lemma FrontGrows(data: map<string, Entry>, members: seq<string>, from: nat, to: nat)
    requires from <= to <= |members|
    ensures (data - Front(members, from)) - (set i | from <= i < to :: members[i]) == data - Front(members, to)
  {
    var chunk := set i | from <= i < to :: members[i];
    assert Front(members, to) == Front(members, from) + chunk;
  }

  lemma NamesAreComplete(cacheKeys: seq<string>, session: Option<string>, seen: set<string>, indexKeys: set<string>)
    requires forall name :: name in seen <==>
               name != "" && exists j | 0 <= j < |cacheKeys| :: Trim(cacheKeys[j]) == name
    requires indexKeys == (set name | name in seen :: BuildIndexKey(name, Shared, None))
                          + if session.Some? then set name | name in seen :: BuildIndexKey(name, User, session) else {}
    ensures forall index :: index in indexKeys <==> Named(cacheKeys, session, index)
  {
    forall index | Named(cacheKeys, session, index) ensures index in indexKeys {
      var i :| 0 <= i < |cacheKeys| && NamedBy(cacheKeys[i], session, index);
      assert Trim(cacheKeys[i]) in seen;
    }
    forall index | index in indexKeys ensures Named(cacheKeys, session, index) {
      var name :| name in seen && (index == BuildIndexKey(name, Shared, None)
                                   || (session.Some? && index == BuildIndexKey(name, User, session)));
      var j :| 0 <= j < |cacheKeys| && Trim(cacheKeys[j]) == name;
      assert NamedBy(cacheKeys[j], session, index);
    }
  }

  lemma ClearedNothing(r: Redis, at: int, breaks: string -> Option<nat>)
    ensures Cleared(r, r, {}, Unbroken({}, breaks), at)
  {
  }

  lemma ListedOneMore(r: Redis, indexes: set<string>, index: string, key: string, at: int)
    ensures Listed(r, indexes + {index}, key, at) <==> Listed(r, indexes, key, at) || key in Members(r, index, at)
  {
    if Listed(r, indexes, key, at) {
      var i :| i in indexes && key in Members(r, i, at);
      assert i in indexes + {index};
    }
    if key in Members(r, index, at) { assert index in indexes + {index}; }
  }

  lemma ClearedOneMore(r: Redis, t: Redis, u: Redis, done: set<string>, index: string, at: int,
                       breaks: string -> Option<nat>)
    requires Cleared(r, t, done, Unbroken(done, breaks), at) && index !in done
    requires breaks(index).None? ==>
               u.data == t.data - Members(t, index, at) && u.indexes == t.indexes - {index}
    requires breaks(index).Some? ==>
               u.indexes == t.indexes && exists gone | gone <= Members(t, index, at) :: u.data == t.data - gone
    ensures Cleared(r, u, done + {index}, Unbroken(done + {index}, breaks), at)
  {
    var cleared := Unbroken(done, breaks);
    assert Members(t, index, at) == Members(r, index, at);
    forall k
      ensures Listed(r, done + {index}, k, at) <==> Listed(r, done, k, at) || k in Members(r, index, at)
      ensures Listed(r, cleared + {index}, k, at) <==> Listed(r, cleared, k, at) || k in Members(r, index, at)
    {
      ListedOneMore(r, done, index, k, at);
      ListedOneMore(r, cleared, index, k, at);
    }
    assert Unbroken(done + {index}, breaks) == if breaks(index).None? then cleared + {index} else cleared;
  }
}
