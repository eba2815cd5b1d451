/**
 * The local storage backend and the writer that retries its commits: a commit keeps the stored
 * file unless the new one is longer, and puts a new file in place through a staged copy.
 */
module LocalStore {
  import opened Options

  const DURATION_EPSILON_SECS: real := 2.0

  // A file by its contents and the duration a working probe reads from it, in seconds.
  datatype File = File(contents: nat, seconds: real)

  // Moving the source beside its destination: by rename, or across devices by copy and remove.
  datatype Move = Renamed | CrossDevice(copied: bool, removed: bool) | Refused

  // How each system call of one commit goes, should the commit come to it.
  datatype Env = Env(
    statWorks: bool, storedProbed: bool, sourceProbed: bool, dirMade: bool, move: Move,
    renamed: bool, statWorksAgain: bool, storedRemoved: bool, renamedAgain: bool)

  function Lookup<K, V>(m: map<K, V>, k: K): Option<V> {
    if k in m then Some(m[k]) else None
  }

  function Updated<K, V>(m: map<K, V>, k: K, v: Option<V>): map<K, V> {
    if v.Some? then m[k := v.value] else m - {k}
  }

  // ---- What one commit does to the stored file and to its source ----

  predicate Keeps(stored: Option<File>, source: Option<File>, env: Env) {
    && stored.Some? && source.Some? && env.statWorks && env.storedProbed && env.sourceProbed
    && stored.value.seconds + DURATION_EPSILON_SECS >= source.value.seconds
  }

  // The source has left its place for the staging file.
  predicate Moves(source: Option<File>, env: Env) {
    && source.Some? && env.dirMade
    && (env.move.Renamed? || (env.move.CrossDevice? && env.move.copied && env.move.removed))
  }

  // A first rename that fails is answered by removing the stored file and renaming once more.
  predicate SecondTry(stored: Option<File>, env: Env) {
    !env.renamed && stored.Some? && env.statWorksAgain && env.storedRemoved
  }

  predicate Lands(stored: Option<File>, source: Option<File>, env: Env) {
    !Keeps(stored, source, env) && Moves(source, env)
    && (env.renamed || (SecondTry(stored, env) && env.renamedAgain))
  }

  predicate Loses(stored: Option<File>, source: Option<File>, env: Env) {
    !Keeps(stored, source, env) && Moves(source, env) && SecondTry(stored, env) && !env.renamedAgain
  }

  predicate Succeeds(stored: Option<File>, source: Option<File>, env: Env) {
    Keeps(stored, source, env) || Lands(stored, source, env)
  }

  function StoredAfter(stored: Option<File>, source: Option<File>, env: Env): Option<File> {
    if Lands(stored, source, env) then source
    else if Loses(stored, source, env) then None
    else stored
  }

  function SourceAfter(stored: Option<File>, source: Option<File>, env: Env): Option<File> {
    if Keeps(stored, source, env) || Moves(source, env) then None else source
  }

  class LocalBackend {
    var objects: map<string, File>   // by storage key
    var sources: map<string, File>   // by temporary path

    constructor ()
      ensures objects == map[] && sources == map[]
    {
      objects, sources := map[], map[];
    }

    method ShouldKeepExisting(key: string, src: string, env: Env) returns (keep: bool)
      ensures keep == Keeps(Lookup(objects, key), Lookup(sources, src), env)
    {
      if key !in objects || !env.statWorks { return false; }
      if !env.storedProbed { return false; }
      var existing := objects[key].seconds;
      if src !in sources || !env.sourceProbed { return false; }
      var candidate := sources[src].seconds;
      return existing + DURATION_EPSILON_SECS >= candidate;
    }

    // The staged copy, if the source got there; a partial copy is removed by the caller.
    method MoveOrCopyFile(src: string, move: Move) returns (staged: Option<File>)
      modifies this`sources
      ensures staged.Some? <==>
              src in old(sources) && (move.Renamed? || (move.CrossDevice? && move.copied && move.removed))
      ensures staged.Some? ==> staged == Some(old(sources)[src]) && sources == old(sources) - {src}
      ensures staged.None? ==> sources == old(sources)
    {
      if src !in sources { return None; }
      match move
      case Renamed =>
        staged := Some(sources[src]);
        sources := sources - {src};
      case CrossDevice(copied, removed) =>
        if !copied || !removed { return None; }
        staged := Some(sources[src]);
        sources := sources - {src};
      case Refused =>
        staged := None;
    }

    method ReplaceFile(staged: File, key: string, env: Env) returns (ok: bool)
      modifies this`objects
      ensures var stored := Lookup(old(objects), key);
              && (ok <==> env.renamed || (SecondTry(stored, env) && env.renamedAgain))
              && objects == if ok then old(objects)[key := staged]
                            else if SecondTry(stored, env) then old(objects) - {key}
                            else old(objects)
    {
      if env.renamed {
        objects := objects[key := staged];
        return true;
      }
      if key in objects && env.statWorksAgain {
        if !env.storedRemoved { return false; }
        objects := objects - {key};
        if !env.renamedAgain { return false; }
        objects := objects[key := staged];
        return true;
      }
      return false;
    }

    method CommitTranscode(key: string, src: string, env: Env) returns (ok: bool)
      modifies this
      ensures var stored, source := Lookup(old(objects), key), Lookup(old(sources), src);
              && ok == Succeeds(stored, source, env)
              && objects == Updated(old(objects), key, StoredAfter(stored, source, env))
              && sources == Updated(old(sources), src, SourceAfter(stored, source, env))
    {
      ghost var stored, source := Lookup(objects, key), Lookup(sources, src);
      assert objects == Updated(objects, key, stored) && sources == Updated(sources, src, source);
      var keep := ShouldKeepExisting(key, src, env);
      if keep {
        sources := sources - {src};
        return true;
      }
      if !env.dirMade { return false; }
      var staged := MoveOrCopyFile(src, env.move);
      if staged.None? { return false; }
      ok := ReplaceFile(staged.value, key, env);
      // on failure the staged file is removed, and with it the only copy of the source
    }

    // The writer: up to `retries` more commits after the first, then the source is removed.
    method ProcessWriterJob(key: string, src: string, retries: nat, envs: nat -> Env)
        returns (ok: bool, attempts: nat)
      modifies this
      ensures var job := Job(Lookup(old(objects), key), Lookup(old(sources), src), envs, 0, retries + 1);
              ok == job.ok && objects == Updated(old(objects), key, job.stored)
      ensures sources == old(sources) - {src}
      ensures 1 <= attempts <= retries + 1 && (!ok ==> attempts == retries + 1)
    {
      attempts := 0;
      ghost var stored, source := Lookup(objects, key), Lookup(sources, src);
      assert objects == Updated(objects, key, stored) && sources == Updated(sources, src, source);
      while true
        invariant attempts <= retries
        invariant objects == Updated(old(objects), key, stored) && stored == Lookup(objects, key)
        invariant sources == Updated(old(sources), src, source) && source == Lookup(sources, src)
        invariant Job(Lookup(old(objects), key), Lookup(old(sources), src), envs, 0, retries + 1) ==
                  Job(stored, source, envs, attempts, retries + 1)
        decreases retries + 1 - attempts
      {
        var env := envs(attempts);
        ghost var stored1, source1 := StoredAfter(stored, source, env), SourceAfter(stored, source, env);
        ok := CommitTranscode(key, src, env);
        UpdatedTwice(old(objects), key, stored, stored1);
        UpdatedTwice(old(sources), src, source, source1);
        stored, source := stored1, source1;
        attempts := attempts + 1;
        if ok { return; }
        if attempts >= retries + 1 {
          sources := sources - {src};
          return;
        }
      }
    }
  }

  lemma UpdatedTwice<K, V>(m: map<K, V>, k: K, v: Option<V>, w: Option<V>)
    ensures Updated(Updated(m, k, v), k, w) == Updated(m, k, w)
    ensures Lookup(Updated(m, k, w), k) == w
    ensures w.None? ==> Updated(m, k, w) == m - {k}
  {
  }

  // ---- What a whole writer job does ----

  datatype JobResult = JobResult(stored: Option<File>, ok: bool)

  function Job(stored: Option<File>, source: Option<File>, envs: nat -> Env, k: nat, max: nat): JobResult
    decreases max - k
  {
    if k >= max then JobResult(stored, false)
    else if Succeeds(stored, source, envs(k)) then JobResult(StoredAfter(stored, source, envs(k)), true)
    else Job(StoredAfter(stored, source, envs(k)), SourceAfter(stored, source, envs(k)), envs, k + 1, max)
  }

  // Attempt k is the first that gets past staging, or that finds the stored file good enough.
  ghost predicate Decides(stored: Option<File>, source: Option<File>, envs: nat -> Env, k: nat, d: nat, max: nat) {
    && k <= d < max
    && (Keeps(stored, source, envs(d)) || Moves(source, envs(d)))
    && (forall j | k <= j < d :: Undecided(stored, source, envs, j))
  }

  ghost predicate Undecided(stored: Option<File>, source: Option<File>, envs: nat -> Env, j: nat) {
    !Keeps(stored, source, envs(j)) && !Moves(source, envs(j))
  }

  lemma {:induction false} WithoutSource(stored: Option<File>, envs: nat -> Env, k: nat, max: nat)
    ensures Job(stored, None, envs, k, max) == JobResult(stored, false)
    decreases max - k
  {
    if k < max { WithoutSource(stored, envs, k + 1, max); }
  }

  /**
   * The one attempt that decides a job: it succeeds or fails as that attempt does, and so does
   * the stored file. Retries help only while the source has not been staged: a failed replacement
   * has consumed it, and every retry after that fails too.
   */
  lemma {:induction false} DecidingAttempt(stored: Option<File>, source: Option<File>, envs: nat -> Env,
                                           k: nat, d: nat, max: nat)
    requires Decides(stored, source, envs, k, d, max)
    ensures Job(stored, source, envs, k, max) ==
            JobResult(StoredAfter(stored, source, envs(d)), Succeeds(stored, source, envs(d)))
    decreases d - k
  {
    if k == d {
      WithoutSource(StoredAfter(stored, source, envs(d)), envs, k + 1, max);
    } else {
      assert Undecided(stored, source, envs, k);
      DecidingAttempt(stored, source, envs, k + 1, d, max);
    }
  }

  lemma {:induction false} NoDecidingAttempt(stored: Option<File>, source: Option<File>, envs: nat -> Env,
                                             k: nat, max: nat)
    requires forall j | k <= j < max :: Undecided(stored, source, envs, j)
    ensures Job(stored, source, envs, k, max) == JobResult(stored, false)
    decreases max - k
  {
    if k < max {
      assert Undecided(stored, source, envs, k);
      NoDecidingAttempt(stored, source, envs, k + 1, max);
    }
  }

  lemma {:induction false} FindDeciding(stored: Option<File>, source: Option<File>, envs: nat -> Env, k: nat, max: nat)
      returns (d: Option<nat>)
    ensures d.Some? ==> Decides(stored, source, envs, k, d.value, max)
    ensures d.None? ==> forall j | k <= j < max :: Undecided(stored, source, envs, j)
    ensures forall e: nat :: Decides(stored, source, envs, k, e, max) ==> d == Some(e)
    decreases max - k
  {
    if k >= max {
      d := None;
    } else if !Undecided(stored, source, envs, k) {
      d := Some(k);
    } else {
      d := FindDeciding(stored, source, envs, k + 1, max);
      forall e: nat | Decides(stored, source, envs, k, e, max)
        ensures Decides(stored, source, envs, k + 1, e, max)
      {
      }
    }
  }

  /** A writer job reports success exactly when its deciding attempt keeps or lands. */
  lemma JobSucceedsExactly(stored: Option<File>, source: Option<File>, envs: nat -> Env, max: nat)
    ensures Job(stored, source, envs, 0, max).ok <==>
            exists d: nat :: Decides(stored, source, envs, 0, d, max) && Succeeds(stored, source, envs(d))
  {
    var d := FindDeciding(stored, source, envs, 0, max);
    if d.Some? {
      DecidingAttempt(stored, source, envs, 0, d.value, max);
    } else {
      NoDecidingAttempt(stored, source, envs, 0, max);
    }
  }

  /**
   * A stored file is gone after a job exactly when the deciding attempt removed it to make room
   * and then could not put the new one there; the job fails, and the new file is gone as well.
   */
  lemma JobLosesExactly(stored: Option<File>, source: Option<File>, envs: nat -> Env, max: nat)
    requires stored.Some?
    ensures var job := Job(stored, source, envs, 0, max);
            && (job.stored.None? <==>
                  exists d: nat :: Decides(stored, source, envs, 0, d, max) && Loses(stored, source, envs(d)))
            && (job.stored.None? ==> !job.ok)
  {
    var d := FindDeciding(stored, source, envs, 0, max);
    if d.Some? {
      DecidingAttempt(stored, source, envs, 0, d.value, max);
    } else {
      NoDecidingAttempt(stored, source, envs, 0, max);
    }
  }

  /** Every system call works but the two renames over a stored file: nothing is left of either. */
  lemma LongerFileLosesBoth(stored: File, source: File, max: nat)
    requires source.seconds > stored.seconds + DURATION_EPSILON_SECS && max > 0
    ensures var env := Env(true, true, true, true, Renamed, false, true, true, false);
            Job(Some(stored), Some(source), (k: nat) => env, 0, max) == JobResult(None, false)
  {
    var env := Env(true, true, true, true, Renamed, false, true, true, false);
    DecidingAttempt(Some(stored), Some(source), (k: nat) => env, 0, 0, max);
  }

  /** Whatever a job reports, a file it leaves in place of another is more than 2 seconds longer,
      provided the probes worked; and a success leaves nothing much shorter than the source. */
  lemma JobKeepsTheLongest(stored: Option<File>, source: File, envs: nat -> Env, max: nat)
    requires forall k | 0 <= k < max :: ProbesWork(envs(k))
    ensures var job := Job(stored, Some(source), envs, 0, max);
            && (job.stored.Some? && stored.Some? && job.stored != stored ==>
                  job.stored.value.seconds > stored.value.seconds + DURATION_EPSILON_SECS)
            && (job.ok ==> job.stored.Some?
                           && job.stored.value.seconds + DURATION_EPSILON_SECS >= source.seconds)
  {
    var d := FindDeciding(stored, Some(source), envs, 0, max);
    if d.Some? {
      DecidingAttempt(stored, Some(source), envs, 0, d.value, max);
    } else {
      NoDecidingAttempt(stored, Some(source), envs, 0, max);
    }
  }

  predicate ProbesWork(env: Env) {
    env.statWorks && env.storedProbed && env.sourceProbed
  }
}
