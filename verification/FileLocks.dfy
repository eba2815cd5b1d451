/**
 * The per-file lock table and the uploads that commit under it: every handler takes the lock of
 * its filename before its commit, and keeps it until the commit is over.
 */
module FileLocks {
  import opened Options
  import opened LocalStore

  type Lock = nat   // the identity of a mutex

  // ---- The table of weak references ----

  datatype Table = Table(locks: map<string, Lock>, next: Lock)

  // `live` are the mutexes that some handler still holds a strong reference to.
  function LockFor(t: Table, filename: string, live: set<Lock>): Lock {
    if filename in t.locks && t.locks[filename] in live then t.locks[filename] else t.next
  }

  function TableAfter(t: Table, filename: string, live: set<Lock>): Table {
    if filename in t.locks && t.locks[filename] in live then t
    else Table((map f | f in t.locks && t.locks[f] in live :: t.locks[f])[filename := t.next], t.next + 1)
  }

  class AppState {
    var fileLocks: map<string, Lock>
    var nextLock: Lock

    function Now(): Table
      reads this
    {
      Table(fileLocks, nextLock)
    }

    constructor ()
      ensures Now() == Table(map[], 0)
    {
      fileLocks, nextLock := map[], 0;
    }

    method FileLock(filename: string, live: set<Lock>) returns (lock: Lock)
      modifies this
      ensures lock == LockFor(old(Now()), filename, live)
      ensures Now() == TableAfter(old(Now()), filename, live)
    {
      if filename in fileLocks && fileLocks[filename] in live {
        return fileLocks[filename];
      }
      fileLocks := map f | f in fileLocks && fileLocks[f] in live :: fileLocks[f];
      lock := nextLock;
      nextLock := nextLock + 1;
      fileLocks := fileLocks[filename := lock];
    }
  }

  // ---- Uploads, interleaved step by step ----

  // `Staged` remembers what the commit saw in the store when it decided to replace it.
  datatype Stage = Waiting | Holding | Staged(seen: Option<File>, env: Env) | Finished(ok: bool)

  datatype Upload = Upload(filename: string, source: File, lock: Lock, stage: Stage)

  datatype State = State(table: Table, uploads: map<nat, Upload>, store: map<string, File>)

  datatype Action =
    | Enter(id: nat, filename: string, source: File)   // file_lock
    | Acquire(id: nat)                                 // lock().await
    | Look(id: nat, env: Env)                          // should_keep_existing and the staging move
    | Put(id: nat)                                     // replace_file
    | Leave(id: nat)                                   // guard and reference dropped

  const INITIAL := State(Table(map[], 0), map[], map[])

  function Live(s: State): set<Lock> {
    set id | id in s.uploads :: s.uploads[id].lock
  }

  predicate Held(s: State, lock: Lock) {
    exists id :: id in s.uploads && s.uploads[id].lock == lock && !s.uploads[id].stage.Waiting?
  }

  predicate Enabled(s: State, a: Action) {
    match a
    case Enter(id, _, _) => id !in s.uploads
    case Acquire(id) => id in s.uploads && s.uploads[id].stage.Waiting? && !Held(s, s.uploads[id].lock)
    case Look(id, _) => id in s.uploads && s.uploads[id].stage.Holding?
    case Put(id) => id in s.uploads && s.uploads[id].stage.Staged?
    case Leave(id) => id in s.uploads && (s.uploads[id].stage.Holding? || s.uploads[id].stage.Finished?)
  }

  function At(s: State, id: nat, stage: Stage): State
    requires id in s.uploads
  {
    s.(uploads := s.uploads[id := s.uploads[id].(stage := stage)])
  }

  function LookStep(s: State, id: nat, env: Env): State
    requires id in s.uploads
  {
    var u := s.uploads[id];
    var stored := Lookup(s.store, u.filename);
    if Keeps(stored, Some(u.source), env) then At(s, id, Finished(true))
    else if Moves(Some(u.source), env) then At(s, id, Staged(stored, env))
    else s
  }

  // The replacement acts on whatever the store holds by now.
  function PutStep(s: State, id: nat): State
    requires id in s.uploads && s.uploads[id].stage.Staged?
  {
    var u := s.uploads[id];
    var env := u.stage.env;
    var stored := Lookup(s.store, u.filename);
    if env.renamed || (SecondTry(stored, env) && env.renamedAgain) then
      At(s.(store := s.store[u.filename := u.source]), id, Finished(true))
    else if SecondTry(stored, env) then
      At(s.(store := s.store - {u.filename}), id, Finished(false))
    else
      At(s, id, Finished(false))
  }

  function Step(s: State, a: Action): State
    requires Enabled(s, a)
  {
    match a
    case Enter(id, filename, source) =>
      var u := Upload(filename, source, LockFor(s.table, filename, Live(s)), Waiting);
      s.(table := TableAfter(s.table, filename, Live(s)), uploads := s.uploads[id := u])
    case Acquire(id) => At(s, id, Holding)
    case Look(id, env) => LookStep(s, id, env)
    case Put(id) => PutStep(s, id)
    case Leave(id) => s.(uploads := s.uploads - {id})
  }

  function Run(actions: seq<Action>): Option<State> {
    if actions == [] then Some(INITIAL) else
    var n := |actions| - 1;
    match Run(actions[..n])
    case None => None
    case Some(s) => if Enabled(s, actions[n]) then Some(Step(s, actions[n])) else None
  }

  // ---- Locks ----

  ghost predicate TableInv(t: Table) {
    && (forall f | f in t.locks :: t.locks[f] < t.next)
    && (forall f, g | f in t.locks && g in t.locks && t.locks[f] == t.locks[g] :: f == g)
  }

  ghost predicate InTable(s: State, id: nat)
    requires id in s.uploads
  {
    && s.uploads[id].filename in s.table.locks
    && s.table.locks[s.uploads[id].filename] == s.uploads[id].lock
  }

  // What a commit saw before it moved its source is still there, and it was right to go on.
  ghost predicate Current(s: State, id: nat)
    requires id in s.uploads
  {
    var u := s.uploads[id];
    u.stage.Staged? ==>
      && u.stage.seen == Lookup(s.store, u.filename)
      && !Keeps(u.stage.seen, Some(u.source), u.stage.env) && Moves(Some(u.source), u.stage.env)
  }

  ghost predicate Exclusive(s: State) {
    forall i, j | i in s.uploads && j in s.uploads && s.uploads[i].lock == s.uploads[j].lock
                  && !s.uploads[i].stage.Waiting? && !s.uploads[j].stage.Waiting? :: i == j
  }

  ghost predicate Inv(s: State) {
    && TableInv(s.table)
    && (forall id | id in s.uploads :: InTable(s, id))
    && (forall id | id in s.uploads :: Current(s, id))
    && Exclusive(s)
  }

  lemma EnterKeepsInv(s: State, id: nat, filename: string, source: File)
    requires Inv(s) && Enabled(s, Enter(id, filename, source))
    ensures Inv(Step(s, Enter(id, filename, source)))
  {
    var t := Step(s, Enter(id, filename, source));
    TableKeepsInv(s.table, filename, Live(s));
    forall i | i in t.uploads ensures InTable(t, i) && Current(t, i) {
      if i != id {
        assert InTable(s, i) && Current(s, i);
        assert s.uploads[i].lock in Live(s);
      }
    }
    assert t.uploads[id].stage.Waiting?;
  }

  lemma TableKeepsInv(t: Table, filename: string, live: set<Lock>)
    requires TableInv(t)
    ensures var u := TableAfter(t, filename, live);
            && TableInv(u) && filename in u.locks && u.locks[filename] == LockFor(t, filename, live)
            && forall f | f in t.locks && t.locks[f] in live :: f in u.locks && u.locks[f] == t.locks[f]
  {
  }

  lemma SameFileSameLock(s: State, i: nat, j: nat)
    requires Inv(s) && i in s.uploads && j in s.uploads
    ensures s.uploads[i].filename == s.uploads[j].filename <==> s.uploads[i].lock == s.uploads[j].lock
  {
    assert InTable(s, i) && InTable(s, j);
  }

  lemma AcquireKeepsInv(s: State, id: nat)
    requires Inv(s) && Enabled(s, Acquire(id))
    ensures Inv(Step(s, Acquire(id)))
  {
    var t := Step(s, Acquire(id));
    forall i | i in t.uploads ensures InTable(t, i) && Current(t, i) {
      assert InTable(s, i) && Current(s, i);
    }
  }

  lemma LookKeepsInv(s: State, id: nat, env: Env)
    requires Inv(s) && Enabled(s, Look(id, env))
    ensures Inv(LookStep(s, id, env))
  {
    var t := LookStep(s, id, env);
    forall i | i in t.uploads ensures InTable(t, i) && Current(t, i) {
      assert InTable(s, i) && Current(s, i);
    }
  }

  // A replacement changes one upload's stage and one file of the store.
  lemma PutTouchesOneFile(s: State, id: nat)
    requires Enabled(s, Put(id))
    ensures var t := PutStep(s, id);
            && t.table == s.table && t == At(t, id, t.uploads[id].stage) && t.uploads[id].stage.Finished?
            && t.uploads == s.uploads[id := s.uploads[id].(stage := t.uploads[id].stage)]
            && forall f | f != s.uploads[id].filename :: Lookup(t.store, f) == Lookup(s.store, f)
  {
  }

  lemma PutKeepsOther(s: State, id: nat, i: nat)
    requires Inv(s) && Enabled(s, Put(id)) && i in s.uploads
    ensures InTable(PutStep(s, id), i) && Current(PutStep(s, id), i)
  {
    PutTouchesOneFile(s, id);
    assert InTable(s, i) && Current(s, i);
    SameFileSameLock(s, i, id);
  }

  lemma PutKeepsInv(s: State, id: nat)
    requires Inv(s) && Enabled(s, Put(id))
    ensures Inv(PutStep(s, id))
  {
    PutTouchesOneFile(s, id);
    forall i | i in PutStep(s, id).uploads ensures InTable(PutStep(s, id), i) && Current(PutStep(s, id), i) {
      PutKeepsOther(s, id, i);
    }
  }

  lemma LeaveKeepsInv(s: State, id: nat)
    requires Inv(s) && Enabled(s, Leave(id))
    ensures Inv(Step(s, Leave(id)))
  {
    var t := Step(s, Leave(id));
    forall i | i in t.uploads ensures InTable(t, i) && Current(t, i) {
      assert InTable(s, i) && Current(s, i);
    }
  }

  lemma StepKeepsInv(s: State, a: Action)
    requires Inv(s) && Enabled(s, a)
    ensures Inv(Step(s, a))
  {
    match a
    case Enter(id, filename, source) => EnterKeepsInv(s, id, filename, source);
    case Acquire(id) => AcquireKeepsInv(s, id);
    case Look(id, env) => LookKeepsInv(s, id, env);
    case Put(id) => PutKeepsInv(s, id);
    case Leave(id) => LeaveKeepsInv(s, id);
  }

  lemma {:induction false} RunKeepsInv(actions: seq<Action>)
    requires Run(actions).Some?
    ensures Inv(Run(actions).value)
  {
    if actions != [] {
      var n := |actions| - 1;
      RunKeepsInv(actions[..n]);
      StepKeepsInv(Run(actions[..n]).value, actions[n]);
    }
  }

  /**
   * In every run, uploads share a mutex exactly when they share a filename, and at most one
   * upload of a filename is past its lock.
   */
  lemma {:induction false} CommitsAreSerial(actions: seq<Action>, i: nat, j: nat)
    requires Run(actions).Some? && i in Run(actions).value.uploads && j in Run(actions).value.uploads
    ensures var u, v := Run(actions).value.uploads[i], Run(actions).value.uploads[j];
            && (u.filename == v.filename <==> u.lock == v.lock)
            && (u.filename == v.filename && !u.stage.Waiting? && !v.stage.Waiting? ==> i == j)
  {
    RunKeepsInv(actions);
    SameFileSameLock(Run(actions).value, i, j);
  }

  /** So a replacement does what the commit decided on, for the file it decided about. */
  lemma {:induction false} PutIsAsDecided(actions: seq<Action>, id: nat)
    requires Run(actions).Some? && Enabled(Run(actions).value, Put(id))
    ensures var s := Run(actions).value;
            var u := s.uploads[id];
            var stored := Lookup(s.store, u.filename);
            var t := Step(s, Put(id));
            && Lookup(t.store, u.filename) == StoredAfter(stored, Some(u.source), u.stage.env)
            && t.uploads[id].stage == Finished(Succeeds(stored, Some(u.source), u.stage.env))
            && forall f | f != u.filename :: Lookup(t.store, f) == Lookup(s.store, f)
  {
    RunKeepsInv(actions);
    assert Current(Run(actions).value, id);
  }

  /**
   * The two steps of a commit are the backend's commit: it goes on to a replacement exactly when it
   * does not keep the stored file and can stage its own, and then stores what the backend would.
   */
  lemma {:induction false} CommitIsTheBackends(s: State, id: nat, env: Env)
    requires Enabled(s, Look(id, env))
    ensures var u := s.uploads[id];
            var stored, source, t := Lookup(s.store, u.filename), Some(u.source), Step(s, Look(id, env));
            && (Enabled(t, Put(id)) <==> !Keeps(stored, source, env) && Moves(source, env))
            && t.store == s.store
            && (!Enabled(t, Put(id)) ==>
                  t.uploads[id].stage == if Keeps(stored, source, env) then Finished(true) else Holding)
            && (Enabled(t, Put(id)) ==>
                  var done := Step(t, Put(id));
                  && done.store == Updated(s.store, u.filename, StoredAfter(stored, source, env))
                  && done.uploads[id].stage == Finished(Succeeds(stored, source, env)))
  {
    var u := s.uploads[id];
    assert s.store == Updated(s.store, u.filename, Lookup(s.store, u.filename));
  }

  /** No upload waits for a lock that nobody will release: somebody past that lock can move. */
  lemma {:induction false} NobodyIsStuck(actions: seq<Action>, id: nat) returns (a: Action)
    requires Run(actions).Some? && id in Run(actions).value.uploads
    ensures Enabled(Run(actions).value, a) && !a.Enter?
    ensures a.id in Run(actions).value.uploads
    ensures Run(actions).value.uploads[a.id].filename == Run(actions).value.uploads[id].filename
  {
    var s := Run(actions).value;
    RunKeepsInv(actions);
    var mover := id;
    if s.uploads[id].stage.Waiting? && Held(s, s.uploads[id].lock) {
      mover :| mover in s.uploads && s.uploads[mover].lock == s.uploads[id].lock && !s.uploads[mover].stage.Waiting?;
    }
    SameFileSameLock(s, mover, id);
    match s.uploads[mover].stage
    case Waiting => a := Acquire(mover);
    case Staged(_, _) => a := Put(mover);
    case _ => a := Leave(mover);
  }

  // ---- The stored durations ----

  // Working probes, and no replacement that removes the old file and then fails.
  predicate Sound(env: Env) {
    ProbesWork(env) && (env.renamed || !env.statWorksAgain || !env.storedRemoved || env.renamedAgain)
  }

  predicate SoundRun(actions: seq<Action>) {
    forall i | 0 <= i < |actions| && actions[i].Look? :: Sound(actions[i].env)
  }

  // A finished commit that reported success has its offer met.
  ghost predicate Met(s: State, id: nat)
    requires id in s.uploads
  {
    var u := s.uploads[id];
    && (u.stage.Staged? ==> Sound(u.stage.env))
    && (u.stage == Finished(true) ==> Covered(s.store, u.filename, u.source.seconds))
  }

  // The stored file is at most 2 seconds shorter than this.
  ghost predicate Covered(store: map<string, File>, filename: string, seconds: real) {
    filename in store && store[filename].seconds + DURATION_EPSILON_SECS >= seconds
  }

  ghost predicate AllMet(s: State) {
    forall id | id in s.uploads :: Met(s, id)
  }

  // The store only gains: any change is to a file more than 2 seconds longer.
  ghost predicate Gains(before: map<string, File>, after: map<string, File>) {
    forall f | f in before ::
      f in after && (after[f] == before[f] || after[f].seconds > before[f].seconds + DURATION_EPSILON_SECS)
  }

  lemma PutGains(s: State, id: nat)
    requires Inv(s) && AllMet(s) && Enabled(s, Put(id))
    ensures Gains(s.store, PutStep(s, id).store) && AllMet(PutStep(s, id))
  {
    var t := PutStep(s, id);
    assert Current(s, id) && Met(s, id);
    forall i | i in t.uploads ensures Met(t, i) {
      assert Met(s, i);
    }
  }

  /** Every step of a sound run only gains, and meets every offer it reports a success for. */
  lemma StepGains(s: State, a: Action)
    requires Inv(s) && AllMet(s) && Enabled(s, a) && (a.Look? ==> Sound(a.env))
    ensures Gains(s.store, Step(s, a).store) && AllMet(Step(s, a))
  {
    if a.Put? {
      PutGains(s, a.id);
    } else {
      var t := Step(s, a);
      forall i | i in t.uploads ensures Met(t, i) {
        if i in s.uploads { assert Met(s, i); }
      }
    }
  }

  lemma {:induction false} RunMeetsOffers(actions: seq<Action>)
    requires Run(actions).Some? && SoundRun(actions)
    ensures AllMet(Run(actions).value)
  {
    if actions != [] {
      var n := |actions| - 1;
      assert SoundRun(actions[..n]);
      RunMeetsOffers(actions[..n]);
      RunKeepsInv(actions[..n]);
      StepGains(Run(actions[..n]).value, actions[n]);
    }
  }

  /** Over a sound run no stored file is lost or gets shorter. */
  lemma {:induction false} StoredNeverFalls(actions: seq<Action>, i: nat, f: string)
    requires Run(actions).Some? && SoundRun(actions) && i <= |actions|
    ensures Run(actions[..i]).Some?
    ensures f in Run(actions[..i]).value.store ==>
              f in Run(actions).value.store
              && Run(actions[..i]).value.store[f].seconds <= Run(actions).value.store[f].seconds
  {
    if i == |actions| {
      assert actions[..i] == actions;
    } else {
      var n := |actions| - 1;
      assert actions[..n][..i] == actions[..i];
      assert SoundRun(actions[..n]);
      StoredNeverFalls(actions[..n], i, f);
      RunMeetsOffers(actions[..n]);
      RunKeepsInv(actions[..n]);
      StepGains(Run(actions[..n]).value, actions[n]);
    }
  }

  /**
   * From the moment a commit succeeds to the end of any sound run, the stored file is at most
   * 2 seconds shorter than what that commit offered.
   */
  lemma {:induction false} EveryOfferStaysMet(actions: seq<Action>, i: nat, id: nat)
    requires Run(actions).Some? && SoundRun(actions) && i <= |actions|
    requires Run(actions[..i]).Some? && id in Run(actions[..i]).value.uploads
    requires Run(actions[..i]).value.uploads[id].stage == Finished(true)
    ensures var u := Run(actions[..i]).value.uploads[id];
            Covered(Run(actions).value.store, u.filename, u.source.seconds)
  {
    var u := Run(actions[..i]).value.uploads[id];
    RunMeetsOffers(actions[..i]);
    assert Met(Run(actions[..i]).value, id);
    StoredNeverFalls(actions, i, u.filename);
  }
}
