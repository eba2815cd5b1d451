/**
 * The shared byte counter of the upload directory: reservations taken by atomic adds, rolled
 * back by atomic subtractions, and corrected by a rescan of the disk.
 */
module UploadQuota {
  import opened Options

  const WORD: int := 0x1_0000_0000_0000_0000

  newtype u64 = x: int | 0 <= x < 0x1_0000_0000_0000_0000

  function Wrap(x: int): u64 { (x % WORD) as u64 }

  function SaturatingAdd(a: u64, b: u64): u64 {
    if a as int + b as int < WORD then (a as int + b as int) as u64 else (WORD - 1) as u64
  }

  // fetch_add that returned `prev` lets the reservation stand.
  predicate Admitted(limit: u64, prev: u64, n: u64) {
    SaturatingAdd(prev, n) <= limit
  }

  // ---- The code, run without interference ----

  class AtomicCounter {
    var value: u64

    constructor (value: u64)
      ensures this.value == value
    {
      this.value := value;
    }

    method FetchAdd(n: u64) returns (prev: u64)
      modifies this
      ensures prev == old(value) && value == Wrap(old(value) as int + n as int)
    {
      prev := value;
      value := Wrap(value as int + n as int);
    }

    method FetchSub(n: u64) returns (prev: u64)
      modifies this
      ensures prev == old(value) && value == Wrap(old(value) as int - n as int)
    {
      prev := value;
      value := Wrap(value as int - n as int);
    }
  }

  lemma WrapUndoes(value: u64, n: u64)
    ensures Wrap(Wrap(value as int + n as int) as int - n as int) == value
  {
  }

  class TmpReservation {
    const counter: AtomicCounter
    const limit: Option<u64>
    var bytes: u64

    constructor (counter: AtomicCounter, limit: Option<u64>)
      ensures this.counter == counter && this.limit == limit && bytes == 0
    {
      this.counter, this.limit, bytes := counter, limit, 0;
    }

    // A refusal leaves the counter as it was; without a limit the counter is never touched.
    method TryAdd(n: u64) returns (ok: bool)
      modifies this, counter
      ensures ok <==> limit.None? || Admitted(limit.value, old(counter.value), n)
      ensures bytes == if ok then SaturatingAdd(old(bytes), n) else old(bytes)
      ensures counter.value ==
              if ok && limit.Some? then Wrap(old(counter.value) as int + n as int) else old(counter.value)
    {
      if limit.None? {
        bytes := SaturatingAdd(bytes, n);
        return true;
      }
      var prev := counter.FetchAdd(n);
      if SaturatingAdd(prev, n) > limit.value {
        WrapUndoes(prev, n);
        var _ := counter.FetchSub(n);
        return false;
      }
      bytes := SaturatingAdd(bytes, n);
      return true;
    }

    method Drop()
      modifies counter
      ensures counter.value ==
              if limit.Some? then Wrap(old(counter.value) as int - bytes as int) else old(counter.value)
    {
      if bytes > 0 && limit.Some? {
        var _ := counter.FetchSub(bytes);
      }
    }
  }

  const TMP_RESCAN_COOLDOWN_MS := 5000

  // The lock around the time of the last rescan, and what the rescan works on.
  class Rescanner {
    const counter: AtomicCounter
    var held: bool
    var last: int

    constructor (counter: AtomicCounter, now: int)
      ensures this.counter == counter && !held && last == now
    {
      this.counter, held, last := counter, false, now;
    }

    // `disk` is what the directory walk found, or None when it failed; `done` is the time after it.
    method RescanTmpUsage(now: int, disk: Option<u64>, done: int)
      modifies this, counter
      ensures var skipped := old(held) || now - old(last) < TMP_RESCAN_COOLDOWN_MS;
              && held == old(held) && last == (if skipped then old(last) else done)
              && counter.value == if !skipped && disk.Some? && old(counter.value) > disk.value
                                  then disk.value else old(counter.value)
    {
      if held { return; }
      if now - last < TMP_RESCAN_COOLDOWN_MS { return; }
      held := true;
      var pre := counter.value;
      if disk.Some? && pre > disk.value {
        var _ := counter.FetchSub(pre - disk.value);
      }
      last, held := done, false;
    }
  }

  // ---- Every interleaving of the atomic operations ----

  datatype Scan = Loaded(pre: u64) | Walked(pre: u64, disk: u64)

  // Per upload: the bytes its reservation holds, and those of a refused add still to roll back.
  // `recovered` is what all rescans so far have subtracted.
  datatype State = State(counter: u64, held: seq<u64>, pending: seq<u64>, scan: Option<Scan>, recovered: nat)

  datatype Config = Config(seed: u64, limit: u64, uploads: nat)

  datatype Action =
    | Add(id: nat, n: u64)
    | Rollback(id: nat)
    | Drop(id: nat)
    | ScanLoad
    | ScanWalk(disk: u64)
    | ScanFail
    | ScanSubtract

  function Sum(xs: seq<u64>): nat {
    if xs == [] then 0 else Sum(xs[..|xs| - 1]) + xs[|xs| - 1] as int
  }

  function Initial(c: Config): State {
    var none := seq(c.uploads, _ => 0 as u64);
    State(c.seed, none, none, None, 0)
  }

  // What the counter stands for when nothing was ever recovered.
  function Charged(c: Config, s: State): nat {
    c.seed as int + Sum(s.held) + Sum(s.pending)
  }

  predicate Valid(c: Config, s: State) {
    |s.held| == c.uploads && |s.pending| == c.uploads
  }

  // An upload has one add at a time under way, and the bytes being counted are real: all of
  // them together stay below 2^64.
  predicate Enabled(c: Config, s: State, a: Action)
    requires Valid(c, s)
  {
    match a
    case Add(id, n) => id < c.uploads && s.pending[id] == 0 && Charged(c, s) + n as int < WORD
    case Rollback(id) => id < c.uploads
    case Drop(id) => id < c.uploads && s.pending[id] == 0
    case ScanLoad => s.scan.None?
    case ScanWalk(_) => s.scan.Some? && s.scan.value.Loaded?
    case ScanFail => s.scan.Some? && s.scan.value.Loaded?
    case ScanSubtract => s.scan.Some? && s.scan.value.Walked?
  }

  function Step(c: Config, s: State, a: Action): (t: State)
    requires Valid(c, s) && Enabled(c, s, a)
    ensures Valid(c, t)
  {
    match a
    case Add(id, n) =>
      var t := s.(counter := Wrap(s.counter as int + n as int));
      if Admitted(c.limit, s.counter, n) then t.(held := s.held[id := SaturatingAdd(s.held[id], n)])
      else t.(pending := s.pending[id := n])
    case Rollback(id) =>
      s.(counter := Wrap(s.counter as int - s.pending[id] as int), pending := s.pending[id := 0])
    case Drop(id) =>
      s.(counter := Wrap(s.counter as int - s.held[id] as int), held := s.held[id := 0])
    case ScanLoad => s.(scan := Some(Loaded(s.counter)))
    case ScanWalk(disk) => s.(scan := Some(Walked(s.scan.value.pre, disk)))
    case ScanFail => s.(scan := None)
    case ScanSubtract =>
      var excess := Excess(s);
      s.(counter := Wrap(s.counter as int - excess), scan := None, recovered := s.recovered + excess)
  }

  // What a rescan about to finish subtracts.
  function Excess(s: State): nat
    requires s.scan.Some? && s.scan.value.Walked?
  {
    var scan := s.scan.value;
    if scan.pre > scan.disk then scan.pre as int - scan.disk as int else 0
  }

  function Run(c: Config, actions: seq<Action>): (r: Option<State>)
    ensures r.Some? ==> Valid(c, r.value)
  {
    if actions == [] then Some(Initial(c)) else
    var n := |actions| - 1;
    match Run(c, actions[..n])
    case None => None
    case Some(s) => if Enabled(c, s, actions[n]) then Some(Step(c, s, actions[n])) else None
  }

  // ---- Sums ----

  lemma {:induction false} SumUpdate(xs: seq<u64>, i: nat, x: u64)
    requires i < |xs|
    ensures Sum(xs[i := x]) == Sum(xs) - xs[i] as int + x as int
  {
    var n := |xs| - 1;
    if i == n {
      assert xs[i := x][..n] == xs[..n];
    } else {
      assert xs[i := x][..n] == xs[..n][i := x];
      SumUpdate(xs[..n], i, x);
    }
  }

  lemma {:induction false} SumAtLeast(xs: seq<u64>, i: nat)
    requires i < |xs|
    ensures xs[i] as int <= Sum(xs)
  {
    if i < |xs| - 1 { SumAtLeast(xs[..|xs| - 1], i); }
  }

  lemma {:induction false} SumOfZeros(xs: seq<u64>)
    requires forall i | 0 <= i < |xs| :: xs[i] == 0
    ensures Sum(xs) == 0
  {
    if xs != [] { SumOfZeros(xs[..|xs| - 1]); }
  }

  // ---- What the counter means ----

  ghost predicate Accounts(c: Config, s: State) {
    s.counter == Wrap(Charged(c, s) - s.recovered)
  }

  lemma WrapMoves(x: int, d: int)
    ensures Wrap(Wrap(x) as int + d) == Wrap(x + d)
  {
    assert x == (x / WORD) * WORD + x % WORD;
    var y := x % WORD + d;
    assert x + d == (x / WORD) * WORD + y;
    ModShift(y, x / WORD);
  }

  lemma ModShift(y: int, k: int)
    ensures (k * WORD + y) % WORD == y % WORD
  {
    assert y == (y / WORD) * WORD + y % WORD;
    assert k * WORD + y == (k + y / WORD) * WORD + y % WORD;
  }

  lemma AddKeepsAccounts(c: Config, s: State, id: nat, n: u64)
    requires Valid(c, s) && Enabled(c, s, Add(id, n)) && Accounts(c, s)
    ensures Accounts(c, Step(c, s, Add(id, n)))
  {
    WrapMoves(Charged(c, s) - s.recovered, n as int);
    SumUpdate(s.pending, id, n);
    SumAtLeast(s.held, id);
    SumUpdate(s.held, id, SaturatingAdd(s.held[id], n));
  }

  lemma WrapInRange(x: int)
    ensures 0 <= x < WORD ==> Wrap(x) as int == x
    ensures x < 0 < x + WORD ==> Wrap(x) as int == x + WORD
  {
    if x < 0 { ModShift(x + WORD, -1); }
  }

  // The three ranges of the recovered total, on the bare numbers.
  lemma CounterByRecovered(seed: nat, held: nat, pending: nat, recovered: nat, counter: int)
    requires seed + held + pending < WORD && counter == Wrap(seed + held + pending - recovered) as int
    ensures (counter == seed + held + pending - recovered && held <= counter) <==> recovered <= seed + pending
    ensures seed + pending < recovered <= seed + held + pending ==> counter < held
    ensures seed + held + pending < recovered < WORD ==> counter == WORD - (recovered - (seed + held + pending))
  {
    WrapInRange(seed + held + pending - recovered);
  }

  lemma RollbackKeepsAccounts(c: Config, s: State, id: nat)
    requires Valid(c, s) && Enabled(c, s, Rollback(id)) && Accounts(c, s)
    ensures Accounts(c, Step(c, s, Rollback(id)))
  {
    WrapMoves(Charged(c, s) - s.recovered, -(s.pending[id] as int));
    SumUpdate(s.pending, id, 0);
  }

  lemma StepKeepsAccounts(c: Config, s: State, a: Action)
    requires Valid(c, s) && Enabled(c, s, a) && Accounts(c, s)
    ensures Accounts(c, Step(c, s, a))
  {
    match a
    case Add(id, n) => AddKeepsAccounts(c, s, id, n);
    case Rollback(id) => RollbackKeepsAccounts(c, s, id);
    case Drop(id) =>
      WrapMoves(Charged(c, s) - s.recovered, -(s.held[id] as int));
      SumUpdate(s.held, id, 0);
    case ScanSubtract =>
      var excess: int := Excess(s);
      WrapMoves(Charged(c, s) - s.recovered, -excess);
    case _ =>
  }

  /**
   * In every interleaving, rescans included, the counter is the seed plus all held reservations
   * plus the adds not yet rolled back, less what rescans took out, modulo 2^64.
   */
  lemma {:induction false} RunAccounts(c: Config, actions: seq<Action>)
    requires Run(c, actions).Some?
    ensures Accounts(c, Run(c, actions).value)
  {
    if actions == [] {
      SumOfZeros(Initial(c).held);
    } else {
      var n := |actions| - 1;
      RunAccounts(c, actions[..n]);
      StepKeepsAccounts(c, Run(c, actions[..n]).value, actions[n]);
    }
  }

  // ---- Without rescans ----

  predicate NoRescan(actions: seq<Action>) {
    forall i | 0 <= i < |actions| :: !actions[i].ScanSubtract?
  }

  // The counter is exact, and what is held on top of the seed is within the limit.
  ghost predicate Exact(c: Config, s: State) {
    && s.recovered == 0 && Charged(c, s) < WORD && s.counter as int == Charged(c, s)
    && (c.seed <= c.limit ==> c.seed as int + Sum(s.held) <= c.limit as int)
  }

  lemma AddKeepsExact(c: Config, s: State, id: nat, n: u64)
    requires Valid(c, s) && Enabled(c, s, Add(id, n)) && Exact(c, s)
    ensures Exact(c, Step(c, s, Add(id, n)))
  {
    SumUpdate(s.pending, id, n);
    SumAtLeast(s.held, id);
    SumUpdate(s.held, id, SaturatingAdd(s.held[id], n));
  }

  lemma StepKeepsExact(c: Config, s: State, a: Action)
    requires Valid(c, s) && Enabled(c, s, a) && Exact(c, s) && !a.ScanSubtract?
    ensures Exact(c, Step(c, s, a))
  {
    match a
    case Add(id, n) => AddKeepsExact(c, s, id, n);
    case Rollback(id) =>
      SumAtLeast(s.pending, id);
      SumUpdate(s.pending, id, 0);
    case Drop(id) =>
      SumAtLeast(s.held, id);
      SumUpdate(s.held, id, 0);
    case _ =>
  }

  /** Until a rescan subtracts, the counter is exact and the limit is kept. */
  lemma {:induction false} ExactWithoutRescan(c: Config, actions: seq<Action>)
    requires Run(c, actions).Some? && NoRescan(actions)
    ensures Exact(c, Run(c, actions).value)
  {
    if actions == [] {
      SumOfZeros(Initial(c).held);
    } else {
      var n := |actions| - 1;
      ExactWithoutRescan(c, actions[..n]);
      StepKeepsExact(c, Run(c, actions[..n]).value, actions[n]);
    }
  }

  /** An add is refused exactly when held bytes and other adds in mid-air leave it no room. */
  lemma RefusedExactly(c: Config, actions: seq<Action>, id: nat, n: u64)
    requires Run(c, actions).Some? && NoRescan(actions)
    requires Enabled(c, Run(c, actions).value, Add(id, n))
    ensures var s := Run(c, actions).value;
            var t := Step(c, s, Add(id, n));
            if Charged(c, s) + n as int <= c.limit as int
            then t.held[id] as int == s.held[id] as int + n as int && t.pending == s.pending
            else t.held == s.held && t.pending[id] == n
  {
    ExactWithoutRescan(c, actions);
    SumAtLeast(Run(c, actions).value.held, id);
  }

  /** A refused add and its rollback leave no trace, whatever the counter holds. */
  lemma RefusalIsUndone(c: Config, s: State, id: nat, n: u64)
    requires Valid(c, s) && Enabled(c, s, Add(id, n)) && !Admitted(c.limit, s.counter, n)
    ensures var t := Step(c, s, Add(id, n));
            Enabled(c, t, Rollback(id)) && Step(c, t, Rollback(id)) == s
  {
    WrapUndoes(s.counter, n);
    assert s.pending[id := n][id := 0] == s.pending;
  }

  // No reservation is held and no rollback is due.
  predicate Quiet(s: State) {
    && (forall i | 0 <= i < |s.held| :: s.held[i] == 0)
    && (forall i | 0 <= i < |s.pending| :: s.pending[i] == 0)
  }

  /**
   * With every reservation dropped, the counter is the seed less what rescans recovered: it is
   * back at the seed if none did, and it has wrapped exactly if they recovered more than the seed.
   */
  lemma {:induction false} QuietCounter(c: Config, actions: seq<Action>)
    requires Run(c, actions).Some? && Quiet(Run(c, actions).value)
    ensures var s := Run(c, actions).value;
            && s.counter == Wrap(c.seed as int - s.recovered)
            && (NoRescan(actions) ==> s.counter == c.seed)
            && (s.recovered < WORD ==>
                  (s.counter as int == c.seed as int - s.recovered <==> s.recovered <= c.seed as int))
  {
    var s := Run(c, actions).value;
    RunAccounts(c, actions);
    SumOfZeros(s.held);
    SumOfZeros(s.pending);
    if NoRescan(actions) {
      ExactWithoutRescan(c, actions);
    }
  }

  // ---- With rescans ----

  // The counter counts every held byte, with the rest of the seed and the adds in mid-air on top.
  ghost predicate Covers(c: Config, s: State) {
    s.counter as int == Charged(c, s) - s.recovered && Sum(s.held) <= s.counter as int
  }

  /**
   * The counter covers the live reservations exactly as long as rescans have recovered no more
   * than the seed and the adds in mid-air; past that it counts too little, or has wrapped.
   */
  lemma CoversExactly(c: Config, actions: seq<Action>)
    requires Run(c, actions).Some? && Charged(c, Run(c, actions).value) < WORD
    ensures var s := Run(c, actions).value;
            && (Covers(c, s) <==> s.recovered <= c.seed as int + Sum(s.pending))
            && (c.seed as int + Sum(s.pending) < s.recovered <= Charged(c, s) ==> s.counter as int < Sum(s.held))
            && (Charged(c, s) < s.recovered < WORD ==> s.counter as int == WORD - (s.recovered - Charged(c, s)))
  {
    RunAccounts(c, actions);
    AccountsByRange(c, Run(c, actions).value);
  }

  lemma AccountsByRange(c: Config, s: State)
    requires Accounts(c, s) && Charged(c, s) < WORD
    ensures Covers(c, s) <==> s.recovered <= c.seed as int + Sum(s.pending)
    ensures c.seed as int + Sum(s.pending) < s.recovered <= Charged(c, s) ==> s.counter as int < Sum(s.held)
    ensures Charged(c, s) < s.recovered < WORD ==> s.counter as int == WORD - (s.recovered - Charged(c, s))
  {
    CounterByRecovered(c.seed as int, Sum(s.held), Sum(s.pending), s.recovered, s.counter as int);
  }

  /**
   * A rescan that finishes keeps the cover exactly when it subtracts no more than the counter
   * has beyond the held bytes; when nothing moved since it read the counter, that is exactly
   * when the walk found all reserved bytes on disk.
   */
  lemma RescanKeepsCoverExactly(c: Config, s: State)
    requires Valid(c, s) && Enabled(c, s, ScanSubtract) && Covers(c, s)
    ensures var t := Step(c, s, ScanSubtract);
            && (Covers(c, t) <==> Excess(s) <= s.counter as int - Sum(s.held))
            && (s.scan.value.pre == s.counter ==>
                  (Covers(c, t) <==> Sum(s.held) <= s.scan.value.disk as int))
  {
  }

  // Two uploads: what each holds, and what the second has to roll back.
  function Two(counter: u64, first: u64, second: u64, refused: u64, scan: Option<Scan>, recovered: nat): State {
    State(counter, [first, second], [0, refused], scan, recovered)
  }

  lemma ChargedTwo(c: Config, counter: u64, first: u64, second: u64, refused: u64, scan: Option<Scan>, recovered: nat)
    ensures Charged(c, Two(counter, first, second, refused, scan, recovered)) ==
            c.seed as int + first as int + second as int + refused as int
  {
    SumTwo(first, second);
    SumTwo(0, refused);
  }

  lemma SumTwo(x: u64, y: u64)
    ensures Sum([x, y]) == x as int + y as int
  {
    assert [x, y][..1] == [x] && [x][..0] == [];
    assert Sum([x]) == Sum([]) + x as int;
  }

  // The second upload's add, when it is admitted, and the two drops.
  lemma AddTwo(c: Config, counter: u64, first: u64, n: u64, recovered: nat)
    requires c.uploads == 2 && c.seed as int + first as int + n as int < WORD
    requires counter as int + n as int <= c.limit as int
    ensures var s := Two(counter, first, 0, 0, None, recovered);
            Enabled(c, s, Add(1, n))
            && Step(c, s, Add(1, n)) == Two((counter as int + n as int) as u64, first, n, 0, None, recovered)
  {
    ChargedTwo(c, counter, first, 0, 0, None, recovered);
  }

  lemma DropTwo(c: Config, counter: u64, first: u64, second: u64, recovered: nat)
    requires c.uploads == 2
    ensures var s := Two(counter, first, second, 0, None, recovered);
            && Step(c, s, Drop(0)) == Two(Wrap(counter as int - first as int), 0, second, 0, None, recovered)
            && Step(c, s, Drop(1)) == Two(Wrap(counter as int - second as int), first, 0, 0, None, recovered)
  {
  }

  lemma Extends(c: Config, before: seq<Action>, s: State, a: Action, run: seq<Action>, t: State)
    requires Run(c, before) == Some(s) && run == before + [a]
    requires Enabled(c, s, a) && Step(c, s, a) == t
    ensures Run(c, run) == Some(t)
  {
    assert run[..|run| - 1] == before;
  }

  // A refused add makes its handler rescan, then try again.
  function RescanRun(bytes: u64, n: u64): seq<Action> {
    [Add(0, bytes), Add(1, n), Rollback(1), ScanLoad, ScanWalk(0), ScanSubtract, Add(1, n), Drop(0), Drop(1)]
  }

  // The second upload's add is refused and rolled back.
  lemma RefusedAndRolledBack(c: Config, bytes: u64, n: u64)
    requires c == Config(0, c.limit, 2) && 0 < bytes <= c.limit && 0 < n <= c.limit
    requires c.limit as int < bytes as int + n as int < WORD
    ensures Run(c, RescanRun(bytes, n)[..3]) == Some(Two(bytes, bytes, 0, 0, None, 0))
  {
    var run := RescanRun(bytes, n);
    var s0, s1 := Initial(c), Two(bytes, bytes, 0, 0, None, 0);
    var s2 := Two((bytes as int + n as int) as u64, bytes, 0, n, None, 0);
    assert s0 == Two(0, 0, 0, 0, None, 0);
    ChargedTwo(c, 0, 0, 0, 0, None, 0);
    ChargedTwo(c, bytes, bytes, 0, 0, None, 0);
    assert Step(c, s0, run[0]) == s1 && Step(c, s1, run[1]) == s2 && Step(c, s2, run[2]) == s1;
    Extends(c, run[..0], s0, run[0], run[..1], s1);
    Extends(c, run[..1], s1, run[1], run[..2], s2);
    Extends(c, run[..2], s2, run[2], run[..3], s1);
  }

  // The rescan it makes finds an empty directory.
  lemma RescanFreesTooMuch(c: Config, bytes: u64, n: u64)
    requires c == Config(0, c.limit, 2) && 0 < bytes <= c.limit && 0 < n <= c.limit
    requires c.limit as int < bytes as int + n as int < WORD
    ensures Run(c, RescanRun(bytes, n)[..6]) == Some(Two(0, bytes, 0, 0, None, bytes as nat))
  {
    var run, s3 := RescanRun(bytes, n), Two(bytes, bytes, 0, 0, None, 0);
    var s4, s5 := s3.(scan := Some(Loaded(bytes))), s3.(scan := Some(Walked(bytes, 0)));
    RefusedAndRolledBack(c, bytes, n);
    Extends(c, run[..3], s3, run[3], run[..4], s4);
    Extends(c, run[..4], s4, run[4], run[..5], s5);
    Extends(c, run[..5], s5, run[5], run[..6], Two(0, bytes, 0, 0, None, bytes as nat));
  }

  lemma WrapTwice(bytes: u64, n: u64, wrapped: u64)
    requires 0 < bytes && wrapped as int == WORD - bytes as int
    ensures Wrap(Wrap(n as int - bytes as int) as int - n as int) == wrapped
  {
    WrapMoves(n as int - bytes as int, -(n as int));
    WrapInRange(-(bytes as int));
  }

  // The retried add and the two drops: the first upload's bytes are taken out once more.
  lemma DropsWrap(c: Config, bytes: u64, n: u64, wrapped: u64)
    requires c == Config(0, c.limit, 2) && 0 < bytes <= c.limit && 0 < n <= c.limit
    requires c.limit as int < bytes as int + n as int < WORD && wrapped as int == WORD - bytes as int
    ensures Run(c, RescanRun(bytes, n)) == Some(Two(wrapped, 0, 0, 0, None, bytes as nat))
  {
    var run, recovered := RescanRun(bytes, n), bytes as nat;
    var between := Wrap(n as int - bytes as int);
    var s6, s7 := Two(0, bytes, 0, 0, None, recovered), Two(n, bytes, n, 0, None, recovered);
    var s8, s9 := Two(between, 0, n, 0, None, recovered), Two(wrapped, 0, 0, 0, None, recovered);
    RescanFreesTooMuch(c, bytes, n);
    AddTwo(c, 0, bytes, n, recovered);
    DropTwo(c, n, bytes, n, recovered);
    DropTwo(c, between, 0, n, recovered);
    WrapTwice(bytes, n, wrapped);
    Extends(c, run[..6], s6, run[6], run[..7], s7);
    Extends(c, run[..7], s7, run[7], run[..8], s8);
    Extends(c, run[..8], s8, run[8], run, s9);
  }

  /**
   * The pipeline removes a source before its reservation is dropped. A second upload that is
   * refused meanwhile rescans an empty directory, which takes the bytes out of the counter; the
   * drop takes them out again, and the counter wraps: until the next rescan every add is refused,
   * whatever its size, although nothing is stored or held.
   */
  lemma RescanThenDropWraps(limit: u64, bytes: u64, n: u64, id: nat, m: u64)
    requires 0 < bytes <= limit && 0 < n <= limit && limit as int < bytes as int + n as int
    requires limit as int + bytes as int < WORD && id < 2 && m as int < WORD
    ensures var c := Config(0, limit, 2);
            var run := RescanRun(bytes, n);
            && Run(c, run).Some? && Quiet(Run(c, run).value)
            && Run(c, run).value.counter as int == WORD - bytes as int
            && Enabled(c, Run(c, run).value, Add(id, m))
            && Step(c, Run(c, run).value, Add(id, m)).held == Run(c, run).value.held
  {
    var c, wrapped := Config(0, limit, 2), (WORD - bytes as int) as u64;
    DropsWrap(c, bytes, n, wrapped);
    ChargedTwo(c, wrapped, 0, 0, 0, None, bytes as nat);
  }
}
