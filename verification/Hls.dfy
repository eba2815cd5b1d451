/**
 The HLS assembler: segments are fetched a few at a time and finish in any
 order; segments that failed are retried against a freshly resolved playlist.
 */
module Hls {
  import opened Options
  import opened Basics

  type Byte = b: int | 0 <= b < 256
  type Bytes = seq<Byte>

  const HLS_CONCURRENCY: nat := 3
  const MAX_M3U8_REFRESH: nat := 2

  datatype Source = Source(init: Option<string>, segments: seq<string>)

  datatype Error =
    | NoPlaylist | NoInit | Unsupported
    | Unrecoverable(failed: nat) | StillFailing | NoRefresh | CountChanged

  datatype Result<T> = Ok(value: T) | Err(error: Error)

  // What the network answers.  `segment(r, i, url)` is the validated body of
  // segment i in round r (round r uses the r-th refreshed playlist).
  datatype Net = Net(
    playlist: Option<Source>,
    init: string -> Option<Bytes>,
    segment: (nat, nat, string) -> Option<Bytes>,
    refresher: Option<nat -> Option<Source>>
  )

  // One finished segment request.
  datatype Request = Request(round: nat, index: nat, ok: bool)

  // ------------------------------------------------------------ one batch

  // What round `round` answers for segment i.
  function Body(net: Net, round: nat, urls: seq<string>, i: nat): Option<Bytes> {
    if i < |urls| then net.segment(round, i, urls[i]) else None
  }

  // Each index of `done` was requested once in this round, and nothing else was.
  ghost predicate Asked(net: Net, round: nat, urls: seq<string>, done: set<nat>, requests: seq<Request>) {
    && (forall k, l | 0 <= k < l < |requests| :: requests[k].index != requests[l].index)
    && (forall q | q in requests ::
          q.round == round && q.index in done && (q.ok <==> Body(net, round, urls, q.index).Some?))
    && (forall i | i in done :: Request(round, i, Body(net, round, urls, i).Some?) in requests)
  }

  lemma AskedOneMore(net: Net, round: nat, urls: seq<string>, done: set<nat>, requests: seq<Request>, i: nat)
    requires Asked(net, round, urls, done, requests) && i !in done
    ensures Asked(net, round, urls, done + {i}, requests + [Request(round, i, Body(net, round, urls, i).Some?)])
  {
    var more := requests + [Request(round, i, Body(net, round, urls, i).Some?)];
    forall k, l | 0 <= k < l < |more| ensures more[k].index != more[l].index {
      assert more[k] in requests;
      if l < |requests| { assert more[k] == requests[k] && more[l] == requests[l]; }
    }
    assert more[|requests|] in more;
    assert forall q | q in requests :: q in more;
  }

  // What a round leaves in the result slots.
  function Filled(net: Net, round: nat, urls: seq<string>, done: set<nat>, slots: seq<Option<Bytes>>)
    : (filled: seq<Option<Bytes>>)
    ensures |filled| == |slots|
    ensures forall i | 0 <= i < |slots| :: filled[i] ==
              if i in done && Body(net, round, urls, i).Some? then Body(net, round, urls, i) else slots[i]
  {
    seq(|slots|, i requires 0 <= i < |slots| =>
      if i in done && Body(net, round, urls, i).Some? then Body(net, round, urls, i) else slots[i])
  }

  function Elements(s: seq<nat>): set<nat> {
    if s == [] then {} else {s[0]} + Elements(s[1..])
  }

  predicate Distinct(s: seq<nat>) {
    s != [] ==> s[0] !in Elements(s[1..]) && Distinct(s[1..])
  }

  function Failures(net: Net, round: nat, urls: seq<string>, done: set<nat>): set<nat> {
    set i | i in done && Body(net, round, urls, i).None?
  }

  // One finished request is taken from the stream.
  method TakeFinished(
      net: Net, round: nat, urls: seq<string>, i: nat, results: array<Option<Bytes>>,
      failed: set<nat>, requests: seq<Request>, ghost done: set<nat>, ghost slots: seq<Option<Bytes>>)
    returns (failed': set<nat>, requests': seq<Request>)
    requires i < |urls| == results.Length && i !in done && |slots| == results.Length
    requires results[..] == Filled(net, round, urls, done, slots)
    requires failed == Failures(net, round, urls, done)
    requires Asked(net, round, urls, done, requests)
    modifies results
    ensures results[..] == Filled(net, round, urls, done + {i}, slots)
    ensures failed' == Failures(net, round, urls, done + {i})
    ensures Asked(net, round, urls, done + {i}, requests')
  {
    var data := net.segment(round, i, urls[i]);
    AskedOneMore(net, round, urls, done, requests, i);
    failed', requests' := failed, requests + [Request(round, i, data.Some?)];
    ghost var before := results[..];
    if data.Some? {
      results[i] := data;
      assert results[..] == before[i := data];
    } else {
      failed' := failed + {i};
    }
  }

  method FetchSegmentBatch(
      net: Net, round: nat, urls: seq<string>, indices: seq<nat>, results: array<Option<Bytes>>)
    returns (failed: set<nat>, requests: seq<Request>)
    requires results.Length == |urls|
    requires Distinct(indices) && forall i | i in Elements(indices) :: i < |urls|
    modifies results
    ensures results[..] == Filled(net, round, urls, Elements(indices), old(results[..]))
    ensures failed == Failures(net, round, urls, Elements(indices))
    ensures Asked(net, round, urls, Elements(indices), requests)
  {
    failed, requests := {}, [];
    var waiting := indices;
    var inFlight: set<nat> := {};
    ghost var done: set<nat>, slots := {}, results[..];
    while waiting != [] || inFlight != {}
      invariant |inFlight| <= HLS_CONCURRENCY
      invariant Distinct(waiting) && Splits(Elements(indices), Elements(waiting), inFlight, done)
      invariant Asked(net, round, urls, done, requests)
      invariant results[..] == Filled(net, round, urls, done, slots)
      invariant failed == Failures(net, round, urls, done)
      decreases |waiting|, |inFlight|
    {
      if waiting != [] && |inFlight| < HLS_CONCURRENCY {
        SplitsStart(Elements(indices), Elements(waiting[1..]), inFlight, done, waiting[0]);
        inFlight := inFlight + {waiting[0]};
        waiting := waiting[1..];
      } else {
        var i :| i in inFlight;     // whichever request finishes next
        SplitsFinish(Elements(indices), Elements(waiting), inFlight, done, i);
        failed, requests := TakeFinished(net, round, urls, i, results, failed, requests, done, slots);
        inFlight, done := inFlight - {i}, done + {i};
      }
    }
    assert done == Elements(indices);
  }

  predicate Splits(all: set<nat>, waiting: set<nat>, inFlight: set<nat>, done: set<nat>) {
    && all == waiting + inFlight + done
    && waiting !! inFlight && waiting !! done && inFlight !! done
  }

  lemma SplitsStart(all: set<nat>, waiting: set<nat>, inFlight: set<nat>, done: set<nat>, i: nat)
    requires Splits(all, {i} + waiting, inFlight, done) && i !in waiting
    ensures Splits(all, waiting, inFlight + {i}, done) && |inFlight + {i}| == |inFlight| + 1
  {
  }

  lemma SplitsFinish(all: set<nat>, waiting: set<nat>, inFlight: set<nat>, done: set<nat>, i: nat)
    requires Splits(all, waiting, inFlight, done) && i in inFlight
    ensures Splits(all, waiting, inFlight - {i}, done + {i}) && |inFlight - {i}| == |inFlight| - 1
    ensures i in all && i !in done
  {
  }

  // ------------------------------------------------------------ the download, without any order

  // Indices of the empty slots from `from` on, ascending.
  function Pending(slots: seq<Option<Bytes>>, from: nat): (pending: seq<nat>)
    requires from <= |slots|
    ensures forall i :: i in Elements(pending) <==> from <= i < |slots| && slots[i].None?
    ensures Distinct(pending)
    decreases |slots| - from
  {
    if from == |slots| then []
    else if slots[from].None? then [from] + Pending(slots, from + 1)
    else Pending(slots, from + 1)
  }

  predicate AllSome(slots: seq<Option<Bytes>>) { forall i | 0 <= i < |slots| :: slots[i].Some? }

  // One round: every empty slot is tried once.
  function Retry(net: Net, round: nat, urls: seq<string>, slots: seq<Option<Bytes>>): (next: seq<Option<Bytes>>)
    ensures |next| == |slots|
    ensures forall i | 0 <= i < |slots| ::
              next[i] == if slots[i].Some? then slots[i] else Body(net, round, urls, i)
  {
    seq(|slots|, i requires 0 <= i < |slots| => if slots[i].Some? then slots[i] else Body(net, round, urls, i))
  }

  // The playlist for the next round, after `failed` segments failed.
  function Renewed(net: Net, round: nat, urls: seq<string>, failed: nat): Result<seq<string>> {
    if net.refresher.None? then Err(Unrecoverable(failed))
    else if round >= MAX_M3U8_REFRESH then Err(StillFailing)
    else
      match net.refresher.value(round + 1)
      case None => Err(NoRefresh)
      case Some(renewed) => if |renewed.segments| != |urls| then Err(CountChanged) else Ok(renewed.segments)
  }

  // The rounds from `round` on.
  function Rounds(net: Net, round: nat, urls: seq<string>, slots: seq<Option<Bytes>>): Result<seq<Option<Bytes>>>
    decreases if round <= MAX_M3U8_REFRESH then MAX_M3U8_REFRESH + 1 - round else 0
  {
    var next := Retry(net, round, urls, slots);
    if AllSome(next) then Ok(next) else
    match Renewed(net, round, urls, |Pending(next, 0)|)
    case Err(e) => Err(e)
    case Ok(renewed) => Rounds(net, round + 1, renewed, next)
  }

  function Concat(slots: seq<Option<Bytes>>): Bytes {
    if slots == [] then [] else (if slots[0].Some? then slots[0].value else []) + Concat(slots[1..])
  }

  // How many bytes the first n bodies have.
  function Offset(slots: seq<Option<Bytes>>, n: nat): nat
    requires n <= |slots|
  {
    if n == 0 then 0 else Offset(slots, n - 1) + if slots[n - 1].Some? then |slots[n - 1].value| else 0
  }

  // The init data, and then every body in playlist order, byte by byte.
  ghost predicate LaidOut(bytes: Bytes, init: Bytes, bodies: seq<Option<Bytes>>) {
    && AllSome(bodies)
    && |bytes| == |init| + Offset(bodies, |bodies|)
    && (forall j | 0 <= j < |init| :: bytes[j] == init[j])
    && (forall i | 0 <= i < |bodies| :: BodyAt(bytes, |init| + Offset(bodies, i), bodies[i].value))
  }

  ghost predicate BodyAt(bytes: Bytes, at: nat, body: Bytes) {
    at + |body| <= |bytes| && forall j | 0 <= j < |body| :: bytes[at + j] == body[j]
  }

  lemma {:induction false} OffsetOfRest(slots: seq<Option<Bytes>>, n: nat)
    requires 0 < n <= |slots|
    ensures Offset(slots, n) == (if slots[0].Some? then |slots[0].value| else 0) + Offset(slots[1..], n - 1)
  {
    if n > 1 {
      OffsetOfRest(slots, n - 1);
      assert slots[1..][n - 2] == slots[n - 1];
    }
  }

  lemma BodyMoves(front: Bytes, rest: Bytes, at: nat, body: Bytes)
    requires BodyAt(rest, at, body)
    ensures BodyAt(front + rest, |front| + at, body)
  {
    forall j | 0 <= j < |body| ensures (front + rest)[|front| + at + j] == body[j] {
      assert (front + rest)[|front| + at + j] == rest[at + j];
    }
  }

  lemma BodyLeads(front: Bytes, rest: Bytes)
    ensures BodyAt(front + rest, 0, front)
  {
  }

  // Where body i stands among the bodies.
  lemma {:induction false} ConcatAt(slots: seq<Option<Bytes>>, i: nat)
    requires AllSome(slots) && i < |slots|
    ensures BodyAt(Concat(slots), Offset(slots, i), slots[i].value)
  {
    var first, rest := slots[0].value, Concat(slots[1..]);
    if i == 0 {
      BodyLeads(first, rest);
    } else {
      ConcatAt(slots[1..], i - 1);
      OffsetOfRest(slots, i);
      assert slots[1..][i - 1] == slots[i];
      BodyMoves(first, rest, Offset(slots[1..], i - 1), slots[i].value);
    }
  }

  lemma {:induction false} ConcatLength(slots: seq<Option<Bytes>>)
    requires AllSome(slots)
    ensures |Concat(slots)| == Offset(slots, |slots|)
  {
    if slots != [] {
      ConcatLength(slots[1..]);
      OffsetOfRest(slots, |slots|);
    }
  }

  /** Behind the init data every body stands behind those before it, and nothing else. */
  lemma {:induction false} ConcatIsLaidOut(init: Bytes, slots: seq<Option<Bytes>>)
    requires AllSome(slots)
    ensures LaidOut(init + Concat(slots), init, slots)
  {
    ConcatLength(slots);
    forall i | 0 <= i < |slots| ensures BodyAt(init + Concat(slots), |init| + Offset(slots, i), slots[i].value) {
      ConcatAt(slots, i);
      BodyMoves(init, Concat(slots), Offset(slots, i), slots[i].value);
    }
  }

  const ENCA: Bytes := [101, 110, 99, 97]

  predicate EncaAt(data: Bytes, i: int) { 0 <= i <= |data| - 4 && data[i..i + 4] == ENCA }

  predicate HasEnca(data: Bytes) { exists i | 0 <= i < |data| :: EncaAt(data, i) }

  function Prelude(net: Net, source: Source): Result<Bytes> {
    match source.init
    case None => Ok([])
    case Some(url) =>
      match net.init(url)
      case None => Err(NoInit)
      case Some(data) => if HasEnca(data) then Err(Unsupported) else Ok(data)
  }

  function Empty(n: nat): seq<Option<Bytes>> { seq(n, i => None) }

  // What a download yields, whatever the order of completion.
  function Download(net: Net): Result<Bytes> {
    if net.playlist.None? || net.playlist.value.segments == [] then Err(NoPlaylist) else
    match Prelude(net, net.playlist.value)
    case Err(e) => Err(e)
    case Ok(init) =>
      match Rounds(net, 0, net.playlist.value.segments, Empty(|net.playlist.value.segments|))
      case Err(e) => Err(e)
      case Ok(slots) => Ok(init + Concat(slots))
  }

  // ------------------------------------------------------------ the loop

  // Over a whole download: a repeated request belongs to a later round and follows a failure.
  ghost predicate Frugal(requests: seq<Request>) {
    forall k, l | 0 <= k < l < |requests| && requests[k].index == requests[l].index ::
      requests[k].round < requests[l].round && !requests[k].ok
  }

  ghost predicate RoundsBelow(requests: seq<Request>, limit: nat) {
    forall k | 0 <= k < |requests| :: requests[k].round < limit
  }

  // What was fetched sits in its slot.
  ghost predicate Kept(requests: seq<Request>, slots: seq<Option<Bytes>>) {
    forall q | q in requests && q.ok :: q.index < |slots| && slots[q.index].Some?
  }

  lemma FilledIsRetry(net: Net, round: nat, urls: seq<string>, slots: seq<Option<Bytes>>)
    ensures Filled(net, round, urls, Elements(Pending(slots, 0)), slots) == Retry(net, round, urls, slots)
    ensures Failures(net, round, urls, Elements(Pending(slots, 0))) == {} <==> AllSome(Retry(net, round, urls, slots))
  {
    var done, next := Elements(Pending(slots, 0)), Retry(net, round, urls, slots);
    if !AllSome(next) {
      var i :| 0 <= i < |next| && next[i].None?;
      assert i in Failures(net, round, urls, done);
    }
    if Failures(net, round, urls, done) != {} {
      var i :| i in Failures(net, round, urls, done);
      assert next[i].None?;
    }
  }

  lemma FailedAreCounted(net: Net, round: nat, urls: seq<string>, slots: seq<Option<Bytes>>)
    ensures Failures(net, round, urls, Elements(Pending(slots, 0)))
         == Elements(Pending(Retry(net, round, urls, slots), 0))
    ensures |Failures(net, round, urls, Elements(Pending(slots, 0)))| == |Pending(Retry(net, round, urls, slots), 0)|
  {
    DistinctCount(Pending(Retry(net, round, urls, slots), 0));
  }

  lemma {:induction false} DistinctCount(s: seq<nat>)
    requires Distinct(s)
    ensures |Elements(s)| == |s|
  {
    if s != [] { DistinctCount(s[1..]); }
  }

  lemma FinishedRounds(net: Net, round: nat, urls: seq<string>, slots: seq<Option<Bytes>>)
    requires AllSome(slots)
    ensures Rounds(net, round, urls, slots) == Ok(slots)
  {
    assert Retry(net, round, urls, slots) == slots;
  }

  lemma StaysFrugal(
      net: Net, round: nat, urls: seq<string>, slots: seq<Option<Bytes>>,
      before: seq<Request>, batch: seq<Request>)
    requires Frugal(before) && RoundsBelow(before, round) && Kept(before, slots)
    requires Asked(net, round, urls, Elements(Pending(slots, 0)), batch)
    ensures Frugal(before + batch) && RoundsBelow(before + batch, round + 1)
    ensures Kept(before + batch, Retry(net, round, urls, slots))
  {
    var all := before + batch;
    assert forall k | 0 <= k < |before| :: all[k] == before[k] && before[k] in before;
    assert forall k | |before| <= k < |all| :: all[k] == batch[k - |before|] && all[k] in batch;
    forall k, l | 0 <= k < l < |all|
      ensures all[k].index == all[l].index ==> all[k].round < all[l].round && !all[k].ok
    {
      if k >= |before| {
        assert batch[k - |before|].index != batch[l - |before|].index;
      }
    }
  }

  method FetchPrelude(net: Net, source: Source) returns (r: Result<Bytes>)
    ensures r == Prelude(net, source)
  {
    if source.init.None? { return Ok([]); }
    var data := net.init(source.init.value);
    if data.None? { return Err(NoInit); }
    if HasEnca(data.value) { return Err(Unsupported); }
    r := Ok(data.value);
  }

  // One round of the loop of download_hls.
  method FetchPending(net: Net, round: nat, urls: seq<string>, results: array<Option<Bytes>>, requests: seq<Request>)
    returns (failed: nat, requests': seq<Request>)
    requires results.Length == |urls| && round <= MAX_M3U8_REFRESH
    requires Frugal(requests) && RoundsBelow(requests, round) && Kept(requests, results[..])
    modifies results
    ensures results[..] == Retry(net, round, urls, old(results[..]))
    ensures failed == |Pending(results[..], 0)| && (failed == 0 <==> AllSome(results[..]))
    ensures Frugal(requests') && RoundsBelow(requests', round + 1) && Kept(requests', results[..])
    ensures RoundsBelow(requests', MAX_M3U8_REFRESH + 1)
  {
    ghost var slots := results[..];
    var pending := Pending(results[..], 0);
    var failures, batch := FetchSegmentBatch(net, round, urls, pending, results);
    FilledIsRetry(net, round, urls, slots);
    StaysFrugal(net, round, urls, slots, requests, batch);
    FailedAreCounted(net, round, urls, slots);
    PendingOrDone(results[..]);
    failed, requests' := |failures|, requests + batch;
  }

  // The requests of the rounds before this one: frugal, and none for a filled slot still to come.
  ghost predicate Tidy(requests: seq<Request>, round: nat, slots: seq<Option<Bytes>>) {
    && Frugal(requests) && Kept(requests, slots) && RoundsBelow(requests, MAX_M3U8_REFRESH + 1)
    && (AllSome(slots) || RoundsBelow(requests, round))
  }

  // Before a round: what the rest of the rounds will answer is the answer.
  ghost predicate RoundInv(answer: Result<seq<Option<Bytes>>>, net: Net, round: nat, urls: seq<string>,
                           slots: seq<Option<Bytes>>, requests: seq<Request>) {
    && round <= MAX_M3U8_REFRESH && |slots| == |urls|
    && answer == Rounds(net, round, urls, slots) && Tidy(requests, round, slots)
  }

  lemma NothingAskedYet(net: Net, urls: seq<string>)
    ensures RoundInv(Rounds(net, 0, urls, Empty(|urls|)), net, 0, urls, Empty(|urls|), [])
  {
  }

  lemma AnswerIsReady(answer: Result<seq<Option<Bytes>>>, net: Net, round: nat, urls: seq<string>,
                      slots: seq<Option<Bytes>>, requests: seq<Request>)
    requires RoundInv(answer, net, round, urls, slots, requests) && AllSome(slots)
    ensures answer == Ok(slots) && Frugal(requests) && RoundsBelow(requests, MAX_M3U8_REFRESH + 1)
  {
    FinishedRounds(net, round, urls, slots);
  }

  // One pass of the loop: a batch, and a new playlist if something is still missing.
  method FetchRound(net: Net, round: nat, urls: seq<string>, results: array<Option<Bytes>>, requests: seq<Request>,
                    ghost answer: Result<seq<Option<Bytes>>>)
    returns (failed: nat, renewed: Result<seq<string>>, requests': seq<Request>)
    requires RoundInv(answer, net, round, urls, results[..], requests) && !AllSome(results[..])
    modifies results
    ensures failed == 0 <==> AllSome(results[..])
    ensures Frugal(requests') && RoundsBelow(requests', MAX_M3U8_REFRESH + 1)
    ensures failed == 0 ==> RoundInv(answer, net, round, urls, results[..], requests')
    ensures failed > 0 && renewed.Err? ==> answer == Err(renewed.error)
    ensures failed > 0 && renewed.Ok? ==> RoundInv(answer, net, round + 1, renewed.value, results[..], requests')
  {
    ghost var slots := results[..];
    failed, requests' := FetchPending(net, round, urls, results, requests);
    renewed := Ok(urls);
    if failed == 0 {
      DoneRound(net, round, urls, slots);
      FinishedRounds(net, round, urls, results[..]);
    } else {
      renewed := Renew(net, round, urls, failed);
      OneRound(net, round, urls, slots, results[..], failed, renewed);
    }
  }

  lemma DoneRound(net: Net, round: nat, urls: seq<string>, slots: seq<Option<Bytes>>)
    requires AllSome(Retry(net, round, urls, slots))
    ensures Rounds(net, round, urls, slots) == Ok(Retry(net, round, urls, slots))
  {
  }

  method FetchSegments(net: Net, first: seq<string>) returns (r: Result<seq<Option<Bytes>>>, requests: seq<Request>)
    ensures r == Rounds(net, 0, first, Empty(|first|))
    ensures Frugal(requests) && RoundsBelow(requests, MAX_M3U8_REFRESH + 1)
  {
    var results := new Option<Bytes>[|first|](i => None);
    assert results[..] == Empty(|first|);
    r, requests := FillResults(net, first, results);
  }

  // The loop of download_hls.
  method FillResults(net: Net, first: seq<string>, results: array<Option<Bytes>>)
    returns (r: Result<seq<Option<Bytes>>>, requests: seq<Request>)
    requires results[..] == Empty(|first|)
    modifies results
    ensures r == Rounds(net, 0, first, Empty(|first|))
    ensures Frugal(requests) && RoundsBelow(requests, MAX_M3U8_REFRESH + 1)
  {
    ghost var answer := Rounds(net, 0, first, Empty(|first|));
    var urls, refreshesUsed := first, 0;
    requests := [];
    NothingAskedYet(net, first);
    var complete := IsComplete(results);
    while !complete
      invariant RoundInv(answer, net, refreshesUsed, urls, results[..], requests)
      invariant complete == AllSome(results[..])
      decreases MAX_M3U8_REFRESH - refreshesUsed, if complete then 0 else 1
    {
      var failed, renewed;
      failed, renewed, requests := FetchRound(net, refreshesUsed, urls, results, requests, answer);
      complete := IsComplete(results);
      if failed == 0 { continue; }
      if renewed.Err? { return Err(renewed.error), requests; }
      refreshesUsed, urls := refreshesUsed + 1, renewed.value;
    }
    AnswerIsReady(answer, net, refreshesUsed, urls, results[..], requests);
    r := Ok(results[..]);
  }

  // No segment is pending.
  method IsComplete(results: array<Option<Bytes>>) returns (complete: bool)
    ensures complete == AllSome(results[..])
  {
    PendingOrDone(results[..]);
    complete := Pending(results[..], 0) == [];
  }

  lemma OneRound(
      net: Net, round: nat, urls: seq<string>, slots: seq<Option<Bytes>>, next: seq<Option<Bytes>>,
      failed: nat, renewed: Result<seq<string>>)
    requires next == Retry(net, round, urls, slots) && !AllSome(next) && failed == |Pending(next, 0)|
    requires renewed == Renewed(net, round, urls, failed)
    ensures Rounds(net, round, urls, slots) ==
            if renewed.Err? then Err(renewed.error) else Rounds(net, round + 1, renewed.value, next)
  {
  }

  method Renew(net: Net, round: nat, urls: seq<string>, failed: nat) returns (r: Result<seq<string>>)
    ensures r == Renewed(net, round, urls, failed)
  {
    if net.refresher.None? { return Err(Unrecoverable(failed)); }
    if round >= MAX_M3U8_REFRESH { return Err(StillFailing); }
    var renewed := net.refresher.value(round + 1);
    if renewed.None? { return Err(NoRefresh); }
    if |renewed.value.segments| != |urls| { return Err(CountChanged); }
    r := Ok(renewed.value.segments);
  }

  // The last loop of download_hls.
  method Assemble(init: Bytes, results: seq<Option<Bytes>>) returns (buf: Bytes)
    ensures buf == init + Concat(results)
  {
    buf := init;
    var i := 0;
    assert results[0..] == results;
    while i < |results|
      invariant 0 <= i <= |results|
      invariant buf + Concat(results[i..]) == init + Concat(results)
    {
      assert results[i..][1..] == results[i + 1..];
      assert Concat(results[i..]) == (if results[i].Some? then results[i].value else []) + Concat(results[i + 1..]);
      if results[i].Some? { buf := buf + results[i].value; }
      i := i + 1;
    }
  }

  method DownloadHls(net: Net) returns (r: Result<Bytes>, requests: seq<Request>)
    ensures r == Download(net)
    ensures Frugal(requests) && RoundsBelow(requests, MAX_M3U8_REFRESH + 1)
  {
    requests := [];
    if net.playlist.None? || net.playlist.value.segments == [] { return Err(NoPlaylist), []; }
    var init := FetchPrelude(net, net.playlist.value);
    if init.Err? { return Err(init.error), []; }
    var slots: Result<seq<Option<Bytes>>>;
    slots, requests := FetchSegments(net, net.playlist.value.segments);
    if slots.Err? { return Err(slots.error), requests; }
    var buf := Assemble(init.value, slots.value);
    r := Ok(buf);
  }

  lemma PendingOrDone(slots: seq<Option<Bytes>>)
    ensures Pending(slots, 0) == [] <==> AllSome(slots)
  {
    var pending := Pending(slots, 0);
    assert pending != [] ==> pending[0] in Elements(pending);
    assert forall i | 0 <= i < |slots| :: slots[i].None? <==> i in Elements(pending);
  }

  // ------------------------------------------------------------ what a download means

  // The playlist of round r, if every refresh up to it worked.
  function UrlsAt(net: Net, first: seq<string>, r: nat): Option<seq<string>> {
    if r == 0 then Some(first)
    else if UrlsAt(net, first, r - 1).None? || net.refresher.None? then None
    else
      match net.refresher.value(r)
      case None => None
      case Some(source) => if |source.segments| == |first| then Some(source.segments) else None
  }

  // The first body segment i got in rounds 0..r.
  function FirstBody(net: Net, first: seq<string>, i: nat, r: nat): Option<Bytes> {
    if r > 0 && FirstBody(net, first, i, r - 1).Some? then FirstBody(net, first, i, r - 1)
    else
      match UrlsAt(net, first, r)
      case None => None
      case Some(urls) => Body(net, r, urls, i)
  }

  function FirstBodies(net: Net, first: seq<string>, r: nat): (bodies: seq<Option<Bytes>>)
    ensures |bodies| == |first|
    ensures forall i | 0 <= i < |first| :: bodies[i] == FirstBody(net, first, i, r)
  {
    seq(|first|, i requires 0 <= i < |first| => FirstBody(net, first, i, r))
  }

  // By round r every segment has arrived.
  ghost predicate Complete(net: Net, first: seq<string>, r: nat) {
    UrlsAt(net, first, r).Some? && AllSome(FirstBodies(net, first, r))
  }

  lemma {:induction false} CompleteStays(net: Net, first: seq<string>, r: nat, k: nat)
    requires AllSome(FirstBodies(net, first, r)) && r <= k
    ensures FirstBodies(net, first, k) == FirstBodies(net, first, r)
  {
    if r < k {
      CompleteStays(net, first, r, k - 1);
      forall i | 0 <= i < |first|
        ensures FirstBody(net, first, i, k) == FirstBody(net, first, i, r)
      {
        assert FirstBodies(net, first, k - 1)[i].Some?;
      }
    }
  }

  lemma {:induction false} NoUrlsLater(net: Net, first: seq<string>, r: nat, k: nat)
    requires UrlsAt(net, first, r).None? && r <= k
    ensures UrlsAt(net, first, k).None?
  {
    if r < k { NoUrlsLater(net, first, r, k - 1); }
  }

  function Before(net: Net, first: seq<string>, r: nat): seq<Option<Bytes>> {
    if r == 0 then Empty(|first|) else FirstBodies(net, first, r - 1)
  }

  lemma {:induction false} RoundsMeaning(net: Net, first: seq<string>, r: nat)
    requires r <= MAX_M3U8_REFRESH && UrlsAt(net, first, r).Some?
    ensures var result := Rounds(net, r, UrlsAt(net, first, r).value, Before(net, first, r));
            && (result.Ok? ==> exists k :: r <= k <= MAX_M3U8_REFRESH && Complete(net, first, k))
            && (forall k | r <= k <= MAX_M3U8_REFRESH && Complete(net, first, k) ::
                  result == Ok(FirstBodies(net, first, k)))
    decreases MAX_M3U8_REFRESH - r
  {
    var urls, slots := UrlsAt(net, first, r).value, Before(net, first, r);
    var next := Retry(net, r, urls, slots);
    assert next == FirstBodies(net, first, r);
    if AllSome(next) {
      assert Complete(net, first, r);
      forall k | r <= k <= MAX_M3U8_REFRESH ensures FirstBodies(net, first, k) == next {
        CompleteStays(net, first, r, k);
      }
    } else {
      var renewed := Renewed(net, r, urls, |Pending(next, 0)|);
      OneRound(net, r, urls, slots, next, |Pending(next, 0)|, renewed);
      assert !Complete(net, first, r);
      if renewed.Ok? {
        RoundsMeaning(net, first, r + 1);
      } else if r < MAX_M3U8_REFRESH {
        assert UrlsAt(net, first, r + 1).None?;
        forall k | r < k <= MAX_M3U8_REFRESH ensures !Complete(net, first, k) {
          NoUrlsLater(net, first, r + 1, k);
        }
      }
    }
  }

  /**
   A download succeeds exactly when the playlist and the init part are good and
   some round completes the segments; its bytes are then the init part followed
   by the first body each segment got, in playlist order.
   */
  lemma {:induction false} DownloadMeaning(net: Net)
    requires net.playlist.Some? && net.playlist.value.segments != []
    requires Prelude(net, net.playlist.value).Ok?
    ensures var first, init := net.playlist.value.segments, Prelude(net, net.playlist.value).value;
            && (Download(net).Ok? <==> exists r :: 0 <= r <= MAX_M3U8_REFRESH && Complete(net, first, r))
            && (forall r | 0 <= r <= MAX_M3U8_REFRESH && Complete(net, first, r) ::
                  Download(net).Ok? && LaidOut(Download(net).value, init, FirstBodies(net, first, r)))
  {
    var first, init := net.playlist.value.segments, Prelude(net, net.playlist.value).value;
    RoundsMeaning(net, first, 0);
    forall r | 0 <= r <= MAX_M3U8_REFRESH && Complete(net, first, r)
      ensures Download(net).Ok? && LaidOut(Download(net).value, init, FirstBodies(net, first, r))
    {
      ConcatIsLaidOut(init, FirstBodies(net, first, r));
    }
  }

  /** The init data is what its URL gave, if the playlist names one and it is not of the encrypted kind. */
  lemma PreludeMeaning(net: Net, source: Source)
    ensures Prelude(net, source).Ok? <==>
            source.init.None? || (net.init(source.init.value).Some? && !HasEnca(net.init(source.init.value).value))
    ensures Prelude(net, source).Ok? ==>
            Some(Prelude(net, source).value) == if source.init.None? then Some([]) else net.init(source.init.value)
  {
  }

  function TimesAsked(requests: seq<Request>, i: nat): nat {
    if requests == [] then 0 else
    TimesAsked(requests[..|requests| - 1], i) + if requests[|requests| - 1].index == i then 1 else 0
  }

  /** No segment is requested more often than there are rounds. */
  lemma {:induction false} AskedOncePerRound(requests: seq<Request>, i: nat, limit: nat)
    requires Frugal(requests)
    requires forall k | 0 <= k < |requests| && requests[k].index == i :: requests[k].round < limit
    ensures TimesAsked(requests, i) <= limit
  {
    if requests != [] {
      var n := |requests| - 1;
      var front, last := requests[..n], requests[n];
      assert forall k | 0 <= k < n :: front[k] == requests[k];
      AskedOncePerRound(front, i, if last.index == i then last.round else limit);
    }
  }

  // ------------------------------------------------------------ reading a playlist

  function FindWord(line: string, word: string, from: nat): (i: Option<nat>)
    requires from <= |line|
    ensures i.Some? ==> from <= i.value && WordAt(line, word, i.value)
                        && forall k | from <= k < i.value :: !WordAt(line, word, k)
    ensures i.None? ==> forall k | from <= k <= |line| :: !WordAt(line, word, k)
    decreases |line| - from
  {
    if WordAt(line, word, from) then Some(from)
    else if from == |line| then None
    else FindWord(line, word, from + 1)
  }

  const MAP_TAG := "#EXT-X-MAP:URI=\""

  // One line of a playlist, already trimmed.
  datatype Line = InitUri(uri: string) | Ignored | Segment(uri: string)

  function Classify(line: string): Line {
    match FindWord(line, MAP_TAG, 0)
    case Some(start) =>
      var rest := line[start + 16..];
      (match FindWord(rest, "\"", 0)
       case Some(end) => InitUri(rest[..end])
       case None => Ignored)
    case None =>
      if line == "" || line[0] == '#' then Ignored else Segment(line)
  }

  function Segments(lines: seq<string>, resolve: string -> string): seq<string> {
    if lines == [] then [] else
    Segments(lines[..|lines| - 1], resolve)
    + match Classify(lines[|lines| - 1]) case Segment(uri) => [resolve(uri)] case _ => []
  }

  // The last map tag wins.
  function InitOf(lines: seq<string>, resolve: string -> string): Option<string> {
    if lines == [] then None else
    match Classify(lines[|lines| - 1])
    case InitUri(uri) => Some(resolve(uri))
    case _ => InitOf(lines[..|lines| - 1], resolve)
  }

  // The body of the line loop: what the line is.
  method ParseLine(line: string) returns (kind: Line)
    ensures kind == Classify(line)
  {
    var start := FindWord(line, MAP_TAG, 0);
    if start.Some? {
      var rest := line[start.value + 16..];
      var end := FindWord(rest, "\"", 0);
      return if end.Some? then InitUri(rest[..end.value]) else Ignored;
    }
    kind := if line == "" || line[0] == '#' then Ignored else Segment(line);
  }

  method ParseM3u8(lines: seq<string>, resolve: string -> string) returns (source: Source)
    ensures source == Source(InitOf(lines, resolve), Segments(lines, resolve))
  {
    var init: Option<string> := None;
    var urls: seq<string> := [];
    for n := 0 to |lines|
      invariant init == InitOf(lines[..n], resolve) && urls == Segments(lines[..n], resolve)
    {
      OneMoreLine(lines, n, resolve);
      var kind := ParseLine(lines[n]);
      match kind
      case InitUri(uri) => init := Some(resolve(uri));
      case Segment(uri) => urls := urls + [resolve(uri)];
      case Ignored =>
    }
    assert lines[..|lines|] == lines;
    source := Source(init, urls);
  }

  lemma OneMoreLine(lines: seq<string>, n: nat, resolve: string -> string)
    requires n < |lines|
    ensures InitOf(lines[..n + 1], resolve) ==
            match Classify(lines[n]) case InitUri(uri) => Some(resolve(uri)) case _ => InitOf(lines[..n], resolve)
    ensures Segments(lines[..n + 1], resolve) ==
            Segments(lines[..n], resolve)
            + match Classify(lines[n]) case Segment(uri) => [resolve(uri)] case _ => []
  {
    assert lines[..n + 1][..n] == lines[..n];
  }

  // A media line: no comment, no map tag inside.
  predicate Media(uri: string) {
    uri != "" && uri[0] != '#' && FindWord(uri, MAP_TAG, 0).None?
  }

  lemma MapLine(uri: string)
    requires forall i | 0 <= i < |uri| :: uri[i] != '"'
    ensures Classify(MAP_TAG + uri + "\"") == InitUri(uri)
  {
    var line := MAP_TAG + uri + "\"";
    assert WordAt(line, MAP_TAG, 0);
    assert line[16..] == uri + "\"";
    var rest := uri + "\"";
    assert WordAt(rest, "\"", |uri|);
    forall k | 0 <= k < |uri| ensures !WordAt(rest, "\"", k) {
      QuoteAt(rest, k);
      assert rest[k] == uri[k];
    }
  }

  lemma QuoteAt(line: string, k: nat)
    requires k < |line|
    ensures WordAt(line, "\"", k) <==> line[k] == '"'
  {
    var quote := "\"";
    assert line[k..k + 1][0] == line[k] && quote[0] == '"';
    assert line[k] == '"' ==> line[k..k + 1] == quote;
  }

  predicate AllMedia(uris: seq<string>) {
    forall i | 0 <= i < |uris| :: Media(uris[i])
  }

  function Resolved(uris: seq<string>, resolve: string -> string): seq<string> {
    seq(|uris|, i requires 0 <= i < |uris| => resolve(uris[i]))
  }

  lemma ResolvedGrows(uris: seq<string>, uri: string, resolve: string -> string)
    ensures Resolved(uris + [uri], resolve) == Resolved(uris, resolve) + [resolve(uri)]
  {
  }

  /** A written playlist is read back: its map tag, then its media lines in order. */
  lemma {:induction false} PlaylistRoundTrip(init: string, uris: seq<string>, resolve: string -> string)
    requires forall i | 0 <= i < |init| :: init[i] != '"'
    requires AllMedia(uris)
    ensures var lines := ["#EXTM3U", MAP_TAG + init + "\""] + uris;
            InitOf(lines, resolve) == Some(resolve(init)) && Segments(lines, resolve) == Resolved(uris, resolve)
  {
    var head := ["#EXTM3U", MAP_TAG + init + "\""];
    if uris == [] {
      HeadIsRead(init, resolve);
      assert head + uris == head;
    } else {
      var front, uri := uris[..|uris| - 1], uris[|uris| - 1];
      assert front + [uri] == uris && AllMedia(front);
      PlaylistRoundTrip(init, front, resolve);
      MediaIsRead(head + front, uri, resolve);
      ResolvedGrows(front, uri, resolve);
      assert (head + front) + [uri] == head + uris;
    }
  }

  lemma HeadIsRead(init: string, resolve: string -> string)
    requires forall i | 0 <= i < |init| :: init[i] != '"'
    ensures var head := ["#EXTM3U", MAP_TAG + init + "\""];
            InitOf(head, resolve) == Some(resolve(init)) && Segments(head, resolve) == []
  {
    var head := ["#EXTM3U", MAP_TAG + init + "\""];
    MapLine(init);
    assert Classify("#EXTM3U") == Ignored;
    OneMoreLine(head, 0, resolve);
    OneMoreLine(head, 1, resolve);
    assert head[..0] == [] && head[..2] == head;
  }

  lemma MediaIsRead(lines: seq<string>, uri: string, resolve: string -> string)
    requires Media(uri)
    ensures InitOf(lines + [uri], resolve) == InitOf(lines, resolve)
    ensures Segments(lines + [uri], resolve) == Segments(lines, resolve) + [resolve(uri)]
  {
    var all := lines + [uri];
    assert all[..|lines|] == lines && all[..|all|] == all;
    OneMoreLine(all, |lines|, resolve);
    assert Classify(uri) == Segment(uri);
  }
}
