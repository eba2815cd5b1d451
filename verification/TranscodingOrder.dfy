/**
 In which order the streaming service tries the transcodings of a track: the
 anonymous client's preset ranking and the cookie client's six tiers.  Entries
 are compared by address in the source, so lists hold positions.
 */
module TranscodingOrder {
  import opened Options
  import opened Basics

  datatype Transcoding = Transcoding(
    protocol: Option<string>, preset: Option<string>, quality: Option<string>,
    snipped: Option<bool>, url: string)

  predicate Contains(s: string, word: string) { exists i: nat | i <= |s| :: WordAt(s, word, i) }

  function Protocol(t: Transcoding): string { if t.protocol.Some? then t.protocol.value else "" }

  predicate IsProgressive(t: Transcoding) { t.protocol == Some("progressive") }

  predicate IsEncrypted(t: Transcoding) { Contains(Protocol(t), "encrypted") }

  predicate IsFull(t: Transcoding) { t.snipped != Some(true) && !Contains(t.url, "/preview") }

  predicate IsHq(t: Transcoding) { t.quality == Some("hq") }

  lemma ProgressiveIsPlain(t: Transcoding)
    requires IsProgressive(t)
    ensures !IsEncrypted(t)
  {
    forall i: nat | i <= |"progressive"| ensures !WordAt("progressive", "encrypted", i) {
      if i <= 2 {
        assert "progressive"[i..i + 9][0] == "progressive"[i];
      }
    }
  }

  // ------------------------------------------------------------ lists ordered by a rank

  type Rank = nat -> nat

  // Smaller rank first; equal ranks in input order.
  predicate Before(rank: Rank, i: nat, j: nat) { rank(i) < rank(j) || (rank(i) == rank(j) && i < j) }

  ghost predicate InOrder(list: seq<nat>, rank: Rank) {
    forall a, b | 0 <= a < b < |list| :: Before(rank, list[a], list[b])
  }

  // What precedes the cursor (rank r, position p).
  predicate Precedes(rank: Rank, i: nat, r: nat, p: nat) { rank(i) < r || (rank(i) == r && i < p) }

  // The list holds, in order, the members that precede the cursor, and nothing else.
  ghost predicate FilledTo(list: seq<nat>, members: set<nat>, rank: Rank, r: nat, p: nat) {
    InOrder(list, rank) && forall i :: i in list <==> i in members && Precedes(rank, i, r, p)
  }

  ghost predicate Ordering(list: seq<nat>, members: set<nat>, rank: Rank) {
    InOrder(list, rank) && forall i :: i in list <==> i in members
  }

  lemma AppendNext(list: seq<nat>, members: set<nat>, rank: Rank, r: nat, p: nat, i: nat)
    requires FilledTo(list, members, rank, r, p)
    requires i in members && rank(i) == r && i >= p
    requires forall j | j in members && rank(j) == r && j >= p :: j >= i
    ensures FilledTo(list + [i], members, rank, r, i + 1)
  {
    var more := list + [i];
    forall a, b | 0 <= a < b < |more| ensures Before(rank, more[a], more[b]) {
      assert more[a] == list[a] && list[a] in list;
    }
  }

  // Moving the cursor past position i.
  lemma Visit(list: seq<nat>, members: set<nat>, rank: Rank, r: nat, i: nat)
    requires FilledTo(list, members, rank, r, i)
    ensures FilledTo(if i in members && rank(i) == r then list + [i] else list, members, rank, r, i + 1)
    ensures i in list <==> i in members && rank(i) < r
  {
    if i in members && rank(i) == r {
      AppendNext(list, members, rank, r, i, i);
    }
  }

  // An ordering is a permutation of its members: nothing is repeated.
  lemma OrderingRepeatsNothing(list: seq<nat>, members: set<nat>, rank: Rank)
    requires Ordering(list, members, rank)
    ensures |list| == |members|
    ensures forall a, b | 0 <= a < b < |list| :: list[a] != list[b]
  {
    Counted(list, members);
  }

  lemma {:induction false} Counted(list: seq<nat>, members: set<nat>)
    requires forall a, b | 0 <= a < b < |list| :: list[a] != list[b]
    requires forall i :: i in list <==> i in members
    ensures |list| == |members|
  {
    if list == [] {
      assert members == {};
    } else {
      var front, last := list[..|list| - 1], list[|list| - 1];
      assert list == front + [last] && last in members;
      assert forall i :: i in front <==> i in members - {last};
      Counted(front, members - {last});
    }
  }

  /** There is only one ordering: the stable sort by rank. */
  lemma {:induction false} OrderingIsUnique(a: seq<nat>, b: seq<nat>, members: set<nat>, rank: Rank)
    requires Ordering(a, members, rank) && Ordering(b, members, rank)
    ensures a == b
    decreases |a|
  {
    OrderingRepeatsNothing(a, members, rank);
    OrderingRepeatsNothing(b, members, rank);
    if a != [] {
      assert a[0] in b && b != [] && b[0] in a;
      assert a[0] == b[0] by {
        var i :| 0 <= i < |b| && b[i] == a[0];
        var j :| 0 <= j < |a| && a[j] == b[0];
      }
      Rest(a, members, rank);
      Rest(b, members, rank);
      OrderingIsUnique(a[1..], b[1..], members - {a[0]}, rank);
    }
  }

  lemma Rest(a: seq<nat>, members: set<nat>, rank: Rank)
    requires Ordering(a, members, rank) && a != []
    ensures Ordering(a[1..], members - {a[0]}, rank)
  {
    forall i ensures i in a[1..] <==> i in members - {a[0]} {
      if i in a[1..] {
        var k :| 0 <= k < |a[1..]| && a[1..][k] == i;
        assert a[k + 1] == i && Before(rank, a[0], a[k + 1]);
      }
      if i in members - {a[0]} {
        var k :| 0 <= k < |a| && a[k] == i;
        assert a[1..][k - 1] == i;
      }
    }
  }

  // ------------------------------------------------------------ the anonymous client

  const PRESET_ORDER := ["mp3_1_0", "aac_160k", "opus_0_0", "abr_sq"]

  predicate Playable(t: Transcoding) { !IsEncrypted(t) && IsFull(t) }

  // Positions of the playable entries.
  function Playables(ts: seq<Transcoding>): set<nat> { set i: nat | i < |ts| && Playable(ts[i]) }

  // A playable entry of the block (progressive or not) with the given preset.
  predicate InBlock(ts: seq<Transcoding>, i: nat, progressive: bool) {
    i < |ts| && Playable(ts[i]) && IsProgressive(ts[i]) == progressive
  }

  predicate FirstOfPreset(ts: seq<Transcoding>, i: nat, progressive: bool, preset: string) {
    && InBlock(ts, i, progressive) && ts[i].preset == Some(preset)
    && forall j: nat | j < i :: InBlock(ts, j, progressive) ==> ts[j].preset != Some(preset)
  }

  // 0..3: first entry of a known preset in its block; 4: any other entry of the block.
  function PresetRank(ts: seq<Transcoding>, i: nat, progressive: bool): nat {
    if FirstOfPreset(ts, i, progressive, PRESET_ORDER[0]) then 0
    else if FirstOfPreset(ts, i, progressive, PRESET_ORDER[1]) then 1
    else if FirstOfPreset(ts, i, progressive, PRESET_ORDER[2]) then 2
    else if FirstOfPreset(ts, i, progressive, PRESET_ORDER[3]) then 3
    else 4
  }

  // Progressive entries rank before all others.
  function PlayRank(ts: seq<Transcoding>): Rank {
    (i: nat) => if InBlock(ts, i, true) then PresetRank(ts, i, true) else 5 + PresetRank(ts, i, false)
  }

  lemma RankOfFirst(ts: seq<Transcoding>, i: nat, progressive: bool, k: nat)
    requires k < 4 && InBlock(ts, i, progressive)
    ensures PresetRank(ts, i, progressive) == k <==> FirstOfPreset(ts, i, progressive, PRESET_ORDER[k])
  {
  }

  function Base(progressive: bool): nat { if progressive then 0 else 5 }

  // candidates.iter().find(..): the first entry of the block with a preset
  method FindPreset(ts: seq<Transcoding>, progressive: bool, preset: string) returns (found: Option<nat>)
    ensures found.Some? ==> FirstOfPreset(ts, found.value, progressive, preset)
    ensures found.None? ==> forall i: nat | i < |ts| :: !(InBlock(ts, i, progressive) && ts[i].preset == Some(preset))
  {
    for i := 0 to |ts|
      invariant forall j: nat | j < i :: !(InBlock(ts, j, progressive) && ts[j].preset == Some(preset))
    {
      if InBlock(ts, i, progressive) && ts[i].preset == Some(preset) { return Some(i); }
    }
    found := None;
  }

  // One of the two "for preset in PRESET_ORDER" loops.
  method PushPresets(ts: seq<Transcoding>, progressive: bool, before: seq<nat>) returns (ordered: seq<nat>)
    requires FilledTo(before, Playables(ts), PlayRank(ts), Base(progressive), 0)
    ensures FilledTo(ordered, Playables(ts), PlayRank(ts), Base(progressive) + 4, 0)
  {
    ordered := before;
    for k := 0 to 4
      invariant FilledTo(ordered, Playables(ts), PlayRank(ts), Base(progressive) + k, 0)
    {
      var found := FindPreset(ts, progressive, PRESET_ORDER[k]);
      PresetStep(ts, progressive, k, ordered, found);
      if found.Some? { ordered := ordered + [found.value]; }
    }
  }

  lemma {:induction false} PresetStep(ts: seq<Transcoding>, progressive: bool, k: nat, ordered: seq<nat>,
                                      found: Option<nat>)
    requires k < 4 && FilledTo(ordered, Playables(ts), PlayRank(ts), Base(progressive) + k, 0)
    requires found.Some? ==> FirstOfPreset(ts, found.value, progressive, PRESET_ORDER[k])
    requires found.None? ==>
               forall i: nat | i < |ts| :: !(InBlock(ts, i, progressive) && ts[i].preset == Some(PRESET_ORDER[k]))
    ensures FilledTo(if found.Some? then ordered + [found.value] else ordered,
                     Playables(ts), PlayRank(ts), Base(progressive) + k + 1, 0)
  {
    var rank := PlayRank(ts);
    forall i | i in Playables(ts) && rank(i) == Base(progressive) + k
      ensures FirstOfPreset(ts, i, progressive, PRESET_ORDER[k])
    {
      assert InBlock(ts, i, progressive);
      RankOfFirst(ts, i, progressive, k);
    }
    if found.Some? {
      RankOfFirst(ts, found.value, progressive, k);
      AppendNext(ordered, Playables(ts), rank, Base(progressive) + k, 0, found.value);
    }
  }

  // The loops that push whatever is not there yet.
  method PushRest(ts: seq<Transcoding>, progressive: bool, before: seq<nat>) returns (ordered: seq<nat>)
    requires FilledTo(before, Playables(ts), PlayRank(ts), Base(progressive) + 4, 0)
    ensures FilledTo(ordered, Playables(ts), PlayRank(ts), Base(progressive) + 5, 0)
  {
    ordered := before;
    for i := 0 to |ts|
      invariant FilledTo(ordered, Playables(ts), PlayRank(ts), Base(progressive) + 4, i)
    {
      RestStep(ts, progressive, ordered, i);
      if Playable(ts[i]) && (progressive ==> IsProgressive(ts[i])) && i !in ordered {
        ordered := ordered + [i];
      }
    }
  }

  lemma {:induction false} RestStep(ts: seq<Transcoding>, progressive: bool, ordered: seq<nat>, i: nat)
    requires i < |ts| && FilledTo(ordered, Playables(ts), PlayRank(ts), Base(progressive) + 4, i)
    ensures var push := Playable(ts[i]) && (progressive ==> IsProgressive(ts[i])) && i !in ordered;
            FilledTo(if push then ordered + [i] else ordered,
                     Playables(ts), PlayRank(ts), Base(progressive) + 4, i + 1)
  {
    if Playable(ts[i]) { RankRange(ts, i); }
    Visit(ordered, Playables(ts), PlayRank(ts), Base(progressive) + 4, i);
  }

  lemma RankRange(ts: seq<Transcoding>, i: nat)
    requires i < |ts| && Playable(ts[i])
    ensures if IsProgressive(ts[i]) then PlayRank(ts)(i) <= 4 else 5 <= PlayRank(ts)(i) <= 9
  {
  }

  /** The ranked list is the one ordering of the playable entries by block and preset rank. */
  method RankedTranscodings(ts: seq<Transcoding>) returns (ordered: seq<nat>)
    ensures Ordering(ordered, Playables(ts), PlayRank(ts))
  {
    if Playables(ts) == {} { return []; }
    ordered := PushPresets(ts, true, []);
    ordered := PushRest(ts, true, ordered);
    ordered := PushPresets(ts, false, ordered);
    ordered := PushRest(ts, false, ordered);
  }

  // ------------------------------------------------------------ the cookie client

  // HQ before SQ; in each progressive, plain HLS, encrypted.
  function Tier(t: Transcoding): nat {
    (if IsHq(t) then 0 else 3) + (if IsProgressive(t) then 0 else if IsEncrypted(t) then 2 else 1)
  }

  function TierRank(ts: seq<Transcoding>): Rank {
    (i: nat) => if i < |ts| then Tier(ts[i]) else 6
  }

  function Offered(ts: seq<Transcoding>, hqOnly: bool): set<nat> {
    set i: nat | i < |ts| && IsFull(ts[i]) && (hqOnly ==> IsHq(ts[i]))
  }

  // The filter of one tier, as the source writes it.
  predicate TierFilter(t: Transcoding, tier: nat) {
    match tier
    case 0 => IsHq(t) && IsProgressive(t)
    case 1 => IsHq(t) && !IsProgressive(t) && !IsEncrypted(t)
    case 2 => IsHq(t) && IsEncrypted(t)
    case 3 => !IsHq(t) && IsProgressive(t)
    case 4 => !IsHq(t) && !IsProgressive(t) && !IsEncrypted(t)
    case _ => !IsHq(t) && IsEncrypted(t)
  }

  lemma TierFilterIsTier(t: Transcoding, tier: nat)
    requires tier < 6
    ensures TierFilter(t, tier) <==> Tier(t) == tier
  {
    if IsProgressive(t) { ProgressiveIsPlain(t); }
  }

  method PushTier(ts: seq<Transcoding>, hqOnly: bool, tier: nat, before: seq<nat>) returns (ordered: seq<nat>)
    requires tier < 6 && (hqOnly ==> tier < 3)
    requires FilledTo(before, Offered(ts, hqOnly), TierRank(ts), tier, 0)
    ensures FilledTo(ordered, Offered(ts, hqOnly), TierRank(ts), tier + 1, 0)
  {
    ordered := before;
    for i := 0 to |ts|
      invariant FilledTo(ordered, Offered(ts, hqOnly), TierRank(ts), tier, i)
    {
      TierFilterIsTier(ts[i], tier);
      if IsFull(ts[i]) && TierFilter(ts[i], tier) {
        AppendNext(ordered, Offered(ts, hqOnly), TierRank(ts), tier, i, i);
        ordered := ordered + [i];
      }
    }
  }

  /** The cookie tiers are the stable sort of the offered entries by tier. */
  method TieredTranscodings(ts: seq<Transcoding>, hqOnly: bool) returns (ordered: seq<nat>)
    ensures Ordering(ordered, Offered(ts, hqOnly), TierRank(ts))
  {
    ordered := [];
    var tiers := if hqOnly then 3 else 6;
    for tier := 0 to tiers
      invariant FilledTo(ordered, Offered(ts, hqOnly), TierRank(ts), tier, 0)
    {
      ordered := PushTier(ts, hqOnly, tier, ordered);
    }
  }
}
