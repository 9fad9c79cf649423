/**
  Which core a request goes to: the request's features are masked with what
  each core is known to hold, scored through the merged weight table, and the
  first core with the best positive score wins; otherwise the client's hint does.
 */
module Scoring {
  import opened Weights

  const FEATURES: nat := 512
  const MAX_CORE: nat := 24
  const USED_CORES: nat := 22
  const SHARED: nat := 25

  type Features = f: seq<bool> | |f| == FEATURES
    witness seq(FEATURES, _ => false)

  // ------------------------------------------------------------ bitmaps

  /** Whether core c is credited with feature f: pinned to it, or shared and currently held. */
  predicate Credited(hard: nat, counter: nat, c: nat) {
    hard == c || (counter != 0 && hard == SHARED)
  }

  function Bitmap(hard: seq<nat>, counters: seq<nat>, c: nat): Features
    requires |hard| == |counters| == FEATURES
  {
    seq(FEATURES, f requires 0 <= f < FEATURES => Credited(hard[f], counters[f], c))
  }

  function Both(x: Features, y: Features): Features {
    seq(FEATURES, f requires 0 <= f < FEATURES => x[f] && y[f])
  }

  // ------------------------------------------------------------ scores

  function BitIf(x: bool, u: Mask): Mask { if x then u else 0 }

  /** Eight consecutive features as an 8-bit mask. */
  function Byte(d: Features, g: nat): Mask
    requires g < GROUPS
  {
    var o := 8 * g;
    BitIf(d[o], 1) | BitIf(d[o + 1], 2) | BitIf(d[o + 2], 4) | BitIf(d[o + 3], 8) |
    BitIf(d[o + 4], 16) | BitIf(d[o + 5], 32) | BitIf(d[o + 6], 64) | BitIf(d[o + 7], 128)
  }

  lemma ByteHas(d: Features, g: nat, b: nat)
    requires g < GROUPS && b < 8
    ensures Has(Byte(d, g), b) == d[8 * g + b]
  {
  }

  lemma ByteLow(d: Features, g: nat)
    requires g < GROUPS
    ensures Byte(d, g) < 128 <==> !d[8 * g + 7]
  {
  }

  /** Table entries fit the weights' eight bits. */
  ghost predicate Bounded(merge: seq<Row>) {
    |merge| == GROUPS && forall g, m :: 0 <= g < GROUPS ==> At(merge[g], m) < 256
  }

  function Score(merge: seq<Row>, d: Features, k: nat): nat
    requires |merge| == GROUPS && k <= GROUPS
  {
    if k == 0 then 0 else Score(merge, d, k - 1) + At(merge[k - 1], Byte(d, k - 1))
  }

  /** The 64 table entries never overflow the 16-bit accumulator. */
  lemma {:induction false} ScoreFits(merge: seq<Row>, d: Features, k: nat)
    requires Bounded(merge) && k <= GROUPS
    ensures Score(merge, d, k) <= 255 * k <= 16320 < 0x1_0000
    decreases k
  {
    if k > 0 {
      ScoreFits(merge, d, k - 1);
    }
  }

  // ------------------------------------------------------------ what an entry means

  /** Weight of the first k features of group g that d contains. */
  function Held(w: Weights8, d: Features, g: nat, k: nat): nat
    requires g < GROUPS && k <= 8
  {
    if k == 0 then 0 else Held(w, d, g, k - 1) + if d[8 * g + k - 1] then w[k - 1] else 0
  }

  lemma {:induction false} HeldIsSum(w: Weights8, d: Features, g: nat, k: nat)
    requires g < GROUPS && k <= 8
    ensures SumOf(w, Byte(d, g), k) == Held(w, d, g, k)
    decreases k
  {
    if k > 0 {
      HeldIsSum(w, d, g, k - 1);
      ByteHas(d, g, k - 1);
    }
  }

  /**
    After a walk over a zeroed table, a group contributes the weight of its held
    features modulo 256, and nothing at all as soon as its eighth feature is held.
   */
  lemma EntryMeaning(w: Weights8, zero: Row, row: Row, d: Features, g: nat)
    requires g < GROUPS && Merged(w, zero, row)
    requires forall m: Mask :: 128 <= m ==> At(zero, m) == 0
    ensures At(row, Byte(d, g)) == if d[8 * g + 7] then 0 else Held(w, d, g, 8) % 256
  {
    HeldIsSum(w, d, g, 8);
    ByteLow(d, g);
  }

  /** The held weight fits eight bits, and the eighth feature is not held unless nothing weighs. */
  predicate GroupExact(w: Weights8, d: Features, g: nat)
    requires g < GROUPS
  {
    Held(w, d, g, 8) < 256 && (d[8 * g + 7] ==> Held(w, d, g, 8) == 0)
  }

  /** The entry is the true weight of the held features exactly in this case. */
  lemma EntryExact(w: Weights8, zero: Row, row: Row, d: Features, g: nat)
    requires g < GROUPS && Merged(w, zero, row)
    requires forall m: Mask :: 128 <= m ==> At(zero, m) == 0
    ensures At(row, Byte(d, g)) <= Held(w, d, g, 8)
    ensures At(row, Byte(d, g)) == Held(w, d, g, 8) <==> GroupExact(w, d, g)
  {
    EntryMeaning(w, zero, row, d, g);
  }

  lemma {:induction false} HeldNothing(w: Weights8, d: Features, g: nat, k: nat)
    requires g < GROUPS && k <= 8 && forall f :: 8 * g <= f < 8 * g + k ==> !d[f]
    ensures Held(w, d, g, k) == 0
    decreases k
  {
    if k > 0 {
      HeldNothing(w, d, g, k - 1);
    }
  }

  /** A weight of 5 on the eighth feature of a group counts for nothing when that feature is held. */
  lemma EighthFeatureLost(row: Row)
    requires Merged([0, 0, 0, 0, 0, 0, 0, 5], seq(256, _ => 0), row)
    ensures var d: Features := seq(FEATURES, f => f == 7);
            At(row, Byte(d, 0)) == 0 && Held([0, 0, 0, 0, 0, 0, 0, 5], d, 0, 8) == 5
  {
    var w: Weights8, zero: Row, d: Features := [0, 0, 0, 0, 0, 0, 0, 5], seq(256, _ => 0), seq(FEATURES, f => f == 7);
    assert forall m: Mask :: At(zero, m) == 0;
    EntryMeaning(w, zero, row, d, 0);
    HeldNothing(w, d, 0, 7);
  }

  /** The weight of all held features of the first k groups. */
  function TrueScore(weights: seq<Weights8>, d: Features, k: nat): nat
    requires |weights| == GROUPS && k <= GROUPS
  {
    if k == 0 then 0 else TrueScore(weights, d, k - 1) + Held(weights[k - 1], d, k - 1, 8)
  }

  /** The 64-term score never exceeds the true weight, and is exact if and only if every group's entry is. */
  lemma {:induction false} ScoreExact(weights: seq<Weights8>, zero: seq<Row>, merge: seq<Row>, d: Features, k: nat)
    requires |weights| == |zero| == |merge| == GROUPS && k <= GROUPS
    requires forall g :: 0 <= g < GROUPS ==> Merged(weights[g], zero[g], merge[g])
    requires forall g, m: Mask :: 0 <= g < GROUPS && 128 <= m ==> At(zero[g], m) == 0
    ensures Score(merge, d, k) <= TrueScore(weights, d, k)
    ensures Score(merge, d, k) == TrueScore(weights, d, k) <==> forall g :: 0 <= g < k ==> GroupExact(weights[g], d, g)
    decreases k
  {
    if k > 0 {
      ScoreExact(weights, zero, merge, d, k - 1);
      EntryExact(weights[k - 1], zero[k - 1], merge[k - 1], d, k - 1);
    }
  }

  // ------------------------------------------------------------ choice

  function Scores(merge: seq<Row>, bitmaps: seq<Features>, request: Features, cores: nat): (s: seq<nat>)
    requires |merge| == GROUPS && cores <= |bitmaps|
    ensures |s| == cores
  {
    seq(cores, c requires 0 <= c < cores => Score(merge, Both(request, bitmaps[c]), GROUPS))
  }

  /** Weight of the first k features of group g that the request has and core c is credited with. */
  function Deserved(w: Weights8, hard: seq<nat>, counters: seq<nat>, c: nat, request: Features, g: nat, k: nat): nat
    requires |hard| == |counters| == FEATURES && g < GROUPS && k <= 8
  {
    if k == 0 then 0
    else
      var f := 8 * g + k - 1;
      Deserved(w, hard, counters, c, request, g, k - 1)
      + if request[f] && Credited(hard[f], counters[f], c) then w[k - 1] else 0
  }

  /** Over the first k groups: each counts modulo 256, and not at all when its eighth feature counts for c. */
  function CoreWeight(weights: seq<Weights8>, hard: seq<nat>, counters: seq<nat>, c: nat, request: Features,
                      k: nat): nat
    requires |weights| == GROUPS && |hard| == |counters| == FEATURES && k <= GROUPS
  {
    if k == 0 then 0
    else
      var g := k - 1;
      CoreWeight(weights, hard, counters, c, request, g)
      + if request[8 * g + 7] && Credited(hard[8 * g + 7], counters[8 * g + 7], c) then 0
        else Deserved(weights[g], hard, counters, c, request, g, 8) % 256
  }

  lemma {:induction false} HeldIsDeserved(w: Weights8, hard: seq<nat>, counters: seq<nat>, c: nat, request: Features,
                                          g: nat, k: nat)
    requires |hard| == |counters| == FEATURES && g < GROUPS && k <= 8
    ensures Held(w, Both(request, Bitmap(hard, counters, c)), g, k) == Deserved(w, hard, counters, c, request, g, k)
    decreases k
  {
    if k > 0 {
      HeldIsDeserved(w, hard, counters, c, request, g, k - 1);
    }
  }

  /** A core's score through the merged table is the weight of exactly the features that count for it. */
  lemma {:induction false} ScoreMeaning(weights: seq<Weights8>, zero: seq<Row>, merge: seq<Row>, hard: seq<nat>,
                                        counters: seq<nat>, c: nat, request: Features, k: nat)
    requires |weights| == |zero| == |merge| == GROUPS && |hard| == |counters| == FEATURES && k <= GROUPS
    requires forall g :: 0 <= g < GROUPS ==> Merged(weights[g], zero[g], merge[g])
    requires forall g, m: Mask :: 0 <= g < GROUPS && 128 <= m ==> At(zero[g], m) == 0
    ensures Score(merge, Both(request, Bitmap(hard, counters, c)), k) ==
            CoreWeight(weights, hard, counters, c, request, k)
    decreases k
  {
    if k > 0 {
      ScoreMeaning(weights, zero, merge, hard, counters, c, request, k - 1);
      EntryMeaning(weights[k - 1], zero[k - 1], merge[k - 1], Both(request, Bitmap(hard, counters, c)), k - 1);
      HeldIsDeserved(weights[k - 1], hard, counters, c, request, k - 1, 8);
    }
  }

  /** The running (index, best) pair after the first k cores. */
  function Best(scores: seq<nat>, hint: nat, k: nat): (nat, nat)
    requires k <= |scores|
  {
    if k == 0 then (hint, 0)
    else
      var (index, best) := Best(scores, hint, k - 1);
      if scores[k - 1] > best then (k - 1, scores[k - 1]) else (index, best)
  }

  function Choose(scores: seq<nat>, hint: nat): nat {
    Best(scores, hint, |scores|).0
  }

  /** First core of maximal score if any score is positive, the hint otherwise. */
  ghost predicate FirstBest(scores: seq<nat>, hint: nat, index: nat) {
    if exists c :: 0 <= c < |scores| && scores[c] > 0
    then
      && index < |scores|
      && (forall c :: 0 <= c < |scores| ==> scores[c] <= scores[index])
      && (forall c :: 0 <= c < index ==> scores[c] < scores[index])
    else index == hint
  }

  lemma {:induction false} BestSoFar(scores: seq<nat>, hint: nat, k: nat)
    requires k <= |scores|
    ensures var (index, best) := Best(scores, hint, k);
            && (best == 0 ==> index == hint && forall c :: 0 <= c < k ==> scores[c] == 0)
            && (best > 0 ==> index < k && scores[index] == best &&
                             (forall c :: 0 <= c < k ==> scores[c] <= best) &&
                             (forall c :: 0 <= c < index ==> scores[c] < best))
    decreases k
  {
    if k > 0 {
      BestSoFar(scores, hint, k - 1);
    }
  }

  /** The choice is exactly the first best core, and no other index would do. */
  lemma ChooseIsFirstBest(scores: seq<nat>, hint: nat, index: nat)
    ensures FirstBest(scores, hint, index) <==> index == Choose(scores, hint)
  {
    BestSoFar(scores, hint, |scores|);
    var (i, best) := Best(scores, hint, |scores|);
    if best > 0 {
      assert scores[i] > 0;
    }
  }

  /** The inner scoring loop, with its 16-bit accumulator. */
  method ScoreCore(merge: seq<Row>, d: Features) returns (sum: nat)
    requires Bounded(merge)
    ensures sum == Score(merge, d, GROUPS)
  {
    sum := 0;
    for g := 0 to GROUPS
      invariant sum == Score(merge, d, g)
    {
      ScoreFits(merge, d, g + 1);
      sum := (sum + At(merge[g], Byte(d, g))) % 0x1_0000;
    }
  }

  method ChooseCore(merge: seq<Row>, bitmaps: seq<Features>, request: Features, hint: nat,
                    cores: nat) returns (index: nat)
    requires Bounded(merge) && cores <= USED_CORES && |bitmaps| == MAX_CORE
    ensures FirstBest(Scores(merge, bitmaps, request, cores), hint, index)
  {
    ghost var scores := Scores(merge, bitmaps, request, cores);
    index := hint;
    var ans := 0;
    for c := 0 to cores
      invariant (index, ans) == Best(scores, hint, c)
    {
      var score := ScoreCore(merge, Both(request, bitmaps[c]));
      assert scores[c] == score;
      if score > ans {
        index, ans := c, score;
      }
    }
    ChooseIsFirstBest(scores, hint, index);
  }

  /** The bitmap refresh, feature by feature and core by core. */
  method RefreshBitmaps(hard: seq<nat>, clusters: seq<seq<nat>>, bitmaps: array<Features>)
    requires |hard| == FEATURES && |clusters| == bitmaps.Length == MAX_CORE
    requires forall c :: 0 <= c < MAX_CORE ==> |clusters[c]| == FEATURES
    modifies bitmaps
    ensures forall c :: 0 <= c < MAX_CORE ==>
              bitmaps[c] == if c < USED_CORES then Bitmap(hard, clusters[c], c) else old(bitmaps[c])
  {
    for f := 0 to FEATURES
      invariant forall c :: USED_CORES <= c < MAX_CORE ==> bitmaps[c] == old(bitmaps[c])
      invariant forall c :: 0 <= c < USED_CORES ==> bitmaps[c][..f] == Bitmap(hard, clusters[c], c)[..f]
    {
      for i := 0 to USED_CORES
        invariant forall c :: USED_CORES <= c < MAX_CORE ==> bitmaps[c] == old(bitmaps[c])
        invariant forall c :: 0 <= c < USED_CORES ==>
                    bitmaps[c][..f] == Bitmap(hard, clusters[c], c)[..f] &&
                    (c < i ==> bitmaps[c][f] == Bitmap(hard, clusters[c], c)[f])
      {
        bitmaps[i] := bitmaps[i][f := hard[f] == i || (clusters[i][f] != 0 && hard[f] == SHARED)];
      }
      assert forall c :: 0 <= c < USED_CORES ==> bitmaps[c][..f + 1] == bitmaps[c][..f] + [bitmaps[c][f]];
    }
    assert forall c :: 0 <= c < MAX_CORE ==> bitmaps[c] == bitmaps[c][..FEATURES];
  }
}
