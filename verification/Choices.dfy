/** Which core a run dispatches a request to, in terms of the last weight reload and the last bitmap refresh. */
module Choices {
  import opened Options
  import opened Weights
  import opened Scoring
  import opened Pipeline

  ghost function Boot(cfg: Config, actions: seq<Action>): World
    requires cfg.Valid()
  {
    BootWorldIsBooted(cfg);
    Run(cfg, BootWorld(cfg), actions)
  }

  /** Action a of a run, at the moment it happens, is a reload that takes effect. */
  ghost predicate Reloads(cfg: Config, actions: seq<Action>, i: nat)
    requires cfg.Valid() && i < |actions|
  {
    actions[i].Reload? && Enabled(cfg, Boot(cfg, actions[..i]), actions[i])
  }

  ghost predicate LastReload(cfg: Config, actions: seq<Action>, i: nat)
    requires cfg.Valid()
  {
    i < |actions| && Reloads(cfg, actions, i) && forall k :: i < k < |actions| ==> !Reloads(cfg, actions, k)
  }

  ghost predicate LastRefresh(actions: seq<Action>, j: nat) {
    j < |actions| && actions[j].RefreshMaps? && forall k :: j < k < |actions| ==> !actions[k].RefreshMaps?
  }

  // ------------------------------------------------------------ what the stages leave alone

  lemma OtherActionsKeep(cfg: Config, w: World, a: Action)
    requires WorldShape(cfg, w)
    ensures !(a.Reload? && Enabled(cfg, w, a)) ==>
              Next(cfg, w, a).s.merge == w.s.merge && Next(cfg, w, a).s.hard == w.s.hard
    ensures !a.RefreshMaps? ==> Next(cfg, w, a).s.bitmaps == w.s.bitmaps
  {
  }

  lemma BootStep(cfg: Config, actions: seq<Action>)
    requires cfg.Valid() && actions != []
    ensures Boot(cfg, actions) == Next(cfg, Boot(cfg, actions[..|actions| - 1]), actions[|actions| - 1])
  {
  }

  lemma PrefixKeepsReload(cfg: Config, actions: seq<Action>, i: nat)
    requires cfg.Valid() && i < |actions| - 1
    ensures var front := actions[..|actions| - 1];
            (Reloads(cfg, front, i) <==> Reloads(cfg, actions, i)) && front[..i] == actions[..i]
  {
    assert actions[..|actions| - 1][..i] == actions[..i];
  }

  // ------------------------------------------------------------ the table

  ghost predicate UpperZero(merge: seq<Row>) {
    |merge| == GROUPS && forall g, m: Mask :: 0 <= g < GROUPS && 128 <= m ==> At(merge[g], m) == 0
  }

  /** Entries for masks of 128 and above stay 0 in every run. */
  lemma {:induction false} UpperStaysZero(cfg: Config, actions: seq<Action>)
    requires cfg.Valid()
    ensures UpperZero(Boot(cfg, actions).s.merge)
    decreases |actions|
  {
    if actions == [] {
      assert forall m: Mask :: At(ZeroRow(), m) == 0;
    } else {
      var front, a := actions[..|actions| - 1], actions[|actions| - 1];
      UpperStaysZero(cfg, front);
      BootStep(cfg, actions);
      OtherActionsKeep(cfg, Boot(cfg, front), a);
      if a.Reload? && Enabled(cfg, Boot(cfg, front), a) {
        ReloadedUpper(a.weights, Boot(cfg, front).s.merge, a.table);
      }
    }
  }

  lemma ReloadedUpper(weights: seq<Weights8>, before: seq<Row>, table: seq<Row>)
    requires |weights| == |table| == GROUPS && UpperZero(before)
    requires forall g :: 0 <= g < GROUPS ==> Merged(weights[g], before[g], table[g])
    ensures UpperZero(table)
    ensures forall g :: 0 <= g < GROUPS ==> Merged(weights[g], ZeroRow(), table[g])
  {
    assert forall m: Mask :: At(ZeroRow(), m) == 0;
  }

  /** Since the last reload the table is the one it built. */
  lemma {:induction false} TableSinceReload(cfg: Config, actions: seq<Action>, i: nat)
    requires cfg.Valid() && LastReload(cfg, actions, i)
    ensures Boot(cfg, actions).s.merge == actions[i].table && Boot(cfg, actions).s.hard == actions[i].hard
    decreases |actions|
  {
    var front, a := actions[..|actions| - 1], actions[|actions| - 1];
    BootStep(cfg, actions);
    if i < |actions| - 1 {
      forall k | i <= k < |front|
        ensures Reloads(cfg, front, k) <==> Reloads(cfg, actions, k)
      {
        PrefixKeepsReload(cfg, actions, k);
      }
      TableSinceReload(cfg, front, i);
      assert !Reloads(cfg, actions, |actions| - 1);
      OtherActionsKeep(cfg, Boot(cfg, front), a);
    }
  }

  // ------------------------------------------------------------ the bitmaps

  ghost predicate MapsOf(bitmaps: seq<Features>, hard: seq<nat>, clusters: seq<seq<nat>>) {
    && |bitmaps| == |clusters| == MAX_CORE && |hard| == FEATURES
    && forall c :: 0 <= c < USED_CORES ==> |clusters[c]| == FEATURES && bitmaps[c] == Bitmap(hard, clusters[c], c)
  }

  /** Since the last refresh the bitmaps are the partition and counters of the state it saw. */
  lemma {:induction false} MapsSinceRefresh(cfg: Config, actions: seq<Action>, j: nat)
    requires cfg.Valid() && LastRefresh(actions, j)
    ensures var at := Boot(cfg, actions[..j]).s; MapsOf(Boot(cfg, actions).s.bitmaps, at.hard, at.clusters)
    decreases |actions|
  {
    var front, a := actions[..|actions| - 1], actions[|actions| - 1];
    BootStep(cfg, actions);
    if j < |actions| - 1 {
      assert front[..j] == actions[..j];
      MapsSinceRefresh(cfg, front, j);
      OtherActionsKeep(cfg, Boot(cfg, front), a);
    }
  }

  // ------------------------------------------------------------ the choice

  /** The message the core-choice stage takes next. */
  function Selected(s: State): Option<Message> {
    if s.selector == 0 then if s.check0 == [] then None else Some(s.check0[0])
    else if s.check1 == [] then None else Some(s.check1[0])
  }

  /** For each core the weight of the request's features that count for it. */
  function CoreWeights(weights: seq<Weights8>, hard: seq<nat>, clusters: seq<seq<nat>>, request: Features,
                       cores: nat): seq<nat>
    requires |weights| == GROUPS && |hard| == FEATURES && cores <= |clusters|
    requires forall c :: 0 <= c < cores ==> |clusters[c]| == FEATURES
  {
    seq(cores, c requires 0 <= c < cores => CoreWeight(weights, hard, clusters[c], c, request, GROUPS))
  }

  lemma ScoresAreWeights(weights: seq<Weights8>, merge: seq<Row>, bitmaps: seq<Features>, hard: seq<nat>,
                         clusters: seq<seq<nat>>, request: Features, cores: nat)
    requires |weights| == |merge| == GROUPS && cores <= USED_CORES && MapsOf(bitmaps, hard, clusters)
    requires forall g :: 0 <= g < GROUPS ==> Merged(weights[g], ZeroRow(), merge[g])
    ensures Scores(merge, bitmaps, request, cores) == CoreWeights(weights, hard, clusters, request, cores)
  {
    var zero := seq(GROUPS, _ => ZeroRow());
    assert forall m: Mask :: At(ZeroRow(), m) == 0;
    forall c | 0 <= c < cores
      ensures Score(merge, Both(request, bitmaps[c]), GROUPS) ==
              CoreWeight(weights, hard, clusters[c], c, request, GROUPS)
    {
      ScoreMeaning(weights, zero, merge, hard, clusters[c], c, request, GROUPS);
    }
  }

  /** A pick queues one doorbell and one update, both for the chosen core. */
  ghost predicate Dispatched(before: State, after: State, m: Message, core: nat) {
    after.bells == before.bells + [Bell(m.slot, core)] && after.updates == before.updates + [m.(core := core)]
  }

  lemma PickQueues(cfg: Config, v: World, m: Message)
    requires WorldShape(cfg, v) && Selected(v.s) == Some(m)
    ensures Dispatched(v.s, Next(cfg, v, Pick).s, m, CoreFor(cfg, v.s, m))
  {
  }

  /** What the table and the bitmaps hold, in any state of a run after a reload and a refresh. */
  lemma ScoresInRuns(cfg: Config, actions: seq<Action>, i: nat, j: nat, request: Features)
    requires cfg.Valid() && LastReload(cfg, actions, i) && LastRefresh(actions, j)
    ensures var s, at := Boot(cfg, actions).s, Boot(cfg, actions[..j]).s;
            Scores(s.merge, s.bitmaps, request, cfg.cores)
            == CoreWeights(actions[i].weights, at.hard, at.clusters, request, cfg.cores)
  {
    var s, at := Boot(cfg, actions).s, Boot(cfg, actions[..j]).s;
    TableSinceReload(cfg, actions, i);
    MapsSinceRefresh(cfg, actions, j);
    UpperStaysZero(cfg, actions[..i]);
    ReloadedUpper(actions[i].weights, Boot(cfg, actions[..i]).s.merge, actions[i].table);
    ScoresAreWeights(actions[i].weights, s.merge, s.bitmaps, at.hard, at.clusters, request, cfg.cores);
  }

  /**
    In every run, once weights were loaded and bitmaps refreshed, the doorbell and
    the update queued by a pick carry the lowest-numbered core of maximal weight,
    or the client's hint when no feature of the request counts for any core: the
    weights of the last reload, the partition and counters as the last refresh saw them.
   */
  lemma PickDispatches(cfg: Config, actions: seq<Action>, i: nat, j: nat, m: Message)
    requires cfg.Valid() && LastReload(cfg, actions, i) && LastRefresh(actions, j)
    requires Selected(Boot(cfg, actions).s) == Some(m)
    ensures var v, at := Boot(cfg, actions), Boot(cfg, actions[..j]).s;
            var core := CoreFor(cfg, v.s, m);
            && Dispatched(v.s, Next(cfg, v, Pick).s, m, core)
            && FirstBest(CoreWeights(actions[i].weights, at.hard, at.clusters, m.newFeatures, cfg.cores), m.core, core)
  {
    var s := Boot(cfg, actions).s;
    PickQueues(cfg, Boot(cfg, actions), m);
    ScoresInRuns(cfg, actions, i, j, m.newFeatures);
    ChooseIsFirstBest(Scores(s.merge, s.bitmaps, m.newFeatures, cfg.cores), m.core, CoreFor(cfg, s, m));
  }

  // ------------------------------------------------------------ before the first reload or refresh

  lemma {:induction false} NoReloadKeepsZero(cfg: Config, actions: seq<Action>)
    requires cfg.Valid() && forall k :: 0 <= k < |actions| ==> !Reloads(cfg, actions, k)
    ensures Boot(cfg, actions).s.merge == seq(GROUPS, _ => ZeroRow())
    decreases |actions|
  {
    if actions != [] {
      var front, a := actions[..|actions| - 1], actions[|actions| - 1];
      forall k | 0 <= k < |front|
        ensures !Reloads(cfg, front, k)
      {
        PrefixKeepsReload(cfg, actions, k);
      }
      NoReloadKeepsZero(cfg, front);
      BootStep(cfg, actions);
      assert !Reloads(cfg, actions, |actions| - 1);
      OtherActionsKeep(cfg, Boot(cfg, front), a);
    }
  }

  lemma {:induction false} ZeroScore(d: Features, k: nat)
    requires k <= GROUPS
    ensures Score(seq(GROUPS, _ => ZeroRow()), d, k) == 0
    decreases k
  {
    if k > 0 {
      ZeroScore(d, k - 1);
      assert forall m: Mask :: At(ZeroRow(), m) == 0;
    }
  }

  /** Without a positive score the hint is taken. */
  lemma PickWithoutScores(cfg: Config, v: World, m: Message)
    requires WorldShape(cfg, v) && Selected(v.s) == Some(m)
    requires forall c :: 0 <= c < cfg.cores ==> Score(v.s.merge, Both(m.newFeatures, v.s.bitmaps[c]), GROUPS) == 0
    ensures Dispatched(v.s, Next(cfg, v, Pick).s, m, m.core)
  {
    PickQueues(cfg, v, m);
    var scores := Scores(v.s.merge, v.s.bitmaps, m.newFeatures, cfg.cores);
    BestSoFar(scores, m.core, |scores|);
  }

  /** Until weights are loaded every request goes to its client's hint. */
  lemma PickBeforeReload(cfg: Config, actions: seq<Action>, m: Message)
    requires cfg.Valid() && forall k :: 0 <= k < |actions| ==> !Reloads(cfg, actions, k)
    requires Selected(Boot(cfg, actions).s) == Some(m)
    ensures Dispatched(Boot(cfg, actions).s, Next(cfg, Boot(cfg, actions), Pick).s, m, m.core)
  {
    var s := Boot(cfg, actions).s;
    NoReloadKeepsZero(cfg, actions);
    forall c | 0 <= c < cfg.cores
      ensures Score(s.merge, Both(m.newFeatures, s.bitmaps[c]), GROUPS) == 0
    {
      ZeroScore(Both(m.newFeatures, s.bitmaps[c]), GROUPS);
    }
    PickWithoutScores(cfg, Boot(cfg, actions), m);
  }

  ghost predicate NothingIsZero(merge: seq<Row>) {
    |merge| == GROUPS && forall g :: 0 <= g < GROUPS ==> At(merge[g], 0) == 0
  }

  lemma ReloadedNothing(weights: seq<Weights8>, before: seq<Row>, table: seq<Row>)
    requires |weights| == |before| == |table| == GROUPS
    requires forall g :: 0 <= g < GROUPS ==> Merged(weights[g], before[g], table[g])
    ensures NothingIsZero(table)
  {
    forall g | 0 <= g < GROUPS
      ensures At(table[g], 0) == 0
    {
      EmptyMask(weights[g], 8);
    }
  }

  /** The entry of no feature is 0 in every run, and bitmaps are empty until a refresh. */
  lemma {:induction false} NothingStaysZero(cfg: Config, actions: seq<Action>)
    requires cfg.Valid()
    ensures NothingIsZero(Boot(cfg, actions).s.merge)
    ensures (forall k :: 0 <= k < |actions| ==> !actions[k].RefreshMaps?) ==>
              Boot(cfg, actions).s.bitmaps == seq(MAX_CORE, _ => NoFeatures())
    decreases |actions|
  {
    if actions == [] {
      assert At(ZeroRow(), 0) == 0;
    } else {
      var front, a := actions[..|actions| - 1], actions[|actions| - 1];
      NothingStaysZero(cfg, front);
      BootStep(cfg, actions);
      OtherActionsKeep(cfg, Boot(cfg, front), a);
      if a.Reload? && Enabled(cfg, Boot(cfg, front), a) {
        ReloadedNothing(a.weights, Boot(cfg, front).s.merge, a.table);
      }
    }
  }

  lemma {:induction false} NothingScores(merge: seq<Row>, d: Features, k: nat)
    requires NothingIsZero(merge) && k <= GROUPS && forall f :: 0 <= f < FEATURES ==> !d[f]
    ensures Score(merge, d, k) == 0
    decreases k
  {
    if k > 0 {
      NothingScores(merge, d, k - 1);
      assert Byte(d, k - 1) == 0;
    }
  }

  /** Until bitmaps are computed every request goes to its client's hint. */
  lemma PickBeforeRefresh(cfg: Config, actions: seq<Action>, m: Message)
    requires cfg.Valid() && forall k :: 0 <= k < |actions| ==> !actions[k].RefreshMaps?
    requires Selected(Boot(cfg, actions).s) == Some(m)
    ensures Dispatched(Boot(cfg, actions).s, Next(cfg, Boot(cfg, actions), Pick).s, m, m.core)
  {
    var s := Boot(cfg, actions).s;
    NothingStaysZero(cfg, actions);
    forall c | 0 <= c < cfg.cores
      ensures Score(s.merge, Both(m.newFeatures, s.bitmaps[c]), GROUPS) == 0
    {
      NothingScores(s.merge, Both(m.newFeatures, s.bitmaps[c]), GROUPS);
    }
    PickWithoutScores(cfg, Boot(cfg, actions), m);
  }
}
