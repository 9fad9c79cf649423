/**
  The scheduler's stages over its global arrays, changed in place, each proved
  equal to the corresponding step of Pipeline.
 */
module SchedulerObject {
  import opened Weights
  import opened Scoring
  import opened Pipeline

  function Repeated<T>(n: nat, x: T): seq<T> { seq(n, _ => x) }

  method NewFilled<T>(n: nat, x: T) returns (a: array<T>)
    ensures fresh(a) && a[..] == Repeated(n, x)
  {
    a := new T[n](_ => x);
  }

  /** The counters at start-up: all zero but one per core, at the feature with the core's number. */
  method NewClusters() returns (a: array<seq<nat>>)
    ensures fresh(a) && a.Length == MAX_CORE && forall c :: 0 <= c < MAX_CORE ==> a[c] == StartRow(c)
  {
    a := new seq<nat>[MAX_CORE](_ => []);
    for c := 0 to MAX_CORE
      invariant forall b :: 0 <= b < c ==> a[b] == StartRow(b)
    {
      var row := [];
      for f := 0 to FEATURES
        invariant |row| == f && forall g :: 0 <= g < f ==> row[g] == 0
      {
        row := row + [0];
      }
      a[c] := row[c := 1];
    }
  }

  lemma BootFields(cfg: Config, clusters: seq<seq<nat>>)
    requires |clusters| == MAX_CORE && forall c :: 0 <= c < MAX_CORE ==> clusters[c] == StartRow(c)
    ensures var none := Repeated(cfg.lane, NoFeatures());
            State(clusters, Repeated(cfg.Slots(), cfg.cores), none + none,
                  Repeated(cfg.lane, 0) + Repeated(cfg.lane, 0), 0, 0, 0,
                  [], [], [], [], Repeated(MAX_CORE, NoFeatures()), Repeated(FEATURES, 0), Repeated(GROUPS, ZeroRow()),
                  Repeated(MAX_CORE, 0), map[]) == BootState(cfg)
  {
  }

  /** Setting a slot of the first lane is setting it among all slots. */
  lemma FirstLaneSet<T>(before: seq<T>, lane0: seq<T>, lane1: seq<T>, i: nat, x: T)
    requires i < |before| && lane0 == before[i := x]
    ensures lane0 + lane1 == (before + lane1)[i := x]
  {
  }

  /** The slots of the second lane come after those of the first. */
  lemma SecondLaneSet<T>(lane0: seq<T>, before: seq<T>, lane1: seq<T>, j: nat, x: T)
    requires j < |before| && lane1 == before[j := x]
    ensures lane0 + lane1 == (lane0 + before)[|lane0| + j := x]
  {
  }

  class Scheduler {
    const cfg: Config
    const clusters: array<seq<nat>>
    const oldCore: array<nat>
    const features0: array<Features>
    const features1: array<Features>
    const seen0: array<nat>
    const seen1: array<nat>
    const bitmaps: array<Features>
    const merge: array<Row>
    const ringHead: array<nat>
    var hard: seq<nat>
    var ii: nat
    var jj: nat
    var kk: nat
    var check0: seq<Message>
    var check1: seq<Message>
    var bells: seq<Bell>
    var updates: seq<Message>
    var host: map<nat, nat>

    ghost function Arrays(): set<object> {
      {clusters, oldCore, features0, features1, seen0, seen1, bitmaps, merge, ringHead}
    }

    ghost function View(): State
      reads this, Arrays()
    {
      State(clusters[..], oldCore[..], features0[..] + features1[..], seen0[..] + seen1[..], ii, jj, kk,
            check0, check1, bells, updates, bitmaps[..], hard, merge[..], ringHead[..], host)
    }

    ghost predicate Valid()
      reads this, Arrays()
    {
      && Shape(cfg, View())
      && features0.Length == features1.Length == seen0.Length == seen1.Length == cfg.lane
      && features0 != features1 && features0 != bitmaps && features1 != bitmaps
      && seen0 != seen1 && seen0 != oldCore && seen1 != oldCore
      && ringHead != oldCore && ringHead != seen0 && ringHead != seen1
    }

    /** Start-up: zeroed globals and the opening counters. */
    constructor (cfg: Config)
      requires cfg.Valid()
      ensures Valid() && fresh(Arrays()) && this.cfg == cfg && View() == BootState(cfg)
    {
      this.cfg := cfg;
      var counts := NewClusters();
      var cores := NewFilled(cfg.Slots(), cfg.cores);
      var none := NoFeatures();
      var f0 := NewFilled(cfg.lane, none);
      var f1 := NewFilled(cfg.lane, none);
      var s0 := NewFilled(cfg.lane, 0);
      var s1 := NewFilled(cfg.lane, 0);
      var maps := NewFilled(MAX_CORE, none);
      var table := NewFilled(GROUPS, ZeroRow());
      var heads := NewFilled(MAX_CORE, 0);
      clusters, oldCore, features0, features1, seen0, seen1 := counts, cores, f0, f1, s0, s1;
      bitmaps, merge, ringHead := maps, table, heads;
      hard := Repeated(FEATURES, 0);
      ii, jj, kk, check0, check1, bells, updates, host := 0, 0, 0, [], [], [], [], map[];
      new;
      assert fresh(clusters) && fresh(oldCore) && fresh(features0) && fresh(features1) && fresh(seen0) && fresh(seen1);
      assert fresh(bitmaps) && fresh(merge) && fresh(ringHead);
      BootWorldIsBooted(cfg);
      BootFields(cfg, clusters[..]);
    }

    /** Accepts the post in slot i of the first lane. */
    method Accept0(i: nat, word: Word)
      requires Valid() && i < cfg.lane && word.hint < cfg.cores
      modifies this`check0, seen0, features0
      ensures View() == Take0(old(View()), i, word)
    {
      seen0[i] := word.toggle;
      check0 := check0 + [Message(i, word.hint, features0[i], word.features)];
      features0[i] := word.features;
      FirstLaneSet(old(seen0[..]), seen0[..], seen1[..], i, word.toggle);
      FirstLaneSet(old(features0[..]), features0[..], features1[..], i, word.features);
    }

    method NextSlot0()
      requires cfg.lane > 0
      modifies this`ii
      ensures View() == old(View()).(pos0 := Cycle(old(ii), cfg.lane))
    {
      if ii == cfg.lane - 1 {
        ii := 0;
      } else {
        ii := ii + 1;
      }
    }

    /** Poll stage of the first lane. */
    method CheckMessage0(mem: seq<Word>)
      requires Valid() && |mem| == cfg.Slots() && forall i :: 0 <= i < |mem| ==> mem[i].hint < cfg.cores
      modifies this`ii, this`check0, seen0, features0
      ensures Valid() && View() == Poll0(cfg, old(View()), mem)
    {
      PollKeepsShape(cfg, View(), mem);
      assert View().seen[ii] == seen0[ii];
      if Fresh(mem[ii].toggle, seen0[ii]) {
        Accept0(ii, mem[ii]);
      }
      NextSlot0();
    }

    /** Accepts the post in slot j of the second lane, whose slots are numbered after the first lane's. */
    method Accept1(j: nat, word: Word)
      requires Valid() && j < cfg.lane && word.hint < cfg.cores
      modifies this`check1, seen1, features1
      ensures View() == Take1(old(View()), j + cfg.lane, word)
    {
      seen1[j] := word.toggle;
      check1 := check1 + [Message(j + cfg.lane, word.hint, features1[j], word.features)];
      features1[j] := word.features;
      SecondLaneSet(seen0[..], old(seen1[..]), seen1[..], j, word.toggle);
      SecondLaneSet(features0[..], old(features1[..]), features1[..], j, word.features);
    }

    method NextSlot1()
      requires cfg.lane > 0
      modifies this`jj
      ensures View() == old(View()).(pos1 := Cycle(old(jj), cfg.lane))
    {
      if jj == cfg.lane - 1 {
        jj := 0;
      } else {
        jj := jj + 1;
      }
    }

    /** Poll stage of the second lane. */
    method CheckMessage1(mem: seq<Word>)
      requires Valid() && |mem| == cfg.Slots() && forall i :: 0 <= i < |mem| ==> mem[i].hint < cfg.cores
      modifies this`jj, this`check1, seen1, features1
      ensures Valid() && View() == Poll1(cfg, old(View()), mem)
    {
      PollKeepsShape(cfg, View(), mem);
      CheckSlot1(mem);
    }

    method CheckSlot1(mem: seq<Word>)
      requires Valid() && |mem| == cfg.Slots() && forall i :: 0 <= i < |mem| ==> mem[i].hint < cfg.cores
      modifies this`jj, this`check1, seen1, features1
      ensures View() == Poll1(cfg, old(View()), mem)
    {
      var slot := jj + cfg.lane;
      assert View().seen[slot] == seen1[jj];
      if Fresh(mem[slot].toggle, seen1[jj]) {
        Accept1(jj, mem[slot]);
      }
      NextSlot1();
    }

    method RouteMessage(m: Message)
      requires Valid()
      modifies this`bells, this`updates
      ensures View() == Route(cfg, old(View()), m)
    {
      var core := ChooseCore(merge[..], bitmaps[..], m.newFeatures, m.core, cfg.cores);
      ChooseIsFirstBest(Scores(merge[..], bitmaps[..], m.newFeatures, cfg.cores), m.core, core);
      bells := bells + [Bell(m.slot, core)];
      updates := updates + [m.(core := core)];
    }

    method ComputeCoreId()
      requires Valid()
      modifies this`kk, this`check0, this`check1, this`bells, this`updates
      ensures Valid() && View() == Compute(cfg, old(View()))
    {
      ComputeKeepsShape(cfg, View());
      if kk == 0 {
        if check0 == [] {
          kk := 1;
          return;
        }
        RouteMessage(check0[0]);
        check0 := check0[1..];
      } else {
        if check1 == [] {
          kk := 0;
          return;
        }
        RouteMessage(check1[0]);
        check1 := check1[1..];
      }
    }

    method Doorbell()
      requires Valid()
      modifies this`bells, this`host, ringHead
      ensures Valid() && View() == Ring(cfg, old(View()))
    {
      RingAndUpdateKeepShape(cfg, View());
      if bells != [] {
        var b := bells[0];
        var localHead := ringHead[b.core];
        ringHead[b.core] := localHead + 1;
        if localHead == cfg.messNum - 1 {
          ringHead[b.core] := 0;
        }
        host := host[cfg.EntryAddress(b.core, localHead) := b.slot];
        bells := bells[1..];
      }
    }

    /** One feature's turn in the counter loop, in 8-bit arithmetic. */
    method RecountFeature(m: Message, oldIndex: nat, f: nat)
      requires clusters.Length == MAX_CORE && oldIndex < MAX_CORE && m.core < MAX_CORE && f < FEATURES
      requires forall c :: 0 <= c < MAX_CORE ==> |clusters[c]| == FEATURES
      modifies clusters
      ensures forall c :: 0 <= c < MAX_CORE ==>
                clusters[c] == old(clusters[c])[f := Counted(old(clusters[c])[f], m.oldFeatures[f] && c == oldIndex,
                                                             m.newFeatures[f] && c == m.core)]
    {
      if m.oldFeatures[f] {
        clusters[oldIndex] := clusters[oldIndex][f := (clusters[oldIndex][f] + 255) % 256];
      }
      if m.newFeatures[f] {
        clusters[m.core] := clusters[m.core][f := (clusters[m.core][f] + 1) % 256];
      }
    }

    method Recount(m: Message, oldIndex: nat)
      requires clusters.Length == MAX_CORE && oldIndex < MAX_CORE && m.core < MAX_CORE
      requires forall c :: 0 <= c < MAX_CORE ==> |clusters[c]| == FEATURES
      modifies clusters
      ensures clusters[..] == Recounted(old(clusters[..]), m, oldIndex)
    {
      ghost var before: seq<seq<nat>> := clusters[..];
      ghost var after: seq<seq<nat>> := Recounted(before, m, oldIndex);
      for f := 0 to FEATURES
        invariant forall c :: 0 <= c < MAX_CORE ==> |clusters[c]| == FEATURES
        invariant forall c, e :: 0 <= c < MAX_CORE && 0 <= e < FEATURES ==>
                    clusters[c][e] == if e < f then after[c][e] else before[c][e]
      {
        RecountFeature(m, oldIndex, f);
      }
      forall c | 0 <= c < MAX_CORE
        ensures clusters[c] == after[c]
      {
      }
    }

    method UpdateCluster()
      requires Valid()
      modifies this`updates, clusters, oldCore
      ensures Valid() && View() == Update(cfg, old(View()))
    {
      RingAndUpdateKeepShape(cfg, View());
      if updates != [] {
        var m := updates[0];
        Recount(m, oldCore[m.slot]);
        oldCore[m.slot] := m.core;
        updates := updates[1..];
      }
    }

    method InitBitmap()
      requires Valid()
      modifies bitmaps
      ensures Valid() && View() == Refresh(old(View()))
    {
      RefreshBitmaps(hard, clusters[..], bitmaps);
      assert bitmaps[..] == Refresh(old(View())).bitmaps;
    }

    method ReloadWeights(weights: seq<Weights8>, partition: seq<nat>)
      requires Valid() && |weights| == GROUPS && |partition| == FEATURES
      modifies this`hard, merge
      ensures Valid() && View() == old(View()).(merge := merge[..], hard := partition)
      ensures forall g :: 0 <= g < GROUPS ==> Merged(weights[g], old(merge[g]), merge[g])
    {
      ghost var before := merge[..];
      InitWeight(weights, merge);
      hard := partition;
      ReloadKeepsBound(weights, before, merge[..]);
    }

    /** One pass of the dataflow in program order. */
    method Dataflow(mem: seq<Word>)
      requires Valid() && |mem| == cfg.Slots() && forall i :: 0 <= i < |mem| ==> mem[i].hint < cfg.cores
      modifies this, Arrays()
      ensures Valid() && View() == Pass(cfg, old(View()), mem)
    {
      CheckMessage0(mem);
      CheckMessage1(mem);
      ComputeCoreId();
      Doorbell();
      UpdateCluster();
    }
  }
}
