/**
  The per-core feature counters agree with history: in every reachable state a
  counter is its start value plus the number of slots whose last counted
  request has the feature and was sent to that core. It rests on the messages
  of one slot forming a chain through the streams: each message's old features
  are the new features of the one before it.
 */
module Counters {
  import opened Scoring
  import opened Pipeline

  /** Following slot's messages through msgs leads from features cur to features last. */
  ghost predicate Chained(cur: Features, msgs: seq<Message>, slot: nat, last: Features)
    decreases |msgs|
  {
    if msgs == [] then cur == last
    else if msgs[0].slot == slot then msgs[0].oldFeatures == cur && Chained(msgs[0].newFeatures, msgs[1..], slot, last)
    else Chained(cur, msgs[1..], slot, last)
  }

  /** The core of the last message counted for a slot; the spare row before the first. */
  function Home(cfg: Config, counted: seq<Message>): nat {
    if counted == [] then cfg.cores else counted[|counted| - 1].core
  }

  function Homes(cfg: Config, counted: seq<seq<Message>>): seq<nat> {
    seq(|counted|, i requires 0 <= i < |counted| => Home(cfg, counted[i]))
  }

  /** Number of the first n slots counted for core c with feature f. */
  ghost function Holding(applied: seq<Features>, oldCore: seq<nat>, c: nat, f: nat, n: nat): nat
    requires n <= |applied| == |oldCore| && f < FEATURES
  {
    if n == 0 then 0
    else Holding(applied, oldCore, c, f, n - 1) + if applied[n - 1][f] && oldCore[n - 1] == c then 1 else 0
  }

  function Pending(cfg: Config, s: State, slot: nat): seq<Message> {
    s.updates + if slot < cfg.lane then s.check0 else s.check1
  }

  ghost predicate ChainInv(cfg: Config, w: World)
    requires WorldShape(cfg, w)
  {
    forall i :: 0 <= i < cfg.Slots() ==> Chained(w.applied[i], Pending(cfg, w.s, i), i, w.s.features[i])
  }

  ghost predicate CountInv(cfg: Config, w: World)
    requires WorldShape(cfg, w)
  {
    && w.s.oldCore == Homes(cfg, w.counted)
    && forall c, f :: 0 <= c < MAX_CORE && 0 <= f < FEATURES ==>
         w.s.clusters[c][f] == StartCount(c, f) + Holding(w.applied, w.s.oldCore, c, f, cfg.Slots())
  }

  // ------------------------------------------------------------ chains

  lemma {:induction false} ChainGrows(cur: Features, msgs: seq<Message>, m: Message, slot: nat, last: Features)
    requires Chained(cur, msgs, slot, last)
    requires m.slot == slot ==> m.oldFeatures == last
    ensures Chained(cur, msgs + [m], slot, if m.slot == slot then m.newFeatures else last)
    decreases |msgs|
  {
    if msgs == [] {
      assert msgs + [m] == [m] && [m][1..] == [];
    } else {
      assert (msgs + [m])[1..] == msgs[1..] + [m];
      ChainGrows(if msgs[0].slot == slot then msgs[0].newFeatures else cur, msgs[1..], m, slot, last);
    }
  }

  /** A message in the middle only matters to its own slot, and its core to nobody. */
  lemma {:induction false} ChainMiddle(cur: Features, a: seq<Message>, m: Message, core: nat, b: seq<Message>,
                                       slot: nat, last: Features)
    ensures Chained(cur, a + [m] + b, slot, last) <==> Chained(cur, a + [m.(core := core)] + b, slot, last)
    ensures m.slot != slot ==> (Chained(cur, a + b, slot, last) <==> Chained(cur, a + [m] + b, slot, last))
    decreases |a|
  {
    var x, y, z := a + [m] + b, a + [m.(core := core)] + b, a + b;
    if a == [] {
      assert x[1..] == b && y[1..] == b && z == b;
    } else {
      assert x[1..] == a[1..] + [m] + b && y[1..] == a[1..] + [m.(core := core)] + b && z[1..] == a[1..] + b;
      ChainMiddle(if a[0].slot == slot then a[0].newFeatures else cur, a[1..], m, core, b, slot, last);
    }
  }

  lemma PollKeepsChain(cfg: Config, w: World, a: Action)
    requires WorldShape(cfg, w) && ChainInv(cfg, w) && (a.PollLane0? || a.PollLane1?)
    requires WorldShape(cfg, Next(cfg, w, a))
    ensures ChainInv(cfg, Next(cfg, w, a))
  {
    var w' := Next(cfg, w, a);
    var slot := if a.PollLane0? then w.s.pos0 else w.s.pos1 + cfg.lane;
    var m := PollMessage(w.s, slot, w.mem[slot]);
    if Fresh(w.mem[slot].toggle, w.s.seen[slot]) {
      forall i | 0 <= i < cfg.Slots()
        ensures Chained(w'.applied[i], Pending(cfg, w'.s, i), i, w'.s.features[i])
      {
        if a.PollLane0? == (i < cfg.lane) {
          ChainGrows(w.applied[i], Pending(cfg, w.s, i), m, i, w.s.features[i]);
          assert Pending(cfg, w'.s, i) == Pending(cfg, w.s, i) + [m];
        }
      }
    }
  }

  /** Moving m from the front of one check stream to the end of the update stream. */
  lemma MoveKeepsChain(cfg: Config, w: World, m: Message, s': State)
    requires WorldShape(cfg, w) && ChainInv(cfg, w) && MessageOk(cfg, m, 0, cfg.Slots())
    requires exists core :: s'.updates == w.s.updates + [m.(core := core)]
    requires s'.features == w.s.features
    requires if m.slot < cfg.lane then w.s.check0 == [m] + s'.check0 && s'.check1 == w.s.check1
             else w.s.check1 == [m] + s'.check1 && s'.check0 == w.s.check0
    ensures forall i :: 0 <= i < cfg.Slots() ==> Chained(w.applied[i], Pending(cfg, s', i), i, s'.features[i])
  {
    var core :| s'.updates == w.s.updates + [m.(core := core)];
    forall i | 0 <= i < cfg.Slots()
      ensures Chained(w.applied[i], Pending(cfg, s', i), i, s'.features[i])
    {
      var rest := if i < cfg.lane then s'.check0 else s'.check1;
      ChainMiddle(w.applied[i], w.s.updates, m, core, rest, i, w.s.features[i]);
      if (i < cfg.lane) == (m.slot < cfg.lane) {
        assert Pending(cfg, w.s, i) == w.s.updates + [m] + rest;
      } else {
        assert Pending(cfg, w.s, i) == w.s.updates + rest;
      }
    }
  }

  lemma PickKeepsChain(cfg: Config, w: World)
    requires WorldShape(cfg, w) && ChainInv(cfg, w) && WorldShape(cfg, Next(cfg, w, Pick))
    ensures ChainInv(cfg, Next(cfg, w, Pick))
  {
    var s, s' := w.s, Compute(cfg, w.s);
    if s.selector == 0 && s.check0 != [] {
      var m := s.check0[0];
      assert s'.updates == s.updates + [m.(core := CoreFor(cfg, s, m))];
      MoveKeepsChain(cfg, w, m, s');
    } else if s.selector != 0 && s.check1 != [] {
      var m := s.check1[0];
      assert s'.updates == s.updates + [m.(core := CoreFor(cfg, s, m))];
      MoveKeepsChain(cfg, w, m, s');
    }
  }

  lemma CountKeepsChain(cfg: Config, w: World)
    requires WorldShape(cfg, w) && ChainInv(cfg, w) && WorldShape(cfg, Next(cfg, w, Count))
    ensures ChainInv(cfg, Next(cfg, w, Count))
    ensures w.s.updates != [] ==> w.s.updates[0].oldFeatures == w.applied[w.s.updates[0].slot]
  {
    if w.s.updates != [] {
      var w' := Next(cfg, w, Count);
      forall i | 0 <= i < cfg.Slots()
        ensures Chained(w'.applied[i], Pending(cfg, w'.s, i), i, w'.s.features[i])
      {
        assert Pending(cfg, w.s, i)[1..] == Pending(cfg, w'.s, i);
      }
      assert Chained(w.applied[w.s.updates[0].slot], Pending(cfg, w.s, w.s.updates[0].slot), w.s.updates[0].slot,
                     w.s.features[w.s.updates[0].slot]);
    }
  }

  // ------------------------------------------------------------ counters

  lemma {:induction false} HoldingBound(applied: seq<Features>, oldCore: seq<nat>, c: nat, f: nat, n: nat)
    requires n <= |applied| == |oldCore| && f < FEATURES
    ensures Holding(applied, oldCore, c, f, n) <= n
    ensures forall i :: 0 <= i < n && applied[i][f] && oldCore[i] == c ==> Holding(applied, oldCore, c, f, n) >= 1
    decreases n
  {
    if n > 0 {
      HoldingBound(applied, oldCore, c, f, n - 1);
    }
  }

  lemma {:induction false} HoldingMoves(applied: seq<Features>, oldCore: seq<nat>, i: nat, x: Features, core: nat,
                                        c: nat, f: nat, n: nat)
    requires n <= |applied| == |oldCore| && f < FEATURES && i < |applied|
    ensures Holding(applied[i := x], oldCore[i := core], c, f, n) ==
            Holding(applied, oldCore, c, f, n)
            - (if i < n && applied[i][f] && oldCore[i] == c then 1 else 0)
            + (if i < n && x[f] && core == c then 1 else 0)
    decreases n
  {
    if n > 0 {
      HoldingMoves(applied, oldCore, i, x, core, c, f, n - 1);
    }
  }

  /** In this range neither 8-bit step wraps. */
  lemma CountedExact(x: nat, dec: bool, inc: bool)
    requires x <= MAX_SLOTS + 1 && (dec ==> x > 0)
    ensures Counted(x, dec, inc) == x - (if dec then 1 else 0) + (if inc then 1 else 0)
  {
  }

  /** One counter over one update: neither 8-bit step wraps, and the slot moves from its old core to the new one. */
  lemma CounterMoves(applied: seq<Features>, oldCore: seq<nat>, m: Message, c: nat, f: nat, x: nat)
    requires |applied| == |oldCore| <= MAX_SLOTS && m.slot < |applied| && f < FEATURES
    requires m.oldFeatures == applied[m.slot]
    requires x == StartCount(c, f) + Holding(applied, oldCore, c, f, |applied|)
    ensures Counted(x, m.oldFeatures[f] && c == oldCore[m.slot], m.newFeatures[f] && c == m.core) ==
            StartCount(c, f) + Holding(applied[m.slot := m.newFeatures], oldCore[m.slot := m.core], c, f, |applied|)
  {
    HoldingBound(applied, oldCore, c, f, |applied|);
    HoldingMoves(applied, oldCore, m.slot, m.newFeatures, m.core, c, f, |applied|);
    CountedExact(x, m.oldFeatures[f] && c == oldCore[m.slot], m.newFeatures[f] && c == m.core);
  }

  lemma CountKeepsCount(cfg: Config, w: World)
    requires WorldShape(cfg, w) && CountInv(cfg, w) && WorldShape(cfg, Next(cfg, w, Count))
    requires w.s.updates != [] ==> w.s.updates[0].oldFeatures == w.applied[w.s.updates[0].slot]
    ensures CountInv(cfg, Next(cfg, w, Count))
  {
    if w.s.updates != [] {
      var w', m := Next(cfg, w, Count), w.s.updates[0];
      forall c, f | 0 <= c < MAX_CORE && 0 <= f < FEATURES
        ensures w'.s.clusters[c][f] == StartCount(c, f) + Holding(w'.applied, w'.s.oldCore, c, f, cfg.Slots())
      {
        CounterMoves(w.applied, w.s.oldCore, m, c, f, w.s.clusters[c][f]);
      }
      assert w'.s.oldCore == Homes(cfg, w'.counted);
    }
  }

  // ------------------------------------------------------------ every run

  lemma NextKeeps(cfg: Config, w: World, a: Action)
    requires WorldShape(cfg, w) && ChainInv(cfg, w) && CountInv(cfg, w)
    requires WorldShape(cfg, Next(cfg, w, a))
    ensures ChainInv(cfg, Next(cfg, w, a)) && CountInv(cfg, Next(cfg, w, a))
  {
    match a
    case PollLane0 => PollKeepsChain(cfg, w, a);
    case PollLane1 => PollKeepsChain(cfg, w, a);
    case Pick => PickKeepsChain(cfg, w);
    case Count =>
      CountKeepsChain(cfg, w);
      CountKeepsCount(cfg, w);
    case _ =>
  }

  lemma {:induction false} HoldingNothing(applied: seq<Features>, oldCore: seq<nat>, c: nat, f: nat, n: nat)
    requires n <= |applied| == |oldCore| && f < FEATURES
    requires forall i :: 0 <= i < n ==> !applied[i][f]
    ensures Holding(applied, oldCore, c, f, n) == 0
    decreases n
  {
    if n > 0 {
      HoldingNothing(applied, oldCore, c, f, n - 1);
    }
  }

  lemma {:induction false} RunKeeps(cfg: Config, w: World, actions: seq<Action>)
    requires Booted(cfg, w)
    ensures ChainInv(cfg, Run(cfg, w, actions)) && CountInv(cfg, Run(cfg, w, actions))
    decreases |actions|
  {
    if actions == [] {
      forall c, f | 0 <= c < MAX_CORE && 0 <= f < FEATURES
        ensures Holding(w.applied, w.s.oldCore, c, f, cfg.Slots()) == 0
      {
        HoldingNothing(w.applied, w.s.oldCore, c, f, cfg.Slots());
      }
    } else {
      var v := Run(cfg, w, actions[..|actions| - 1]);
      RunKeeps(cfg, w, actions[..|actions| - 1]);
      NextKeepsShape(cfg, v, actions[|actions| - 1]);
      NextKeeps(cfg, v, actions[|actions| - 1]);
    }
  }

  /**
    In every reachable state: each counter is its start value plus the slots whose
    last counted message has the feature and went to that core, at most 193, so no
    8-bit step has wrapped; the table of old cores holds the cores of the last
    counted messages; and the next message to be counted carries as old features
    exactly those last counted for its slot.
   */
  lemma CountersAgreeWithHistory(cfg: Config, w: World, actions: seq<Action>)
    requires Booted(cfg, w)
    ensures var v := Run(cfg, w, actions);
            && (forall c, f :: 0 <= c < MAX_CORE && 0 <= f < FEATURES ==>
                  && v.s.clusters[c][f] ==
                       StartCount(c, f) + Holding(v.applied, Homes(cfg, v.counted), c, f, cfg.Slots())
                  && v.s.clusters[c][f] <= 193)
            && v.s.oldCore == Homes(cfg, v.counted)
            && (v.s.updates != [] ==> v.s.updates[0].oldFeatures == v.applied[v.s.updates[0].slot])
  {
    var v := Run(cfg, w, actions);
    RunKeeps(cfg, w, actions);
    NextKeepsShape(cfg, v, Count);
    CountKeepsChain(cfg, v);
    forall c, f | 0 <= c < MAX_CORE && 0 <= f < FEATURES
      ensures v.s.clusters[c][f] <= 193
    {
      HoldingBound(v.applied, v.s.oldCore, c, f, cfg.Slots());
    }
  }
}
