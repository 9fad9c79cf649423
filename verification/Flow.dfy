/**
  The requests of one slot flow through the stages in order: they are counted in
  the order they were accepted, each at the core its doorbell is rung for.
 */
module Flow {
  import opened Scoring
  import opened Pipeline
  import opened Counters

  // ------------------------------------------------------------ one slot's share of a stream

  /** The messages of slot i, in order. */
  function Of(msgs: seq<Message>, i: nat): seq<Message> {
    if msgs == [] then []
    else Of(msgs[..|msgs| - 1], i) + if msgs[|msgs| - 1].slot == i then [msgs[|msgs| - 1]] else []
  }

  /** The cores of slot i's doorbells, in order. */
  function BellsOf(bells: seq<Bell>, i: nat): seq<nat> {
    if bells == [] then []
    else BellsOf(bells[..|bells| - 1], i) + if bells[|bells| - 1].slot == i then [bells[|bells| - 1].core] else []
  }

  function Cores(msgs: seq<Message>): seq<nat> { seq(|msgs|, j requires 0 <= j < |msgs| => msgs[j].core) }

  function Wants(msgs: seq<Message>): seq<Features> { seq(|msgs|, j requires 0 <= j < |msgs| => msgs[j].newFeatures) }

  function Asked(accepted: seq<Request>): seq<Features> {
    seq(|accepted|, j requires 0 <= j < |accepted| => accepted[j].features)
  }

  lemma OfPush(msgs: seq<Message>, m: Message, i: nat)
    ensures Of(msgs + [m], i) == if m.slot == i then Of(msgs, i) + [m] else Of(msgs, i)
  {
    assert (msgs + [m])[..|msgs|] == msgs;
  }

  lemma {:induction false} OfPop(msgs: seq<Message>, i: nat)
    requires msgs != []
    ensures Of(msgs, i) == if msgs[0].slot == i then [msgs[0]] + Of(msgs[1..], i) else Of(msgs[1..], i)
    decreases |msgs|
  {
    if |msgs| > 1 {
      var front := msgs[..|msgs| - 1];
      OfPop(front, i);
      assert front[1..] == msgs[1..][..|msgs| - 2];
    }
  }

  lemma BellsPush(bells: seq<Bell>, b: Bell, i: nat)
    ensures BellsOf(bells + [b], i) == if b.slot == i then BellsOf(bells, i) + [b.core] else BellsOf(bells, i)
  {
    assert (bells + [b])[..|bells|] == bells;
  }

  lemma {:induction false} BellsPop(bells: seq<Bell>, i: nat)
    requires bells != []
    ensures BellsOf(bells, i) ==
            if bells[0].slot == i then [bells[0].core] + BellsOf(bells[1..], i) else BellsOf(bells[1..], i)
    decreases |bells|
  {
    if |bells| > 1 {
      var front := bells[..|bells| - 1];
      BellsPop(front, i);
      assert front[1..] == bells[1..][..|bells| - 2];
    }
  }

  // ------------------------------------------------------------ the books of one slot

  /**
    What has been counted, waits to be counted and waits for a core is what was
    accepted; what has been counted or waits for it went to the cores that were
    rung or wait to be rung.
   */
  ghost predicate FlowAt(counted: seq<Message>, updates: seq<Message>, checks: seq<Message>, accepted: seq<Request>,
                         rungOn: seq<nat>, bells: seq<nat>) {
    && Wants(counted) + Wants(updates) + Wants(checks) == Asked(accepted)
    && Cores(counted) + Cores(updates) == rungOn + bells
  }

  function Checks(cfg: Config, s: State, i: nat): seq<Message> { if i < cfg.lane then s.check0 else s.check1 }

  /** What has happened to slot i. */
  datatype Book = Book(accepted: seq<Request>, rung: nat, rungOn: seq<nat>, counted: seq<Message>, applied: Features)

  function BookOf(w: World, i: nat): Book
    requires i < |w.accepted| == |w.rung| == |w.rungOn| == |w.counted| == |w.applied|
  {
    Book(w.accepted[i], w.rung[i], w.rungOn[i], w.counted[i], w.applied[i])
  }

  ghost predicate SlotFlows(cfg: Config, s: State, b: Book, i: nat) {
    && FlowAt(b.counted, Of(s.updates, i), Of(Checks(cfg, s, i), i), b.accepted, b.rungOn, BellsOf(s.bells, i))
    && b.rung == |b.rungOn|
    && b.applied == if b.counted == [] then NoFeatures() else b.counted[|b.counted| - 1].newFeatures
  }

  lemma AcceptFlows(counted: seq<Message>, updates: seq<Message>, checks: seq<Message>, accepted: seq<Request>,
                    rungOn: seq<nat>, bells: seq<nat>, m: Message, r: Request)
    requires FlowAt(counted, updates, checks, accepted, rungOn, bells) && m.newFeatures == r.features
    ensures FlowAt(counted, updates, checks + [m], accepted + [r], rungOn, bells)
  {
    assert Asked(accepted + [r]) == Asked(accepted) + [r.features];
    assert Wants(checks + [m]) == Wants(checks) + [m.newFeatures];
  }

  lemma PickFlows(counted: seq<Message>, updates: seq<Message>, checks: seq<Message>, accepted: seq<Request>,
                  rungOn: seq<nat>, bells: seq<nat>, m: Message, core: nat)
    requires FlowAt(counted, updates, [m] + checks, accepted, rungOn, bells)
    ensures FlowAt(counted, updates + [m.(core := core)], checks, accepted, rungOn, bells + [core])
  {
    assert Wants([m] + checks) == [m.newFeatures] + Wants(checks);
    assert Wants(updates + [m.(core := core)]) == Wants(updates) + [m.newFeatures];
    assert Cores(updates + [m.(core := core)]) == Cores(updates) + [core];
    assert Cores(counted) + Cores(updates) + [core] == rungOn + (bells + [core]);
  }

  lemma RingFlows(counted: seq<Message>, updates: seq<Message>, checks: seq<Message>, accepted: seq<Request>,
                  rungOn: seq<nat>, bells: seq<nat>, core: nat)
    requires FlowAt(counted, updates, checks, accepted, rungOn, [core] + bells)
    ensures FlowAt(counted, updates, checks, accepted, rungOn + [core], bells)
  {
    assert rungOn + ([core] + bells) == rungOn + [core] + bells;
  }

  lemma CountFlows(counted: seq<Message>, updates: seq<Message>, checks: seq<Message>, accepted: seq<Request>,
                   rungOn: seq<nat>, bells: seq<nat>, m: Message)
    requires FlowAt(counted, [m] + updates, checks, accepted, rungOn, bells)
    ensures FlowAt(counted + [m], updates, checks, accepted, rungOn, bells)
  {
    assert Wants([m] + updates) == [m.newFeatures] + Wants(updates);
    assert Cores([m] + updates) == [m.core] + Cores(updates);
    assert Wants(counted + [m]) == Wants(counted) + [m.newFeatures];
    assert Cores(counted + [m]) == Cores(counted) + [m.core];
  }

  // ------------------------------------------------------------ the steps

  /** A poll stage puts m on the stream of its lane. */
  ghost predicate Polls(cfg: Config, s: State, s': State, m: Message) {
    && s'.updates == s.updates && s'.bells == s.bells
    && if m.slot < cfg.lane then s'.check0 == s.check0 + [m] && s'.check1 == s.check1
       else s'.check1 == s.check1 + [m] && s'.check0 == s.check0
  }

  lemma PollKeepsFlow(cfg: Config, s: State, s': State, b: Book, m: Message, r: Request, i: nat)
    requires SlotFlows(cfg, s, b, i) && Polls(cfg, s, s', m) && m.newFeatures == r.features
    ensures SlotFlows(cfg, s', if i == m.slot then b.(accepted := b.accepted + [r]) else b, i)
  {
    var checks := Of(Checks(cfg, s, i), i);
    OfPush(Checks(cfg, s, i), m, i);
    if i == m.slot {
      AcceptFlows(b.counted, Of(s.updates, i), checks, b.accepted, b.rungOn, BellsOf(s.bells, i), m, r);
      assert Of(Checks(cfg, s', i), i) == checks + [m];
    } else {
      assert Of(Checks(cfg, s', i), i) == checks;
    }
  }

  /** The pick stage takes m, the first message of its stream, to core. */
  ghost predicate Picks(cfg: Config, s: State, s': State, m: Message, core: nat) {
    && s'.updates == s.updates + [m.(core := core)] && s'.bells == s.bells + [Bell(m.slot, core)]
    && if m.slot < cfg.lane then s.check0 == [m] + s'.check0 && s'.check1 == s.check1
       else s.check1 == [m] + s'.check1 && s'.check0 == s.check0
  }

  lemma PickCases(cfg: Config, s: State)
    requires Shape(cfg, s)
    ensures var s' := Compute(cfg, s);
            || (s'.updates == s.updates && s'.bells == s.bells && s'.check0 == s.check0 && s'.check1 == s.check1)
            || (exists m, core :: Picks(cfg, s, s', m, core))
  {
    var s' := Compute(cfg, s);
    if s.selector == 0 && s.check0 != [] {
      assert Picks(cfg, s, s', s.check0[0], CoreFor(cfg, s, s.check0[0]));
    } else if s.selector != 0 && s.check1 != [] {
      assert Picks(cfg, s, s', s.check1[0], CoreFor(cfg, s, s.check1[0]));
    }
  }

  lemma PickKeepsFlow(cfg: Config, s: State, s': State, b: Book, m: Message, core: nat, i: nat)
    requires SlotFlows(cfg, s, b, i) && Picks(cfg, s, s', m, core)
    ensures SlotFlows(cfg, s', b, i)
  {
    OfPush(s.updates, m.(core := core), i);
    BellsPush(s.bells, Bell(m.slot, core), i);
    if (i < cfg.lane) == (m.slot < cfg.lane) {
      assert Checks(cfg, s, i)[1..] == Checks(cfg, s', i);
      OfPop(Checks(cfg, s, i), i);
    }
    if i == m.slot {
      PickFlows(b.counted, Of(s.updates, i), Of(Checks(cfg, s', i), i), b.accepted, b.rungOn, BellsOf(s.bells, i), m,
                core);
    }
  }

  lemma RingKeepsFlow(cfg: Config, s: State, s': State, b: Book, i: nat)
    requires SlotFlows(cfg, s, b, i) && s.bells != [] && s'.bells == s.bells[1..]
    requires s'.updates == s.updates && s'.check0 == s.check0 && s'.check1 == s.check1
    ensures var bell := s.bells[0];
            SlotFlows(cfg, s', if i == bell.slot then b.(rung := b.rung + 1, rungOn := b.rungOn + [bell.core])
                      else b, i)
  {
    BellsPop(s.bells, i);
    var rest := BellsOf(s'.bells, i);
    if i == s.bells[0].slot {
      assert BellsOf(s.bells, i) == [s.bells[0].core] + rest;
      RingFlows(b.counted, Of(s.updates, i), Of(Checks(cfg, s, i), i), b.accepted, b.rungOn, rest, s.bells[0].core);
    } else {
      assert BellsOf(s.bells, i) == rest;
    }
  }

  lemma CountKeepsFlow(cfg: Config, s: State, s': State, b: Book, i: nat)
    requires SlotFlows(cfg, s, b, i) && s.updates != [] && s'.updates == s.updates[1..]
    requires s'.bells == s.bells && s'.check0 == s.check0 && s'.check1 == s.check1
    ensures var m := s.updates[0];
            SlotFlows(cfg, s', if i == m.slot then b.(counted := b.counted + [m], applied := m.newFeatures) else b, i)
  {
    OfPop(s.updates, i);
    if i == s.updates[0].slot {
      CountFlows(b.counted, Of(s'.updates, i), Of(Checks(cfg, s, i), i), b.accepted, b.rungOn, BellsOf(s.bells, i),
                 s.updates[0]);
    }
  }

  lemma Poll0Next(cfg: Config, w: World, i: nat)
    requires WorldShape(cfg, w) && i < cfg.Slots() && SlotFlows(cfg, w.s, BookOf(w, i), i)
    requires WorldShape(cfg, Next(cfg, w, PollLane0))
    ensures SlotFlows(cfg, Next(cfg, w, PollLane0).s, BookOf(Next(cfg, w, PollLane0), i), i)
  {
    var slot := w.s.pos0;
    var s', word := Poll0(cfg, w.s, w.mem), w.mem[slot];
    if Fresh(word.toggle, w.s.seen[slot]) {
      PollKeepsFlow(cfg, w.s, s', BookOf(w, i), PollMessage(w.s, slot, word), Request(word.hint, word.features), i);
    }
  }

  lemma Poll1Next(cfg: Config, w: World, i: nat)
    requires WorldShape(cfg, w) && i < cfg.Slots() && SlotFlows(cfg, w.s, BookOf(w, i), i)
    requires WorldShape(cfg, Next(cfg, w, PollLane1))
    ensures SlotFlows(cfg, Next(cfg, w, PollLane1).s, BookOf(Next(cfg, w, PollLane1), i), i)
  {
    var slot := w.s.pos1 + cfg.lane;
    var s', word := Poll1(cfg, w.s, w.mem), w.mem[slot];
    if Fresh(word.toggle, w.s.seen[slot]) {
      PollKeepsFlow(cfg, w.s, s', BookOf(w, i), PollMessage(w.s, slot, word), Request(word.hint, word.features), i);
    }
  }

  lemma NextKeepsFlow(cfg: Config, w: World, a: Action, i: nat)
    requires WorldShape(cfg, w) && i < cfg.Slots() && SlotFlows(cfg, w.s, BookOf(w, i), i)
    requires WorldShape(cfg, Next(cfg, w, a))
    ensures SlotFlows(cfg, Next(cfg, w, a).s, BookOf(Next(cfg, w, a), i), i)
  {
    var b := BookOf(w, i);
    match a
    case PollLane0 => Poll0Next(cfg, w, i);
    case PollLane1 => Poll1Next(cfg, w, i);
    case Pick =>
      PickCases(cfg, w.s);
      if m, core :| Picks(cfg, w.s, Compute(cfg, w.s), m, core) {
        PickKeepsFlow(cfg, w.s, Compute(cfg, w.s), b, m, core, i);
      }
    case RingBell =>
      if w.s.bells != [] {
        RingKeepsFlow(cfg, w.s, Ring(cfg, w.s), b, i);
      }
    case Count =>
      if w.s.updates != [] {
        CountKeepsFlow(cfg, w.s, Update(cfg, w.s), b, i);
      }
    case _ =>
  }

  lemma {:induction false} RunKeepsFlow(cfg: Config, w: World, actions: seq<Action>, i: nat)
    requires Booted(cfg, w) && i < cfg.Slots()
    ensures var v := Run(cfg, w, actions); SlotFlows(cfg, v.s, BookOf(v, i), i)
    decreases |actions|
  {
    if actions != [] {
      var v := Run(cfg, w, actions[..|actions| - 1]);
      RunKeepsFlow(cfg, w, actions[..|actions| - 1], i);
      NextKeepsShape(cfg, v, actions[|actions| - 1]);
      NextKeepsFlow(cfg, v, actions[|actions| - 1], i);
    }
  }

  // ------------------------------------------------------------ every run

  /**
    In every run the n-th message counted for a slot is the slot's n-th accepted
    request, counted at the core of the slot's n-th doorbell, rung or waiting to be.
   */
  lemma CountedAtItsDoorbell(cfg: Config, w: World, actions: seq<Action>, i: nat, n: nat)
    requires Booted(cfg, w) && i < cfg.Slots() && n < |Run(cfg, w, actions).counted[i]|
    ensures var v := Run(cfg, w, actions);
            var sent := v.rungOn[i] + BellsOf(v.s.bells, i);
            && n < |v.accepted[i]| && v.counted[i][n].newFeatures == v.accepted[i][n].features
            && n < |sent| && v.counted[i][n].core == sent[n]
  {
    var v := Run(cfg, w, actions);
    RunKeepsFlow(cfg, w, actions, i);
    var counted, updates, checks := v.counted[i], Of(v.s.updates, i), Of(Checks(cfg, v.s, i), i);
    assert Asked(v.accepted[i])[n] == (Wants(counted) + Wants(updates) + Wants(checks))[n] == counted[n].newFeatures;
    assert (v.rungOn[i] + BellsOf(v.s.bells, i))[n] == (Cores(counted) + Cores(updates))[n] == counted[n].core;
  }

  /** Once nothing of a slot waits, all its requests have been counted, each at the core of its doorbell. */
  lemma AllCounted(cfg: Config, w: World, actions: seq<Action>, i: nat)
    requires Booted(cfg, w) && i < cfg.Slots()
    requires var s := Run(cfg, w, actions).s;
             Of(s.updates, i) == Of(Checks(cfg, s, i), i) == [] && BellsOf(s.bells, i) == []
    ensures var v := Run(cfg, w, actions);
            && Wants(v.counted[i]) == Asked(v.accepted[i]) && Cores(v.counted[i]) == v.rungOn[i]
            && v.rung[i] == |v.accepted[i]| && v.s.oldCore[i] == Home(cfg, v.counted[i])
  {
    var v := Run(cfg, w, actions);
    RunKeepsFlow(cfg, w, actions, i);
    CountersAgreeWithHistory(cfg, w, actions);
    assert Wants(v.counted[i]) + Wants([]) + Wants([]) == Wants(v.counted[i]);
    assert Cores(v.counted[i]) + Cores([]) == Cores(v.counted[i]) && v.rungOn[i] + [] == v.rungOn[i];
    assert |Cores(v.counted[i])| == |Wants(v.counted[i])| == |Asked(v.accepted[i])|;
  }
}
