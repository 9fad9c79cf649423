/**
  The scheduler's dataflow as a state machine. Five stages are joined by FIFO
  streams: two poll stages read the clients' slots, one stage picks a core, one
  rings that core's doorbell, one keeps the per-core feature counters. Bitmap
  refreshes and weight reloads may happen between any two stages, and so may
  the clients' posts and the workers' reads. Every interleaving is a run.
 */
module Pipeline {
  import opened Weights
  import opened Scoring

  const MAX_SLOTS: nat := 192
  const ENTRY_WORDS: nat := 16
  /** Words between two cores' rings: 256 entries of 64 bytes and 256 bytes of metadata. */
  const RING_STRIDE: nat := 4160
  const METADATA_WORDS: nat := 64

  /** lane: slots polled by each of the two poll stages; base: word address of the first ring's metadata. */
  datatype Config = Config(lane: nat, cores: nat, messNum: nat, base: nat) {
    predicate Valid() {
      0 < lane <= MAX_SLOTS / 2 && 0 < cores <= USED_CORES && 0 < messNum <= 256
    }

    function Slots(): nat { 2 * lane }

    function RingStart(core: nat): nat { base + METADATA_WORDS + RING_STRIDE * core }

    function EntryAddress(core: nat, k: nat): nat { RingStart(core) + ENTRY_WORDS * k }
  }

  /** A request between poll and counter update: core is the client's hint until a core is chosen. */
  datatype Message = Message(slot: nat, core: nat, oldFeatures: Features, newFeatures: Features)

  datatype Bell = Bell(slot: nat, core: nat)

  datatype State = State(
    clusters: seq<seq<nat>>, oldCore: seq<nat>,
    features: seq<Features>, seen: seq<nat>,
    pos0: nat, pos1: nat, selector: nat,
    check0: seq<Message>, check1: seq<Message>, bells: seq<Bell>, updates: seq<Message>,
    bitmaps: seq<Features>, hard: seq<nat>, merge: seq<Row>,
    ringHead: seq<nat>, host: map<nat, nat>)

  /** What a client's slot holds: the 16-bit toggle, the core hint and the feature vector. */
  datatype Word = Word(toggle: nat, hint: nat, features: Features)

  datatype Request = Request(hint: nat, features: Features)

  // ------------------------------------------------------------ stages

  /** The poll stages' test: the slot's 16-bit toggle is the complement of the one last seen. */
  predicate Fresh(toggle: nat, seen: nat) {
    toggle == 0xFFFF - seen
  }

  function Cycle(pos: nat, lane: nat): nat {
    if pos == lane - 1 then 0 else pos + 1
  }

  function PollMessage(s: State, slot: nat, w: Word): Message
    requires slot < |s.features|
  {
    Message(slot, w.hint, s.features[slot], w.features)
  }

  function Accept(s: State, slot: nat, w: Word): State
    requires slot < |s.features| == |s.seen|
  {
    s.(seen := s.seen[slot := w.toggle], features := s.features[slot := w.features])
  }

  /** Accepting a post queues it on the lane's check stream. */
  function Take0(s: State, slot: nat, w: Word): State
    requires slot < |s.features| == |s.seen|
  {
    Accept(s, slot, w).(check0 := s.check0 + [PollMessage(s, slot, w)])
  }

  function Take1(s: State, slot: nat, w: Word): State
    requires slot < |s.features| == |s.seen|
  {
    Accept(s, slot, w).(check1 := s.check1 + [PollMessage(s, slot, w)])
  }

  function Poll0(cfg: Config, s: State, mem: seq<Word>): State
    requires Shape(cfg, s) && |mem| == cfg.Slots()
  {
    var slot := s.pos0;
    var t := if Fresh(mem[slot].toggle, s.seen[slot]) then Take0(s, slot, mem[slot]) else s;
    t.(pos0 := Cycle(s.pos0, cfg.lane))
  }

  function Poll1(cfg: Config, s: State, mem: seq<Word>): State
    requires Shape(cfg, s) && |mem| == cfg.Slots()
  {
    var slot := s.pos1 + cfg.lane;
    var t := if Fresh(mem[slot].toggle, s.seen[slot]) then Take1(s, slot, mem[slot]) else s;
    t.(pos1 := Cycle(s.pos1, cfg.lane))
  }

  function CoreFor(cfg: Config, s: State, m: Message): (core: nat)
    requires Shape(cfg, s)
  {
    Choose(Scores(s.merge, s.bitmaps, m.newFeatures, cfg.cores), m.core)
  }

  function Route(cfg: Config, s: State, m: Message): State
    requires Shape(cfg, s)
  {
    var core := CoreFor(cfg, s, m);
    s.(bells := s.bells + [Bell(m.slot, core)], updates := s.updates + [m.(core := core)])
  }

  function Compute(cfg: Config, s: State): State
    requires Shape(cfg, s)
  {
    if s.selector == 0 then
      if s.check0 == [] then s.(selector := 1) else Route(cfg, s, s.check0[0]).(check0 := s.check0[1..])
    else
      if s.check1 == [] then s.(selector := 0) else Route(cfg, s, s.check1[0]).(check1 := s.check1[1..])
  }

  function Ring(cfg: Config, s: State): State
    requires Shape(cfg, s)
  {
    if s.bells == [] then s
    else
      var b := s.bells[0];
      var head := s.ringHead[b.core];
      s.(bells := s.bells[1..],
         ringHead := s.ringHead[b.core := if head == cfg.messNum - 1 then 0 else head + 1],
         host := s.host[cfg.EntryAddress(b.core, head) := b.slot])
  }

  /** An 8-bit counter after its decrement and increment, each wrapping. */
  function Counted(x: nat, dec: bool, inc: bool): nat {
    var y := if dec then (x + 255) % 256 else x;
    if inc then (y + 1) % 256 else y
  }

  function Recounted(clusters: seq<seq<nat>>, m: Message, oldCore: nat): (r: seq<seq<nat>>)
    requires |clusters| == MAX_CORE && forall c :: 0 <= c < MAX_CORE ==> |clusters[c]| == FEATURES
    ensures |r| == MAX_CORE && forall c :: 0 <= c < MAX_CORE ==> |r[c]| == FEATURES
  {
    seq(MAX_CORE, c requires 0 <= c < MAX_CORE =>
      seq(FEATURES, f requires 0 <= f < FEATURES =>
        Counted(clusters[c][f], m.oldFeatures[f] && c == oldCore, m.newFeatures[f] && c == m.core)))
  }

  function Update(cfg: Config, s: State): State
    requires Shape(cfg, s)
  {
    if s.updates == [] then s
    else
      var m := s.updates[0];
      s.(updates := s.updates[1..],
         clusters := Recounted(s.clusters, m, s.oldCore[m.slot]),
         oldCore := s.oldCore[m.slot := m.core])
  }

  function Refresh(s: State): State
    requires |s.bitmaps| == |s.clusters| == MAX_CORE && |s.hard| == FEATURES
    requires forall c :: 0 <= c < MAX_CORE ==> |s.clusters[c]| == FEATURES
  {
    s.(bitmaps := seq(MAX_CORE, c requires 0 <= c < MAX_CORE =>
         if c < USED_CORES then Bitmap(s.hard, s.clusters[c], c) else s.bitmaps[c]))
  }

  // ------------------------------------------------------------ well-formed states

  ghost predicate MessageOk(cfg: Config, m: Message, low: nat, high: nat) {
    low <= m.slot < high && m.core < cfg.cores
  }

  ghost predicate StreamsOk(cfg: Config, s: State) {
    && (forall i :: 0 <= i < |s.check0| ==> MessageOk(cfg, s.check0[i], 0, cfg.lane))
    && (forall i :: 0 <= i < |s.check1| ==> MessageOk(cfg, s.check1[i], cfg.lane, cfg.Slots()))
    && (forall i :: 0 <= i < |s.updates| ==> MessageOk(cfg, s.updates[i], 0, cfg.Slots()))
    && (forall i :: 0 <= i < |s.bells| ==> s.bells[i].slot < cfg.Slots() && s.bells[i].core < cfg.cores)
  }

  ghost predicate Shape(cfg: Config, s: State) {
    && cfg.Valid()
    && |s.clusters| == |s.bitmaps| == MAX_CORE && |s.ringHead| == MAX_CORE && |s.hard| == FEATURES
    && (forall c :: 0 <= c < MAX_CORE ==> |s.clusters[c]| == FEATURES)
    && |s.oldCore| == |s.features| == |s.seen| == cfg.Slots()
    && s.pos0 < cfg.lane && s.pos1 < cfg.lane
    && (forall i :: 0 <= i < cfg.Slots() ==> s.oldCore[i] <= cfg.cores)
    && Bounded(s.merge)
    && StreamsOk(cfg, s)
  }

  // ------------------------------------------------------------ the world around it

  /**
    The scheduler, the clients' slots, and what has happened: posts and accepted
    requests per slot, doorbells rung per slot and the cores they went to, the
    messages counted per slot and the features of the last one, and per core the
    rung entries no worker has read yet.
   */
  datatype World = World(s: State, mem: seq<Word>,
                         posts: seq<seq<Request>>, accepted: seq<seq<Request>>, rung: seq<nat>, rungOn: seq<seq<nat>>,
                         counted: seq<seq<Message>>, applied: seq<Features>, live: seq<seq<nat>>, served: seq<nat>)

  ghost predicate WorldShape(cfg: Config, w: World) {
    && Shape(cfg, w.s)
    && |w.mem| == |w.posts| == |w.accepted| == |w.rung| == |w.rungOn| == |w.counted| == |w.applied| == cfg.Slots()
    && |w.live| == |w.served| == cfg.cores
    && forall i :: 0 <= i < cfg.Slots() ==> w.mem[i].hint < cfg.cores && w.mem[i].toggle <= 0xFFFF
  }

  datatype Action =
    | Post(slot: nat, request: Request)
    | PollLane0
    | PollLane1
    | Pick
    | RingBell
    | Count
    | RefreshMaps
    | Reload(weights: seq<Weights8>, table: seq<Row>, hard: seq<nat>)
    | Serve(core: nat)

  /** A client posts again only after the doorbell for its previous request. */
  ghost predicate Enabled(cfg: Config, w: World, a: Action)
    requires WorldShape(cfg, w)
  {
    match a
    case Post(slot, request) =>
      slot < cfg.Slots() && request.hint < cfg.cores && |w.posts[slot]| == w.rung[slot]
    case Reload(weights, table, hard) =>
      && |weights| == |table| == GROUPS && |hard| == FEATURES
      && forall g :: 0 <= g < GROUPS ==> Merged(weights[g], w.s.merge[g], table[g])
    case Serve(core) => core < cfg.cores && w.live[core] != []
    case _ => true
  }

  function Accepted(accepted: seq<seq<Request>>, slot: nat, w: Word, isNew: bool): seq<seq<Request>>
    requires slot < |accepted|
  {
    if isNew then accepted[slot := accepted[slot] + [Request(w.hint, w.features)]] else accepted
  }

  ghost function Next(cfg: Config, w: World, a: Action): World
    requires WorldShape(cfg, w)
  {
    if !Enabled(cfg, w, a) then w
    else
      match a
      case Post(slot, request) =>
        w.(mem := w.mem[slot := Word(0xFFFF - w.mem[slot].toggle, request.hint, request.features)],
           posts := w.posts[slot := w.posts[slot] + [request]])
      case PollLane0 =>
        var slot := w.s.pos0;
        w.(s := Poll0(cfg, w.s, w.mem),
           accepted := Accepted(w.accepted, slot, w.mem[slot], Fresh(w.mem[slot].toggle, w.s.seen[slot])))
      case PollLane1 =>
        var slot := w.s.pos1 + cfg.lane;
        w.(s := Poll1(cfg, w.s, w.mem),
           accepted := Accepted(w.accepted, slot, w.mem[slot], Fresh(w.mem[slot].toggle, w.s.seen[slot])))
      case Pick => w.(s := Compute(cfg, w.s))
      case RingBell =>
        if w.s.bells == [] then w
        else
          var b := w.s.bells[0];
          w.(s := Ring(cfg, w.s), rung := w.rung[b.slot := w.rung[b.slot] + 1],
             rungOn := w.rungOn[b.slot := w.rungOn[b.slot] + [b.core]],
             live := w.live[b.core := w.live[b.core] + [b.slot]])
      case Count =>
        if w.s.updates == [] then w
        else
          var m := w.s.updates[0];
          w.(s := Update(cfg, w.s), counted := w.counted[m.slot := w.counted[m.slot] + [m]],
             applied := w.applied[m.slot := m.newFeatures])
      case RefreshMaps => w.(s := Refresh(w.s))
      case Reload(weights, table, hard) => w.(s := w.s.(merge := table, hard := hard))
      case Serve(core) =>
        w.(live := w.live[core := w.live[core][1..]], served := w.served[core := w.served[core] + 1])
  }

  lemma ChosenCoreInRange(cfg: Config, s: State, m: Message)
    requires Shape(cfg, s) && m.core < cfg.cores
    ensures CoreFor(cfg, s, m) < cfg.cores
  {
    var scores := Scores(s.merge, s.bitmaps, m.newFeatures, cfg.cores);
    BestSoFar(scores, m.core, |scores|);
  }

  lemma PollKeepsShape(cfg: Config, s: State, mem: seq<Word>)
    requires Shape(cfg, s) && |mem| == cfg.Slots()
    requires forall i :: 0 <= i < cfg.Slots() ==> mem[i].hint < cfg.cores
    ensures Shape(cfg, Poll0(cfg, s, mem)) && Shape(cfg, Poll1(cfg, s, mem))
  {
  }

  lemma ComputeKeepsShape(cfg: Config, s: State)
    requires Shape(cfg, s)
    ensures Shape(cfg, Compute(cfg, s))
  {
    if s.selector == 0 && s.check0 != [] {
      ChosenCoreInRange(cfg, s, s.check0[0]);
    } else if s.selector != 0 && s.check1 != [] {
      ChosenCoreInRange(cfg, s, s.check1[0]);
    }
  }

  lemma RingAndUpdateKeepShape(cfg: Config, s: State)
    requires Shape(cfg, s)
    ensures Shape(cfg, Ring(cfg, s)) && Shape(cfg, Update(cfg, s))
  {
  }

  lemma ReloadKeepsBound(weights: seq<Weights8>, before: seq<Row>, table: seq<Row>)
    requires |weights| == |table| == GROUPS && Bounded(before)
    requires forall g :: 0 <= g < GROUPS ==> Merged(weights[g], before[g], table[g])
    ensures Bounded(table)
  {
  }

  lemma RingKeepsWorld(cfg: Config, w: World)
    requires WorldShape(cfg, w)
    ensures WorldShape(cfg, Next(cfg, w, RingBell))
  {
    RingAndUpdateKeepShape(cfg, w.s);
  }

  lemma CountKeepsWorld(cfg: Config, w: World)
    requires WorldShape(cfg, w)
    ensures WorldShape(cfg, Next(cfg, w, Count))
  {
    RingAndUpdateKeepShape(cfg, w.s);
  }

  lemma NextKeepsShape(cfg: Config, w: World, a: Action)
    requires WorldShape(cfg, w)
    ensures WorldShape(cfg, Next(cfg, w, a))
  {
    if Enabled(cfg, w, a) {
      match a
      case Post(_, _) =>
      case PollLane0 => PollKeepsShape(cfg, w.s, w.mem);
      case PollLane1 => PollKeepsShape(cfg, w.s, w.mem);
      case Pick => ComputeKeepsShape(cfg, w.s);
      case RingBell => RingKeepsWorld(cfg, w);
      case Count => CountKeepsWorld(cfg, w);
      case RefreshMaps =>
      case Reload(weights, table, hard) => ReloadKeepsBound(weights, w.s.merge, table);
      case Serve(_) =>
    }
  }

  ghost function Run(cfg: Config, w: World, actions: seq<Action>): (r: World)
    requires WorldShape(cfg, w)
    ensures WorldShape(cfg, r)
    decreases |actions|
  {
    if actions == [] then w
    else
      var v := Run(cfg, w, actions[..|actions| - 1]);
      NextKeepsShape(cfg, v, actions[|actions| - 1]);
      Next(cfg, v, actions[|actions| - 1])
  }

  /** One pass of the dataflow with the stages in program order. */
  ghost function Pass(cfg: Config, s: State, mem: seq<Word>): (r: State)
    requires Shape(cfg, s) && |mem| == cfg.Slots() && forall i :: 0 <= i < |mem| ==> mem[i].hint < cfg.cores
    ensures Shape(cfg, r)
  {
    PollKeepsShape(cfg, s, mem);
    var s1 := Poll0(cfg, s, mem);
    PollKeepsShape(cfg, s1, mem);
    var s2 := Poll1(cfg, s1, mem);
    ComputeKeepsShape(cfg, s2);
    var s3 := Compute(cfg, s2);
    RingAndUpdateKeepShape(cfg, s3);
    var s4 := Ring(cfg, s3);
    RingAndUpdateKeepShape(cfg, s4);
    Update(cfg, s4)
  }

  lemma RunStep(cfg: Config, w: World, actions: seq<Action>, a: Action)
    requires WorldShape(cfg, w)
    ensures Run(cfg, w, actions + [a]) == Next(cfg, Run(cfg, w, actions), a)
  {
    assert (actions + [a])[..|actions|] == actions;
  }

  lemma AfterPoll0(cfg: Config, w: World)
    requires WorldShape(cfg, w)
    ensures var v := Run(cfg, w, [PollLane0]); v.s == Poll0(cfg, w.s, w.mem) && v.mem == w.mem
  {
    RunStep(cfg, w, [], PollLane0);
    assert [] + [PollLane0] == [PollLane0];
  }

  lemma AfterPoll1(cfg: Config, w: World, actions: seq<Action>)
    requires WorldShape(cfg, w)
    ensures var u, v := Run(cfg, w, actions), Run(cfg, w, actions + [PollLane1]);
            v.s == Poll1(cfg, u.s, u.mem) && v.mem == u.mem
  {
    RunStep(cfg, w, actions, PollLane1);
  }

  lemma AfterPick(cfg: Config, w: World, actions: seq<Action>)
    requires WorldShape(cfg, w)
    ensures var u, v := Run(cfg, w, actions), Run(cfg, w, actions + [Pick]); v.s == Compute(cfg, u.s)
  {
    RunStep(cfg, w, actions, Pick);
  }

  lemma AfterRing(cfg: Config, w: World, actions: seq<Action>)
    requires WorldShape(cfg, w)
    ensures var u, v := Run(cfg, w, actions), Run(cfg, w, actions + [RingBell]); v.s == Ring(cfg, u.s)
  {
    RunStep(cfg, w, actions, RingBell);
  }

  lemma AfterCount(cfg: Config, w: World, actions: seq<Action>)
    requires WorldShape(cfg, w)
    ensures var u, v := Run(cfg, w, actions), Run(cfg, w, actions + [Count]); v.s == Update(cfg, u.s)
  {
    RunStep(cfg, w, actions, Count);
  }

  lemma AfterPolls(cfg: Config, w: World)
    requires WorldShape(cfg, w)
    ensures Shape(cfg, Poll0(cfg, w.s, w.mem))
    ensures Run(cfg, w, [PollLane0] + [PollLane1]).s == Poll1(cfg, Poll0(cfg, w.s, w.mem), w.mem)
  {
    AfterPoll0(cfg, w);
    AfterPoll1(cfg, w, [PollLane0]);
  }

  lemma AfterChoice(cfg: Config, w: World, s: State, actions: seq<Action>)
    requires WorldShape(cfg, w) && Run(cfg, w, actions).s == s
    ensures Shape(cfg, Compute(cfg, s)) && Shape(cfg, Ring(cfg, Compute(cfg, s)))
    ensures Run(cfg, w, actions + [Pick] + [RingBell] + [Count]).s == Update(cfg, Ring(cfg, Compute(cfg, s)))
  {
    AfterPick(cfg, w, actions);
    AfterRing(cfg, w, actions + [Pick]);
    AfterCount(cfg, w, actions + [Pick] + [RingBell]);
  }

  /** A pass is the scheduler after a run of its five stages, so what holds of runs holds of passes. */
  lemma PassIsRun(cfg: Config, w: World)
    requires WorldShape(cfg, w)
    ensures Run(cfg, w, [PollLane0] + [PollLane1] + [Pick] + [RingBell] + [Count]).s == Pass(cfg, w.s, w.mem)
  {
    AfterPolls(cfg, w);
    AfterChoice(cfg, w, Poll1(cfg, Poll0(cfg, w.s, w.mem), w.mem), [PollLane0] + [PollLane1]);
  }

  // ------------------------------------------------------------ start-up

  function NoFeatures(): Features { seq(FEATURES, _ => false) }

  /** One counter starts at 1 per core: the feature with the core's own number. */
  function StartCount(c: nat, f: nat): nat { if c == f then 1 else 0 }

  ghost predicate Booted(cfg: Config, w: World) {
    && WorldShape(cfg, w)
    && (forall c, f :: 0 <= c < MAX_CORE && 0 <= f < FEATURES ==> w.s.clusters[c][f] == StartCount(c, f))
    && (forall i :: 0 <= i < cfg.Slots() ==>
          && w.s.oldCore[i] == cfg.cores && w.s.features[i] == NoFeatures() && w.s.seen[i] == 0
          && w.mem[i].toggle == 0 && w.posts[i] == [] && w.accepted[i] == [] && w.rung[i] == 0
          && w.rungOn[i] == [] && w.counted[i] == [] && w.applied[i] == NoFeatures())
    && w.s.pos0 == w.s.pos1 == 0
    && w.s.check0 == w.s.check1 == w.s.updates == [] && w.s.bells == []
    && (forall c :: 0 <= c < MAX_CORE ==> w.s.ringHead[c] == 0)
    && (forall c :: 0 <= c < cfg.cores ==> w.live[c] == [] && w.served[c] == 0)
  }

  function StartRow(c: nat): seq<nat> { seq(FEATURES, f requires 0 <= f => StartCount(c, f)) }

  function ZeroRow(): Row { seq(256, _ => 0) }

  /** The scheduler's globals after start-up, before the first poll. */
  function BootState(cfg: Config): State {
    State(seq(MAX_CORE, c requires 0 <= c => StartRow(c)),
          seq(cfg.Slots(), _ => cfg.cores), seq(cfg.Slots(), _ => NoFeatures()), seq(cfg.Slots(), _ => 0), 0, 0, 0,
          [], [], [], [], seq(MAX_CORE, _ => NoFeatures()), seq(FEATURES, _ => 0), seq(GROUPS, _ => ZeroRow()),
          seq(MAX_CORE, _ => 0), map[])
  }

  function BootWorld(cfg: Config): World {
    var n := cfg.Slots();
    World(BootState(cfg), seq(n, _ => Word(0, 0, NoFeatures())), seq(n, _ => []), seq(n, _ => []), seq(n, _ => 0),
          seq(n, _ => []), seq(n, _ => []), seq(n, _ => NoFeatures()), seq(cfg.cores, _ => []), seq(cfg.cores, _ => 0))
  }

  lemma BootWorldIsBooted(cfg: Config)
    requires cfg.Valid()
    ensures Booted(cfg, BootWorld(cfg))
  {
    assert forall m: Mask :: At(ZeroRow(), m) == 0;
  }
}
