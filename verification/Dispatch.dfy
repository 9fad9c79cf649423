/**
  Exactly-once dispatch. Clients flip the toggle with every post and post again
  only after the previous doorbell; then every post is accepted once and in
  order, polling an unchanged slot does nothing, what is accepted is either in
  a stream or rung, and the streams stay within their declared depths.
 */
module Dispatch {
  import opened Scoring
  import opened Pipeline

  const CHECK_DEPTH: nat := 96
  const BELL_DEPTH: nat := 192

  function SlotsOf(msgs: seq<Message>): seq<nat> {
    seq(|msgs|, i requires 0 <= i < |msgs| => msgs[i].slot)
  }

  function BellSlots(bells: seq<Bell>): seq<nat> {
    seq(|bells|, i requires 0 <= i < |bells| => bells[i].slot)
  }

  /** Slots of the accepted requests whose doorbell is still to come. */
  ghost function InFlight(s: State): multiset<nat> {
    multiset(SlotsOf(s.check0)) + multiset(SlotsOf(s.check1)) + multiset(BellSlots(s.bells))
  }

  /** The toggle after k posts. */
  function Toggle(k: nat): nat {
    if k % 2 == 0 then 0 else 0xFFFF
  }

  /** The books of one slot. */
  ghost predicate SlotOk(posts: seq<Request>, accepted: seq<Request>, rung: nat, flying: nat, seen: nat, mem: Word) {
    && rung + flying == |accepted| <= |posts| <= rung + 1
    && accepted <= posts
    && seen == Toggle(|accepted|) && mem.toggle == Toggle(|posts|)
    && (posts != [] ==> posts[|posts| - 1] == Request(mem.hint, mem.features))
  }

  /** A polled message is its slot's latest accepted request. */
  ghost predicate Carries(msgs: seq<Message>, accepted: seq<seq<Request>>) {
    forall j :: 0 <= j < |msgs| ==>
      msgs[j].slot < |accepted| && accepted[msgs[j].slot] != [] &&
      accepted[msgs[j].slot][|accepted[msgs[j].slot]| - 1] == Request(msgs[j].core, msgs[j].newFeatures)
  }

  ghost predicate Books(posts: seq<seq<Request>>, accepted: seq<seq<Request>>, rung: seq<nat>, flying: multiset<nat>,
                        seen: seq<nat>, mem: seq<Word>)
  {
    && |posts| == |accepted| == |rung| == |seen| == |mem|
    && forall i :: 0 <= i < |posts| ==> SlotOk(posts[i], accepted[i], rung[i], flying[i], seen[i], mem[i])
  }

  ghost predicate DispatchInv(cfg: Config, w: World) {
    && Books(w.posts, w.accepted, w.rung, InFlight(w.s), w.s.seen, w.mem)
    && Carries(w.s.check0, w.accepted) && Carries(w.s.check1, w.accepted)
  }

  // ------------------------------------------------------------ streams as multisets of slots

  lemma SlotsAppend(msgs: seq<Message>, m: Message)
    ensures multiset(SlotsOf(msgs + [m])) == multiset(SlotsOf(msgs)) + multiset{m.slot}
  {
    assert SlotsOf(msgs + [m]) == SlotsOf(msgs) + [m.slot];
  }

  lemma SlotsPop(msgs: seq<Message>)
    requires msgs != []
    ensures multiset(SlotsOf(msgs)) == multiset{msgs[0].slot} + multiset(SlotsOf(msgs[1..]))
  {
    assert SlotsOf(msgs) == [msgs[0].slot] + SlotsOf(msgs[1..]);
  }

  lemma BellsAppend(bells: seq<Bell>, b: Bell)
    ensures multiset(BellSlots(bells + [b])) == multiset(BellSlots(bells)) + multiset{b.slot}
  {
    assert BellSlots(bells + [b]) == BellSlots(bells) + [b.slot];
  }

  lemma BellsPop(bells: seq<Bell>)
    requires bells != []
    ensures multiset(BellSlots(bells)) == multiset{bells[0].slot} + multiset(BellSlots(bells[1..]))
  {
    assert BellSlots(bells) == [bells[0].slot] + BellSlots(bells[1..]);
  }

  lemma InFlightPoll(s: State, m: Message, s': State)
    requires s'.bells == s.bells
    requires (s'.check0 == s.check0 + [m] && s'.check1 == s.check1)
             || (s'.check0 == s.check0 && s'.check1 == s.check1 + [m])
    ensures InFlight(s') == InFlight(s) + multiset{m.slot}
  {
    SlotsAppend(s.check0, m);
    SlotsAppend(s.check1, m);
  }

  lemma InFlightRoute(s: State, b: Bell, s': State)
    requires s'.bells == s.bells + [b]
    requires (s.check0 != [] && b.slot == s.check0[0].slot && s'.check0 == s.check0[1..] && s'.check1 == s.check1) ||
             (s.check1 != [] && b.slot == s.check1[0].slot && s'.check0 == s.check0 && s'.check1 == s.check1[1..])
    ensures InFlight(s') == InFlight(s)
  {
    BellsAppend(s.bells, b);
    if s'.check0 != s.check0 {
      SlotsPop(s.check0);
    } else {
      SlotsPop(s.check1);
    }
  }

  lemma InFlightRing(s: State, s': State)
    requires s.bells != [] && s'.bells == s.bells[1..] && s'.check0 == s.check0 && s'.check1 == s.check1
    ensures InFlight(s) == InFlight(s') + multiset{s.bells[0].slot}
  {
    BellsPop(s.bells);
  }

  // ------------------------------------------------------------ one slot, one step

  lemma PostKeepsSlot(posts: seq<Request>, accepted: seq<Request>, rung: nat, flying: nat, seen: nat, mem: Word,
                      r: Request)
    requires SlotOk(posts, accepted, rung, flying, seen, mem) && |posts| == rung
    ensures SlotOk(posts + [r], accepted, rung, flying, seen, Word(0xFFFF - mem.toggle, r.hint, r.features))
  {
  }

  /** A poll accepts exactly when the latest post has not been accepted, and then nothing of the slot is in flight. */
  lemma PollDecides(posts: seq<Request>, accepted: seq<Request>, rung: nat, flying: nat, seen: nat, mem: Word)
    requires SlotOk(posts, accepted, rung, flying, seen, mem)
    ensures Fresh(mem.toggle, seen) <==> |posts| == |accepted| + 1
    ensures Fresh(mem.toggle, seen) ==> flying == 0
    ensures Fresh(mem.toggle, seen) ==>
              SlotOk(posts, accepted + [Request(mem.hint, mem.features)], rung, 1, mem.toggle, mem)
  {
    if Fresh(mem.toggle, seen) {
      assert posts == posts[..|accepted|] + [posts[|accepted|]];
    }
  }

  lemma BooksPost(posts: seq<seq<Request>>, accepted: seq<seq<Request>>, rung: seq<nat>, flying: multiset<nat>,
                  seen: seq<nat>, mem: seq<Word>, i: nat, r: Request)
    requires Books(posts, accepted, rung, flying, seen, mem) && i < |posts| && |posts[i]| == rung[i]
    ensures Books(posts[i := posts[i] + [r]], accepted, rung, flying, seen,
                  mem[i := Word(0xFFFF - mem[i].toggle, r.hint, r.features)])
  {
    PostKeepsSlot(posts[i], accepted[i], rung[i], flying[i], seen[i], mem[i], r);
  }

  lemma BooksAccept(posts: seq<seq<Request>>, accepted: seq<seq<Request>>, rung: seq<nat>, flying: multiset<nat>,
                    seen: seq<nat>, mem: seq<Word>, i: nat)
    requires Books(posts, accepted, rung, flying, seen, mem) && i < |posts| && Fresh(mem[i].toggle, seen[i])
    ensures i !in flying
    ensures Books(posts, accepted[i := accepted[i] + [Request(mem[i].hint, mem[i].features)]], rung,
                  flying + multiset{i}, seen[i := mem[i].toggle], mem)
  {
    PollDecides(posts[i], accepted[i], rung[i], flying[i], seen[i], mem[i]);
  }

  lemma BooksRing(posts: seq<seq<Request>>, accepted: seq<seq<Request>>, rung: seq<nat>, flying: multiset<nat>,
                  seen: seq<nat>, mem: seq<Word>, i: nat)
    requires Books(posts, accepted, rung, flying + multiset{i}, seen, mem) && i < |posts|
    ensures Books(posts, accepted, rung[i := rung[i] + 1], flying, seen, mem)
  {
    forall j | 0 <= j < |posts|
      ensures SlotOk(posts[j], accepted[j], rung[i := rung[i] + 1][j], flying[j], seen[j], mem[j])
    {
      assert SlotOk(posts[j], accepted[j], rung[j], (flying + multiset{i})[j], seen[j], mem[j]);
    }
  }

  lemma InStream(msgs: seq<Message>, j: nat)
    requires j < |msgs|
    ensures msgs[j].slot in multiset(SlotsOf(msgs))
  {
    assert SlotsOf(msgs)[j] == msgs[j].slot;
  }

  /** Accepting for a slot with nothing in flight leaves the other messages' requests latest. */
  lemma AcceptKeepsCarries(msgs: seq<Message>, accepted: seq<seq<Request>>, slot: nat, r: Request)
    requires Carries(msgs, accepted) && slot < |accepted| && slot !in multiset(SlotsOf(msgs))
    ensures Carries(msgs, accepted[slot := accepted[slot] + [r]])
  {
    forall j | 0 <= j < |msgs|
      ensures msgs[j].slot != slot
    {
      InStream(msgs, j);
    }
  }

  /** What either poll stage does when it accepts slot i. */
  ghost predicate Accepting(w: World, i: nat, w': World) {
    && |w.s.features| == |w.s.seen| == |w.posts| == |w.mem| == |w.accepted| && i < |w.posts|
    && Fresh(w.mem[i].toggle, w.s.seen[i])
    && var m := PollMessage(w.s, i, w.mem[i]);
    && ((w'.s.check0 == w.s.check0 + [m] && w'.s.check1 == w.s.check1) ||
        (w'.s.check0 == w.s.check0 && w'.s.check1 == w.s.check1 + [m]))
    && w'.s.bells == w.s.bells && w'.s.seen == w.s.seen[i := w.mem[i].toggle]
    && w'.accepted == Accepted(w.accepted, i, w.mem[i], true)
    && w'.posts == w.posts && w'.rung == w.rung && w'.mem == w.mem
  }

  lemma AcceptKeepsStreams(w: World, i: nat, w': World)
    requires Accepting(w, i, w') && i !in InFlight(w.s)
    requires Carries(w.s.check0, w.accepted) && Carries(w.s.check1, w.accepted)
    ensures Carries(w'.s.check0, w'.accepted) && Carries(w'.s.check1, w'.accepted)
  {
    var r := Request(w.mem[i].hint, w.mem[i].features);
    AcceptKeepsCarries(w.s.check0, w.accepted, i, r);
    AcceptKeepsCarries(w.s.check1, w.accepted, i, r);
  }

  lemma AcceptKeeps(cfg: Config, w: World, i: nat, w': World)
    requires DispatchInv(cfg, w) && Accepting(w, i, w')
    ensures DispatchInv(cfg, w')
  {
    BooksAccept(w.posts, w.accepted, w.rung, InFlight(w.s), w.s.seen, w.mem, i);
    InFlightPoll(w.s, PollMessage(w.s, i, w.mem[i]), w'.s);
    AcceptKeepsStreams(w, i, w');
  }

  ghost predicate Idle0(cfg: Config, w: World, w': World) { w' == w.(s := w.s.(pos0 := Cycle(w.s.pos0, cfg.lane))) }
  ghost predicate Idle1(cfg: Config, w: World, w': World) { w' == w.(s := w.s.(pos1 := Cycle(w.s.pos1, cfg.lane))) }

  lemma Poll0Cases(cfg: Config, w: World)
    requires WorldShape(cfg, w)
    ensures var i := w.s.pos0;
            if Fresh(w.mem[i].toggle, w.s.seen[i]) then Accepting(w, i, Next(cfg, w, PollLane0))
            else Idle0(cfg, w, Next(cfg, w, PollLane0))
  {
  }

  lemma Poll1Cases(cfg: Config, w: World)
    requires WorldShape(cfg, w)
    ensures var i := w.s.pos1 + cfg.lane;
            if Fresh(w.mem[i].toggle, w.s.seen[i]) then Accepting(w, i, Next(cfg, w, PollLane1))
            else Idle1(cfg, w, Next(cfg, w, PollLane1))
  {
  }

  lemma PollsKeep(cfg: Config, w: World, i: nat, w': World)
    requires DispatchInv(cfg, w)
    requires Accepting(w, i, w') || Idle0(cfg, w, w') || Idle1(cfg, w, w')
    ensures DispatchInv(cfg, w')
  {
    if Accepting(w, i, w') {
      AcceptKeeps(cfg, w, i, w');
    }
  }

  lemma Poll0Keeps(cfg: Config, w: World)
    requires WorldShape(cfg, w) && DispatchInv(cfg, w)
    ensures DispatchInv(cfg, Next(cfg, w, PollLane0))
  {
    Poll0Cases(cfg, w);
    PollsKeep(cfg, w, w.s.pos0, Next(cfg, w, PollLane0));
  }

  lemma Poll1Keeps(cfg: Config, w: World)
    requires WorldShape(cfg, w) && DispatchInv(cfg, w)
    ensures DispatchInv(cfg, Next(cfg, w, PollLane1))
  {
    Poll1Cases(cfg, w);
    PollsKeep(cfg, w, w.s.pos1 + cfg.lane, Next(cfg, w, PollLane1));
  }

  /** What the pick stage does to the streams the books depend on. */
  ghost predicate Routing(s: State, s': State) {
    && s'.seen == s.seen
    && (|| (s'.check0 == s.check0 && s'.check1 == s.check1 && s'.bells == s.bells)
        || (s.check0 != [] && s'.check0 == s.check0[1..] && s'.check1 == s.check1 &&
            exists core :: s'.bells == s.bells + [Bell(s.check0[0].slot, core)])
        || (s.check1 != [] && s'.check1 == s.check1[1..] && s'.check0 == s.check0 &&
            exists core :: s'.bells == s.bells + [Bell(s.check1[0].slot, core)]))
  }

  lemma PickCases(cfg: Config, s: State)
    requires Shape(cfg, s)
    ensures Routing(s, Compute(cfg, s))
  {
    var s' := Compute(cfg, s);
    if s.selector == 0 && s.check0 != [] {
      assert s'.bells == s.bells + [Bell(s.check0[0].slot, CoreFor(cfg, s, s.check0[0]))];
    } else if s.selector != 0 && s.check1 != [] {
      assert s'.bells == s.bells + [Bell(s.check1[0].slot, CoreFor(cfg, s, s.check1[0]))];
    }
  }

  lemma RoutingKeepsFlying(s: State, s': State)
    requires Routing(s, s')
    ensures InFlight(s') == InFlight(s)
  {
    if s'.bells != s.bells {
      if core :| s.check0 != [] && s'.check0 == s.check0[1..] && s'.check1 == s.check1 &&
                 s'.bells == s.bells + [Bell(s.check0[0].slot, core)] {
        InFlightRoute(s, Bell(s.check0[0].slot, core), s');
      } else {
        var core :| s'.bells == s.bells + [Bell(s.check1[0].slot, core)];
        InFlightRoute(s, Bell(s.check1[0].slot, core), s');
      }
    }
  }

  lemma CarriesTail(msgs: seq<Message>, accepted: seq<seq<Request>>)
    requires Carries(msgs, accepted)
    ensures msgs != [] ==> Carries(msgs[1..], accepted)
  {
  }

  lemma RoutingKeeps(cfg: Config, w: World, s': State)
    requires DispatchInv(cfg, w) && Routing(w.s, s')
    ensures DispatchInv(cfg, w.(s := s'))
  {
    RoutingKeepsFlying(w.s, s');
    CarriesTail(w.s.check0, w.accepted);
    CarriesTail(w.s.check1, w.accepted);
  }

  lemma RingKeeps(cfg: Config, w: World)
    requires WorldShape(cfg, w) && DispatchInv(cfg, w)
    ensures DispatchInv(cfg, Next(cfg, w, RingBell))
  {
    if w.s.bells != [] {
      InFlightRing(w.s, Ring(cfg, w.s));
      BooksRing(w.posts, w.accepted, w.rung, InFlight(Ring(cfg, w.s)), w.s.seen, w.mem, w.s.bells[0].slot);
    }
  }

  lemma NextKeeps(cfg: Config, w: World, a: Action)
    requires WorldShape(cfg, w) && DispatchInv(cfg, w)
    ensures DispatchInv(cfg, Next(cfg, w, a))
  {
    if Enabled(cfg, w, a) {
      match a
      case Post(slot, r) => BooksPost(w.posts, w.accepted, w.rung, InFlight(w.s), w.s.seen, w.mem, slot, r);
      case PollLane0 => Poll0Keeps(cfg, w);
      case PollLane1 => Poll1Keeps(cfg, w);
      case Pick =>
        PickCases(cfg, w.s);
        RoutingKeeps(cfg, w, Compute(cfg, w.s));
      case RingBell => RingKeeps(cfg, w);
      case _ =>
    }
  }

  lemma {:induction false} RunKeeps(cfg: Config, w: World, actions: seq<Action>)
    requires Booted(cfg, w)
    ensures DispatchInv(cfg, Run(cfg, w, actions))
    decreases |actions|
  {
    if actions != [] {
      var v := Run(cfg, w, actions[..|actions| - 1]);
      RunKeeps(cfg, w, actions[..|actions| - 1]);
      NextKeepsShape(cfg, v, actions[|actions| - 1]);
      NextKeeps(cfg, v, actions[|actions| - 1]);
    }
  }

  // ------------------------------------------------------------ depths

  ghost predicate Distinct(xs: seq<nat>) {
    forall i, j :: 0 <= i < j < |xs| ==> xs[i] != xs[j]
  }

  lemma {:induction false} OnceEachIsDistinct(xs: seq<nat>)
    requires forall v :: multiset(xs)[v] <= 1
    ensures Distinct(xs)
  {
    if xs != [] {
      var ys, x := xs[..|xs| - 1], xs[|xs| - 1];
      assert xs == ys + [x];
      var all, some := multiset(xs), multiset(ys);
      assert all == some + multiset{x};
      assert forall v :: some[v] <= all[v];
      assert x !in some;
      OnceEachIsDistinct(ys);
    }
  }

  /** Distinct numbers between low and high are no more than that range holds. */
  lemma {:induction false} DistinctFit(xs: seq<nat>, low: nat, high: nat)
    requires low <= high && Distinct(xs) && forall i :: 0 <= i < |xs| ==> low <= xs[i] < high
    ensures |xs| <= high - low
    decreases high - low
  {
    if xs != [] {
      assert low <= xs[0] < high;
      if i :| 0 <= i < |xs| && xs[i] == high - 1 {
        DistinctFit(xs[..i] + xs[i + 1..], low, high - 1);
      } else {
        DistinctFit(xs, low, high - 1);
      }
    }
  }

  lemma OnceEachFit(xs: seq<nat>, low: nat, high: nat)
    requires low <= high && forall i :: 0 <= i < |xs| ==> low <= xs[i] < high
    requires forall v :: multiset(xs)[v] <= 1
    ensures |xs| <= high - low
  {
    OnceEachIsDistinct(xs);
    DistinctFit(xs, low, high);
  }

  lemma OneInFlight(cfg: Config, w: World, v: nat)
    requires WorldShape(cfg, w) && DispatchInv(cfg, w)
    ensures InFlight(w.s)[v] <= 1
  {
    if v < cfg.Slots() {
      assert SlotOk(w.posts[v], w.accepted[v], w.rung[v], InFlight(w.s)[v], w.s.seen[v], w.mem[v]);
    } else {
      assert v !in SlotsOf(w.s.check0) && v !in SlotsOf(w.s.check1) && v !in BellSlots(w.s.bells);
    }
  }

  lemma PartsOnce(a: multiset<nat>, b: multiset<nat>, c: multiset<nat>)
    requires forall v :: (a + b + c)[v] <= 1
    ensures forall v :: a[v] <= 1 && b[v] <= 1 && c[v] <= 1
  {
    assert forall v :: (a + b + c)[v] == a[v] + b[v] + c[v];
  }

  lemma DepthsHold(cfg: Config, w: World)
    requires WorldShape(cfg, w) && DispatchInv(cfg, w)
    ensures |w.s.check0| <= CHECK_DEPTH && |w.s.check1| <= CHECK_DEPTH && |w.s.bells| <= BELL_DEPTH
  {
    var a, b, c := SlotsOf(w.s.check0), SlotsOf(w.s.check1), BellSlots(w.s.bells);
    forall v: nat
      ensures InFlight(w.s)[v] <= 1
    {
      OneInFlight(cfg, w, v);
    }
    PartsOnce(multiset(a), multiset(b), multiset(c));
    OnceEachFit(a, 0, cfg.lane);
    OnceEachFit(b, cfg.lane, cfg.Slots());
    OnceEachFit(c, 0, cfg.Slots());
  }

  // ------------------------------------------------------------ every run

  /**
    In every reachable state and for every slot: the accepted requests are the
    posts, in order and each once, up to at most the latest; accepted = in
    flight + rung; a poll accepts if and only if the latest post is not yet
    accepted; and no stream exceeds its declared depth.
   */
  lemma ExactlyOnce(cfg: Config, w: World, actions: seq<Action>)
    requires Booted(cfg, w)
    ensures var v := Run(cfg, w, actions);
            && (forall i :: 0 <= i < cfg.Slots() ==>
                  && v.accepted[i] <= v.posts[i] && |v.posts[i]| - 1 <= |v.accepted[i]|
                  && |v.accepted[i]| == v.rung[i] + InFlight(v.s)[i]
                  && (Fresh(v.mem[i].toggle, v.s.seen[i]) <==> |v.posts[i]| == |v.accepted[i]| + 1))
            && Carries(v.s.check0, v.accepted) && Carries(v.s.check1, v.accepted)
            && |v.s.check0| <= CHECK_DEPTH && |v.s.check1| <= CHECK_DEPTH && |v.s.bells| <= BELL_DEPTH
  {
    RunKeeps(cfg, w, actions);
    var v := Run(cfg, w, actions);
    DepthsHold(cfg, v);
    forall i | 0 <= i < cfg.Slots()
      ensures v.accepted[i] <= v.posts[i] && |v.posts[i]| - 1 <= |v.accepted[i]|
      ensures |v.accepted[i]| == v.rung[i] + InFlight(v.s)[i]
      ensures Fresh(v.mem[i].toggle, v.s.seen[i]) <==> |v.posts[i]| == |v.accepted[i]| + 1
    {
      assert SlotOk(v.posts[i], v.accepted[i], v.rung[i], InFlight(v.s)[i], v.s.seen[i], v.mem[i]);
      PollDecides(v.posts[i], v.accepted[i], v.rung[i], InFlight(v.s)[i], v.s.seen[i], v.mem[i]);
    }
  }

  /** Polling a slot whose posts have all been accepted only moves the poll position. */
  lemma RepollDoesNothing(cfg: Config, v: World)
    requires WorldShape(cfg, v) && DispatchInv(cfg, v)
    ensures |v.posts[v.s.pos0]| == |v.accepted[v.s.pos0]| ==>
              Idle0(cfg, v, Next(cfg, v, PollLane0))
    ensures |v.posts[v.s.pos1 + cfg.lane]| == |v.accepted[v.s.pos1 + cfg.lane]| ==>
              Idle1(cfg, v, Next(cfg, v, PollLane1))
  {
    Poll0Cases(cfg, v);
    Poll1Cases(cfg, v);
    NotFresh(cfg, v, v.s.pos0);
    NotFresh(cfg, v, v.s.pos1 + cfg.lane);
  }

  lemma NotFresh(cfg: Config, v: World, i: nat)
    requires DispatchInv(cfg, v) && i < |v.posts|
    ensures |v.posts[i]| == |v.accepted[i]| ==> !Fresh(v.mem[i].toggle, v.s.seen[i])
  {
    PollDecides(v.posts[i], v.accepted[i], v.rung[i], InFlight(v.s)[i], v.s.seen[i], v.mem[i]);
  }
}
