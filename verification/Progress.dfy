/**
  Nothing is forgotten: the poll stages visit every slot of their lane in turn, so
  an open post is accepted; the pick stage empties both of its streams, so an
  accepted request gets its doorbell.
 */
module Progress {
  import opened Division
  import opened Scoring
  import opened Pipeline
  import opened Dispatch

  /** How often action a is in the list. */
  ghost function Times(actions: seq<Action>, a: Action): nat {
    if actions == [] then 0
    else Times(actions[..|actions| - 1], a) + if actions[|actions| - 1] == a then 1 else 0
  }

  function LanePoll(cfg: Config, i: nat): Action { if i < cfg.lane then PollLane0 else PollLane1 }

  // ------------------------------------------------------------ poll positions

  lemma PollMoves(cfg: Config, w: World, a: Action)
    requires WorldShape(cfg, w)
    ensures Next(cfg, w, a).s.pos0 == if a.PollLane0? then Cycle(w.s.pos0, cfg.lane) else w.s.pos0
    ensures Next(cfg, w, a).s.pos1 == if a.PollLane1? then Cycle(w.s.pos1, cfg.lane) else w.s.pos1
  {
  }

  function PosAfter(polls: nat, lane: nat): nat
    requires lane > 0
  {
    polls % lane
  }

  lemma PosMoves(polls: nat, lane: nat)
    requires lane > 0
    ensures PosAfter(0, lane) == 0 && PosAfter(polls + 1, lane) == Cycle(PosAfter(polls, lane), lane)
  {
    Residue(0, 0, 0, lane);
    ModNext(polls, lane);
  }

  lemma TimesGrows(actions: seq<Action>, a: Action)
    requires actions != []
    ensures var front, last := actions[..|actions| - 1], actions[|actions| - 1];
            Times(actions, a) == if last == a then Times(front, a) + 1 else Times(front, a)
  {
  }

  /** In every run each poll stage stands where its number of polls has brought it, modulo the lane. */
  lemma {:induction false} PollPositions(cfg: Config, w: World, actions: seq<Action>)
    requires Booted(cfg, w)
    ensures var v := Run(cfg, w, actions);
            && v.s.pos0 == PosAfter(Times(actions, PollLane0), cfg.lane)
            && v.s.pos1 == PosAfter(Times(actions, PollLane1), cfg.lane)
    decreases |actions|
  {
    if actions == [] {
      PosMoves(0, cfg.lane);
    } else {
      var front := actions[..|actions| - 1];
      PollPositions(cfg, w, front);
      PollMoves(cfg, Run(cfg, w, front), actions[|actions| - 1]);
      TimesGrows(actions, PollLane0);
      TimesGrows(actions, PollLane1);
      PosMoves(Times(front, PollLane0), cfg.lane);
      PosMoves(Times(front, PollLane1), cfg.lane);
    }
  }

  // ------------------------------------------------------------ open posts

  function Position(cfg: Config, s: State, i: nat): nat { if i < cfg.lane then s.pos0 else s.pos1 + cfg.lane }

  /** Polls of its lane before the stage comes to slot i. */
  function Distance(cfg: Config, s: State, i: nat): int {
    var p := Position(cfg, s, i); if p <= i then i - p else i + cfg.lane - p
  }

  ghost predicate Open(w: World, i: nat)
    requires i < |w.posts| == |w.accepted|
  {
    |w.accepted[i]| < |w.posts[i]|
  }

  lemma OpenIsFresh(cfg: Config, w: World, i: nat)
    requires DispatchInv(cfg, w) && i < |w.posts| && Open(w, i)
    ensures Fresh(w.mem[i].toggle, w.s.seen[i]) && |w.posts[i]| == |w.accepted[i]| + 1
  {
    assert SlotOk(w.posts[i], w.accepted[i], w.rung[i], InFlight(w.s)[i], w.s.seen[i], w.mem[i]);
    PollDecides(w.posts[i], w.accepted[i], w.rung[i], InFlight(w.s)[i], w.s.seen[i], w.mem[i]);
  }

  /** What a poll of the slot at p does to slot i. */
  lemma PollAt(w: World, w': World, p: nat, i: nat)
    requires |w.posts| == |w.accepted| == |w.mem| == |w.s.seen| && p < |w.posts| && i < |w.posts|
    requires if Fresh(w.mem[p].toggle, w.s.seen[p]) then Accepting(w, p, w')
             else w'.posts == w.posts && w'.accepted == w.accepted
    ensures |w'.posts| == |w'.accepted| == |w.posts| && w'.posts[i] == w.posts[i]
    ensures w'.accepted[i] == if i == p && Fresh(w.mem[p].toggle, w.s.seen[p])
                              then w.accepted[i] + [Request(w.mem[i].hint, w.mem[i].features)] else w.accepted[i]
  {
  }

  lemma DistanceMoves(cfg: Config, s: State, s': State, i: nat)
    requires 0 < cfg.lane && s.pos0 < cfg.lane && s.pos1 < cfg.lane && i < 2 * cfg.lane
    requires if i < cfg.lane then s'.pos0 == Cycle(s.pos0, cfg.lane) else s'.pos1 == Cycle(s.pos1, cfg.lane)
    ensures Distance(cfg, s, i) == 0 <==> Position(cfg, s, i) == i
    ensures Distance(cfg, s, i) != 0 ==> Distance(cfg, s', i) == Distance(cfg, s, i) - 1
  {
  }

  /** After a poll at p the post of slot i is accepted if p was its position, and else one poll closer. */
  ghost predicate Polled(cfg: Config, w: World, w': World, i: nat)
    requires i < |w.posts| == |w.accepted|
  {
    && i < |w'.posts| == |w'.accepted| && w'.posts[i] == w.posts[i]
    && if Distance(cfg, w.s, i) == 0 then |w'.accepted[i]| == |w.posts[i]|
       else w'.accepted[i] == w.accepted[i] && Distance(cfg, w'.s, i) == Distance(cfg, w.s, i) - 1
  }

  /** The test holds for an open post, so the poll at its position accepts it. */
  lemma PolledFrom(cfg: Config, w: World, w': World, i: nat)
    requires cfg.Valid() && w.s.pos0 < cfg.lane && w.s.pos1 < cfg.lane && i < cfg.Slots()
    requires i < |w.posts| == |w.accepted| && |w.posts[i]| == |w.accepted[i]| + 1
    requires if i < cfg.lane then w'.s.pos0 == Cycle(w.s.pos0, cfg.lane) else w'.s.pos1 == Cycle(w.s.pos1, cfg.lane)
    requires i < |w'.posts| == |w'.accepted| && w'.posts[i] == w.posts[i]
    requires if i == Position(cfg, w.s, i) then |w'.accepted[i]| == |w.accepted[i]| + 1
             else w'.accepted[i] == w.accepted[i]
    ensures Polled(cfg, w, w', i)
  {
    DistanceMoves(cfg, w.s, w'.s, i);
  }

  lemma Poll0At(cfg: Config, w: World, i: nat)
    requires WorldShape(cfg, w) && i < cfg.Slots()
    ensures var w', p := Next(cfg, w, PollLane0), w.s.pos0;
            && |w'.posts| == |w'.accepted| == cfg.Slots() && w'.posts[i] == w.posts[i]
            && w'.accepted[i] == if i == p && Fresh(w.mem[p].toggle, w.s.seen[p])
                                 then w.accepted[i] + [Request(w.mem[i].hint, w.mem[i].features)] else w.accepted[i]
  {
    Poll0Cases(cfg, w);
    PollAt(w, Next(cfg, w, PollLane0), w.s.pos0, i);
  }

  lemma Poll0ComesCloser(cfg: Config, w: World, i: nat)
    requires WorldShape(cfg, w) && DispatchInv(cfg, w) && i < cfg.lane && Open(w, i)
    ensures Polled(cfg, w, Next(cfg, w, PollLane0), i)
  {
    PollMoves(cfg, w, PollLane0);
    OpenIsFresh(cfg, w, i);
    Poll0At(cfg, w, i);
    PolledFrom(cfg, w, Next(cfg, w, PollLane0), i);
  }

  lemma Poll1At(cfg: Config, w: World, i: nat)
    requires WorldShape(cfg, w) && i < cfg.Slots()
    ensures var w', p := Next(cfg, w, PollLane1), w.s.pos1 + cfg.lane;
            && |w'.posts| == |w'.accepted| == cfg.Slots() && w'.posts[i] == w.posts[i]
            && w'.accepted[i] == if i == p && Fresh(w.mem[p].toggle, w.s.seen[p])
                                 then w.accepted[i] + [Request(w.mem[i].hint, w.mem[i].features)] else w.accepted[i]
  {
    Poll1Cases(cfg, w);
    PollAt(w, Next(cfg, w, PollLane1), w.s.pos1 + cfg.lane, i);
  }

  lemma Poll1ComesCloser(cfg: Config, w: World, i: nat)
    requires WorldShape(cfg, w) && DispatchInv(cfg, w) && cfg.lane <= i < cfg.Slots() && Open(w, i)
    ensures Polled(cfg, w, Next(cfg, w, PollLane1), i)
  {
    PollMoves(cfg, w, PollLane1);
    OpenIsFresh(cfg, w, i);
    Poll1At(cfg, w, i);
    PolledFrom(cfg, w, Next(cfg, w, PollLane1), i);
  }

  /** An open post stays as it is until the stage of its lane comes by, and is accepted then. */
  lemma PollComesCloser(cfg: Config, w: World, i: nat)
    requires WorldShape(cfg, w) && DispatchInv(cfg, w) && i < cfg.Slots() && Open(w, i)
    ensures Polled(cfg, w, Next(cfg, w, LanePoll(cfg, i)), i)
  {
    if i < cfg.lane {
      Poll0ComesCloser(cfg, w, i);
    } else {
      Poll1ComesCloser(cfg, w, i);
    }
  }

  lemma OthersLeaveOpen(cfg: Config, w: World, a: Action, i: nat)
    requires WorldShape(cfg, w) && DispatchInv(cfg, w) && i < cfg.Slots() && Open(w, i) && a != LanePoll(cfg, i)
    ensures var w' := Next(cfg, w, a);
            && w'.posts[i] == w.posts[i] && w'.accepted[i] == w.accepted[i]
            && Distance(cfg, w'.s, i) == Distance(cfg, w.s, i)
  {
    PollMoves(cfg, w, a);
    assert SlotOk(w.posts[i], w.accepted[i], w.rung[i], InFlight(w.s)[i], w.s.seen[i], w.mem[i]);
  }

  lemma AcceptedGrows(cfg: Config, w: World, a: Action, i: nat)
    requires WorldShape(cfg, w) && i < cfg.Slots()
    ensures |w.accepted[i]| <= |Next(cfg, w, a).accepted[i]| && w.posts[i] <= Next(cfg, w, a).posts[i]
  {
  }

  lemma {:induction false} RunKeepsFrom(cfg: Config, v: World, more: seq<Action>)
    requires WorldShape(cfg, v) && DispatchInv(cfg, v)
    ensures DispatchInv(cfg, Run(cfg, v, more))
    decreases |more|
  {
    if more != [] {
      RunKeepsFrom(cfg, v, more[..|more| - 1]);
      Dispatch.NextKeeps(cfg, Run(cfg, v, more[..|more| - 1]), more[|more| - 1]);
    }
  }

  /** Either accepted, or as many polls closer as there were. */
  ghost predicate Nearer(cfg: Config, v: World, u: World, i: nat, polls: nat)
    requires i < |v.posts| == |v.accepted| && i < |u.posts| == |u.accepted|
  {
    || |v.posts[i]| <= |u.accepted[i]|
    || (&& u.posts[i] == v.posts[i] && u.accepted[i] == v.accepted[i]
        && Distance(cfg, u.s, i) == Distance(cfg, v.s, i) - polls)
  }

  lemma {:induction false} RunComesCloser(cfg: Config, v: World, more: seq<Action>, i: nat)
    requires WorldShape(cfg, v) && DispatchInv(cfg, v) && i < cfg.Slots() && Open(v, i)
    ensures Nearer(cfg, v, Run(cfg, v, more), i, Times(more, LanePoll(cfg, i)))
    decreases |more|
  {
    if more != [] {
      var front, a := more[..|more| - 1], more[|more| - 1];
      var u := Run(cfg, v, front);
      RunComesCloser(cfg, v, front, i);
      RunKeepsFrom(cfg, v, front);
      NextKeepsShape(cfg, u, a);
      if |v.posts[i]| <= |u.accepted[i]| {
        AcceptedGrows(cfg, u, a, i);
      } else if a == LanePoll(cfg, i) {
        PollComesCloser(cfg, u, i);
      } else {
        OthersLeaveOpen(cfg, u, a, i);
      }
    }
  }

  /**
    In every run, whatever else happens, an open post is accepted by the time the
    stage of its lane has polled as often as the lane has slots.
   */
  lemma PostIsAccepted(cfg: Config, w: World, actions: seq<Action>, more: seq<Action>, i: nat)
    requires Booted(cfg, w) && i < cfg.Slots() && Open(Run(cfg, w, actions), i)
    requires Times(more, LanePoll(cfg, i)) >= cfg.lane
    ensures var v := Run(cfg, w, actions);
            var u := Run(cfg, v, more);
            |v.posts[i]| <= |u.accepted[i]| && u.accepted[i][|v.posts[i]| - 1] == v.posts[i][|v.posts[i]| - 1]
  {
    var v := Run(cfg, w, actions);
    var u := Run(cfg, v, more);
    Dispatch.RunKeeps(cfg, w, actions);
    RunComesCloser(cfg, v, more, i);
    RunKeepsFrom(cfg, v, more);
    PostsStay(cfg, v, more, i);
    assert SlotOk(u.posts[i], u.accepted[i], u.rung[i], InFlight(u.s)[i], u.s.seen[i], u.mem[i]);
  }

  lemma {:induction false} PostsStay(cfg: Config, v: World, more: seq<Action>, i: nat)
    requires WorldShape(cfg, v) && i < cfg.Slots()
    ensures var u := Run(cfg, v, more); v.posts[i] <= u.posts[i] && |v.accepted[i]| <= |u.accepted[i]|
    decreases |more|
  {
    if more != [] {
      PostsStay(cfg, v, more[..|more| - 1], i);
      AcceptedGrows(cfg, Run(cfg, v, more[..|more| - 1]), more[|more| - 1], i);
    }
  }

  // ------------------------------------------------------------ picking and ringing

  /** Picks until both check streams are empty: one per message and at most one to change streams. */
  function PicksNeeded(s: State): nat {
    var here, there := if s.selector == 0 then s.check0 else s.check1, if s.selector == 0 then s.check1 else s.check0;
    |here| + |there| + if there == [] then 0 else 1
  }

  lemma PickComesCloser(cfg: Config, s: State)
    requires Shape(cfg, s)
    ensures PicksNeeded(Compute(cfg, s)) == if PicksNeeded(s) == 0 then 0 else PicksNeeded(s) - 1
    ensures |Compute(cfg, s).check0| + |Compute(cfg, s).check1| <= |s.check0| + |s.check1|
    ensures s.check0 == s.check1 == [] ==> Compute(cfg, s).bells == s.bells
  {
  }

  ghost predicate NoPolls(more: seq<Action>) {
    forall i :: 0 <= i < |more| ==> !more[i].PollLane0? && !more[i].PollLane1?
  }

  lemma OthersLeaveChecks(cfg: Config, w: World, a: Action)
    requires WorldShape(cfg, w) && !a.PollLane0? && !a.PollLane1? && !a.Pick?
    ensures var s' := Next(cfg, w, a).s;
            && s'.check0 == w.s.check0 && s'.check1 == w.s.check1 && s'.selector == w.s.selector
            && s'.bells == if a.RingBell? && w.s.bells != [] then w.s.bells[1..] else w.s.bells
  {
  }

  lemma {:induction false} PicksDrain(cfg: Config, v: World, more: seq<Action>)
    requires WorldShape(cfg, v) && NoPolls(more)
    ensures var need, got := PicksNeeded(v.s), Times(more, Pick);
            PicksNeeded(Run(cfg, v, more).s) == if got <= need then need - got else 0
    decreases |more|
  {
    if more != [] {
      var u, a := Run(cfg, v, more[..|more| - 1]), more[|more| - 1];
      PicksDrain(cfg, v, more[..|more| - 1]);
      if a.Pick? {
        PickComesCloser(cfg, u.s);
      } else {
        OthersLeaveChecks(cfg, u, a);
      }
    }
  }

  lemma {:induction false} BellsDrain(cfg: Config, v: World, more: seq<Action>)
    requires WorldShape(cfg, v) && NoPolls(more) && v.s.check0 == v.s.check1 == []
    ensures var u, rings := Run(cfg, v, more), Times(more, RingBell);
            && u.s.check0 == u.s.check1 == []
            && |u.s.bells| == if rings <= |v.s.bells| then |v.s.bells| - rings else 0
    decreases |more|
  {
    if more != [] {
      var u, a := Run(cfg, v, more[..|more| - 1]), more[|more| - 1];
      BellsDrain(cfg, v, more[..|more| - 1]);
      if a.Pick? {
        PickComesCloser(cfg, u.s);
      } else {
        OthersLeaveChecks(cfg, u, a);
      }
    }
  }

  lemma NoneInFlight(cfg: Config, u: World, i: nat)
    requires WorldShape(cfg, u) && DispatchInv(cfg, u) && i < cfg.Slots()
    requires u.s.check0 == u.s.check1 == [] && u.s.bells == []
    ensures u.rung[i] == |u.accepted[i]|
  {
    assert SlotOk(u.posts[i], u.accepted[i], u.rung[i], InFlight(u.s)[i], u.s.seen[i], u.mem[i]);
    assert SlotsOf(u.s.check0) == [] && SlotsOf(u.s.check1) == [] && BellSlots(u.s.bells) == [];
  }

  /** With enough picks and then enough rings, and no polls, everything accepted has been rung. */
  lemma AcceptedIsRung(cfg: Config, v: World, picks: seq<Action>, rings: seq<Action>, i: nat)
    requires WorldShape(cfg, v) && DispatchInv(cfg, v) && i < cfg.Slots() && NoPolls(picks) && NoPolls(rings)
    requires Times(picks, Pick) > |v.s.check0| + |v.s.check1|
    requires Times(rings, RingBell) >= |Run(cfg, v, picks).s.bells|
    ensures Run(cfg, Run(cfg, v, picks), rings).rung[i] >= |v.accepted[i]|
  {
    var u := Run(cfg, v, picks);
    RunKeepsFrom(cfg, v, picks);
    RunKeepsFrom(cfg, u, rings);
    PicksDrain(cfg, v, picks);
    BellsDrain(cfg, u, rings);
    PostsStay(cfg, v, picks, i);
    PostsStay(cfg, u, rings, i);
    NoneInFlight(cfg, Run(cfg, u, rings), i);
  }

  /**
    Every post gets its doorbell: enough polls of its lane, then enough picks, then
    enough rings, with anything but polls in between, and it has been rung.
   */
  lemma PostIsRung(cfg: Config, w: World, actions: seq<Action>, polls: seq<Action>, picks: seq<Action>,
                   rings: seq<Action>, i: nat)
    requires Booted(cfg, w) && i < cfg.Slots() && Times(polls, LanePoll(cfg, i)) >= cfg.lane
    requires NoPolls(picks) && NoPolls(rings)
    requires var u := Run(cfg, Run(cfg, w, actions), polls);
             Times(picks, Pick) > |u.s.check0| + |u.s.check1| && Times(rings, RingBell) >= |Run(cfg, u, picks).s.bells|
    ensures var v := Run(cfg, w, actions);
            Run(cfg, Run(cfg, Run(cfg, v, polls), picks), rings).rung[i] >= |v.posts[i]|
  {
    var v := Run(cfg, w, actions);
    Dispatch.RunKeeps(cfg, w, actions);
    RunKeepsFrom(cfg, v, polls);
    PostsStay(cfg, v, polls, i);
    if Open(v, i) {
      PostIsAccepted(cfg, w, actions, polls, i);
    }
    AcceptedIsRung(cfg, Run(cfg, v, polls), picks, rings, i);
  }
}
