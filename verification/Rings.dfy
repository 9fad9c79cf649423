/**
  The doorbell rings. Where each doorbell is written, that the rings of two
  cores never share a word, and that no entry is overwritten before its worker
  has read it, given clients that wait for their request to be served.
 */
module Rings {
  import opened Division
  import opened Scoring
  import opened Pipeline
  import Dispatch

  // ------------------------------------------------------------ ring arithmetic

  /** The ring position of doorbell number k: counts up and returns to 0 after m - 1. */
  function Position(k: nat, m: nat): nat
    requires 0 < m
  {
    if k == 0 then 0 else if Position(k - 1, m) == m - 1 then 0 else Position(k - 1, m) + 1
  }

  lemma {:induction false} PositionIsMod(k: nat, m: nat)
    requires 0 < m
    ensures Position(k, m) == k % m
  {
    if k > 0 {
      PositionIsMod(k - 1, m);
      ModNext(k - 1, m);
    } else {
      Residue(0, 0, 0, m);
    }
  }

  lemma PositionsDiffer(a: nat, d: nat, m: nat)
    requires 0 < d < m
    ensures Position(a, m) != Position(a + d, m)
  {
    PositionIsMod(a, m);
    PositionIsMod(a + d, m);
    ModDiffer(a, d, m);
  }

  lemma PositionInRange(k: nat, m: nat)
    requires 0 < m
    ensures Position(k, m) < m
  {
    PositionIsMod(k, m);
  }

  // ------------------------------------------------------------ addresses

  /** Different entries of one ring, and any entries of two rings, are at least one entry apart. */
  lemma AddressesDiffer(cfg: Config, c: nat, x: nat, d: nat, y: nat)
    requires cfg.Valid() && x < cfg.messNum && y < cfg.messNum && (c != d || x != y)
    ensures cfg.EntryAddress(c, x) + ENTRY_WORDS <= cfg.EntryAddress(d, y) ||
            cfg.EntryAddress(d, y) + ENTRY_WORDS <= cfg.EntryAddress(c, x)
  {
  }

  /** How many doorbells core c has had. */
  function Total(w: World, c: nat): nat
    requires c < |w.live| == |w.served|
  {
    w.served[c] + |w.live[c]|
  }

  ghost predicate HeadsInv(cfg: Config, w: World)
    requires WorldShape(cfg, w)
  {
    forall c :: 0 <= c < cfg.cores ==> w.s.ringHead[c] == Position(Total(w, c), cfg.messNum)
  }

  lemma NextKeepsHeads(cfg: Config, w: World, a: Action)
    requires WorldShape(cfg, w) && HeadsInv(cfg, w) && WorldShape(cfg, Next(cfg, w, a))
    ensures HeadsInv(cfg, Next(cfg, w, a))
  {
  }

  // ------------------------------------------------------------ careful clients

  /** A client posts again only when no worker still has its previous request to read. */
  ghost predicate Careful(w: World, a: Action) {
    a.Post? ==> forall c :: 0 <= c < |w.live| ==> a.slot !in w.live[c]
  }

  ghost predicate CarefulRun(cfg: Config, w: World, actions: seq<Action>)
    requires WorldShape(cfg, w)
    decreases |actions|
  {
    actions == [] ||
    (CarefulRun(cfg, w, actions[..|actions| - 1]) &&
     Careful(Run(cfg, w, actions[..|actions| - 1]), actions[|actions| - 1]))
  }

  /** Per core, a slot's open post and its unread entries together are at most one. */
  ghost predicate OpenOnce(posts: seq<seq<Request>>, rung: seq<nat>, entries: seq<nat>) {
    && |posts| == |rung|
    && (forall j :: 0 <= j < |entries| ==> entries[j] < |posts|)
    && (forall i :: 0 <= i < |posts| ==> rung[i] <= |posts[i]| && |posts[i]| - rung[i] + multiset(entries)[i] <= 1)
  }

  /** Entry number k of core c holds value v. */
  ghost predicate Holds(cfg: Config, host: map<nat, nat>, c: nat, k: nat, v: nat)
    requires cfg.Valid()
  {
    var address := cfg.EntryAddress(c, Position(k, cfg.messNum));
    address in host && host[address] == v
  }

  /** Core c's unread entries are still in host memory, oldest first. */
  ghost predicate Intact(cfg: Config, host: map<nat, nat>, c: nat, served: nat, entries: seq<nat>)
    requires cfg.Valid()
  {
    forall j :: 0 <= j < |entries| ==> Holds(cfg, host, c, served + j, entries[j])
  }

  ghost predicate RingsInv(cfg: Config, w: World)
    requires WorldShape(cfg, w)
  {
    && HeadsInv(cfg, w)
    && forall c :: 0 <= c < cfg.cores ==>
         OpenOnce(w.posts, w.rung, w.live[c]) && Intact(cfg, w.s.host, c, w.served[c], w.live[c])
  }

  // ------------------------------------------------------------ steps on one core

  lemma PostKeepsOpen(posts: seq<seq<Request>>, rung: seq<nat>, entries: seq<nat>, i: nat, r: Request)
    requires OpenOnce(posts, rung, entries) && i < |posts| && |posts[i]| == rung[i] && i !in entries
    ensures OpenOnce(posts[i := posts[i] + [r]], rung, entries)
  {
  }

  lemma RingKeepsOpen(posts: seq<seq<Request>>, rung: seq<nat>, entries: seq<nat>, i: nat)
    requires OpenOnce(posts, rung, entries) && i < |posts| && |posts[i]| > rung[i]
    ensures OpenOnce(posts, rung[i := rung[i] + 1], entries) && OpenOnce(posts, rung[i := rung[i] + 1], entries + [i])
  {
    assert multiset(entries + [i]) == multiset(entries) + multiset{i};
  }

  lemma ServeKeepsOpen(posts: seq<seq<Request>>, rung: seq<nat>, entries: seq<nat>)
    requires OpenOnce(posts, rung, entries) && entries != []
    ensures OpenOnce(posts, rung, entries[1..])
  {
    assert entries == [entries[0]] + entries[1..];
    assert multiset(entries) == multiset{entries[0]} + multiset(entries[1..]);
    forall i | 0 <= i < |posts|
      ensures multiset(entries[1..])[i] <= multiset(entries)[i]
    {
    }
  }

  lemma FewEntries(posts: seq<seq<Request>>, rung: seq<nat>, entries: seq<nat>)
    requires OpenOnce(posts, rung, entries)
    ensures |entries| <= |posts|
  {
    forall v: nat
      ensures multiset(entries)[v] <= 1
    {
      if v >= |posts| {
        assert v !in entries;
      }
    }
    Dispatch.OnceEachFit(entries, 0, |posts|);
  }

  /** Writing entry k of core d does not touch entry n of core c. */
  lemma WriteKeepsEntry(cfg: Config, host: map<nat, nat>, c: nat, n: nat, v: nat, d: nat, k: nat, slot: nat)
    requires cfg.Valid() && Holds(cfg, host, c, n, v)
    requires c == d ==> n < k < n + cfg.messNum
    ensures Holds(cfg, host[cfg.EntryAddress(d, Position(k, cfg.messNum)) := slot], c, n, v)
  {
    var m := cfg.messNum;
    PositionInRange(n, m);
    PositionInRange(k, m);
    if c == d {
      PositionsDiffer(n, k - n, m);
    }
    AddressesDiffer(cfg, c, Position(n, m), d, Position(k, m));
  }

  lemma WriteKeepsIntact(cfg: Config, host: map<nat, nat>, c: nat, served: nat, entries: seq<nat>, d: nat, k: nat,
                         slot: nat)
    requires cfg.Valid() && Intact(cfg, host, c, served, entries)
    requires c == d ==> k == served + |entries| && |entries| < cfg.messNum
    ensures var host' := host[cfg.EntryAddress(d, Position(k, cfg.messNum)) := slot];
            Intact(cfg, host', c, served, if c == d then entries + [slot] else entries)
  {
    forall j | 0 <= j < |entries|
      ensures Holds(cfg, host[cfg.EntryAddress(d, Position(k, cfg.messNum)) := slot], c, served + j, entries[j])
    {
      WriteKeepsEntry(cfg, host, c, served + j, entries[j], d, k, slot);
    }
  }

  lemma ServeKeepsIntact(cfg: Config, host: map<nat, nat>, c: nat, served: nat, entries: seq<nat>)
    requires cfg.Valid() && Intact(cfg, host, c, served, entries) && entries != []
    ensures Intact(cfg, host, c, served + 1, entries[1..])
  {
    forall j | 0 <= j < |entries| - 1
      ensures Holds(cfg, host, c, served + 1 + j, entries[1..][j])
    {
      assert Holds(cfg, host, c, served + (j + 1), entries[j + 1]);
    }
  }

  // ------------------------------------------------------------ steps of the world

  /** Core c over the doorbell number k of core d for slot i. */
  lemma CoreOverBell(cfg: Config, posts: seq<seq<Request>>, rung: seq<nat>, host: map<nat, nat>,
                     c: nat, served: nat, entries: seq<nat>, d: nat, k: nat, i: nat)
    requires cfg.Valid() && |posts| <= cfg.messNum && OpenOnce(posts, rung, entries)
    requires Intact(cfg, host, c, served, entries)
    requires i < |posts| && rung[i] < |posts[i]| && (c == d ==> k == served + |entries|)
    ensures OpenOnce(posts, rung[i := rung[i] + 1], if c == d then entries + [i] else entries)
    ensures Intact(cfg, host[cfg.EntryAddress(d, Position(k, cfg.messNum)) := i], c, served,
                   if c == d then entries + [i] else entries)
  {
    RingKeepsOpen(posts, rung, entries, i);
    FewEntries(posts, rung[i := rung[i] + 1], entries + [i]);
    WriteKeepsIntact(cfg, host, c, served, entries, d, k, i);
  }

  /** In every state with right heads, the next doorbell is written to its core's next position. */
  lemma BellWrites(cfg: Config, w: World)
    requires WorldShape(cfg, w) && HeadsInv(cfg, w) && w.s.bells != []
    ensures var w', b := Next(cfg, w, RingBell), w.s.bells[0];
            && w'.s.host == w.s.host[cfg.EntryAddress(b.core, Position(Total(w, b.core), cfg.messNum)) := b.slot]
            && w'.rung == w.rung[b.slot := w.rung[b.slot] + 1] && w'.live == w.live[b.core := w.live[b.core] + [b.slot]]
            && w'.posts == w.posts && w'.served == w.served
  {
  }

  lemma RingKeepsRings(cfg: Config, w: World)
    requires WorldShape(cfg, w) && cfg.Slots() <= cfg.messNum && RingsInv(cfg, w) && w.s.bells != []
    requires w.rung[w.s.bells[0].slot] < |w.posts[w.s.bells[0].slot]| && WorldShape(cfg, Next(cfg, w, RingBell))
    ensures RingsInv(cfg, Next(cfg, w, RingBell))
  {
    var w', b := Next(cfg, w, RingBell), w.s.bells[0];
    NextKeepsHeads(cfg, w, RingBell);
    BellWrites(cfg, w);
    forall c | 0 <= c < cfg.cores
      ensures OpenOnce(w'.posts, w'.rung, w'.live[c]) && Intact(cfg, w'.s.host, c, w'.served[c], w'.live[c])
    {
      CoreOverBell(cfg, w.posts, w.rung, w.s.host, c, w.served[c], w.live[c], b.core, Total(w, b.core), b.slot);
    }
  }

  lemma PostKeepsRings(cfg: Config, w: World, i: nat, r: Request)
    requires WorldShape(cfg, w) && RingsInv(cfg, w) && Enabled(cfg, w, Post(i, r)) && Careful(w, Post(i, r))
    requires WorldShape(cfg, Next(cfg, w, Post(i, r)))
    ensures RingsInv(cfg, Next(cfg, w, Post(i, r)))
  {
    NextKeepsHeads(cfg, w, Post(i, r));
    forall c | 0 <= c < cfg.cores
      ensures OpenOnce(w.posts[i := w.posts[i] + [r]], w.rung, w.live[c])
    {
      PostKeepsOpen(w.posts, w.rung, w.live[c], i, r);
    }
  }

  lemma ServeKeepsRings(cfg: Config, w: World, c: nat)
    requires WorldShape(cfg, w) && RingsInv(cfg, w) && Enabled(cfg, w, Serve(c))
    requires WorldShape(cfg, Next(cfg, w, Serve(c)))
    ensures RingsInv(cfg, Next(cfg, w, Serve(c)))
  {
    NextKeepsHeads(cfg, w, Serve(c));
    ServeKeepsOpen(w.posts, w.rung, w.live[c]);
    ServeKeepsIntact(cfg, w.s.host, c, w.served[c], w.live[c]);
  }

  /** The slot of a waiting doorbell has a post that has not been rung. */
  lemma BellIsOpen(cfg: Config, w: World)
    requires WorldShape(cfg, w) && Dispatch.DispatchInv(cfg, w) && w.s.bells != []
    ensures w.rung[w.s.bells[0].slot] < |w.posts[w.s.bells[0].slot]|
  {
    var i := w.s.bells[0].slot;
    Dispatch.BellsPop(w.s.bells);
    assert Dispatch.InFlight(w.s)[i] >= 1;
    assert Dispatch.SlotOk(w.posts[i], w.accepted[i], w.rung[i], Dispatch.InFlight(w.s)[i], w.s.seen[i], w.mem[i]);
  }

  lemma NextKeepsRings(cfg: Config, w: World, a: Action)
    requires WorldShape(cfg, w) && cfg.Slots() <= cfg.messNum && RingsInv(cfg, w) && Dispatch.DispatchInv(cfg, w)
    requires Careful(w, a) && WorldShape(cfg, Next(cfg, w, a))
    ensures RingsInv(cfg, Next(cfg, w, a))
  {
    if Enabled(cfg, w, a) {
      NextKeepsHeads(cfg, w, a);
      match a
      case Post(i, r) => PostKeepsRings(cfg, w, i, r);
      case RingBell =>
        if w.s.bells != [] {
          BellIsOpen(cfg, w);
          RingKeepsRings(cfg, w);
        }
      case Serve(c) => ServeKeepsRings(cfg, w, c);
      case _ =>
    }
  }

  lemma {:induction false} RunKeepsHeads(cfg: Config, w: World, actions: seq<Action>)
    requires Booted(cfg, w)
    ensures HeadsInv(cfg, Run(cfg, w, actions))
    decreases |actions|
  {
    if actions != [] {
      var v := Run(cfg, w, actions[..|actions| - 1]);
      RunKeepsHeads(cfg, w, actions[..|actions| - 1]);
      NextKeepsShape(cfg, v, actions[|actions| - 1]);
      NextKeepsHeads(cfg, v, actions[|actions| - 1]);
    }
  }

  lemma {:induction false} RunKeepsRings(cfg: Config, w: World, actions: seq<Action>)
    requires Booted(cfg, w) && cfg.Slots() <= cfg.messNum && CarefulRun(cfg, w, actions)
    ensures RingsInv(cfg, Run(cfg, w, actions))
    decreases |actions|
  {
    if actions != [] {
      var v := Run(cfg, w, actions[..|actions| - 1]);
      RunKeepsRings(cfg, w, actions[..|actions| - 1]);
      Dispatch.RunKeeps(cfg, w, actions[..|actions| - 1]);
      NextKeepsShape(cfg, v, actions[|actions| - 1]);
      NextKeepsRings(cfg, v, actions[|actions| - 1]);
    }
  }

  // ------------------------------------------------------------ every run

  /**
    In every run, doorbell number k of a core is written 16 words times k mod
    messNum after the start of that core's ring; the rings follow each other at
    4160 words, and each starts 64 words into its part.
   */
  lemma DoorbellAddress(cfg: Config, w: World, actions: seq<Action>)
    requires Booted(cfg, w)
    ensures var v := Run(cfg, w, actions);
            v.s.bells != [] ==>
              var b := v.s.bells[0];
              Next(cfg, v, RingBell).s.host ==
                v.s.host[cfg.base + 4160 * b.core + 64 + 16 * (Total(v, b.core) % cfg.messNum) := b.slot]
  {
    RunKeepsHeads(cfg, w, actions);
    var v := Run(cfg, w, actions);
    if v.s.bells != [] {
      BellWrites(cfg, v);
      PositionIsMod(Total(v, v.s.bells[0].core), cfg.messNum);
    }
  }

  /**
    With at least as many ring entries as slots and clients that wait to be
    served, every entry no worker has read yet is still in host memory.
   */
  lemma NeverOverrun(cfg: Config, w: World, actions: seq<Action>)
    requires Booted(cfg, w) && cfg.Slots() <= cfg.messNum && CarefulRun(cfg, w, actions)
    ensures var v := Run(cfg, w, actions);
            forall c :: 0 <= c < cfg.cores ==>
              |v.live[c]| <= cfg.messNum && Intact(cfg, v.s.host, c, v.served[c], v.live[c])
  {
    RunKeepsRings(cfg, w, actions);
    var v := Run(cfg, w, actions);
    forall c | 0 <= c < cfg.cores
      ensures |v.live[c]| <= cfg.messNum
    {
      FewEntries(v.posts, v.rung, v.live[c]);
    }
  }
}
