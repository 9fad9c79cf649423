/** Drawing a commit number and checking what was read keep the invariant. */
module IndexCheckSteps {
  import opened Options
  import opened HashKeys
  import opened IndexCalls
  import opened IndexOcc
  import opened IndexInv
  import opened IndexSteps
  import opened IndexLockSteps

  // ------------------------------------------------------------ who stands in the way of whom

  /** A transaction that holds all its locks has, for each key it writes, a linked element under its lock. */
  lemma WriterHolds(t: nat, x: Txn, els: seq<Elem>, linked: set<nat>, home: map<Key, nat>, clock: nat,
                    k: Key) returns (id: nat)
    requires ElemsOk(els, linked, home, clock) && WritesTo(x, k) && Written(x) <= x.needs && HeldOk(t, x.needs, els)
    requires AddedOk(t, x.added, x.log, els, linked) && HitsOk(x.hits, x.seen, x.log, els)
    ensures id in Written(x) && id < |els| && id in linked && els[id].key == k && HeldAt(t, id, els)
    ensures els[id].valid || els[id].maker == t
  {
    if k in x.added {
      id := x.added[k];
      assert AddedAt(t, k, id, x.log, els, linked) && id in x.added.Values && HeldAt(t, id, els);
    } else {
      id := x.hits[k];
      assert HitAt(k, id, x.seen, x.log, els) && id in x.hits.Values && HeldAt(t, id, els) && AtHome(els, home, id);
      assert Live(els, linked, k, home[k]);
    }
  }

  /** No linked element of k is locked by anybody but t. */
  ghost predicate FreeFor(t: nat, k: Key, els: seq<Elem>, linked: set<nat>) {
    forall id :: id in linked && id < |els| && els[id].key == k ==> els[id].lock.None? || els[id].lock == Some(t)
  }

  /** Then nobody else is about to commit a write of k, and no install of one is to come. */
  lemma FreeMeansAlone(s: State, t: nat, k: Key, u: nat)
    requires Inv(s) && t in s.txns && !s.txns[t].phase.Installing? && FreeFor(t, k, s.els, s.linked)
    ensures u in s.txns && u != t && s.txns[u].phase.Checking? ==> !WritesTo(s.txns[u], k)
    ensures !PendingKey(s.txns, s.els, k)
  {
    if u in s.txns && u != t && s.txns[u].phase.Checking? && WritesTo(s.txns[u], k) {
      assert TxnOk(u, s.txns[u], s.els, s.linked, s.bver, s.history);
      var id := WriterHolds(u, s.txns[u], s.els, s.linked, s.home, s.clock, k);
    }
    forall v: nat, id: nat | v in s.txns && Pending(s.txns[v], id) && id < |s.els|
      ensures s.els[id].key != k
    {
      assert TxnOk(v, s.txns[v], s.els, s.linked, s.bver, s.history);
      assert ToInstall(v, s.txns[v], id, s.els, s.linked);
    }
  }

  /** The rows committed below t's number are then the present ones. */
  lemma FreeValue(s: State, t: nat, k: Key, ticket: nat)
    requires Inv(s) && t in s.txns && !s.txns[t].phase.Installing? && FreeFor(t, k, s.els, s.linked)
    requires ticket <= s.clock + 1
    requires forall n: nat {:trigger Writes(s.history, n, k)} :: Writes(s.history, n, k) ==> n < ticket
    ensures Value(s.history, ticket, k) == RowAt(s.els, s.home, k)
  {
    FreeMeansAlone(s, t, k, t);
    assert KeyRow(k, s.els, s.home, s.txns, s.history, s.clock);
    ValueAbove(s.history, ticket, s.clock + 1, k);
  }

  // ------------------------------------------------------------ a checking transaction in the order

  /** No commit number above y's sees more writers below it than before. */
  ghost predicate Harmless(txns: map<nat, Txn>, t: nat, y: Txn, clock: nat) {
    || y.ticket >= clock
    || (t in txns && txns[t].phase.Checking? && txns[t].ticket == y.ticket && txns[t].hits == y.hits
        && txns[t].added == y.added)
  }

  lemma HarmlessBelow(txns: map<nat, Txn>, t: nat, y: Txn, clock: nat, ticket: nat, k: Key)
    requires NoneBelow(txns, ticket, k) && Harmless(txns, t, y, clock) && ticket <= clock
    ensures NoneBelow(txns[t := y], ticket, k)
  {
  }

  lemma OrderJoins(txns: map<nat, Txn>, t: nat, y: Txn, h: map<nat, Done>, clock: nat)
    requires OrderOk(txns, h, clock) && y.phase.Checking? && Harmless(txns, t, y, clock)
    requires TicketsOk(txns[t := y], h, clock) && SettledOk(y, txns[t := y], h)
    ensures OrderOk(txns[t := y], h, clock)
  {
    var txns' := txns[t := y];
    forall u | u in txns' && txns'[u].phase.Checking?
      ensures SettledOk(txns'[u], txns', h)
    {
      if u != t {
        assert SettledOk(txns[u], txns, h);
        forall i | 0 <= i < |txns[u].log|
          ensures SettledAt(txns[u], i, txns', h)
        {
          assert SettledAt(txns[u], i, txns, h);
          if Settled(txns[u], i) {
            HarmlessBelow(txns, t, y, clock, txns[u].ticket, txns[u].log[i].k);
          }
        }
      }
    }
    forall n | n in h
      ensures DoneOk(h, n, txns')
    {
      assert DoneOk(h, n, txns);
      forall i | 0 <= i < |h[n].log|
        ensures DoneAt(h, n, i, txns')
      {
        assert DoneAt(h, n, i, txns);
        HarmlessBelow(txns, t, y, clock, n, h[n].log[i].k);
      }
    }
  }

  // ------------------------------------------------------------ all locks are held

  lemma MarksLater(x: Txn, a: nat, b: nat)
    requires MarksBy(x, a) && a <= b
    ensures MarksBy(x, b)
  {
    forall i | 0 <= i < |x.marks|
      ensures MarkBy(x.marks[i], b)
    {
      assert MarkBy(x.marks[i], a);
    }
  }

  lemma ClockKeepsElems(els: seq<Elem>, linked: set<nat>, home: map<Key, nat>, clock: nat, next: nat)
    requires ElemsOk(els, linked, home, clock) && clock <= next
    ensures ElemsOk(els, linked, home, next)
  {
    forall id | 0 <= id < |els|
      ensures ElemOk(els[id], next)
    {
      assert ElemOk(els[id], clock);
    }
  }

  lemma ClockKeepsOrder(txns: map<nat, Txn>, h: map<nat, Done>, clock: nat, next: nat)
    requires OrderOk(txns, h, clock) && clock <= next
    ensures OrderOk(txns, h, next)
  {
    forall t | t in txns
      ensures MarksBy(txns[t], next)
    {
      MarksLater(txns[t], clock, next);
    }
  }

  lemma ClockKeepsRows(els: seq<Elem>, home: map<Key, nat>, txns: map<nat, Txn>, h: map<nat, Done>, clock: nat,
                       next: nat)
    requires RowsOk(els, home, txns, h, clock) && next == clock + 1 && next !in h
    ensures RowsOk(els, home, txns, h, next)
  {
    forall t, id: nat | t in txns && Pending(txns[t], id)
      ensures PendingAt(txns[t], id, els, h, next)
    {
      assert PendingAt(txns[t], id, els, h, clock);
      assert id < |els| ==> !Writes(h, next, els[id].key);
    }
    forall k
      ensures KeyRow(k, els, home, txns, h, next)
    {
      assert KeyRow(k, els, home, txns, h, clock);
      assert !Writes(h, next, k);
    }
  }

  lemma TicketDrawn(t: nat, x: Txn, y: Txn, els: seq<Elem>, linked: set<nat>, bver: map<nat, nat>, h: map<nat, Done>,
                    home: map<Key, nat>, clock: nat)
    requires ElemsOk(els, linked, home, clock) && TxnOk(t, x, els, linked, bver, h) && x.phase.Locking? && x.left == {}
    requires MarksBy(x, clock)
    requires y == x.(phase := Checking, ticket := clock + 1, left := x.seen.Keys, leftBuckets := x.buckets.Keys)
    ensures TxnOk(t, y, els, linked, bver, h)
  {
    SameBefore(t, x, y, els, linked, bver, h);
    forall id | id in y.seen
      ensures y.seen[id] < y.ticket
    {
      assert SeenAt(id, x.seen[id], x.added, els) && ElemOk(els[id], clock);
    }
    forall id | id in y.needs && id < |els|
      ensures els[id].version < y.ticket
    {
      assert ElemOk(els[id], clock);
    }
    assert forall i :: 0 <= i < |y.marks| ==> MarkBy(x.marks[i], clock);
  }

  /** An own insert is the only linked element of its key, so nothing is committed under it. */
  lemma OwnIsFree(s: State, t: nat, k: Key)
    requires Inv(s) && t in s.txns && k in s.txns[t].added && s.txns[t].phase.Locking? && s.txns[t].left == {}
    ensures FreeFor(t, k, s.els, s.linked) && RowAt(s.els, s.home, k) == None
  {
    var x := s.txns[t];
    assert TxnOk(t, x, s.els, s.linked, s.bver, s.history);
    assert AddedAt(t, k, x.added[k], x.log, s.els, s.linked) && x.added[k] in x.added.Values;
    assert HeldAt(t, x.added[k], s.els);
    assert k in s.home ==> Live(s.els, s.linked, k, s.home[k]);
  }

  lemma OwnSettled(s: State, t: nat, y: Txn)
    requires Inv(s) && t in s.txns && s.txns[t].phase.Locking? && s.txns[t].left == {}
    requires var x := s.txns[t]; y == x.(phase := Checking, ticket := s.clock + 1, left := x.seen.Keys,
                                         leftBuckets := x.buckets.Keys)
    ensures SettledOk(y, s.txns[t := y], s.history)
  {
    var x, txns' := s.txns[t], s.txns[t := y];
    assert TxnOk(t, x, s.els, s.linked, s.bver, s.history);
    forall i | 0 <= i < |y.log|
      ensures SettledAt(y, i, txns', s.history)
    {
      var k := x.log[i].k;
      assert CallOk(x.log[i], x.marks[i], x, s.els, s.linked, s.bver, s.history);
      if x.marks[i].Mine? {
        OwnIsFree(s, t, k);
        FreeValue(s, t, k, s.clock + 1);
        forall u | u in s.txns && u != t && s.txns[u].phase.Checking?
          ensures !WritesTo(s.txns[u], k)
        {
          FreeMeansAlone(s, t, k, u);
        }
      }
    }
  }

  lemma NewTicket(txns: map<nat, Txn>, t: nat, y: Txn, h: map<nat, Done>, clock: nat, next: nat)
    requires TicketsOk(txns, h, clock) && clock < next == y.ticket && MarksBy(y, clock)
    ensures TicketsOk(txns[t := y], h, next)
  {
    var txns' := txns[t := y];
    forall u | u in txns'
      ensures MarksBy(txns'[u], next)
    {
      MarksLater(txns'[u], clock, next);
    }
  }

  lemma AllLockedOrder(s: State, t: nat, y: Txn, next: nat)
    requires Inv(s) && t in s.txns && s.txns[t].phase.Locking? && s.txns[t].left == {} && next == s.clock + 1
    requires var x := s.txns[t]; y == x.(phase := Checking, ticket := next, left := x.seen.Keys,
                                         leftBuckets := x.buckets.Keys)
    ensures OrderOk(s.txns[t := y], s.history, next)
  {
    OwnSettled(s, t, y);
    assert MarksBy(s.txns[t], s.clock);
    ClockKeepsOrder(s.txns, s.history, s.clock, next);
    NewTicket(s.txns, t, y, s.history, s.clock, next);
    OrderJoins(s.txns, t, y, s.history, next);
  }

  lemma AllLockedKeeps(s: State, t: nat)
    requires Inv(s) && t in s.txns && s.txns[t].phase.Locking? && s.txns[t].left == {}
    ensures Inv(LocksHeld(s, t, s.txns[t]))
  {
    var x, next := s.txns[t], s.clock + 1;
    var y := x.(phase := Checking, ticket := next, left := x.seen.Keys, leftBuckets := x.buckets.Keys);
    assert TxnOk(t, x, s.els, s.linked, s.bver, s.history) && MarksBy(x, s.clock);
    AllLockedOrder(s, t, y, next);
    ClockKeepsElems(s.els, s.linked, s.home, s.clock, next);
    ClockKeepsRows(s.els, s.home, s.txns, s.history, s.clock, next);
    TicketDrawn(t, x, y, s.els, s.linked, s.bver, s.history, s.home, s.clock);
    TxnsKeep(s.txns, t, y, s.els, s.linked, s.bver, s.history);
    RowsKeep(s.els, s.home, s.txns, t, y, s.history, next);
    Assemble(s.bver, s.els, s.linked, s.home, s.txns[t := y], next, s.history);
  }

  // ------------------------------------------------------------ one check passes

  /** A call that was settled stays so. */
  lemma StaysSettled(txns: map<nat, Txn>, t: nat, y: Txn, h: map<nat, Done>, i: nat)
    requires t in txns && SettledOk(txns[t], txns, h) && y == txns[t].(left := y.left, leftBuckets := y.leftBuckets)
    requires i < |y.log| && Settled(txns[t], i)
    ensures SettledAt(y, i, txns[t := y], h)
  {
    assert SettledAt(txns[t], i, txns, h);
  }

  /** A row whose check passes is the present one, and nobody else writes it. */
  lemma RowSettles(s: State, t: nat, id: nat, i: nat)
    requires Inv(s) && t in s.txns && s.txns[t].phase.Checking? && id in s.txns[t].seen && RowPasses(s, s.txns[t], id)
    requires i < |s.txns[t].log| == |s.txns[t].marks| && s.txns[t].marks[i] == Row(id)
    ensures var x, k := s.txns[t], s.txns[t].log[i].k;
            FreeFor(t, k, s.els, s.linked) && Value(s.history, x.ticket, k) == x.log[i].was
  {
    var x, k := s.txns[t], s.txns[t].log[i].k;
    assert TxnOk(t, x, s.els, s.linked, s.bver, s.history);
    assert CallOk(x.log[i], x.marks[i], x, s.els, s.linked, s.bver, s.history);
    assert ElemOk(s.els[id], s.clock) && AtHome(s.els, s.home, id);
    assert id in x.needs ==> HeldAt(t, id, s.els);
    assert Live(s.els, s.linked, k, s.home[k]);
    NotPending(s, t, id);
    assert VersionAt(id, s.els, s.txns, s.history);
    FreeValue(s, t, k, x.ticket);
  }

  /** An element not locked, or locked by t, is not about to be installed by anyone. */
  lemma NotPending(s: State, t: nat, id: nat)
    requires Inv(s) && t in s.txns && !s.txns[t].phase.Installing? && id < |s.els|
    requires s.els[id].lock.None? || s.els[id].lock == Some(t)
    ensures forall u :: u in s.txns ==> !Pending(s.txns[u], id)
  {
    forall u | u in s.txns
      ensures !Pending(s.txns[u], id)
    {
      assert TxnOk(u, s.txns[u], s.els, s.linked, s.bver, s.history);
      assert Pending(s.txns[u], id) ==> ToInstall(u, s.txns[u], id, s.els, s.linked);
    }
  }

  /** A bucket whose check passes still has nobody else's element of the missed key. */
  lemma BucketSettles(s: State, t: nat, i: nat)
    requires Inv(s) && t in s.txns && s.txns[t].phase.Checking? && i < |s.txns[t].log| == |s.txns[t].marks|
    requires s.txns[t].marks[i].Gone?
    requires var b := s.txns[t].log[i].k.hash; b in s.txns[t].buckets && BucketPasses(s, s.txns[t], b)
    ensures var x, k := s.txns[t], s.txns[t].log[i].k;
            FreeFor(t, k, s.els, s.linked) && Value(s.history, x.ticket, k) == None
  {
    var x, k := s.txns[t], s.txns[t].log[i].k;
    assert TxnOk(t, x, s.els, s.linked, s.bver, s.history);
    assert CallOk(x.log[i], x.marks[i], x, s.els, s.linked, s.bver, s.history);
    assert MarkBy(x.marks[i], x.ticket - 1);
    if k in x.added {
      assert AddedAt(t, k, x.added[k], x.log, s.els, s.linked) && x.added[k] in x.added.Values;
      assert HeldAt(t, x.added[k], s.els);
    }
    assert k in s.home ==> Live(s.els, s.linked, k, s.home[k]);
    FreeValue(s, t, k, x.ticket);
  }

  lemma CheckedOk(t: nat, x: Txn, y: Txn, els: seq<Elem>, linked: set<nat>, bver: map<nat, nat>, h: map<nat, Done>)
    requires TxnOk(t, x, els, linked, bver, h) && x.phase.Checking?
    requires y == x.(left := y.left, leftBuckets := y.leftBuckets)
    ensures TxnOk(t, y, els, linked, bver, h)
  {
    SameBefore(t, x, y, els, linked, bver, h);
    assert forall i :: 0 <= i < |y.marks| ==> MarkBy(x.marks[i], y.ticket - 1);
  }

  /** What a check must settle: every call that rested on it. */
  ghost predicate Settles(s: State, t: nat, y: Txn)
    requires t in s.txns
  {
    forall i: nat {:trigger y.log[i]} ::
      i < |y.log| == |y.marks| == |s.txns[t].log| == |s.txns[t].marks| && Settled(y, i) && !Settled(s.txns[t], i) ==>
        FreeFor(t, y.log[i].k, s.els, s.linked) && Value(s.history, y.ticket, y.log[i].k) == Base(y.log[i], y.marks[i])
  }

  lemma NewlySettled(s: State, t: nat, y: Txn, i: nat)
    requires Inv(s) && t in s.txns && s.txns[t].phase.Checking?
    requires y == s.txns[t].(left := y.left, leftBuckets := y.leftBuckets)
    requires i < |y.log| == |y.marks| && FreeFor(t, y.log[i].k, s.els, s.linked)
    requires Value(s.history, y.ticket, y.log[i].k) == Base(y.log[i], y.marks[i])
    ensures SettledAt(y, i, s.txns[t := y], s.history)
  {
    var k := y.log[i].k;
    forall u | u in s.txns && u != t && s.txns[u].phase.Checking?
      ensures !WritesTo(s.txns[u], k)
    {
      FreeMeansAlone(s, t, k, u);
    }
  }

  lemma CheckKeeps(s: State, t: nat, y: Txn)
    requires Inv(s) && t in s.txns && s.txns[t].phase.Checking?
    requires y == s.txns[t].(left := y.left, leftBuckets := y.leftBuckets)
    requires Settles(s, t, y)
    ensures Inv(WithTxn(s, t, y))
  {
    var x, txns' := s.txns[t], s.txns[t := y];
    assert TxnOk(t, x, s.els, s.linked, s.bver, s.history) && MarksBy(x, s.clock);
    assert SettledOk(x, s.txns, s.history);
    CheckedOk(t, x, y, s.els, s.linked, s.bver, s.history);
    TxnsKeep(s.txns, t, y, s.els, s.linked, s.bver, s.history);
    RowsKeep(s.els, s.home, s.txns, t, y, s.history, s.clock);
    TicketsKeep(s.txns, t, y, s.history, s.clock);
    forall i | 0 <= i < |y.log|
      ensures SettledAt(y, i, txns', s.history)
    {
      if Settled(x, i) {
        StaysSettled(s.txns, t, y, s.history, i);
      } else if Settled(y, i) {
        NewlySettled(s, t, y, i);
      }
    }
    OrderJoins(s.txns, t, y, s.history, s.clock);
  }

  lemma CheckRowKeeps(s: State, t: nat, id: nat)
    requires Inv(s) && t in s.txns && s.txns[t].phase.Checking? && id in s.txns[t].seen && RowPasses(s, s.txns[t], id)
    ensures Inv(WithTxn(s, t, s.txns[t].(left := s.txns[t].left - {id})))
  {
    var x := s.txns[t];
    var y := x.(left := x.left - {id});
    forall i: nat | i < |y.log| == |y.marks| && Settled(y, i) && !Settled(x, i)
      ensures FreeFor(t, y.log[i].k, s.els, s.linked)
      ensures Value(s.history, y.ticket, y.log[i].k) == Base(y.log[i], y.marks[i])
    {
      RowSettles(s, t, id, i);
    }
    CheckKeeps(s, t, y);
  }

  lemma CheckBucketKeeps(s: State, t: nat, b: nat)
    requires Inv(s) && t in s.txns && s.txns[t].phase.Checking? && b in s.txns[t].buckets
    requires BucketPasses(s, s.txns[t], b)
    ensures Inv(WithTxn(s, t, s.txns[t].(leftBuckets := s.txns[t].leftBuckets - {b})))
  {
    var x := s.txns[t];
    var y := x.(leftBuckets := x.leftBuckets - {b});
    forall i: nat | i < |y.log| == |y.marks| && Settled(y, i) && !Settled(x, i)
      ensures FreeFor(t, y.log[i].k, s.els, s.linked)
      ensures Value(s.history, y.ticket, y.log[i].k) == Base(y.log[i], y.marks[i])
    {
      BucketSettles(s, t, i);
    }
    CheckKeeps(s, t, y);
  }
}
