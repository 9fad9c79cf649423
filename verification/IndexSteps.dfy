/** Steps that change one transaction and no element. */
module IndexSteps {
  import opened Options
  import opened HashKeys
  import opened IndexCalls
  import opened IndexOcc
  import opened IndexInv

  // ------------------------------------------------------------ values of the history

  lemma {:induction false} ValueSame(h: map<nat, Done>, h': map<nat, Done>, n: nat, k: Key)
    requires forall m: nat {:trigger Writes(h, m, k)} {:trigger Writes(h', m, k)} ::
               m < n ==> (Writes(h, m, k) <==> Writes(h', m, k)) && (Writes(h, m, k) ==> h[m] == h'[m])
    ensures Value(h, n, k) == Value(h', n, k)
  {
    if n > 0 {
      ValueSame(h, h', n - 1, k);
      assert Writes(h, n - 1, k) <==> Writes(h', n - 1, k);
    }
  }

  lemma {:induction false} ValueAbove(h: map<nat, Done>, a: nat, b: nat, k: Key)
    requires a <= b && forall m: nat {:trigger Writes(h, m, k)} :: a <= m < b ==> !Writes(h, m, k)
    ensures Value(h, b, k) == Value(h, a, k)
    decreases b
  {
    if a < b {
      assert !Writes(h, b - 1, k);
      ValueAbove(h, a, b - 1, k);
    }
  }

  /** The last writer decides. */
  lemma ValueOfLast(h: map<nat, Done>, n: nat, m: nat, k: Key)
    requires n < m && Writes(h, n, k) && WritersBy(h, k, n)
    ensures Value(h, m, k) == Wrote(h[n].log, k).value
  {
    ValueAbove(h, n + 1, m, k);
  }

  lemma {:induction false} WroteWasCalled(log: seq<Call>, k: Key) returns (i: nat)
    requires Wrote(log, k).Some?
    ensures i < |log| && log[i].k == k
    decreases |log|
  {
    i := |log| - 1;
    if log[i].k != k {
      i := WroteWasCalled(log[..|log| - 1], k);
    }
  }

  // ------------------------------------------------------------ one transaction moves

  ghost predicate Idle(x: Txn) { x.phase.Installing? ==> x.left == {} }

  lemma TicketsKeep(txns: map<nat, Txn>, t: nat, y: Txn, h: map<nat, Done>, clock: nat)
    requires TicketsOk(txns, h, clock) && MarksBy(y, clock)
    requires Ticketed(y) ==> t in txns && txns[t].phase == y.phase && txns[t].ticket == y.ticket
    ensures TicketsOk(txns[t := y], h, clock)
  {
    var txns' := txns[t := y];
    forall u | u in txns'
      ensures MarksBy(txns'[u], clock)
    {
      assert u != t ==> MarksBy(txns[u], clock);
    }
  }

  lemma OrderKeeps(txns: map<nat, Txn>, t: nat, y: Txn, h: map<nat, Done>, clock: nat)
    requires OrderOk(txns, h, clock) && MarksBy(y, clock) && !y.phase.Checking?
    requires Ticketed(y) ==> t in txns && txns[t].phase == y.phase && txns[t].ticket == y.ticket
    ensures OrderOk(txns[t := y], h, clock)
  {
    var txns' := txns[t := y];
    TicketsKeep(txns, t, y, h, clock);
    forall u | u in txns' && txns'[u].phase.Checking?
      ensures SettledOk(txns'[u], txns', h)
    {
      assert SettledOk(txns[u], txns, h);
      forall i | 0 <= i < |txns[u].log|
        ensures SettledAt(txns[u], i, txns', h)
      {
        assert SettledAt(txns[u], i, txns, h);
      }
    }
    forall n | n in h
      ensures DoneOk(h, n, txns')
    {
      assert DoneOk(h, n, txns);
      forall i | 0 <= i < |h[n].log|
        ensures DoneAt(h, n, i, txns')
      {
        assert DoneAt(h, n, i, txns);
      }
    }
  }

  lemma RowsKeep(els: seq<Elem>, home: map<Key, nat>, txns: map<nat, Txn>, t: nat, y: Txn, h: map<nat, Done>,
                 clock: nat)
    requires RowsOk(els, home, txns, h, clock) && Idle(y) && (t in txns ==> Idle(txns[t]))
    ensures RowsOk(els, home, txns[t := y], h, clock)
  {
    var txns' := txns[t := y];
    forall u, id: nat | u in txns' && Pending(txns'[u], id)
      ensures PendingAt(txns'[u], id, els, h, clock)
    {
      assert PendingAt(txns[u], id, els, h, clock);
    }
    forall id: nat
      ensures VersionAt(id, els, txns', h)
    {
      assert VersionAt(id, els, txns, h);
      if u: nat :| u in txns && Pending(txns[u], id) {
        assert u in txns' && Pending(txns'[u], id);
      }
    }
    forall k
      ensures KeyRow(k, els, home, txns', h, clock)
    {
      assert KeyRow(k, els, home, txns, h, clock);
      if u: nat, id: nat :| u in txns && Pending(txns[u], id) && id < |els| && els[id].key == k {
        assert u in txns' && Pending(txns'[u], id);
      }
    }
  }

  lemma TxnsKeep(txns: map<nat, Txn>, t: nat, y: Txn, els: seq<Elem>, linked: set<nat>, bver: map<nat, nat>,
                 h: map<nat, Done>)
    requires TxnsOk(txns, els, linked, bver, h) && TxnOk(t, y, els, linked, bver, h)
    ensures TxnsOk(txns[t := y], els, linked, bver, h)
  {
    var txns' := txns[t := y];
    forall u | u in txns'
      ensures TxnOk(u, txns'[u], els, linked, bver, h)
    {
      assert u != t ==> TxnOk(u, txns[u], els, linked, bver, h);
    }
  }

  lemma Assemble(bver: map<nat, nat>, els: seq<Elem>, linked: set<nat>, home: map<Key, nat>, txns: map<nat, Txn>,
                 clock: nat, h: map<nat, Done>)
    requires ElemsOk(els, linked, home, clock) && TxnsOk(txns, els, linked, bver, h)
    requires OrderOk(txns, h, clock) && RowsOk(els, home, txns, h, clock)
    ensures Inv(State(bver, els, linked, home, txns, clock, h))
  {
  }

  lemma TxnKeeps(s: State, t: nat, y: Txn)
    requires Inv(s) && TxnOk(t, y, s.els, s.linked, s.bver, s.history) && !Ticketed(y)
    requires t in s.txns ==> Idle(s.txns[t])
    requires MarksBy(y, s.clock)
    ensures Inv(WithTxn(s, t, y))
  {
    OrderKeeps(s.txns, t, y, s.history, s.clock);
    RowsKeep(s.els, s.home, s.txns, t, y, s.history, s.clock);
    TxnsKeep(s.txns, t, y, s.els, s.linked, s.bver, s.history);
  }

  lemma StartOk(t: nat, els: seq<Elem>, linked: set<nat>, bver: map<nat, nat>, h: map<nat, Done>)
    ensures TxnOk(t, START, els, linked, bver, h)
  {
    assert forall k :: Wrote([], k) == None && Added([], k) == None;
  }

  /** Before the decision a transaction can stop at any time. */
  lemma StopOk(t: nat, x: Txn, els: seq<Elem>, linked: set<nat>, bver: map<nat, nat>, h: map<nat, Done>)
    requires BeforeOk(t, x, els, linked, bver, h)
    ensures TxnOk(t, Stop(x, false), els, linked, bver, h)
  {
    var y := Stop(x, false);
    forall id | id in x.added.Values
      ensures OrphanAt(t, y, id, els, linked)
    {
      var k :| k in x.added && x.added[k] == id;
      assert AddedAt(t, k, x.added[k], x.log, els, linked);
    }
    WrittenInRange(t, x, els, linked);
  }

  lemma WrittenInRange(t: nat, x: Txn, els: seq<Elem>, linked: set<nat>)
    requires AddedOk(t, x.added, x.log, els, linked) && HitsOk(x.hits, x.seen, x.log, els)
    ensures InRange(Written(x), els)
  {
    forall id | id in Written(x)
      ensures id < |els|
    {
      if k :| k in x.added && x.added[k] == id {
        assert AddedAt(t, k, x.added[k], x.log, els, linked);
      } else {
        var k :| k in x.hits && x.hits[k] == id;
        assert HitAt(k, x.hits[k], x.seen, x.log, els);
      }
    }
  }

  lemma StopKeeps(s: State, t: nat)
    requires Inv(s) && t in s.txns
    requires s.txns[t].phase.Active? || s.txns[t].phase.Locking? || s.txns[t].phase.Checking?
    ensures Inv(WithTxn(s, t, Stop(s.txns[t], false)))
  {
    assert TxnOk(t, s.txns[t], s.els, s.linked, s.bver, s.history);
    StopOk(t, s.txns[t], s.els, s.linked, s.bver, s.history);
    assert MarksBy(s.txns[t], s.clock);
    TxnKeeps(s, t, Stop(s.txns[t], false));
  }
}
