/** The decision to commit, and the install of each written item, keep the invariant. */
module IndexCommitSteps {
  import opened Options
  import opened HashKeys
  import opened IndexCalls
  import opened IndexOcc
  import opened IndexInv
  import opened IndexSteps
  import opened IndexLockSteps
  import opened IndexCheckSteps

  // ------------------------------------------------------------ the history grows by one transaction

  /** Below its number, and on keys it does not write, the new entry changes no value. */
  lemma DecideValue(h: map<nat, Done>, n: nat, d: Done, m: nat, k: Key)
    requires n !in h && (m <= n || Wrote(d.log, k).None?)
    ensures Value(h[n := d], m, k) == Value(h, m, k)
  {
    ValueSame(h[n := d], h, m, k);
  }

  lemma DecideWriters(h: map<nat, Done>, n: nat, d: Done, k: Key, at: nat)
    requires WritersBy(h, k, at) && (n <= at || Wrote(d.log, k).None?)
    ensures WritersBy(h[n := d], k, at)
  {
    var h' := h[n := d];
    forall m: nat | Writes(h', m, k)
      ensures m <= at
    {
      assert m != n ==> Writes(h, m, k);
    }
  }

  /** A checking transaction whose every call is settled. */
  ghost predicate Ready(txns: map<nat, Txn>, t: nat, h: map<nat, Done>) {
    && t in txns && txns[t].phase.Checking? && txns[t].left == {} && txns[t].leftBuckets == {}
    && SettledOk(txns[t], txns, h) && KeysOk(txns[t]) && OwnOk(txns[t].log, txns[t].marks) && txns[t].ticket !in h
  }

  function Decided(x: Txn): Txn { x.(phase := Installing, left := Written(x)) }

  /** Nobody with a larger number has committed a write of a key this transaction writes. */
  lemma LastWriter(txns: map<nat, Txn>, t: nat, h: map<nat, Done>, clock: nat, k: Key)
    requires OrderOk(txns, h, clock) && Ready(txns, t, h) && WritesTo(txns[t], k)
    ensures WritersBy(h, k, txns[t].ticket)
  {
    forall n: nat | Writes(h, n, k)
      ensures n <= txns[t].ticket
    {
      assert DoneOk(h, n, txns);
      var i := WroteWasCalled(h[n].log, k);
      assert DoneAt(h, n, i, txns);
    }
  }

  lemma DecideSettled(txns: map<nat, Txn>, t: nat, h: map<nat, Done>, n: nat, k: Key)
    requires Ready(txns, t, h) && NoneBelow(txns, n, k) && n != txns[t].ticket
    ensures var x := txns[t];
            Value(h[x.ticket := Done(x.log, x.marks)], n, k) == Value(h, n, k) && NoneBelow(txns[t := Decided(x)], n, k)
  {
    var x := txns[t];
    assert KeyOk(k, x);
    DecideValue(h, x.ticket, Done(x.log, x.marks), n, k);
  }

  lemma DecideKeepsSettled(txns: map<nat, Txn>, t: nat, h: map<nat, Done>, u: nat, txns': map<nat, Txn>,
                           h': map<nat, Done>)
    requires Ready(txns, t, h) && u in txns && u != t && SettledOk(txns[u], txns, h) && txns[u].ticket != txns[t].ticket
    requires txns' == txns[t := Decided(txns[t])] && h' == h[txns[t].ticket := Done(txns[t].log, txns[t].marks)]
    ensures SettledOk(txns[u], txns', h')
  {
    forall i | 0 <= i < |txns[u].log|
      ensures SettledAt(txns[u], i, txns', h')
    {
      assert SettledAt(txns[u], i, txns, h);
      if Settled(txns[u], i) {
        DecideSettled(txns, t, h, txns[u].ticket, txns[u].log[i].k);
      }
    }
  }

  lemma DecideKeepsDone(txns: map<nat, Txn>, t: nat, h: map<nat, Done>, n: nat, txns': map<nat, Txn>,
                        h': map<nat, Done>)
    requires Ready(txns, t, h) && n in h && DoneOk(h, n, txns)
    requires txns' == txns[t := Decided(txns[t])] && h' == h[txns[t].ticket := Done(txns[t].log, txns[t].marks)]
    ensures DoneOk(h', n, txns')
  {
    forall i | 0 <= i < |h'[n].log|
      ensures DoneAt(h', n, i, txns')
    {
      assert DoneAt(h, n, i, txns);
      DecideSettled(txns, t, h, n, h[n].log[i].k);
    }
  }

  /** Every call of the deciding transaction is true of the rows committed below its number. */
  lemma DecideIsDone(txns: map<nat, Txn>, t: nat, h: map<nat, Done>, txns': map<nat, Txn>, h': map<nat, Done>)
    requires Ready(txns, t, h)
    requires txns' == txns[t := Decided(txns[t])] && h' == h[txns[t].ticket := Done(txns[t].log, txns[t].marks)]
    ensures DoneOk(h', txns[t].ticket, txns')
  {
    var x := txns[t];
    forall i | 0 <= i < |x.log|
      ensures DoneAt(h', x.ticket, i, txns')
    {
      assert SettledAt(x, i, txns, h) && Settled(x, i);
      DecideValue(h, x.ticket, Done(x.log, x.marks), x.ticket, x.log[i].k);
    }
  }

  lemma DecideKeepsTickets(txns: map<nat, Txn>, t: nat, h: map<nat, Done>, clock: nat, d: Done)
    requires TicketsOk(txns, h, clock) && t in txns && txns[t].phase.Checking?
    ensures TicketsOk(txns[t := Decided(txns[t])], h[txns[t].ticket := d], clock)
  {
    var txns' := txns[t := Decided(txns[t])];
    forall u | u in txns'
      ensures MarksBy(txns'[u], clock)
    {
      assert MarksBy(txns[u], clock);
    }
  }

  lemma DecideKeepsOrder(txns: map<nat, Txn>, t: nat, h: map<nat, Done>, clock: nat, txns': map<nat, Txn>,
                         h': map<nat, Done>)
    requires OrderOk(txns, h, clock) && Ready(txns, t, h)
    requires txns' == txns[t := Decided(txns[t])] && h' == h[txns[t].ticket := Done(txns[t].log, txns[t].marks)]
    ensures OrderOk(txns', h', clock)
  {
    DecideKeepsTickets(txns, t, h, clock, Done(txns[t].log, txns[t].marks));
    forall u | u in txns' && txns'[u].phase.Checking?
      ensures SettledOk(txns'[u], txns', h')
    {
      assert SettledOk(txns[u], txns, h);
      DecideKeepsSettled(txns, t, h, u, txns', h');
    }
    forall n | n in h'
      ensures DoneOk(h', n, txns')
    {
      if n == txns[t].ticket {
        DecideIsDone(txns, t, h, txns', h');
      } else {
        assert DoneOk(h, n, txns);
        DecideKeepsDone(txns, t, h, n, txns', h');
      }
    }
  }

  // ------------------------------------------------------------ the transactions at a decision

  /** What t writes is nobody else's insert, so no stamp of a missed key is overtaken unnoticed. */
  lemma DecideKeepsLog(s: State, t: nat, u: nat, d: Done)
    requires Inv(s) && t in s.txns && s.txns[t].phase.Checking? && u in s.txns && u != t && d.log == s.txns[t].log
    requires AddedOk(u, s.txns[u].added, s.txns[u].log, s.els, s.linked)
    requires LogOk(s.txns[u], s.els, s.linked, s.bver, s.history)
    ensures LogOk(s.txns[u], s.els, s.linked, s.bver, s.history[s.txns[t].ticket := d])
  {
    var x, y, h' := s.txns[t], s.txns[u], s.history[s.txns[t].ticket := d];
    assert TxnOk(t, x, s.els, s.linked, s.bver, s.history);
    forall i | 0 <= i < |y.log|
      ensures CallOk(y.log[i], y.marks[i], y, s.els, s.linked, s.bver, h')
    {
      var k := y.log[i].k;
      assert CallOk(y.log[i], y.marks[i], y, s.els, s.linked, s.bver, s.history);
      if y.marks[i].Gone? && y.buckets[k.hash] == BucketVersion(s.bver, k.hash) {
        assert OnlyMine(k, y.added, s.els, s.linked);
        MissedIsNotWritten(s, t, u, k);
        DecideWriters(s.history, x.ticket, d, k, y.marks[i].at);
      }
    }
  }

  lemma MissedIsNotWritten(s: State, t: nat, u: nat, k: Key)
    requires Inv(s) && t in s.txns && s.txns[t].phase.Checking? && u in s.txns && u != t
    requires AddedOk(u, s.txns[u].added, s.txns[u].log, s.els, s.linked)
    requires OnlyMine(k, s.txns[u].added, s.els, s.linked)
    ensures Wrote(s.txns[t].log, k).None?
  {
    var x, y := s.txns[t], s.txns[u];
    assert TxnOk(t, x, s.els, s.linked, s.bver, s.history);
    assert KeyOk(k, x);
    assert k in y.added ==> AddedAt(u, k, y.added[k], y.log, s.els, s.linked);
    if WritesTo(x, k) {
      var id := WriterHolds(t, x, s.els, s.linked, s.home, s.clock, k);
    }
  }

  lemma DecideKeepsOther(s: State, t: nat, u: nat, d: Done)
    requires Inv(s) && t in s.txns && s.txns[t].phase.Checking? && u in s.txns && u != t && d.log == s.txns[t].log
    ensures TxnOk(u, s.txns[u], s.els, s.linked, s.bver, s.history[s.txns[t].ticket := d])
  {
    var y := s.txns[u];
    assert TxnOk(u, y, s.els, s.linked, s.bver, s.history);
    if y.phase.Active? || y.phase.Locking? || y.phase.Checking? {
      DecideKeepsLog(s, t, u, d);
    }
  }

  lemma DecidedOk(s: State, t: nat, h': map<nat, Done>)
    requires Inv(s) && t in s.txns && s.txns[t].phase.Checking?
    requires h' == s.history[s.txns[t].ticket := Done(s.txns[t].log, s.txns[t].marks)]
    ensures InstallingOk(t, Decided(s.txns[t]), s.els, s.linked, h')
  {
    var x, y := s.txns[t], Decided(s.txns[t]);
    assert TxnOk(t, x, s.els, s.linked, s.bver, s.history);
    forall id | id in y.left
      ensures ToInstall(t, y, id, s.els, s.linked)
    {
      assert HeldAt(t, id, s.els);
      if k :| k in x.hits && x.hits[k] == id {
        assert HitAt(k, x.hits[k], x.seen, x.log, s.els) && AtHome(s.els, s.home, id);
        assert Live(s.els, s.linked, k, s.home[k]);
      } else {
        var k :| k in x.added && x.added[k] == id;
        assert AddedAt(t, k, x.added[k], x.log, s.els, s.linked);
      }
    }
    WrittenInRange(t, x, s.els, s.linked);
  }

  lemma DecideKeepsTxns(s: State, t: nat, txns': map<nat, Txn>, h': map<nat, Done>)
    requires Inv(s) && t in s.txns && s.txns[t].phase.Checking?
    requires txns' == s.txns[t := Decided(s.txns[t])]
    requires h' == s.history[s.txns[t].ticket := Done(s.txns[t].log, s.txns[t].marks)]
    ensures TxnsOk(txns', s.els, s.linked, s.bver, h')
  {
    forall u | u in txns'
      ensures TxnOk(u, txns'[u], s.els, s.linked, s.bver, h')
    {
      if u == t {
        DecidedOk(s, t, h');
      } else {
        DecideKeepsOther(s, t, u, Done(s.txns[t].log, s.txns[t].marks));
      }
    }
  }

  // ------------------------------------------------------------ the rows at a decision

  /** An item of the deciding transaction becomes pending, and is the last word on its key. */
  lemma DecidedIsPending(s: State, t: nat, id: nat, h': map<nat, Done>)
    requires Inv(s) && Ready(s.txns, t, s.history) && id in Written(s.txns[t])
    requires h' == s.history[s.txns[t].ticket := Done(s.txns[t].log, s.txns[t].marks)]
    ensures PendingAt(Decided(s.txns[t]), id, s.els, h', s.clock)
  {
    var x := s.txns[t];
    DecidedOk(s, t, h');
    assert ToInstall(t, Decided(x), id, s.els, s.linked);
    var k := s.els[id].key;
    assert KeyOk(k, x);
    LastWriter(s.txns, t, s.history, s.clock, k);
    DecideWriters(s.history, x.ticket, Done(x.log, x.marks), k, x.ticket);
    assert Writes(h', x.ticket, k);
    ValueOfLast(h', x.ticket, s.clock + 1, k);
  }

  /** Another transaction's pending item is not written by the deciding one. */
  lemma OthersStayPending(s: State, t: nat, u: nat, id: nat, d: Done)
    requires Inv(s) && t in s.txns && s.txns[t].phase.Checking? && u in s.txns && Pending(s.txns[u], id)
    requires d.log == s.txns[t].log
    ensures PendingAt(s.txns[u], id, s.els, s.history[s.txns[t].ticket := d], s.clock)
  {
    var x := s.txns[t];
    assert TxnOk(t, x, s.els, s.linked, s.bver, s.history) && TxnOk(u, s.txns[u], s.els, s.linked, s.bver, s.history);
    assert ToInstall(u, s.txns[u], id, s.els, s.linked) && PendingAt(s.txns[u], id, s.els, s.history, s.clock);
    var k := s.els[id].key;
    assert KeyOk(k, x);
    assert !WritesTo(x, k) by {
      if WritesTo(x, k) {
        var j := WriterHolds(t, x, s.els, s.linked, s.home, s.clock, k);
      }
    }
    DecideValue(s.history, x.ticket, d, s.clock + 1, k);
    DecideWriters(s.history, x.ticket, d, k, s.txns[u].ticket);
  }

  lemma DecideKeepsVersion(s: State, t: nat, id: nat, txns': map<nat, Txn>, d: Done)
    requires Inv(s) && t in s.txns && s.txns[t].phase.Checking? && txns' == s.txns[t := Decided(s.txns[t])]
    requires d.log == s.txns[t].log
    ensures VersionAt(id, s.els, txns', s.history[s.txns[t].ticket := d])
  {
    var x := s.txns[t];
    assert TxnOk(t, x, s.els, s.linked, s.bver, s.history) && VersionAt(id, s.els, s.txns, s.history);
    if id < |s.els| && s.els[id].valid && !s.els[id].deleted {
      var k := s.els[id].key;
      assert KeyOk(k, x) && AtHome(s.els, s.home, id);
      assert Live(s.els, s.linked, k, s.home[k]);
      if WritesTo(x, k) {
        var j := WriterHolds(t, x, s.els, s.linked, s.home, s.clock, k);
        assert t in txns' && Pending(txns'[t], id);
      } else if u :| u in s.txns && Pending(s.txns[u], id) {
        assert u in txns' && Pending(txns'[u], id);
      } else {
        DecideWriters(s.history, x.ticket, d, k, s.els[id].version);
      }
    }
  }

  lemma DecideKeepsRow(s: State, t: nat, k: Key, txns': map<nat, Txn>, d: Done)
    requires Inv(s) && Ready(s.txns, t, s.history) && txns' == s.txns[t := Decided(s.txns[t])] && d.log == s.txns[t].log
    ensures KeyRow(k, s.els, s.home, txns', s.history[s.txns[t].ticket := d], s.clock)
  {
    var x := s.txns[t];
    assert TxnOk(t, x, s.els, s.linked, s.bver, s.history) && KeyRow(k, s.els, s.home, s.txns, s.history, s.clock);
    assert KeyOk(k, x);
    if WritesTo(x, k) {
      var j := WriterHolds(t, x, s.els, s.linked, s.home, s.clock, k);
      assert t in txns' && Pending(txns'[t], j);
    } else if u: nat, id: nat :| u in s.txns && Pending(s.txns[u], id) && id < |s.els| && s.els[id].key == k {
      assert u in txns' && Pending(txns'[u], id);
    } else {
      DecideValue(s.history, x.ticket, d, s.clock + 1, k);
    }
  }

  lemma DecideKeepsRows(s: State, t: nat, txns': map<nat, Txn>, h': map<nat, Done>)
    requires Inv(s) && Ready(s.txns, t, s.history)
    requires txns' == s.txns[t := Decided(s.txns[t])]
    requires h' == s.history[s.txns[t].ticket := Done(s.txns[t].log, s.txns[t].marks)]
    ensures RowsOk(s.els, s.home, txns', h', s.clock)
  {
    var d := Done(s.txns[t].log, s.txns[t].marks);
    forall u, id: nat | u in txns' && Pending(txns'[u], id)
      ensures PendingAt(txns'[u], id, s.els, h', s.clock)
    {
      if u == t {
        DecidedIsPending(s, t, id, h');
      } else {
        OthersStayPending(s, t, u, id, d);
      }
    }
    forall id: nat
      ensures VersionAt(id, s.els, txns', h')
    {
      DecideKeepsVersion(s, t, id, txns', d);
    }
    forall k
      ensures KeyRow(k, s.els, s.home, txns', h', s.clock)
    {
      DecideKeepsRow(s, t, k, txns', d);
    }
  }

  lemma AllCheckedKeeps(s: State, t: nat)
    requires Inv(s) && t in s.txns && s.txns[t].phase.Checking? && s.txns[t].left == {} && s.txns[t].leftBuckets == {}
    ensures Inv(Decide(s, t, s.txns[t]))
  {
    var x := s.txns[t];
    var txns', h' := s.txns[t := Decided(x)], s.history[x.ticket := Done(x.log, x.marks)];
    assert TxnOk(t, x, s.els, s.linked, s.bver, s.history) && SettledOk(x, s.txns, s.history);
    DecideKeepsOrder(s.txns, t, s.history, s.clock, txns', h');
    DecideKeepsTxns(s, t, txns', h');
    DecideKeepsRows(s, t, txns', h');
    Assemble(s.bver, s.els, s.linked, s.home, txns', s.clock, h');
  }

  // ------------------------------------------------------------ an install

  function AfterInstall(x: Txn, els: seq<Elem>, id: nat): Txn {
    x.(left := x.left - {id}, needs := if IsDelete(x, els, id) then x.needs else x.needs - {id})
  }

  function HomeAfter(home: map<Key, nat>, x: Txn, els: seq<Elem>, id: nat): map<Key, nat>
    requires id < |els|
  {
    if !Holds(x.hits, els[id].key, id) then home[els[id].key := id]
    else if IsDelete(x, els, id) then home - {els[id].key} else home
  }

  /** An inserted key is in no other live element. */
  lemma InstallKeepsElems(els: seq<Elem>, linked: set<nat>, home: map<Key, nat>, clock: nat, t: nat, x: Txn, id: nat)
    requires ElemsOk(els, linked, home, clock) && ToInstall(t, x, id, els, linked) && x.ticket <= clock
    ensures ElemsOk(els[id := InstalledElem(els[id], id, x)], linked, HomeAfter(home, x, els, id), clock)
  {
    var els', home', k := els[id := InstalledElem(els[id], id, x)], HomeAfter(home, x, els, id), els[id].key;
    assert ElemOk(els[id], clock) && AtHome(els, home, id);
    assert k in home ==> Live(els, linked, k, home[k]);
    forall j | 0 <= j < |els'|
      ensures ElemOk(els'[j], clock) && AtHome(els', home', j)
    {
      assert ElemOk(els[j], clock) && AtHome(els, home, j);
    }
    forall q | q in home'
      ensures Live(els', linked, q, home'[q])
    {
      assert q in home ==> Live(els, linked, q, home[q]);
    }
  }

  lemma InstalledOk(t: nat, x: Txn, els: seq<Elem>, linked: set<nat>, h: map<nat, Done>, id: nat)
    requires InstallingOk(t, x, els, linked, h) && id in x.left && id < |els|
    ensures InstallingOk(t, AfterInstall(x, els, id), els[id := InstalledElem(els[id], id, x)], linked, h)
  {
    var y, els' := AfterInstall(x, els, id), els[id := InstalledElem(els[id], id, x)];
    assert ToInstall(t, x, id, els, linked);
    forall j | j in y.left
      ensures ToInstall(t, y, j, els', linked)
    {
      assert ToInstall(t, x, j, els, linked);
    }
    forall j | j in y.needs && j !in y.left
      ensures DeadAt(t, y, j, els', linked)
    {
      assert j != id ==> DeadAt(t, x, j, els, linked);
    }
    forall j | j in Written(y) && j !in y.left && IsDelete(y, els', j)
      ensures j in y.needs
    {
      assert IsDelete(x, els, j);
    }
  }

  lemma InstallKeepsRow(els: seq<Elem>, linked: set<nat>, home: map<Key, nat>, txns: map<nat, Txn>, h: map<nat, Done>,
                        clock: nat,
                        t: nat, id: nat, els': seq<Elem>, home': map<Key, nat>, txns': map<nat, Txn>, k: Key)
    requires ElemsOk(els, linked, home, clock) && RowsOk(els, home, txns, h, clock)
    requires t in txns && Pending(txns[t], id) && ToInstall(t, txns[t], id, els, linked)
    requires els' == els[id := InstalledElem(els[id], id, txns[t])] && home' == HomeAfter(home, txns[t], els, id)
    requires txns' == txns[t := AfterInstall(txns[t], els, id)]
    ensures KeyRow(k, els', home', txns', h, clock)
  {
    assert KeyRow(k, els, home, txns, h, clock) && AtHome(els, home, id) && PendingAt(txns[t], id, els, h, clock);
    assert k in home ==> Live(els, linked, k, home[k]);
    if k != els[id].key {
      if u: nat, j: nat :| u in txns && Pending(txns[u], j) && j < |els| && els[j].key == k {
        assert u in txns' && Pending(txns'[u], j) && els'[j].key == k;
      }
    }
  }

  lemma InstallKeepsRows(els: seq<Elem>, linked: set<nat>, home: map<Key, nat>, txns: map<nat, Txn>,
                         h: map<nat, Done>, clock: nat,
                         t: nat, id: nat, els': seq<Elem>, home': map<Key, nat>, txns': map<nat, Txn>)
    requires ElemsOk(els, linked, home, clock) && RowsOk(els, home, txns, h, clock)
    requires t in txns && Pending(txns[t], id) && ToInstall(t, txns[t], id, els, linked)
    requires els' == els[id := InstalledElem(els[id], id, txns[t])] && home' == HomeAfter(home, txns[t], els, id)
    requires txns' == txns[t := AfterInstall(txns[t], els, id)]
    ensures RowsOk(els', home', txns', h, clock)
  {
    assert PendingAt(txns[t], id, els, h, clock);
    forall u, j: nat | u in txns' && Pending(txns'[u], j)
      ensures PendingAt(txns'[u], j, els', h, clock)
    {
      assert PendingAt(txns[u], j, els, h, clock);
    }
    forall j: nat
      ensures VersionAt(j, els', txns', h)
    {
      assert VersionAt(j, els, txns, h);
      if u :| j != id && u in txns && Pending(txns[u], j) {
        assert u in txns' && Pending(txns'[u], j);
      }
    }
    forall k
      ensures KeyRow(k, els', home', txns', h, clock)
    {
      InstallKeepsRow(els, linked, home, txns, h, clock, t, id, els', home', txns', k);
    }
  }

  lemma InstallKeeps(s: State, t: nat, id: nat)
    requires Inv(s) && t in s.txns && s.txns[t].phase.Installing? && id in s.txns[t].left && id < |s.els|
    ensures Inv(InstallItem(s, t, s.txns[t], id))
  {
    var x, e := s.txns[t], s.els[id];
    var y, els', home' := AfterInstall(x, s.els, id), s.els[id := InstalledElem(e, id, x)],
      HomeAfter(s.home, x, s.els, id);
    assert TxnOk(t, x, s.els, s.linked, s.bver, s.history) && MarksBy(x, s.clock);
    assert ToInstall(t, x, id, s.els, s.linked);
    InstallKeepsElems(s.els, s.linked, s.home, s.clock, t, x, id);
    InstalledOk(t, x, s.els, s.linked, s.history, id);
    EvolveKeepsTxns(s.txns, t, y, s.els, id, els'[id], s.linked, s.bver, s.history);
    OrderKeeps(s.txns, t, y, s.history, s.clock);
    InstallKeepsRows(s.els, s.linked, s.home, s.txns, s.history, s.clock, t, id, els', home', s.txns[t := y]);
    Assemble(s.bver, els', s.linked, home', s.txns[t := y], s.clock, s.history);
  }
}
