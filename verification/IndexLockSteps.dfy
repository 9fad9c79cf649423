/** Locking, unlocking and unlinking one item keep the invariant. */
module IndexLockSteps {
  import opened Options
  import opened HashKeys
  import opened IndexCalls
  import opened IndexOcc
  import opened IndexInv
  import opened IndexSteps

  // ------------------------------------------------------------ an element moves on

  /** Only the lock changes. */
  ghost predicate Relocked(e: Elem, e': Elem) { e' == e.(lock := e'.lock) }

  /** Key and inserter stay, versions grow, and the row changes only with the version. */
  ghost predicate Evolves(e: Elem, e': Elem) {
    && e'.key == e.key && e'.maker == e.maker && e.version <= e'.version && (e.valid ==> e'.valid)
    && (e'.version == e.version ==> Relocked(e, e'))
  }

  lemma EvolveKeepsItems(t: nat, x: Txn, els: seq<Elem>, id: nat, e': Elem, linked: set<nat>)
    requires AddedOk(t, x.added, x.log, els, linked) && SeenOk(x.seen, x.added, els)
    requires HitsOk(x.hits, x.seen, x.log, els)
    requires id < |els| && Evolves(els[id], e') && (Relocked(els[id], e') || els[id].valid || els[id].maker != t)
    ensures var els' := els[id := e'];
            AddedOk(t, x.added, x.log, els', linked) && SeenOk(x.seen, x.added, els')
              && HitsOk(x.hits, x.seen, x.log, els')
  {
    var els' := els[id := e'];
    forall k | k in x.added
      ensures AddedAt(t, k, x.added[k], x.log, els', linked)
    {
      assert AddedAt(t, k, x.added[k], x.log, els, linked);
    }
    forall j | j in x.seen
      ensures SeenAt(j, x.seen[j], x.added, els')
    {
      assert SeenAt(j, x.seen[j], x.added, els);
    }
    forall k | k in x.hits
      ensures HitAt(k, x.hits[k], x.seen, x.log, els')
    {
      assert HitAt(k, x.hits[k], x.seen, x.log, els);
    }
  }

  lemma EvolveKeepsLog(x: Txn, els: seq<Elem>, id: nat, e': Elem, linked: set<nat>, bver: map<nat, nat>,
                       h: map<nat, Done>)
    requires LogOk(x, els, linked, bver, h) && SeenOk(x.seen, x.added, els) && id < |els| && Evolves(els[id], e')
    ensures LogOk(x, els[id := e'], linked, bver, h)
  {
    forall i | 0 <= i < |x.log|
      ensures CallOk(x.log[i], x.marks[i], x, els[id := e'], linked, bver, h)
    {
      assert CallOk(x.log[i], x.marks[i], x, els, linked, bver, h);
      if x.marks[i].Row? {
        assert SeenAt(x.marks[i].id, x.seen[x.marks[i].id], x.added, els);
      }
    }
  }

  /** An element the transaction does not hold evolves. */
  lemma EvolveKeepsHeld(t: nat, needs: set<nat>, els: seq<Elem>, id: nat, e': Elem)
    requires HeldOk(t, needs, els) && id < |els| && els[id].lock != Some(t)
    ensures HeldOk(t, needs, els[id := e']) && id !in needs
  {
    assert id in needs ==> HeldAt(t, id, els);
    forall j | j in needs
      ensures HeldAt(t, j, els[id := e'])
    {
      assert HeldAt(t, j, els);
    }
  }

  lemma EvolveKeepsTidy(x: Txn, els: seq<Elem>, id: nat, e': Elem, linked: set<nat>, left: set<nat>, done: bool)
    requires Tidy(x, els, linked, left, done) && id < |els| && e'.key == els[id].key
    ensures Tidy(x, els[id := e'], linked, left, done)
  {
    forall j | j in Written(x) && j !in left && ToUnlink(x, els[id := e'], j, done)
      ensures j !in linked
    {
      assert ToUnlink(x, els, j, done);
    }
  }

  lemma EvolveKeepsInstalling(t: nat, x: Txn, els: seq<Elem>, id: nat, e': Elem, linked: set<nat>, h: map<nat, Done>)
    requires InstallingOk(t, x, els, linked, h) && id < |els| && e'.key == els[id].key && els[id].lock != Some(t)
    ensures InstallingOk(t, x, els[id := e'], linked, h)
  {
    var els' := els[id := e'];
    forall j | j in x.left
      ensures ToInstall(t, x, j, els', linked)
    {
      assert ToInstall(t, x, j, els, linked);
    }
    forall j | j in x.needs && j !in x.left
      ensures DeadAt(t, x, j, els', linked)
    {
      assert DeadAt(t, x, j, els, linked);
    }
    forall j | j in Written(x) && j !in x.left && IsDelete(x, els', j)
      ensures j in x.needs
    {
      assert IsDelete(x, els, j);
    }
  }

  lemma EvolveKeepsCleaning(t: nat, x: Txn, els: seq<Elem>, id: nat, e': Elem, linked: set<nat>)
    requires id < |els| && Evolves(els[id], e') && els[id].lock != Some(t)
    requires Relocked(els[id], e') || els[id].valid || els[id].maker != t
    ensures CleaningCommit(t, x, els, linked) ==> CleaningCommit(t, x, els[id := e'], linked)
    ensures CleaningAbort(t, x, els, linked) ==> CleaningAbort(t, x, els[id := e'], linked)
  {
    var els' := els[id := e'];
    if CleaningCommit(t, x, els, linked) {
      forall j | j in x.needs
        ensures j in x.left && DeadAt(t, x, j, els', linked)
      {
        assert DeadAt(t, x, j, els, linked);
      }
      forall j | j in x.left && IsDelete(x, els', j)
        ensures j in x.needs
      {
        assert IsDelete(x, els, j);
      }
    }
    if CleaningAbort(t, x, els, linked) {
      EvolveKeepsHeld(t, x.needs, els, id, e');
      forall j | j in x.left && j in x.added.Values
        ensures OrphanAt(t, x, j, els', linked)
      {
        assert OrphanAt(t, x, j, els, linked);
      }
    }
  }

  lemma EvolveKeepsBefore(t: nat, x: Txn, els: seq<Elem>, id: nat, e': Elem, linked: set<nat>, bver: map<nat, nat>,
                          h: map<nat, Done>)
    requires BeforeOk(t, x, els, linked, bver, h) && id < |els| && Evolves(els[id], e')
    requires els[id].lock != Some(t) && (Relocked(els[id], e') || els[id].valid || els[id].maker != t)
    ensures BeforeOk(t, x, els[id := e'], linked, bver, h) && id !in x.needs
  {
    EvolveKeepsItems(t, x, els, id, e', linked);
    EvolveKeepsLog(x, els, id, e', linked, bver, h);
    EvolveKeepsHeld(t, x.needs, els, id, e');
  }

  /** An element that is neither locked nor inserted by u may evolve as far as u is concerned. */
  lemma EvolveKeepsOther(u: nat, y: Txn, els: seq<Elem>, id: nat, e': Elem, linked: set<nat>, bver: map<nat, nat>,
                         h: map<nat, Done>)
    requires TxnOk(u, y, els, linked, bver, h) && id < |els| && Evolves(els[id], e')
    requires els[id].lock != Some(u) && (Relocked(els[id], e') || els[id].valid || els[id].maker != u)
    ensures TxnOk(u, y, els[id := e'], linked, bver, h)
  {
    if y.phase.Installing? {
      EvolveKeepsInstalling(u, y, els, id, e', linked, h);
    } else if y.phase.Active? || y.phase.Locking? || y.phase.Checking? {
      EvolveKeepsBefore(u, y, els, id, e', linked, bver, h);
    } else {
      EvolveKeepsTidy(y, els, id, e', linked, if y.phase.Cleaning? then y.left else {}, y.phase.done);
      if y.phase.Cleaning? {
        EvolveKeepsCleaning(u, y, els, id, e', linked);
      } else {
        assert HeldOk(u, y.needs, els);
        EvolveKeepsHeld(u, y.needs, els, id, e');
      }
    }
  }

  // ------------------------------------------------------------ only a lock changes

  lemma RelockKeepsElems(els: seq<Elem>, id: nat, e': Elem, linked: set<nat>, home: map<Key, nat>, clock: nat)
    requires ElemsOk(els, linked, home, clock) && id < |els| && Relocked(els[id], e') && ElemOk(e', clock)
    ensures ElemsOk(els[id := e'], linked, home, clock)
  {
    var els' := els[id := e'];
    forall j | 0 <= j < |els'|
      ensures ElemOk(els'[j], clock) && AtHome(els', home, j)
    {
      assert ElemOk(els[j], clock) && AtHome(els, home, j);
    }
    forall k | k in home
      ensures Live(els', linked, k, home[k])
    {
      assert Live(els, linked, k, home[k]);
    }
  }

  lemma RelockKeepsRows(els: seq<Elem>, id: nat, e': Elem, home: map<Key, nat>, txns: map<nat, Txn>,
                        h: map<nat, Done>, clock: nat)
    requires RowsOk(els, home, txns, h, clock) && id < |els| && Relocked(els[id], e')
    ensures RowsOk(els[id := e'], home, txns, h, clock)
  {
    var els' := els[id := e'];
    forall t, j: nat | t in txns && Pending(txns[t], j)
      ensures PendingAt(txns[t], j, els', h, clock)
    {
      assert PendingAt(txns[t], j, els, h, clock);
    }
    forall j: nat
      ensures VersionAt(j, els', txns, h)
    {
      assert VersionAt(j, els, txns, h);
    }
    forall k
      ensures KeyRow(k, els', home, txns, h, clock)
    {
      assert KeyRow(k, els, home, txns, h, clock);
      if t: nat, j: nat :| t in txns && Pending(txns[t], j) && j < |els| && els[j].key == k {
        assert els'[j].key == k;
      }
    }
  }

  lemma EvolveKeepsTxns(txns: map<nat, Txn>, t: nat, y: Txn, els: seq<Elem>, id: nat, e': Elem, linked: set<nat>,
                        bver: map<nat, nat>, h: map<nat, Done>)
    requires TxnsOk(txns, els, linked, bver, h) && id < |els| && Evolves(els[id], e')
    requires TxnOk(t, y, els[id := e'], linked, bver, h)
    requires forall u :: u in txns && u != t ==>
               els[id].lock != Some(u) && (Relocked(els[id], e') || els[id].valid || els[id].maker != u)
    ensures TxnsOk(txns[t := y], els[id := e'], linked, bver, h)
  {
    var txns' := txns[t := y];
    forall u | u in txns'
      ensures TxnOk(u, txns'[u], els[id := e'], linked, bver, h)
    {
      if u != t {
        assert TxnOk(u, txns[u], els, linked, bver, h);
        EvolveKeepsOther(u, txns[u], els, id, e', linked, bver, h);
      }
    }
  }

  lemma RelockKeeps(s: State, t: nat, y: Txn, id: nat, e': Elem)
    requires Inv(s) && t in s.txns && id < |s.els| && Relocked(s.els[id], e') && ElemOk(e', s.clock)
    requires TxnOk(t, y, s.els[id := e'], s.linked, s.bver, s.history)
    requires s.els[id].lock.None? || s.els[id].lock == Some(t)
    requires MarksBy(y, s.clock) && !Ticketed(y) && !s.txns[t].phase.Installing?
    ensures Inv(s.(els := s.els[id := e'], txns := s.txns[t := y]))
  {
    RelockKeepsElems(s.els, id, e', s.linked, s.home, s.clock);
    EvolveKeepsTxns(s.txns, t, y, s.els, id, e', s.linked, s.bver, s.history);
    OrderKeeps(s.txns, t, y, s.history, s.clock);
    RelockKeepsRows(s.els, id, e', s.home, s.txns, s.history, s.clock);
    RowsKeep(s.els[id := e'], s.home, s.txns, t, y, s.history, s.clock);
  }

  // ------------------------------------------------------------ locking and unlocking an item

  /** What a transaction writes is there already, or is its own insert. */
  lemma WrittenIs(t: nat, x: Txn, els: seq<Elem>, linked: set<nat>, id: nat)
    requires AddedOk(t, x.added, x.log, els, linked) && HitsOk(x.hits, x.seen, x.log, els) && id in Written(x)
    ensures id < |els| && (els[id].valid || els[id].maker == t)
  {
    if k :| k in x.added && x.added[k] == id {
      assert AddedAt(t, k, x.added[k], x.log, els, linked);
    } else {
      var k :| k in x.hits && x.hits[k] == id;
      assert HitAt(k, x.hits[k], x.seen, x.log, els);
    }
  }

  /** Neither the phase nor the loop's sets matter before the decision. */
  lemma SameBefore(t: nat, x: Txn, y: Txn, els: seq<Elem>, linked: set<nat>, bver: map<nat, nat>, h: map<nat, Done>)
    requires BeforeOk(t, x, els, linked, bver, h) && HeldOk(t, y.needs, els)
    requires y == x.(phase := y.phase, needs := y.needs, left := y.left, leftBuckets := y.leftBuckets,
                     ticket := y.ticket)
    ensures BeforeOk(t, y, els, linked, bver, h)
  {
    forall k
      ensures KeyOk(k, y)
    {
      assert KeyOk(k, x);
    }
    forall i | 0 <= i < |y.log|
      ensures CallOk(y.log[i], y.marks[i], y, els, linked, bver, h)
    {
      assert CallOk(x.log[i], x.marks[i], x, els, linked, bver, h);
    }
  }

  lemma LockedOk(t: nat, x: Txn, els: seq<Elem>, linked: set<nat>, bver: map<nat, nat>, h: map<nat, Done>, id: nat)
    requires TxnOk(t, x, els, linked, bver, h) && x.phase.Locking? && id in x.left && id < |els|
    requires els[id].lock.None? && !els[id].deleted
    ensures var y := x.(needs := x.needs + {id}, left := x.left - {id});
            TxnOk(t, y, els[id := els[id].(lock := Some(t))], linked, bver, h)
  {
    var y, els' := x.(needs := x.needs + {id}, left := x.left - {id}), els[id := els[id].(lock := Some(t))];
    EvolveKeepsBefore(t, x, els, id, els'[id], linked, bver, h);
    forall j | j in y.needs
      ensures HeldAt(t, j, els')
    {
      assert j in x.needs ==> HeldAt(t, j, els');
    }
    SameBefore(t, x, y, els', linked, bver, h);
  }

  lemma LockKeeps(s: State, t: nat, id: nat)
    requires Inv(s) && t in s.txns && s.txns[t].phase.Locking? && id in s.txns[t].left && id < |s.els|
    ensures Inv(LockItem(s, t, s.txns[t], id))
  {
    var x := s.txns[t];
    if s.els[id].lock.Some? {
      StopKeeps(s, t);
    } else {
      assert TxnOk(t, x, s.els, s.linked, s.bver, s.history) && MarksBy(x, s.clock) && ElemOk(s.els[id], s.clock);
      WrittenIs(t, x, s.els, s.linked, id);
      LockedOk(t, x, s.els, s.linked, s.bver, s.history, id);
      RelockKeeps(s, t, x.(needs := x.needs + {id}, left := x.left - {id}), id, s.els[id].(lock := Some(t)));
    }
  }

  lemma UnlockKeeps(s: State, t: nat, id: nat)
    requires Inv(s) && t in s.txns && s.txns[t].phase.Unlocking? && id in s.txns[t].needs && id < |s.els|
    ensures Inv(UnlockItem(s, t, s.txns[t], id))
  {
    var x, e' := s.txns[t], s.els[id].(lock := None);
    var y := x.(needs := x.needs - {id});
    assert TxnOk(t, x, s.els, s.linked, s.bver, s.history) && MarksBy(x, s.clock) && ElemOk(s.els[id], s.clock);
    assert HeldAt(t, id, s.els);
    EvolveKeepsTidy(x, s.els, id, e', s.linked, {}, x.phase.done);
    SameTidy(x, y, s.els[id := e'], s.linked, {}, x.phase.done);
    forall j | j in y.needs
      ensures HeldAt(t, j, s.els[id := e'])
    {
      assert HeldAt(t, j, s.els);
    }
    RelockKeeps(s, t, y, id, e');
  }

  lemma SameTidy(x: Txn, y: Txn, els: seq<Elem>, linked: set<nat>, left: set<nat>, done: bool)
    requires Tidy(x, els, linked, left, done) && y.hits == x.hits && y.added == x.added && y.log == x.log
    ensures Tidy(y, els, linked, left, done)
  {
    forall id | id in Written(y) && id !in left && ToUnlink(y, els, id, done)
      ensures id !in linked
    {
      assert ToUnlink(x, els, id, done);
    }
  }

  // ------------------------------------------------------------ unlinking an item

  lemma UnlinkKeepsElems(els: seq<Elem>, linked: set<nat>, home: map<Key, nat>, clock: nat, id: nat)
    requires ElemsOk(els, linked, home, clock) && id < |els| && (els[id].deleted || !els[id].valid)
    ensures ElemsOk(els, linked - {id}, home, clock)
  {
    forall k | k in home
      ensures Live(els, linked - {id}, k, home[k])
    {
      assert Live(els, linked, k, home[k]);
    }
  }

  lemma UnlinkKeepsBefore(t: nat, x: Txn, els: seq<Elem>, linked: set<nat>, bver: map<nat, nat>, h: map<nat, Done>,
                          id: nat)
    requires BeforeOk(t, x, els, linked, bver, h) && id < |els| && (els[id].valid || els[id].maker != t)
    ensures BeforeOk(t, x, els, linked - {id}, bver, h)
  {
    forall k | k in x.added
      ensures AddedAt(t, k, x.added[k], x.log, els, linked - {id})
    {
      assert AddedAt(t, k, x.added[k], x.log, els, linked);
    }
    forall i | 0 <= i < |x.log|
      ensures CallOk(x.log[i], x.marks[i], x, els, linked - {id}, bver, h)
    {
      assert CallOk(x.log[i], x.marks[i], x, els, linked, bver, h);
    }
  }

  lemma UnlinkKeepsInstalling(t: nat, x: Txn, els: seq<Elem>, linked: set<nat>, h: map<nat, Done>, id: nat)
    requires InstallingOk(t, x, els, linked, h) && id < |els| && els[id].lock != Some(t)
    ensures InstallingOk(t, x, els, linked - {id}, h)
  {
    forall j | j in x.left
      ensures ToInstall(t, x, j, els, linked - {id})
    {
      assert ToInstall(t, x, j, els, linked);
    }
    forall j | j in x.needs && j !in x.left
      ensures DeadAt(t, x, j, els, linked - {id})
    {
      assert DeadAt(t, x, j, els, linked);
    }
  }

  lemma UnlinkKeepsCleaning(t: nat, x: Txn, els: seq<Elem>, linked: set<nat>, id: nat)
    requires id < |els| && els[id].lock != Some(t) && (els[id].valid || els[id].maker != t)
    ensures CleaningCommit(t, x, els, linked) ==> CleaningCommit(t, x, els, linked - {id})
    ensures CleaningAbort(t, x, els, linked) ==> CleaningAbort(t, x, els, linked - {id})
  {
    if CleaningCommit(t, x, els, linked) {
      forall j | j in x.needs
        ensures j in x.left && DeadAt(t, x, j, els, linked - {id})
      {
        assert DeadAt(t, x, j, els, linked);
      }
    }
    if CleaningAbort(t, x, els, linked) {
      forall j | j in x.left && j in x.added.Values
        ensures OrphanAt(t, x, j, els, linked - {id})
      {
        assert OrphanAt(t, x, j, els, linked);
      }
    }
  }

  lemma UnlinkKeepsTidy(x: Txn, els: seq<Elem>, linked: set<nat>, left: set<nat>, done: bool, id: nat)
    requires Tidy(x, els, linked, left, done)
    ensures Tidy(x, els, linked - {id}, left, done)
  {
    forall j | j in Written(x) && j !in left && ToUnlink(x, els, j, done)
      ensures j !in linked - {id}
    {
    }
  }

  lemma UnlinkKeepsOther(u: nat, y: Txn, els: seq<Elem>, linked: set<nat>, bver: map<nat, nat>, h: map<nat, Done>,
                         id: nat)
    requires TxnOk(u, y, els, linked, bver, h) && id < |els| && els[id].lock != Some(u)
    requires els[id].valid || els[id].maker != u
    ensures TxnOk(u, y, els, linked - {id}, bver, h)
  {
    if y.phase.Installing? {
      UnlinkKeepsInstalling(u, y, els, linked, h, id);
    } else if y.phase.Active? || y.phase.Locking? || y.phase.Checking? {
      UnlinkKeepsBefore(u, y, els, linked, bver, h, id);
    } else {
      UnlinkKeepsTidy(y, els, linked, if y.phase.Cleaning? then y.left else {}, y.phase.done, id);
      UnlinkKeepsCleaning(u, y, els, linked, id);
    }
  }

  /** What a cleanup unlinks is dead: a deleted element its deleter holds, or an aborted insert. */
  lemma UnlinksOwn(t: nat, x: Txn, els: seq<Elem>, linked: set<nat>, bver: map<nat, nat>, h: map<nat, Done>, id: nat)
    requires TxnOk(t, x, els, linked, bver, h) && x.phase.Cleaning? && id in x.left
    requires ToUnlink(x, els, id, x.phase.done)
    ensures if x.phase.done then DeadAt(t, x, id, els, linked) else OrphanAt(t, x, id, els, linked)
  {
    if x.phase.done {
      assert IsDelete(x, els, id);
      assert DeadAt(t, x, id, els, linked);
    } else {
      assert x.added[els[id].key] == id && id in x.added.Values;
      assert OrphanAt(t, x, id, els, linked);
    }
  }

  lemma CleanedCommit(t: nat, x: Txn, els: seq<Elem>, linked: set<nat>, id: nat, y: Txn, linked': set<nat>)
    requires x.phase == Cleaning(true) && CleaningCommit(t, x, els, linked) && Tidy(x, els, linked, x.left, true)
    requires id in x.left
    requires y == x.(left := x.left - {id}, needs := if IsDelete(x, els, id) then x.needs - {id} else x.needs)
    requires linked' == if IsDelete(x, els, id) then linked - {id} else linked
    ensures CleaningCommit(t, y, els, linked') && Tidy(y, els, linked', y.left, true)
  {
    forall j | j in y.needs
      ensures j in y.left && DeadAt(t, y, j, els, linked')
    {
      assert DeadAt(t, x, j, els, linked);
    }
    forall j | j in y.left && IsDelete(y, els, j)
      ensures j in y.needs
    {
      assert IsDelete(x, els, j);
    }
    forall j | j in Written(y) && j !in y.left && ToUnlink(y, els, j, true)
      ensures j !in linked'
    {
      assert ToUnlink(x, els, j, true);
    }
  }

  lemma CleanedAbort(t: nat, x: Txn, els: seq<Elem>, linked: set<nat>, id: nat, y: Txn, linked': set<nat>)
    requires x.phase == Cleaning(false) && CleaningAbort(t, x, els, linked) && Tidy(x, els, linked, x.left, false)
    requires id in x.left
    requires y == x.(left := x.left - {id}, needs := if IsInsert(x, els, id) then x.needs - {id} else x.needs)
    requires linked' == if IsInsert(x, els, id) then linked - {id} else linked
    ensures CleaningAbort(t, y, els, linked') && Tidy(y, els, linked', y.left, false)
  {
    forall j | j in y.left && j in y.added.Values
      ensures OrphanAt(t, y, j, els, linked')
    {
      assert OrphanAt(t, x, j, els, linked);
    }
    forall j | j in Written(y) && j !in y.left && ToUnlink(y, els, j, false)
      ensures j !in linked'
    {
      assert ToUnlink(x, els, j, false);
    }
  }

  lemma UnlinkKeepsTxns(txns: map<nat, Txn>, t: nat, y: Txn, els: seq<Elem>, linked: set<nat>, bver: map<nat, nat>,
                        h: map<nat, Done>, id: nat)
    requires TxnsOk(txns, els, linked, bver, h) && id < |els| && TxnOk(t, y, els, linked - {id}, bver, h)
    requires forall u :: u != t ==> els[id].lock != Some(u) && (els[id].valid || els[id].maker != u)
    ensures TxnsOk(txns[t := y], els, linked - {id}, bver, h)
  {
    var txns' := txns[t := y];
    forall u | u in txns'
      ensures TxnOk(u, txns'[u], els, linked - {id}, bver, h)
    {
      if u != t {
        assert TxnOk(u, txns[u], els, linked, bver, h);
        UnlinkKeepsOther(u, txns[u], els, linked, bver, h, id);
      }
    }
  }

  lemma CleanKeeps(s: State, t: nat, id: nat)
    requires Inv(s) && t in s.txns && s.txns[t].phase.Cleaning? && id in s.txns[t].left
    ensures Inv(CleanItem(s, t, s.txns[t], id))
  {
    var x, unlink := s.txns[t], ToUnlink(s.txns[t], s.els, id, s.txns[t].phase.done);
    var y := x.(left := x.left - {id}, needs := if unlink then x.needs - {id} else x.needs);
    var linked' := if unlink then s.linked - {id} else s.linked;
    assert TxnOk(t, x, s.els, s.linked, s.bver, s.history) && MarksBy(x, s.clock);
    if x.phase.done {
      CleanedCommit(t, x, s.els, s.linked, id, y, linked');
    } else {
      CleanedAbort(t, x, s.els, s.linked, id, y, linked');
    }
    if !unlink {
      TxnKeeps(s, t, y);
    } else {
      UnlinksOwn(t, x, s.els, s.linked, s.bver, s.history, id);
      assert ElemOk(s.els[id], s.clock);
      UnlinkKeepsElems(s.els, s.linked, s.home, s.clock, id);
      UnlinkKeepsTxns(s.txns, t, y, s.els, s.linked, s.bver, s.history, id);
      OrderKeeps(s.txns, t, y, s.history, s.clock);
      RowsKeep(s.els, s.home, s.txns, t, y, s.history, s.clock);
    }
  }

  // ------------------------------------------------------------ from one loop to the next

  lemma TryKeeps(s: State, t: nat)
    requires Inv(s) && t in s.txns && s.txns[t].phase.Active?
    ensures Inv(WithTxn(s, t, s.txns[t].(phase := Locking, left := Written(s.txns[t]))))
  {
    var x := s.txns[t];
    var y := x.(phase := Locking, left := Written(x));
    assert TxnOk(t, x, s.els, s.linked, s.bver, s.history) && MarksBy(x, s.clock);
    SameBefore(t, x, y, s.els, s.linked, s.bver, s.history);
    TxnKeeps(s, t, y);
  }

  lemma AllInstalledKeeps(s: State, t: nat)
    requires Inv(s) && t in s.txns && s.txns[t].phase.Installing? && s.txns[t].left == {}
    ensures Inv(WithTxn(s, t, Stop(s.txns[t], true)))
  {
    var x := s.txns[t];
    var y := Stop(x, true);
    assert TxnOk(t, x, s.els, s.linked, s.bver, s.history) && MarksBy(x, s.clock);
    forall id | id in y.needs
      ensures id in y.left && DeadAt(t, y, id, s.els, s.linked)
    {
      assert DeadAt(t, x, id, s.els, s.linked);
      assert x.hits[s.els[id].key] == id;
    }
    forall id | id in y.left && IsDelete(y, s.els, id)
      ensures id in y.needs
    {
      assert IsDelete(x, s.els, id);
    }
    TxnKeeps(s, t, y);
  }

  lemma AllCleanKeeps(s: State, t: nat)
    requires Inv(s) && t in s.txns && s.txns[t].phase.Cleaning? && s.txns[t].left == {}
    ensures Inv(WithTxn(s, t, s.txns[t].(phase := Unlocking(s.txns[t].phase.done))))
  {
    var x := s.txns[t];
    var y := x.(phase := Unlocking(x.phase.done));
    assert TxnOk(t, x, s.els, s.linked, s.bver, s.history) && MarksBy(x, s.clock);
    forall id | id in x.needs
      ensures HeldAt(t, id, s.els)
    {
      assert x.phase.done ==> DeadAt(t, x, id, s.els, s.linked);
    }
    SameTidy(x, y, s.els, s.linked, {}, x.phase.done);
    TxnKeeps(s, t, y);
  }

  lemma AllUnlockedKeeps(s: State, t: nat)
    requires Inv(s) && t in s.txns && s.txns[t].phase.Unlocking? && s.txns[t].needs == {}
    ensures Inv(WithTxn(s, t, s.txns[t].(phase := Over(s.txns[t].phase.done))))
  {
    var x := s.txns[t];
    var y := x.(phase := Over(x.phase.done));
    assert TxnOk(t, x, s.els, s.linked, s.bver, s.history) && MarksBy(x, s.clock);
    SameTidy(x, y, s.els, s.linked, {}, x.phase.done);
    TxnKeeps(s, t, y);
  }
}
