/** How far one step can move transactions, elements and the history, over all actions at once. */
module IndexMoves {
  import opened Options
  import opened HashKeys
  import opened IndexCalls
  import opened IndexOcc
  import opened IndexInv
  import opened IndexRuns

  predicate Committed(x: Txn) {
    x.phase.Installing? || ((x.phase.Cleaning? || x.phase.Unlocking? || x.phase.Over?) && x.phase.done)
  }

  predicate Aborted(x: Txn) { (x.phase.Cleaning? || x.phase.Unlocking? || x.phase.Over?) && !x.phase.done }

  /** The transaction read the element, and that check is still to come. */
  predicate RowWaits(x: Txn, id: nat) {
    id in x.seen && (x.phase.Active? || x.phase.Locking? || (x.phase.Checking? && id in x.left))
  }

  /** The transaction missed a key in the bucket, and that check is still to come. */
  predicate BucketWaits(x: Txn, b: nat) {
    b in x.buckets && (x.phase.Active? || x.phase.Locking? || (x.phase.Checking? && b in x.leftBuckets))
  }

  predicate SameLog(x: Txn, y: Txn) { y.ticket == x.ticket && y.log == x.log && y.marks == x.marks }

  /**
    Commits and aborts are final, numbers are drawn above the clock, and a check
    leaves only by passing or aborting.
   */
  ghost predicate TxnMoves(s: State, x: Txn, y: Txn, id: nat, b: nat) {
    && (Committed(x) ==> Committed(y) && SameLog(x, y))
    && (!Committed(x) && Committed(y) ==> x.phase.Checking? && SameLog(x, y))
    && (y.phase.Checking? ==> (x.phase.Checking? && y.ticket == x.ticket) || y.ticket > s.clock)
    && (Aborted(x) ==> Aborted(y))
    && (RowWaits(x, id) ==>
          Aborted(y) || (x.phase.Checking? && RowPasses(s, x, id)) || (RowWaits(y, id) && y.seen[id] == x.seen[id]))
    && (BucketWaits(x, b) ==>
          Aborted(y) || BucketPasses(s, x, b) || (BucketWaits(y, b) && y.buckets[b] == x.buckets[b]))
  }

  /** A lock in a list is known to its holder. */
  ghost predicate LockKnown(s: State, id: nat) {
    id in s.linked && id < |s.els| && s.els[id].lock.Some? ==>
      s.els[id].lock.value in s.txns && id in s.txns[s.els[id].lock.value].needs
  }

  /** Versions never go back, and a deleted element, lock included, is never touched again. */
  ghost predicate ElemMoves(s: State, s': State, id: nat) {
    && (id < |s.els| ==>
          id < |s'.els| && s.els[id].version <= s'.els[id].version && (s.els[id].deleted ==> s'.els[id] == s.els[id]))
    && (LockKnown(s, id) ==> LockKnown(s', id))
  }

  function TxnOf(s: State, t: nat): Txn { if t in s.txns then s.txns[t] else START }

  /** The history records exactly the commits. */
  ghost predicate HistoryMoves(s: State, s': State, x: Txn, y: Txn) {
    s'.history == if Committed(y) && !Committed(x) then s.history[x.ticket := Done(x.log, x.marks)] else s.history
  }

  ghost predicate Moves(s: State, t: nat, s': State, u: nat, id: nat, b: nat) {
    && (u != t ==> TxnOf(s', u) == TxnOf(s, u)) && (u in s.txns ==> u in s'.txns) && s.clock <= s'.clock
    && TxnMoves(s, TxnOf(s, t), TxnOf(s', t), id, b) && HistoryMoves(s, s', TxnOf(s, t), TxnOf(s', t))
    && ElemMoves(s, s', id) && BucketVersion(s.bver, b) <= BucketVersion(s'.bver, b)
  }

  /** A step that changes only its transaction. */
  lemma TxnOnlyMoves(s: State, t: nat, y: Txn, u: nat, id: nat, b: nat)
    requires t in s.txns && TxnMoves(s, s.txns[t], y, id, b) && y.needs == s.txns[t].needs
    requires Committed(y) ==> Committed(s.txns[t])
    ensures Moves(s, t, WithTxn(s, t, y), u, id, b)
  {
  }

  lemma PrivateMoves(s: State, x: Txn, a: Action, id: nat, b: nat)
    requires Private(a) && Enabled(s, x, a)
    ensures var y := NextTxn(s, x, a); TxnMoves(s, x, y, id, b) && y.needs == x.needs && (Committed(y) ==> Committed(x))
  {
  }

  /** A call stops its transaction or keeps every first observation. */
  ghost predicate Observes(x: Txn, y: Txn, id: nat, b: nat) {
    || y == Stop(x, false)
    || (&& y.phase.Active? && y.needs == x.needs && (id in x.seen ==> id in y.seen && y.seen[id] == x.seen[id])
        && (b in x.buckets ==> b in y.buckets && y.buckets[b] == x.buckets[b]))
  }

  lemma FoundObserves(x: Txn, op: Op, e: Elem, i: nat, id: nat, b: nat)
    requires x.phase.Active?
    ensures Observes(x, Found(x, op, e, i), id, b)
  {
  }

  lemma MissObserves(s: State, x: Txn, op: Op, k: Key, id: nat, b: nat)
    requires x.phase.Active?
    ensures Observes(x, Miss(s, x, op, k), id, b)
  {
  }

  lemma ObservesMoves(s: State, x: Txn, y: Txn, id: nat, b: nat)
    requires x.phase.Active? && Observes(x, y, id, b)
    ensures TxnMoves(s, x, y, id, b) && y.needs == x.needs && !Committed(y)
  {
  }

  lemma CallTxnMoves(s: State, x: Txn, op: Op, k: Key, id: nat, b: nat)
    requires x.phase.Active?
    ensures var y := CallTxn(s, x, op, k); TxnMoves(s, x, y, id, b) && y.needs == x.needs && !Committed(y)
  {
    var i := FindIn(s, k);
    if i == -1 {
      MissObserves(s, x, op, k, id, b);
    } else {
      FoundObserves(x, op, s.els[i], i, id, b);
    }
    ObservesMoves(s, x, CallTxn(s, x, op, k), id, b);
  }

  lemma InsertMoves(s: State, t: nat, k: Key, row: int, u: nat, id: nat, b: nat)
    requires t in s.txns && s.txns[t].phase.Active?
    ensures Moves(s, t, InsertNew(s, t, s.txns[t], k, row), u, id, b)
  {
  }

  lemma CallMoves(s: State, t: nat, op: Op, k: Key, u: nat, id: nat, b: nat)
    requires t in s.txns && s.txns[t].phase.Active?
    ensures Moves(s, t, OnElem(s, t, op, k), u, id, b)
  {
    if op.Insert? && FindIn(s, k) == -1 {
      InsertMoves(s, t, k, op.row, u, id, b);
    } else {
      CallTxnMoves(s, s.txns[t], op, k, id, b);
      TxnOnlyMoves(s, t, CallTxn(s, s.txns[t], op, k), u, id, b);
    }
  }

  lemma LockedMoves(s: State, t: nat, y: Txn, i: nat, u: nat, id: nat, b: nat)
    requires t in s.txns && TxnMoves(s, s.txns[t], y, id, b) && i < |s.els| && s.els[i].lock.None? && !s.els[i].deleted
    requires y.needs == s.txns[t].needs + {i} && (Committed(y) <==> Committed(s.txns[t]))
    ensures Moves(s, t, s.(els := s.els[i := s.els[i].(lock := Some(t))], txns := s.txns[t := y]), u, id, b)
  {
  }

  lemma LockMoves(s: State, t: nat, i: nat, u: nat, id: nat, b: nat)
    requires t in s.txns && s.txns[t].phase.Locking? && i < |s.els| && ElemOk(s.els[i], s.clock)
    ensures Moves(s, t, LockItem(s, t, s.txns[t], i), u, id, b)
  {
    var x := s.txns[t];
    if s.els[i].lock.None? {
      LockedMoves(s, t, x.(needs := x.needs + {i}, left := x.left - {i}), i, u, id, b);
    } else {
      TxnOnlyMoves(s, t, Stop(x, false), u, id, b);
    }
  }

  lemma LocksHeldMoves(s: State, t: nat, u: nat, id: nat, b: nat)
    requires t in s.txns && s.txns[t].phase.Locking?
    ensures Moves(s, t, LocksHeld(s, t, s.txns[t]), u, id, b)
  {
  }

  lemma DecideMoves(s: State, t: nat, u: nat, id: nat, b: nat)
    requires t in s.txns && s.txns[t].phase.Checking? && s.txns[t].left == {} && s.txns[t].leftBuckets == {}
    ensures Moves(s, t, Decide(s, t, s.txns[t]), u, id, b)
  {
  }

  lemma InstallMoves(s: State, t: nat, i: nat, u: nat, id: nat, b: nat)
    requires Inv(s) && t in s.txns && s.txns[t].phase.Installing? && i in s.txns[t].left && i < |s.els|
    ensures Moves(s, t, InstallItem(s, t, s.txns[t], i), u, id, b)
  {
    assert TxnOk(t, s.txns[t], s.els, s.linked, s.bver, s.history);
    assert ToInstall(t, s.txns[t], i, s.els, s.linked);
  }

  lemma UnlinkMoves(s: State, t: nat, y: Txn, i: nat, u: nat, id: nat, b: nat)
    requires t in s.txns && TxnMoves(s, s.txns[t], y, id, b)
    requires y.needs == s.txns[t].needs - {i} && (Committed(y) <==> Committed(s.txns[t]))
    ensures Moves(s, t, s.(linked := s.linked - {i}, txns := s.txns[t := y]), u, id, b)
  {
  }

  lemma CleanMoves(s: State, t: nat, i: nat, u: nat, id: nat, b: nat)
    requires t in s.txns && s.txns[t].phase.Cleaning?
    ensures Moves(s, t, CleanItem(s, t, s.txns[t], i), u, id, b)
  {
    var x := s.txns[t];
    if ToUnlink(x, s.els, i, x.phase.done) {
      UnlinkMoves(s, t, x.(left := x.left - {i}, needs := x.needs - {i}), i, u, id, b);
    } else {
      TxnOnlyMoves(s, t, x.(left := x.left - {i}), u, id, b);
    }
  }

  lemma UnlockMoves(s: State, t: nat, i: nat, u: nat, id: nat, b: nat)
    requires Inv(s) && t in s.txns && s.txns[t].phase.Unlocking? && i in s.txns[t].needs && i < |s.els|
    ensures Moves(s, t, UnlockItem(s, t, s.txns[t], i), u, id, b)
  {
    assert TxnOk(t, s.txns[t], s.els, s.linked, s.bver, s.history);
    assert HeldAt(t, i, s.els);
  }

  lemma BeginMoves(s: State, t: nat, u: nat, id: nat, b: nat)
    requires t !in s.txns
    ensures Moves(s, t, WithTxn(s, t, START), u, id, b)
  {
  }

  lemma StandsStill(s: State, t: nat, u: nat, id: nat, b: nat)
    ensures Moves(s, t, s, u, id, b)
  {
  }

  lemma StepMoves(s: State, a: Action, u: nat, id: nat, b: nat)
    requires Inv(s)
    ensures Moves(s, a.t, Perform(s, a), u, id, b)
  {
    if a.Begin? {
      if a.t !in s.txns {
        BeginMoves(s, a.t, u, id, b);
      } else {
        StandsStill(s, a.t, u, id, b);
      }
    } else if a.t !in s.txns || !Enabled(s, s.txns[a.t], a) {
      StandsStill(s, a.t, u, id, b);
    } else if Private(a) {
      PrivateMoves(s, s.txns[a.t], a, id, b);
      TxnOnlyMoves(s, a.t, NextTxn(s, s.txns[a.t], a), u, id, b);
    } else {
      match a
      case Do(t, op, k) => CallMoves(s, t, op, k, u, id, b);
      case Lock(t, i) =>
        assert ElemOk(s.els[i], s.clock);
        LockMoves(s, t, i, u, id, b);
      case AllLocked(t) => LocksHeldMoves(s, t, u, id, b);
      case AllChecked(t) => DecideMoves(s, t, u, id, b);
      case Install(t, i) => InstallMoves(s, t, i, u, id, b);
      case Clean(t, i) => CleanMoves(s, t, i, u, id, b);
      case Unlock(t, i) => UnlockMoves(s, t, i, u, id, b);
    }
  }
}
