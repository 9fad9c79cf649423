/**
  A transaction nobody gets in the way of. When all others are over, no call, lock
  or check of a transaction fails, and it can always go on until its commit is done.
 */
module IndexSolo {
  import opened Options
  import opened HashKeys
  import opened IndexCalls
  import opened IndexOcc
  import opened IndexInv
  import opened IndexSteps
  import opened IndexInsertSteps
  import opened IndexRuns
  import opened IndexMoves
  import opened IndexTheorems

  // ------------------------------------------------------------ what a finished transaction leaves

  /** The transaction can still install or unlink its insert. */
  predicate Keeps(x: Txn, id: nat) {
    || x.phase.Active? || x.phase.Locking? || x.phase.Checking?
    || ((x.phase.Installing? || x.phase == Cleaning(false)) && id in x.left)
  }

  /** An invalid element in a list belongs to a transaction that is not done with it. */
  ghost predicate InvalidKnown(els: seq<Elem>, linked: set<nat>, txns: map<nat, Txn>, id: nat) {
    id in linked && id < |els| && !els[id].valid ==>
      var t := els[id].maker; t in txns && Holds(txns[t].added, els[id].key, id) && Keeps(txns[t], id)
  }

  lemma TxnKeepsInvalid(els: seq<Elem>, linked: set<nat>, txns: map<nat, Txn>, t: nat, y: Txn, id: nat)
    requires InvalidKnown(els, linked, txns, id)
    requires t in txns ==> forall k, i: nat :: Holds(txns[t].added, k, i) && Keeps(txns[t], i) ==>
                             Holds(y.added, k, i) && Keeps(y, i)
    ensures InvalidKnown(els, linked, txns[t := y], id)
  {
  }

  lemma StopKeepsInserts(x: Txn, k: Key, i: nat)
    requires Holds(x.added, k, i)
    ensures Keeps(Stop(x, false), i)
  {
    assert x.added[k] in x.added.Values;
  }

  lemma PrivateKeepsInserts(s: State, x: Txn, a: Action, k: Key, i: nat)
    requires Private(a) && Enabled(s, x, a) && Holds(x.added, k, i) && Keeps(x, i)
    ensures var y := NextTxn(s, x, a); Holds(y.added, k, i) && Keeps(y, i)
  {
    StopKeepsInserts(x, k, i);
  }

  lemma PrivateInvalid(s: State, t: nat, a: Action, id: nat)
    requires t in s.txns && Private(a) && Enabled(s, s.txns[t], a) && InvalidKnown(s.els, s.linked, s.txns, id)
    ensures InvalidKnown(s.els, s.linked, s.txns[t := NextTxn(s, s.txns[t], a)], id)
  {
    var x, y := s.txns[t], NextTxn(s, s.txns[t], a);
    forall k, i: nat | Holds(x.added, k, i) && Keeps(x, i)
      ensures Holds(y.added, k, i) && Keeps(y, i)
    {
      PrivateKeepsInserts(s, x, a, k, i);
    }
    TxnKeepsInvalid(s.els, s.linked, s.txns, t, y, id);
  }

  lemma FoundKeepsInserts(x: Txn, op: Op, e: Elem, j: nat, k: Key, i: nat)
    requires x.phase.Active? && Holds(x.added, k, i)
    ensures var y := Found(x, op, e, j); Holds(y.added, k, i) && Keeps(y, i)
  {
    StopKeepsInserts(x, k, i);
  }

  lemma CallInvalid(s: State, t: nat, op: Op, k: Key, id: nat)
    requires Inv(s) && t in s.txns && s.txns[t].phase.Active? && InvalidKnown(s.els, s.linked, s.txns, id)
    ensures var s' := OnElem(s, t, op, k); InvalidKnown(s'.els, s'.linked, s'.txns, id)
  {
    var x, y := s.txns[t], CallTxn(s, s.txns[t], op, k);
    if op.Insert? && FindIn(s, k) == -1 {
      InsertInvalid(s, t, k, op.row, id);
    } else {
      forall q, i: nat | Holds(x.added, q, i) && Keeps(x, i)
        ensures Holds(y.added, q, i) && Keeps(y, i)
      {
        if FindIn(s, k) != -1 {
          FoundKeepsInserts(x, op, s.els[FindIn(s, k)], FindIn(s, k), q, i);
        }
      }
      TxnKeepsInvalid(s.els, s.linked, s.txns, t, y, id);
    }
  }

  lemma InsertInvalid(s: State, t: nat, k: Key, row: int, id: nat)
    requires Inv(s) && t in s.txns && s.txns[t].phase.Active? && InvalidKnown(s.els, s.linked, s.txns, id)
    requires FindIn(s, k) == -1
    ensures var s' := InsertNew(s, t, s.txns[t], k, row); InvalidKnown(s'.els, s'.linked, s'.txns, id)
  {
    NotFoundIsNone(s, k);
  }

  lemma LockInvalid(s: State, t: nat, i: nat, id: nat)
    requires t in s.txns && s.txns[t].phase.Locking? && i < |s.els| && InvalidKnown(s.els, s.linked, s.txns, id)
    ensures var s' := LockItem(s, t, s.txns[t], i); InvalidKnown(s'.els, s'.linked, s'.txns, id)
  {
    var x := s.txns[t];
    forall k, j: nat | Holds(x.added, k, j)
      ensures Keeps(Stop(x, false), j)
    {
      StopKeepsInserts(x, k, j);
    }
  }

  lemma InstallInvalid(s: State, t: nat, i: nat, id: nat)
    requires Inv(s) && t in s.txns && s.txns[t].phase.Installing? && i in s.txns[t].left && i < |s.els|
    requires InvalidKnown(s.els, s.linked, s.txns, id)
    ensures var s' := InstallItem(s, t, s.txns[t], i); InvalidKnown(s'.els, s'.linked, s'.txns, id)
  {
    assert TxnOk(t, s.txns[t], s.els, s.linked, s.bver, s.history);
    assert ToInstall(t, s.txns[t], i, s.els, s.linked);
  }

  lemma CleanInvalid(s: State, t: nat, i: nat, id: nat)
    requires t in s.txns && s.txns[t].phase.Cleaning? && InvalidKnown(s.els, s.linked, s.txns, id)
    ensures var s' := CleanItem(s, t, s.txns[t], i); InvalidKnown(s'.els, s'.linked, s'.txns, id)
  {
  }

  lemma UnlockInvalid(s: State, t: nat, i: nat, id: nat)
    requires t in s.txns && s.txns[t].phase.Unlocking? && i < |s.els| && InvalidKnown(s.els, s.linked, s.txns, id)
    ensures var s' := UnlockItem(s, t, s.txns[t], i); InvalidKnown(s'.els, s'.linked, s'.txns, id)
  {
  }

  lemma StepInvalid(s: State, a: Action, id: nat)
    requires Inv(s) && InvalidKnown(s.els, s.linked, s.txns, id)
    ensures var s' := Perform(s, a); InvalidKnown(s'.els, s'.linked, s'.txns, id)
  {
    if a.t in s.txns && Enabled(s, s.txns[a.t], a) {
      if Private(a) {
        PrivateInvalid(s, a.t, a, id);
      } else {
        match a
        case Do(t, op, k) => CallInvalid(s, t, op, k, id);
        case Lock(t, i) => LockInvalid(s, t, i, id);
        case AllLocked(t) =>
        case AllChecked(t) => DecideInvalid(s, t, id);
        case Install(t, i) => InstallInvalid(s, t, i, id);
        case Clean(t, i) => CleanInvalid(s, t, i, id);
        case Unlock(t, i) => UnlockInvalid(s, t, i, id);
      }
    }
  }

  lemma DecideInvalid(s: State, t: nat, id: nat)
    requires t in s.txns && InvalidKnown(s.els, s.linked, s.txns, id)
    ensures var s' := Decide(s, t, s.txns[t]); InvalidKnown(s'.els, s'.linked, s'.txns, id)
  {
    var x := s.txns[t];
    forall k, i: nat | Holds(x.added, k, i)
      ensures i in Written(x)
    {
      assert x.added[k] in x.added.Values;
    }
  }

  lemma {:induction false} RunInvalid(actions: seq<Action>, id: nat)
    ensures var s := Run(actions); InvalidKnown(s.els, s.linked, s.txns, id)
    decreases |actions|
  {
    if actions != [] {
      RunInvalid(actions[..|actions| - 1], id);
      RunKeeps(actions[..|actions| - 1]);
      StepInvalid(Run(actions[..|actions| - 1]), actions[|actions| - 1], id);
    }
  }

  // ------------------------------------------------------------ nobody in the way

  /** All transactions but t are over. */
  ghost predicate Alone(s: State, t: nat) { forall u :: u in s.txns && u != t ==> s.txns[u].phase.Over? }

  /** What t has observed is current, what it writes is linked, and no element is anybody else's. */
  ghost predicate Fits(t: nat, x: Txn, els: seq<Elem>, linked: set<nat>, bver: map<nat, nat>) {
    && (forall id :: id in x.seen ==> id in linked && id < |els| && els[id].version == x.seen[id])
    && (forall b :: b in x.buckets ==> x.buckets[b] == BucketVersion(bver, b))
    && Written(x) <= linked
    && (forall id :: id in linked && id < |els| ==>
          && (els[id].lock.None? || (els[id].lock == Some(t) && id in x.needs))
          && (els[id].valid || Holds(x.added, els[id].key, id)))
  }

  ghost predicate Undecided(x: Txn) {
    || (x.phase.Active? && x.needs == {})
    || (x.phase.Locking? && x.left !! x.needs && x.left <= Written(x))
    || (x.phase.Checking? && x.needs == Written(x) && x.left <= x.seen.Keys && x.leftBuckets <= x.buckets.Keys)
  }

  ghost predicate Unhindered(s: State, t: nat) {
    t in s.txns && (Committed(s.txns[t]) || (Undecided(s.txns[t]) && Fits(t, s.txns[t], s.els, s.linked, s.bver)))
  }

  /** When everybody is over, all linked elements are valid and unlocked. */
  lemma StartFits(actions: seq<Action>, t: nat)
    requires Alone(Run(actions), t) && t !in Run(actions).txns
    ensures var s := Run(actions); Fits(t, START, s.els, s.linked, s.bver)
  {
    var s := Run(actions);
    RunKeeps(actions);
    forall id | id in s.linked && id < |s.els|
      ensures s.els[id].lock.None? && s.els[id].valid
    {
      RunInvalid(actions, id);
      RunLockKnown(actions, id);
      if s.els[id].lock.Some? {
        NothingLeftBehind(actions, s.els[id].lock.value, id);
      }
    }
  }

  lemma ReadFits(t: nat, x: Txn, els: seq<Elem>, linked: set<nat>, bver: map<nat, nat>, op: Op, id: nat)
    requires x.phase.Active? && x.needs == {} && Fits(t, x, els, linked, bver) && id in linked && id < |els|
    ensures Fits(t, Read(x, op, els[id], id), els, linked, bver)
  {
    var y := Read(x, op, els[id], id);
    forall j | j in Written(y)
      ensures j in linked
    {
      if k :| k in y.hits && y.hits[k] == j {
        assert k in x.hits ==> x.hits[k] in x.hits.Values;
      }
    }
  }

  lemma ReadOwnFits(t: nat, x: Txn, els: seq<Elem>, linked: set<nat>, bver: map<nat, nat>, op: Op, id: nat)
    requires x.phase.Active? && x.needs == {} && Fits(t, x, els, linked, bver) && id in linked && id < |els|
    ensures Fits(t, ReadOwn(x, op, els[id], id), els, linked, bver)
  {
    assert Written(ReadOwn(x, op, els[id], id)) == Written(x);
  }

  lemma FoundFits(t: nat, x: Txn, els: seq<Elem>, linked: set<nat>, bver: map<nat, nat>, op: Op, id: nat)
    requires x.phase.Active? && x.needs == {} && Fits(t, x, els, linked, bver) && id in linked && id < |els|
    ensures var y := Found(x, op, els[id], id); y.phase.Active? && y.needs == {} && Fits(t, y, els, linked, bver)
  {
    assert !Blocked(x, els[id], id);
    ReadFits(t, x, els, linked, bver, op, id);
    ReadOwnFits(t, x, els, linked, bver, op, id);
  }

  lemma MissFits(s: State, t: nat, x: Txn, op: Op, k: Key)
    requires x.phase.Active? && x.needs == {} && Fits(t, x, s.els, s.linked, s.bver)
    ensures var y := Miss(s, x, op, k); y.phase.Active? && y.needs == {} && Fits(t, y, s.els, s.linked, s.bver)
  {
  }

  lemma AddingFits(t: nat, x: Txn, els: seq<Elem>, linked: set<nat>, bver: map<nat, nat>, e: Elem)
    requires x.phase.Active? && x.needs == {} && Fits(t, x, els, linked, bver) && e.lock.None?
    requires forall k :: k in x.added ==> x.added[k] < |els| && k != e.key
    requires forall id :: id in linked ==> id < |els|
    ensures var y := Adding(x, e, |els|, BucketVersion(bver, e.key.hash));
            && y.phase.Active? && y.needs == {}
            && Fits(t, y, els + [e], linked + {|els|}, Bumped(bver, e.key.hash))
  {
    var y := Adding(x, e, |els|, BucketVersion(bver, e.key.hash));
    forall id | id in Written(y)
      ensures id in linked + {|els|}
    {
      if k :| k in y.added && y.added[k] == id {
        assert k != e.key ==> x.added[k] in x.added.Values;
      }
    }
  }

  lemma InsertFits(s: State, t: nat, k: Key, row: int)
    requires Inv(s) && t in s.txns && s.txns[t].phase.Active? && FindIn(s, k) == -1
    requires s.txns[t].needs == {} && Fits(t, s.txns[t], s.els, s.linked, s.bver)
    ensures Unhindered(InsertNew(s, t, s.txns[t], k, row), t)
  {
    var x := s.txns[t];
    assert TxnOk(t, x, s.els, s.linked, s.bver, s.history);
    NotFoundIsNone(s, k);
    forall q | q in x.added
      ensures x.added[q] < |s.els| && q != k
    {
      assert AddedAt(t, q, x.added[q], x.log, s.els, s.linked);
    }
    AddingFits(t, x, s.els, s.linked, s.bver, Elem(k, row, false, false, 0, None, t));
  }

  lemma CallFits(s: State, t: nat, op: Op, k: Key)
    requires Inv(s) && t in s.txns && s.txns[t].phase.Active? && Unhindered(s, t)
    ensures Unhindered(OnElem(s, t, op, k), t)
  {
    var x := s.txns[t];
    if FindIn(s, k) != -1 {
      FoundFits(t, x, s.els, s.linked, s.bver, op, FindIn(s, k));
    } else if op.Insert? {
      InsertFits(s, t, k, op.row);
    } else {
      MissFits(s, t, x, op, k);
    }
  }

  lemma LockFits(s: State, t: nat, id: nat)
    requires t in s.txns && s.txns[t].phase.Locking? && id in s.txns[t].left && id < |s.els| && Unhindered(s, t)
    ensures Unhindered(LockItem(s, t, s.txns[t], id), t)
  {
    assert id in s.linked;
  }

  lemma AllLockedFits(s: State, t: nat)
    requires Inv(s) && t in s.txns && s.txns[t].phase.Locking? && s.txns[t].left == {} && Unhindered(s, t)
    ensures Unhindered(LocksHeld(s, t, s.txns[t]), t)
  {
    assert TxnOk(t, s.txns[t], s.els, s.linked, s.bver, s.history);
  }

  lemma PrivateFits(s: State, t: nat, a: Action)
    requires t in s.txns && Private(a) && !a.Abort? && Enabled(s, s.txns[t], a) && Unhindered(s, t)
    ensures Unhindered(WithTxn(s, t, NextTxn(s, s.txns[t], a)), t)
  {
    var x := s.txns[t];
    match a
    case TryCommit(_) =>
    case CheckRow(_, id) => assert RowPasses(s, x, id);
    case CheckBucket(_, b) => assert BucketPasses(s, x, b);
    case AllInstalled(_) =>
    case AllClean(_) =>
    case AllUnlocked(_) =>
  }

  lemma StepFits(s: State, a: Action)
    requires Inv(s) && Unhindered(s, a.t) && !a.Abort?
    ensures Unhindered(Perform(s, a), a.t)
  {
    var t, x := a.t, s.txns[a.t];
    if Committed(x) {
      StepMoves(s, a, t, 0, 0);
    } else if Enabled(s, x, a) {
      if Private(a) {
        PrivateFits(s, t, a);
      } else {
        match a
        case Do(_, op, k) => CallFits(s, t, op, k);
        case Lock(_, id) => LockFits(s, t, id);
        case AllLocked(_) => AllLockedFits(s, t);
        case AllChecked(_) =>
      }
    }
  }

  ghost predicate OnlyBy(t: nat, more: seq<Action>) {
    forall i :: 0 <= i < |more| ==> more[i].t == t && !more[i].Abort?
  }

  lemma {:induction false} StaysUnhindered(s: State, t: nat, more: seq<Action>)
    requires Inv(s) && Unhindered(s, t) && OnlyBy(t, more)
    ensures Unhindered(RunFrom(s, more), t)
    decreases |more|
  {
    if more != [] {
      StaysUnhindered(s, t, more[..|more| - 1]);
      RunFromKeeps(s, more[..|more| - 1]);
      StepFits(RunFrom(s, more[..|more| - 1]), more[|more| - 1]);
    }
  }

  // ------------------------------------------------------------ there is always a next step

  function Rank(p: Phase): nat {
    match p
    case Active => 6
    case Locking => 5
    case Checking => 4
    case Installing => 3
    case Cleaning(_) => 2
    case Unlocking(_) => 1
    case Over(_) => 0
  }

  /** What the current loop has still to do. */
  function ToDo(x: Txn): nat {
    if x.phase.Unlocking? then |x.needs| else |x.left| + if x.phase.Checking? then |x.leftBuckets| else 0
  }

  ghost predicate Closer(x: Txn, y: Txn) {
    Rank(y.phase) < Rank(x.phase) || (y.phase == x.phase && ToDo(y) < ToDo(x))
  }

  /** The next step of a transaction's commit. */
  ghost function NextStep(t: nat, x: Txn): Action
    requires !x.phase.Over?
  {
    match x.phase
    case Active => TryCommit(t)
    case Locking => if x.left == {} then AllLocked(t) else var id :| id in x.left; Lock(t, id)
    case Checking =>
      if x.left != {} then var id :| id in x.left; CheckRow(t, id)
      else if x.leftBuckets != {} then var b :| b in x.leftBuckets; CheckBucket(t, b)
      else AllChecked(t)
    case Installing => if x.left == {} then AllInstalled(t) else var id :| id in x.left; Install(t, id)
    case Cleaning(_) => if x.left == {} then AllClean(t) else var id :| id in x.left; Clean(t, id)
    case Unlocking(_) => if x.needs == {} then AllUnlocked(t) else var id :| id in x.needs; Unlock(t, id)
  }

  lemma StepIsEnabled(s: State, t: nat)
    requires Inv(s) && Unhindered(s, t) && !s.txns[t].phase.Over?
    ensures Enabled(s, s.txns[t], NextStep(t, s.txns[t])) && NextStep(t, s.txns[t]).t == t
    ensures !NextStep(t, s.txns[t]).Abort? && !NextStep(t, s.txns[t]).Begin? && !NextStep(t, s.txns[t]).Do?
  {
    var x := s.txns[t];
    assert TxnOk(t, x, s.els, s.linked, s.bver, s.history);
    if x.phase.Locking? {
      WrittenInRange(t, x, s.els, s.linked);
    }
    assert x.phase.Installing? ==> forall id :: id in x.left ==> ToInstall(t, x, id, s.els, s.linked);
    assert x.phase.Unlocking? ==> forall id :: id in x.needs ==> HeldAt(t, id, s.els);
  }

  lemma Fewer(xs: set<nat>, x: nat)
    requires x in xs
    ensures |xs - {x}| < |xs|
  {
  }

  lemma PrivateIsCloser(s: State, t: nat, a: Action)
    requires t in s.txns && Private(a) && !a.Abort? && Enabled(s, s.txns[t], a) && Unhindered(s, t)
    ensures Closer(s.txns[t], NextTxn(s, s.txns[t], a))
  {
    var x := s.txns[t];
    match a
    case CheckRow(_, id) =>
      assert RowPasses(s, x, id);
      Fewer(x.left, id);
    case CheckBucket(_, b) =>
      assert BucketPasses(s, x, b);
      Fewer(x.leftBuckets, b);
    case _ =>
  }

  lemma LockIsCloser(s: State, t: nat, id: nat)
    requires t in s.txns && s.txns[t].phase.Locking? && id in s.txns[t].left && id < |s.els| && Unhindered(s, t)
    ensures Closer(s.txns[t], LockItem(s, t, s.txns[t], id).txns[t])
  {
    assert id in s.linked && s.els[id].lock.None?;
    Fewer(s.txns[t].left, id);
  }

  lemma InstallIsCloser(s: State, t: nat, x: Txn, id: nat)
    requires x.phase.Installing? && id in x.left && id < |s.els|
    ensures Closer(x, InstallItem(s, t, x, id).txns[t])
  {
    Fewer(x.left, id);
  }

  lemma CleanIsCloser(s: State, t: nat, x: Txn, id: nat)
    requires x.phase.Cleaning? && id in x.left
    ensures Closer(x, CleanItem(s, t, x, id).txns[t])
  {
    Fewer(x.left, id);
  }

  lemma UnlockIsCloser(s: State, t: nat, x: Txn, id: nat)
    requires x.phase.Unlocking? && id in x.needs && id < |s.els|
    ensures Closer(x, UnlockItem(s, t, x, id).txns[t])
  {
    Fewer(x.needs, id);
  }

  /** Every step of a commit brings its end closer. */
  lemma StepIsCloser(s: State, t: nat, a: Action)
    requires Inv(s) && Unhindered(s, t) && a.t == t && Enabled(s, s.txns[t], a) && !a.Abort? && !a.Do? && !a.Begin?
    ensures t in Perform(s, a).txns && Closer(s.txns[t], Perform(s, a).txns[t])
  {
    if Private(a) {
      PrivateIsCloser(s, t, a);
    } else {
      match a
      case Lock(_, id) => LockIsCloser(s, t, id);
      case AllLocked(_) =>
      case AllChecked(_) =>
      case Install(_, id) => InstallIsCloser(s, t, s.txns[t], id);
      case Clean(_, id) => CleanIsCloser(s, t, s.txns[t], id);
      case Unlock(_, id) => UnlockIsCloser(s, t, s.txns[t], id);
    }
  }

  lemma OnlyByCons(t: nat, a: Action, more: seq<Action>)
    requires a.t == t && !a.Abort? && OnlyBy(t, more)
    ensures OnlyBy(t, [a] + more)
  {
  }

  predicate Ending(x: Txn) { x.phase.Cleaning? || x.phase.Unlocking? || x.phase.Over? }

  lemma EndIsEnabled(s: State, t: nat)
    requires Inv(s) && t in s.txns && Ending(s.txns[t]) && !s.txns[t].phase.Over?
    ensures var a := NextStep(t, s.txns[t]);
            a.t == t && Enabled(s, s.txns[t], a) && (a.Clean? || a.AllClean? || a.Unlock? || a.AllUnlocked?)
  {
    var x := s.txns[t];
    assert TxnOk(t, x, s.els, s.linked, s.bver, s.history);
    assert x.phase.Unlocking? ==> forall id :: id in x.needs ==> HeldAt(t, id, s.els);
  }

  ghost predicate Nearer(x: Txn, y: Txn) { Ending(x) && Ending(y) && y.phase.done == x.phase.done && Closer(x, y) }

  lemma CleanIsNearer(s: State, t: nat, id: nat)
    requires t in s.txns && s.txns[t].phase.Cleaning? && id in s.txns[t].left
    ensures t in Perform(s, Clean(t, id)).txns && Nearer(s.txns[t], Perform(s, Clean(t, id)).txns[t])
  {
    CleanIsCloser(s, t, s.txns[t], id);
  }

  lemma UnlockIsNearer(s: State, t: nat, id: nat)
    requires t in s.txns && s.txns[t].phase.Unlocking? && id in s.txns[t].needs && id < |s.els|
    ensures t in Perform(s, Unlock(t, id)).txns && Nearer(s.txns[t], Perform(s, Unlock(t, id)).txns[t])
  {
    UnlockIsCloser(s, t, s.txns[t], id);
  }

  lemma EndIsNearer(s: State, t: nat, a: Action)
    requires t in s.txns && Ending(s.txns[t]) && a.t == t && Enabled(s, s.txns[t], a)
    requires a.Clean? || a.AllClean? || a.Unlock? || a.AllUnlocked?
    ensures t in Perform(s, a).txns && Nearer(s.txns[t], Perform(s, a).txns[t])
  {
    match a
    case Clean(_, id) => CleanIsNearer(s, t, id);
    case Unlock(_, id) => UnlockIsNearer(s, t, id);
    case AllClean(_) => assert Perform(s, a).txns[t] == NextTxn(s, s.txns[t], a);
    case AllUnlocked(_) => assert Perform(s, a).txns[t] == NextTxn(s, s.txns[t], a);
  }

  /** Whatever others do, a transaction that has committed or aborted gets through its end by its own steps. */
  lemma Ends(s: State, t: nat) returns (more: seq<Action>)
    requires Inv(s) && t in s.txns && Ending(s.txns[t])
    ensures OnlyBy(t, more) && t in RunFrom(s, more).txns
    ensures RunFrom(s, more).txns[t].phase == Over(s.txns[t].phase.done)
    decreases Rank(s.txns[t].phase), ToDo(s.txns[t])
  {
    if s.txns[t].phase.Over? {
      more := [];
    } else {
      var a := NextStep(t, s.txns[t]);
      EndIsEnabled(s, t);
      EndIsNearer(s, t, a);
      PerformKeeps(s, a);
      var rest := Ends(Perform(s, a), t);
      more := [a] + rest;
      OnlyByCons(t, a, rest);
      RunCons(s, a, rest);
    }
  }

  /** From any point an unhindered transaction gets to the end of its commit by its own steps. */
  lemma Finishes(s: State, t: nat) returns (more: seq<Action>)
    requires Inv(s) && Unhindered(s, t)
    ensures OnlyBy(t, more) && t in RunFrom(s, more).txns && RunFrom(s, more).txns[t].phase == Over(true)
    decreases Rank(s.txns[t].phase), ToDo(s.txns[t])
  {
    if Ending(s.txns[t]) {
      more := Ends(s, t);
    } else {
      var a := NextStep(t, s.txns[t]);
      StepIsEnabled(s, t);
      StepIsCloser(s, t, a);
      StepFits(s, a);
      PerformKeeps(s, a);
      var rest := Finishes(Perform(s, a), t);
      more := [a] + rest;
      OnlyByCons(t, a, rest);
      RunCons(s, a, rest);
    }
  }

  /**
    Before its decision a transaction can abort at any time; it is aborted then,
    and its own steps take it to the end, where it leaves nothing behind.
   */
  lemma AbortEnds(actions: seq<Action>, t: nat)
    requires t in Run(actions).txns
    requires var x := Run(actions).txns[t]; x.phase.Active? || x.phase.Locking? || x.phase.Checking?
    ensures Aborted(TxnOf(Perform(Run(actions), Abort(t)), t))
    ensures exists rest ::
              OnlyBy(t, rest) && TxnOf(RunFrom(Perform(Run(actions), Abort(t)), rest), t).phase == Over(false)
  {
    var s := Perform(Run(actions), Abort(t));
    RunKeeps(actions);
    PerformKeeps(Run(actions), Abort(t));
    var rest := Ends(s, t);
  }

  /**
    While all others are over, a transaction is never aborted: whatever calls it
    makes, each call can use what it finds, each lock is free and each check passes.
   */
  lemma AloneNeverAborts(actions: seq<Action>, t: nat, more: seq<Action>)
    requires Alone(Run(actions), t) && t !in Run(actions).txns && OnlyBy(t, more)
    ensures !Aborted(TxnOf(RunFrom(Run(actions), [Begin(t)] + more), t))
  {
    var s := Run(actions);
    RunKeeps(actions);
    StartFits(actions, t);
    PerformKeeps(s, Begin(t));
    StaysUnhindered(Perform(s, Begin(t)), t, more);
    RunCons(s, Begin(t), more);
  }

  /** And from wherever it is, its own steps take it to the end of its commit. */
  lemma AloneCommits(actions: seq<Action>, t: nat, more: seq<Action>)
    requires Alone(Run(actions), t) && t !in Run(actions).txns && OnlyBy(t, more)
    ensures exists rest ::
              OnlyBy(t, rest) && TxnOf(RunFrom(Run(actions), [Begin(t)] + more + rest), t).phase == Over(true)
  {
    var s := Run(actions);
    RunKeeps(actions);
    StartFits(actions, t);
    PerformKeeps(s, Begin(t));
    StaysUnhindered(Perform(s, Begin(t)), t, more);
    RunFromKeeps(Perform(s, Begin(t)), more);
    RunCons(s, Begin(t), more);
    var rest := Finishes(RunFrom(Perform(s, Begin(t)), more), t);
    RunAppend(s, [Begin(t)] + more, rest);
  }
}
