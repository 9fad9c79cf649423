/** Every step keeps the invariant, so it holds in every state of every run. */
module IndexRuns {
  import opened Options
  import opened HashKeys
  import opened IndexCalls
  import opened IndexOcc
  import opened IndexInv
  import opened IndexSteps
  import opened IndexCallSteps
  import opened IndexInsertSteps
  import opened IndexLockSteps
  import opened IndexCheckSteps
  import opened IndexCommitSteps

  lemma FoundOk(t: nat, x: Txn, els: seq<Elem>, linked: set<nat>, bver: map<nat, nat>, h: map<nat, Done>,
                home: map<Key, nat>, clock: nat,
                op: Op, id: nat)
    requires ElemsOk(els, linked, home, clock) && TxnOk(t, x, els, linked, bver, h) && x.phase.Active? && id in linked
    requires id < |els|
    ensures TxnOk(t, Found(x, op, els[id], id), els, linked, bver, h)
  {
    var e := els[id];
    if Blocked(x, e, id) {
      StopOk(t, x, els, linked, bver, h);
    } else if !Holds(x.added, e.key, id) {
      FoundOwn(t, x, els, linked, home, clock, id);
      ReadOk(t, x, els, linked, bver, h, op, id);
    } else if !op.Delete? {
      ReadOwnOk(t, x, els, linked, bver, h, op, id);
    }
  }

  lemma FoundMarks(x: Txn, op: Op, e: Elem, id: nat, clock: nat)
    requires x.phase.Active? && MarksBy(x, clock)
    ensures MarksBy(Found(x, op, e, id), clock) && !Ticketed(Found(x, op, e, id))
  {
    if !Blocked(x, e, id) && !Holds(x.added, e.key, id) {
      MarksGrow(x, Read(x, op, e, id), clock);
    } else if !Blocked(x, e, id) && !op.Delete? {
      MarksGrow(x, ReadOwn(x, op, e, id), clock);
    }
  }

  lemma FoundKeeps(s: State, t: nat, op: Op, id: nat)
    requires Inv(s) && t in s.txns && s.txns[t].phase.Active? && id in s.linked && id < |s.els|
    ensures Inv(WithTxn(s, t, Found(s.txns[t], op, s.els[id], id)))
  {
    assert TxnOk(t, s.txns[t], s.els, s.linked, s.bver, s.history) && MarksBy(s.txns[t], s.clock);
    FoundOk(t, s.txns[t], s.els, s.linked, s.bver, s.history, s.home, s.clock, op, id);
    FoundMarks(s.txns[t], op, s.els[id], id, s.clock);
    TxnKeeps(s, t, Found(s.txns[t], op, s.els[id], id));
  }

  lemma CallKeeps(s: State, t: nat, op: Op, k: Key)
    requires Inv(s) && t in s.txns && s.txns[t].phase.Active?
    ensures Inv(OnElem(s, t, op, k))
  {
    var x := s.txns[t];
    if FindIn(s, k) != -1 {
      FoundKeeps(s, t, op, FindIn(s, k));
    } else if op.Insert? {
      NotFoundIsNone(s, k);
      InsertKeeps(s, t, k, op.row);
    } else {
      assert TxnOk(t, x, s.els, s.linked, s.bver, s.history) && MarksBy(x, s.clock);
      MissOk(s, t, x, op, k);
      MarksGrow(x, Miss(s, x, op, k), s.clock);
      TxnKeeps(s, t, Miss(s, x, op, k));
    }
  }

  lemma BeginKeeps(s: State, t: nat)
    requires Inv(s) && t !in s.txns
    ensures Inv(WithTxn(s, t, START))
  {
    StartOk(t, s.els, s.linked, s.bver, s.history);
    TxnKeeps(s, t, START);
  }

  lemma PrivateKeeps(s: State, t: nat, a: Action)
    requires Inv(s) && t in s.txns && Private(a) && Enabled(s, s.txns[t], a)
    ensures Inv(WithTxn(s, t, NextTxn(s, s.txns[t], a)))
  {
    match a
    case TryCommit(_) => TryKeeps(s, t);
    case CheckRow(_, id) =>
      if RowPasses(s, s.txns[t], id) { CheckRowKeeps(s, t, id); } else { StopKeeps(s, t); }
    case CheckBucket(_, b) =>
      if BucketPasses(s, s.txns[t], b) { CheckBucketKeeps(s, t, b); } else { StopKeeps(s, t); }
    case AllInstalled(_) => AllInstalledKeeps(s, t);
    case Abort(_) => StopKeeps(s, t);
    case AllClean(_) => AllCleanKeeps(s, t);
    case AllUnlocked(_) => AllUnlockedKeeps(s, t);
  }

  lemma PerformKeeps(s: State, a: Action)
    requires Inv(s)
    ensures Inv(Perform(s, a))
  {
    if a.Begin? {
      if a.t !in s.txns {
        BeginKeeps(s, a.t);
      }
    } else if a.t in s.txns && Enabled(s, s.txns[a.t], a) {
      if Private(a) {
        PrivateKeeps(s, a.t, a);
      } else {
        match a
        case Do(t, op, k) => CallKeeps(s, t, op, k);
        case Lock(t, id) => LockKeeps(s, t, id);
        case AllLocked(t) => AllLockedKeeps(s, t);
        case AllChecked(t) => AllCheckedKeeps(s, t);
        case Install(t, id) => InstallKeeps(s, t, id);
        case Clean(t, id) => CleanKeeps(s, t, id);
        case Unlock(t, id) => UnlockKeeps(s, t, id);
      }
    }
  }

  lemma EmptyOk()
    ensures Inv(EMPTY)
  {
    assert forall k :: Value(map[], 1, k) == Value(map[], 0, k) == None;
  }

  lemma {:induction false} RunFromKeeps(s: State, actions: seq<Action>)
    requires Inv(s)
    ensures Inv(RunFrom(s, actions))
    decreases |actions|
  {
    if actions != [] {
      RunFromKeeps(s, actions[..|actions| - 1]);
      PerformKeeps(RunFrom(s, actions[..|actions| - 1]), actions[|actions| - 1]);
    }
  }

  lemma RunKeeps(actions: seq<Action>)
    ensures Inv(Run(actions))
  {
    EmptyOk();
    RunFromKeeps(EMPTY, actions);
  }

  // ------------------------------------------------------------ runs piece by piece

  lemma RunGrows(steps: seq<Action>, a: Action)
    ensures Run(steps + [a]) == Perform(Run(steps), a)
  {
    assert (steps + [a])[..|steps|] == steps;
  }

  lemma {:induction false} RunCons(s: State, a: Action, rest: seq<Action>)
    ensures RunFrom(s, [a] + rest) == RunFrom(Perform(s, a), rest)
    decreases |rest|
  {
    if rest == [] {
      assert ([a] + rest)[..0] == [] && ([a] + rest)[0] == a;
    } else {
      var n := |rest| - 1;
      assert ([a] + rest)[..n + 1] == [a] + rest[..n];
      RunCons(s, a, rest[..n]);
    }
  }

  lemma {:induction false} RunAppend(s: State, a: seq<Action>, b: seq<Action>)
    ensures RunFrom(s, a + b) == RunFrom(RunFrom(s, a), b)
    decreases |b|
  {
    if b == [] {
      assert a + b == a;
    } else {
      var n := |b| - 1;
      assert (a + b)[..|a| + n] == a + b[..n];
      RunAppend(s, a, b[..n]);
    }
  }
}
