/**
  What every run of the index promises: serial answers, dead elements that stay
  dead, stale readers that never commit.
 */
module IndexTheorems {
  import opened Options
  import opened HashKeys
  import opened IndexCalls
  import opened IndexOcc
  import opened IndexInv
  import opened IndexSteps
  import opened IndexLockSteps
  import opened IndexRuns
  import opened IndexMoves

  // ------------------------------------------------------------ the history is that of the committed transactions

  ghost predicate RecordedAt(x: Txn, h: map<nat, Done>) {
    Committed(x) ==> x.ticket in h && h[x.ticket] == Done(x.log, x.marks)
  }

  ghost predicate IsTicketOf(s: State, n: nat, t: nat) { t in s.txns && Committed(s.txns[t]) && s.txns[t].ticket == n }

  /** History and committed transactions are the same thing, number by number. */
  ghost predicate Recorded(s: State) {
    && (forall t {:trigger RecordedAt(s.txns[t], s.history)} :: t in s.txns ==> RecordedAt(s.txns[t], s.history))
    && (forall n :: n in s.history ==> exists t: nat :: IsTicketOf(s, n, t))
    && (forall n, t, u {:trigger IsTicketOf(s, n, t), IsTicketOf(s, n, u)} ::
          IsTicketOf(s, n, t) && IsTicketOf(s, n, u) ==> t == u)
  }

  lemma MoveRecords(s: State, s': State, t: nat)
    requires Recorded(s) && (forall u :: u != t ==> TxnOf(s', u) == TxnOf(s, u))
    requires forall u :: u in s.txns ==> u in s'.txns
    requires HistoryMoves(s, s', TxnOf(s, t), TxnOf(s', t))
    requires var x, y := TxnOf(s, t), TxnOf(s', t);
             (Committed(x) ==> Committed(y) && SameLog(x, y))
               && (!Committed(x) && Committed(y) ==> x.ticket !in s.history && SameLog(x, y))
    ensures Recorded(s')
  {
    forall u | u in s'.txns
      ensures RecordedAt(s'.txns[u], s'.history)
    {
      assert u in s.txns ==> RecordedAt(s.txns[u], s.history);
      assert TxnOf(s', u) == s'.txns[u];
    }
    forall n | n in s'.history
      ensures exists u: nat :: IsTicketOf(s', n, u)
    {
      if n in s.history {
        var u: nat :| IsTicketOf(s, n, u);
        assert TxnOf(s', u) == s'.txns[u];
        assert IsTicketOf(s', n, u);
      } else {
        assert IsTicketOf(s', n, t);
      }
    }
    forall n: nat, u: nat, v: nat | IsTicketOf(s', n, u) && IsTicketOf(s', n, v)
      ensures u == v
    {
      assert TxnOf(s', u) == s'.txns[u] && TxnOf(s', v) == s'.txns[v];
      assert u in s.txns ==> RecordedAt(s.txns[u], s.history);
      assert v in s.txns ==> RecordedAt(s.txns[v], s.history);
      assert u != t && v != t ==> IsTicketOf(s, n, u) && IsTicketOf(s, n, v);
      assert u in s.txns && v in s.txns && Committed(s.txns[u]) && Committed(s.txns[v]) ==>
        IsTicketOf(s, n, u) && IsTicketOf(s, n, v);
    }
  }

  lemma StepRecords(s: State, a: Action)
    requires Inv(s) && Recorded(s)
    ensures Recorded(Perform(s, a))
  {
    StepMoves(s, a, 0, 0, 0);
    forall u: nat
      ensures u != a.t ==> TxnOf(Perform(s, a), u) == TxnOf(s, u)
      ensures u in s.txns ==> u in Perform(s, a).txns
    {
      StepMoves(s, a, u, 0, 0);
    }
    MoveRecords(s, Perform(s, a), a.t);
  }

  lemma {:induction false} RunRecorded(actions: seq<Action>)
    ensures Recorded(Run(actions))
    decreases |actions|
  {
    if actions != [] {
      RunRecorded(actions[..|actions| - 1]);
      RunKeeps(actions[..|actions| - 1]);
      StepRecords(Run(actions[..|actions| - 1]), actions[|actions| - 1]);
    }
  }

  // ------------------------------------------------------------ serial answers

  /** The rows installed by the committed transactions with tickets below n, in ticket order. */
  ghost function Replay(h: map<nat, Done>, n: nat): map<Key, int> {
    if n == 0 then map[] else if n - 1 in h then Installed(Replay(h, n - 1), h[n - 1].log) else Replay(h, n - 1)
  }

  /** What a plain map holds after the calls of those transactions, one after the other. */
  ghost function Serial(h: map<nat, Done>, n: nat): map<Key, int> {
    if n == 0 then map[] else if n - 1 in h then AfterAll(Serial(h, n - 1), h[n - 1].log) else Serial(h, n - 1)
  }

  lemma {:induction false} ReplayIsValue(h: map<nat, Done>, n: nat, k: Key)
    ensures Lookup(Replay(h, n), k) == Value(h, n, k)
  {
    if n > 0 {
      ReplayIsValue(h, n - 1, k);
      if n - 1 in h {
        InstalledIsFinal(Replay(h, n - 1), h[n - 1].log, k);
      }
    }
  }

  lemma {:induction false} BasesAreTold(m: map<Key, int>, log: seq<Call>, marks: seq<Mark>)
    requires OwnOk(log, marks) && forall i :: 0 <= i < |log| ==> Lookup(m, log[i].k) == Base(log[i], marks[i])
    ensures Told(m, log)
    decreases |log|
  {
    if log != [] {
      var n := |log| - 1;
      forall i | 0 <= i < n
        ensures Lookup(m, log[..n][i].k) == Base(log[..n][i], marks[..n][i])
      {
        assert log[..n][i] == log[i] && marks[..n][i] == marks[i];
      }
      BasesAreTold(m, log[..n], marks[..n]);
    }
  }

  lemma HistoryIsTold(txns: map<nat, Txn>, h: map<nat, Done>, clock: nat, n: nat)
    requires OrderOk(txns, h, clock) && n in h
    ensures Told(Replay(h, n), h[n].log)
  {
    assert DoneOk(h, n, txns);
    var log, marks := h[n].log, h[n].marks;
    forall i | 0 <= i < |log|
      ensures Lookup(Replay(h, n), log[i].k) == Base(log[i], marks[i])
    {
      assert DoneAt(h, n, i, txns);
      ReplayIsValue(h, n, log[i].k);
    }
    BasesAreTold(Replay(h, n), log, marks);
  }

  /**
    In commit-number order every committed transaction was told the rows the
    earlier ones installed and its own inserts. It agrees call by call with a
    plain map exactly when its own calls are clean, and then leaves the map's
    rows exactly when it does not change a row it inserted itself.
   */
  lemma Serializable(actions: seq<Action>, t: nat)
    requires t in Run(actions).txns && Committed(Run(actions).txns[t])
    ensures var x, h := Run(actions).txns[t], Run(actions).history;
            && x.ticket in h && h[x.ticket].log == x.log
            && Told(Replay(h, x.ticket), x.log)
            && (Agrees(Replay(h, x.ticket), x.log) <==> NoReread(x.log))
            && (NoReread(x.log) ==>
                  (Replay(h, x.ticket + 1) == AfterAll(Replay(h, x.ticket), x.log) <==>
                   forall k :: !LosesUpdate(x.log, k)))
  {
    var s := Run(actions);
    var x := s.txns[t];
    RunKeeps(actions);
    RunRecorded(actions);
    assert RecordedAt(x, s.history);
    HistoryIsTold(s.txns, s.history, s.clock, x.ticket);
    AgreesExactly(Replay(s.history, x.ticket), x.log);
    if NoReread(x.log) {
      EndsExactly(Replay(s.history, x.ticket), x.log);
    }
  }

  ghost predicate Faithful(log: seq<Call>) { NoReread(log) && forall k :: !LosesUpdate(log, k) }

  lemma {:induction false} ReplayIsSerial(h: map<nat, Done>, n: nat)
    requires forall m :: m in h && m < n ==> Told(Replay(h, m), h[m].log) && Faithful(h[m].log)
    ensures Replay(h, n) == Serial(h, n)
  {
    if n > 0 {
      ReplayIsSerial(h, n - 1);
      if n - 1 in h {
        AgreesExactly(Replay(h, n - 1), h[n - 1].log);
        EndsExactly(Replay(h, n - 1), h[n - 1].log);
      }
    }
  }

  ghost predicate SerialAt(h: map<nat, Done>, n: nat)
    requires n in h
  {
    Agrees(Serial(h, n), h[n].log) && Replay(h, n) == Serial(h, n) && Replay(h, n + 1) == Serial(h, n + 1)
  }

  lemma SerialIsFaithful(h: map<nat, Done>, n: nat)
    requires n in h && Told(Replay(h, n), h[n].log) && Replay(h, n) == Serial(h, n)
    ensures SerialAt(h, n) <==> Faithful(h[n].log)
  {
    AgreesExactly(Replay(h, n), h[n].log);
    if Agrees(Replay(h, n), h[n].log) {
      EndsExactly(Replay(h, n), h[n].log);
    }
  }

  /**
    The rows and answers of a whole run are those of a plain map exactly when every
    committed transaction is faithful.
   */
  lemma SerialExactly(actions: seq<Action>)
    ensures var h := Run(actions).history;
            (forall n :: n in h ==> Faithful(h[n].log)) <==> (forall n :: n in h ==> SerialAt(h, n))
  {
    var s := Run(actions);
    var h := s.history;
    RunKeeps(actions);
    forall n | n in h
      ensures Told(Replay(h, n), h[n].log)
    {
      HistoryIsTold(s.txns, h, s.clock, n);
    }
    SerialHistory(h);
  }

  lemma SerialHistory(h: map<nat, Done>)
    requires forall n :: n in h ==> Told(Replay(h, n), h[n].log)
    ensures (forall n :: n in h ==> Faithful(h[n].log)) <==> (forall n :: n in h ==> SerialAt(h, n))
  {
    if forall n :: n in h ==> Faithful(h[n].log) {
      forall n | n in h
        ensures SerialAt(h, n)
      {
        ReplayIsSerial(h, n);
        SerialIsFaithful(h, n);
      }
    }
    if forall n :: n in h ==> SerialAt(h, n) {
      forall n | n in h
        ensures Faithful(h[n].log)
      {
        assert SerialAt(h, n);
        SerialIsFaithful(h, n);
      }
    }
  }

  /** The rows in the lists are the replayed ones, except where an install is still to come. */
  lemma RowsAreReplayed(actions: seq<Action>, k: Key)
    ensures var s := Run(actions);
            PendingKey(s.txns, s.els, k) || RowAt(s.els, s.home, k) == Lookup(Replay(s.history, s.clock + 1), k)
  {
    var s := Run(actions);
    RunKeeps(actions);
    assert KeyRow(k, s.els, s.home, s.txns, s.history, s.clock);
    ReplayIsValue(s.history, s.clock + 1, k);
  }

  // ------------------------------------------------------------ the order is the order in time

  ghost predicate TicketAfter(s: State, u: nat, c: nat) {
    c <= s.clock && (TxnOf(s, u).phase.Checking? || Committed(TxnOf(s, u)) ==> TxnOf(s, u).ticket > c)
  }

  lemma {:induction false} StaysAfter(s: State, u: nat, c: nat, more: seq<Action>)
    requires Inv(s) && TicketAfter(s, u, c)
    ensures TicketAfter(RunFrom(s, more), u, c)
    decreases |more|
  {
    if more != [] {
      StaysAfter(s, u, c, more[..|more| - 1]);
      RunFromKeeps(s, more[..|more| - 1]);
      StepMoves(RunFrom(s, more[..|more| - 1]), more[|more| - 1], u, 0, 0);
    }
  }

  /** Whoever holds all locks only after another has committed comes later in the serial order. */
  lemma OrderInTime(actions: seq<Action>, more: seq<Action>, u: nat, n: nat)
    requires n in Run(actions).history && u in RunFrom(Run(actions), more).txns
    requires Committed(RunFrom(Run(actions), more).txns[u])
    requires u in Run(actions).txns ==> Run(actions).txns[u].phase.Active? || Run(actions).txns[u].phase.Locking?
    ensures n < RunFrom(Run(actions), more).txns[u].ticket
  {
    RunKeeps(actions);
    StaysAfter(Run(actions), u, Run(actions).clock, more);
  }

  // ------------------------------------------------------------ elements over time

  lemma {:induction false} DeletedStays(s: State, id: nat, more: seq<Action>)
    requires Inv(s) && id < |s.els| && s.els[id].deleted
    ensures var s' := RunFrom(s, more); id < |s'.els| && s'.els[id] == s.els[id]
    decreases |more|
  {
    if more != [] {
      DeletedStays(s, id, more[..|more| - 1]);
      RunFromKeeps(s, more[..|more| - 1]);
      StepMoves(RunFrom(s, more[..|more| - 1]), more[|more| - 1], 0, id, 0);
    }
  }

  /** A deleted element stays as it is in every continuation: deleted, locked by its deleter, and no key's row. */
  lemma DeletedForever(actions: seq<Action>, id: nat, more: seq<Action>)
    requires id < |Run(actions).els| && Run(actions).els[id].deleted
    ensures var s' := RunFrom(Run(actions), more);
            && id < |s'.els| && s'.els[id] == Run(actions).els[id] && s'.els[id].lock.Some?
            && forall k :: k in s'.home ==> s'.home[k] != id
  {
    RunKeeps(actions);
    DeletedStays(Run(actions), id, more);
    RunFromKeeps(Run(actions), more);
    var s' := RunFrom(Run(actions), more);
    assert ElemOk(s'.els[id], s'.clock);
    forall k | k in s'.home
      ensures s'.home[k] != id
    {
      assert Live(s'.els, s'.linked, k, s'.home[k]);
    }
  }

  // ------------------------------------------------------------ stale readers

  /** The transaction saw an older version of the element, or the element is deleted. */
  ghost predicate StaleRow(s: State, x: Txn, id: nat) {
    RowWaits(x, id) && id < |s.els| && (s.els[id].version > x.seen[id] || s.els[id].deleted)
  }

  ghost predicate StaleBucket(s: State, x: Txn, b: nat) { BucketWaits(x, b) && BucketVersion(s.bver, b) > x.buckets[b] }

  /** A checking transaction's own locks are on elements that are not deleted. */
  lemma StaleFails(s: State, t: nat, id: nat)
    requires Inv(s) && t in s.txns && s.txns[t].phase.Checking? && StaleRow(s, s.txns[t], id)
    ensures !RowPasses(s, s.txns[t], id)
  {
    var x := s.txns[t];
    assert TxnOk(t, x, s.els, s.linked, s.bver, s.history) && ElemOk(s.els[id], s.clock);
    assert id in x.needs ==> HeldAt(t, id, s.els);
  }

  ghost predicate Lost(s: State, t: nat, id: nat, b: nat) {
    t in s.txns && (Aborted(s.txns[t]) || StaleRow(s, s.txns[t], id) || StaleBucket(s, s.txns[t], b))
  }

  lemma StepStaysLost(s: State, a: Action, t: nat, id: nat, b: nat)
    requires Inv(s) && Lost(s, t, id, b)
    ensures Lost(Perform(s, a), t, id, b)
  {
    StepMoves(s, a, t, id, b);
    if s.txns[t].phase.Checking? && StaleRow(s, s.txns[t], id) {
      StaleFails(s, t, id);
    }
  }

  lemma {:induction false} StaysLost(s: State, t: nat, id: nat, b: nat, more: seq<Action>)
    requires Inv(s) && Lost(s, t, id, b)
    ensures Lost(RunFrom(s, more), t, id, b)
    decreases |more|
  {
    if more != [] {
      StaysLost(s, t, id, b, more[..|more| - 1]);
      RunFromKeeps(s, more[..|more| - 1]);
      StepStaysLost(RunFrom(s, more[..|more| - 1]), more[|more| - 1], t, id, b);
    }
  }

  /**
    A transaction that read an element since changed or deleted never commits, unless
    it had already passed that check.
   */
  lemma StaleReadNeverCommits(actions: seq<Action>, t: nat, id: nat, more: seq<Action>)
    requires t in Run(actions).txns && StaleRow(Run(actions), Run(actions).txns[t], id)
    ensures var s' := RunFrom(Run(actions), more); t in s'.txns && !Committed(s'.txns[t])
  {
    RunKeeps(actions);
    StaysLost(Run(actions), t, id, 0, more);
  }

  lemma InsertMakesStale(s: State, t: nat, u: nat, k: Key, row: int)
    requires Inv(s) && t in s.txns && u in s.txns && u != t && BucketWaits(s.txns[t], k.hash)
    ensures Lost(InsertNew(s, u, s.txns[u], k, row), t, 0, k.hash)
  {
    assert TxnOk(t, s.txns[t], s.els, s.linked, s.bver, s.history);
  }

  lemma InsertLosesReader(s: State, t: nat, u: nat, k: Key, row: int, more: seq<Action>)
    requires Inv(s) && t in s.txns && u in s.txns && u != t && s.txns[u].phase.Active? && FindIn(s, k) == -1
    requires BucketWaits(s.txns[t], k.hash)
    ensures Lost(RunFrom(Perform(s, Do(u, Op.Insert(row), k)), more), t, 0, k.hash)
  {
    var s' := Perform(s, Do(u, Op.Insert(row), k));
    assert s' == InsertNew(s, u, s.txns[u], k, row);
    InsertMakesStale(s, t, u, k, row);
    PerformKeeps(s, Do(u, Op.Insert(row), k));
    StaysLost(s', t, 0, k.hash, more);
  }

  /** A transaction that missed a key never commits once somebody else inserts into that bucket before its check. */
  lemma PhantomProtected(actions: seq<Action>, t: nat, u: nat, k: Key, row: int, more: seq<Action>)
    requires var s := Run(actions);
             && t in s.txns && u in s.txns && u != t && s.txns[u].phase.Active? && FindIn(s, k) == -1
             && BucketWaits(s.txns[t], k.hash)
    ensures var s' := RunFrom(Perform(Run(actions), Do(u, Op.Insert(row), k)), more);
            t in s'.txns && !Committed(s'.txns[t])
  {
    RunKeeps(actions);
    InsertLosesReader(Run(actions), t, u, k, row, more);
  }

  // ------------------------------------------------------------ what the end of a transaction leaves

  /** A cleanup takes out of its list only a deleted element its transaction holds, or an aborted insert of its own. */
  lemma UnlinksItsOwn(actions: seq<Action>, t: nat, id: nat)
    requires var s := Run(actions);
             t in s.txns && s.txns[t].phase.Cleaning? && id in s.txns[t].left
               && Perform(s, Clean(t, id)).linked != s.linked
    ensures var s := Run(actions);
            && id in s.linked && id < |s.els| && Perform(s, Clean(t, id)).linked == s.linked - {id}
            && (if s.txns[t].phase.done then s.els[id].deleted && s.els[id].lock == Some(t)
                else !s.els[id].valid && s.els[id].maker == t)
            && forall k :: k in s.home ==> s.home[k] != id
  {
    var s := Run(actions);
    RunKeeps(actions);
    assert TxnOk(t, s.txns[t], s.els, s.linked, s.bver, s.history);
    UnlinksOwn(t, s.txns[t], s.els, s.linked, s.bver, s.history, id);
    forall k | k in s.home
      ensures s.home[k] != id
    {
      assert Live(s.els, s.linked, k, s.home[k]);
    }
  }

  lemma {:induction false} RunLockKnown(actions: seq<Action>, id: nat)
    ensures LockKnown(Run(actions), id)
    decreases |actions|
  {
    if actions != [] {
      RunLockKnown(actions[..|actions| - 1], id);
      RunKeeps(actions[..|actions| - 1]);
      StepMoves(Run(actions[..|actions| - 1]), actions[|actions| - 1], 0, id, 0);
    }
  }

  /** A transaction that is over holds no lock in any list, and what it had to unlink is out. */
  lemma NothingLeftBehind(actions: seq<Action>, t: nat, id: nat)
    requires t in Run(actions).txns && Run(actions).txns[t].phase.Over?
    ensures var s := Run(actions);
            && (id in s.linked && id < |s.els| ==> s.els[id].lock != Some(t))
            && (id in Written(s.txns[t]) && ToUnlink(s.txns[t], s.els, id, s.txns[t].phase.done) ==> id !in s.linked)
  {
    var s := Run(actions);
    RunKeeps(actions);
    RunLockKnown(actions, id);
    assert TxnOk(t, s.txns[t], s.els, s.linked, s.bver, s.history);
  }
}
