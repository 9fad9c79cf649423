/**
  What the calls of a transaction are and what they do: in every run the log holds
  exactly the calls that were made, with what their callers were told, and the
  commit leaves under every key what those calls ask for.
 */
module IndexEffects {
  import opened Options
  import opened HashKeys
  import opened IndexCalls
  import opened IndexOcc
  import opened IndexInv
  import opened IndexCallSteps
  import opened IndexRuns
  import opened IndexMoves
  import opened IndexTheorems

  // ------------------------------------------------------------ one call

  /** The row a walk for the key finds. */
  ghost function RowFound(s: State, k: Key): Option<int> {
    if FindIn(s, k) == -1 then None else Some(s.els[FindIn(s, k)].row)
  }

  /** A walk finds an element nobody else has locked or is still inserting, or none at all. */
  ghost predicate CanUse(s: State, x: Txn, k: Key) {
    FindIn(s, k) == -1 || (var e := s.els[FindIn(s, k)]; e.lock.None? && (e.valid || Added(x.log, k).Some?))
  }

  /** A delete of a row the transaction inserted itself. */
  predicate OwnDelete(x: Txn, op: Op, k: Key) { op.Delete? && Added(x.log, k).Some? }

  lemma FoundIsOwn(s: State, t: nat, k: Key)
    requires Inv(s) && t in s.txns && s.txns[t].phase.Active?
    ensures Added(s.txns[t].log, k).Some? <==> FindIn(s, k) != -1 && Holds(s.txns[t].added, k, FindIn(s, k))
  {
    var x, id := s.txns[t], FindIn(s, k);
    assert TxnOk(t, x, s.els, s.linked, s.bver, s.history) && KeyOk(k, x);
    assert k in x.added ==> AddedAt(t, k, x.added[k], x.log, s.els, s.linked) && Linked(s, k, x.added[k]);
    if id != -1 {
      FoundOwn(t, x, s.els, s.linked, s.home, s.clock, id);
    }
  }

  lemma FoundLogs(x: Txn, op: Op, e: Elem, id: nat)
    requires x.phase.Active?
    ensures var y, own := Found(x, op, e, id), Holds(x.added, e.key, id);
            && (y.phase.Active? <==> e.lock.None? && (e.valid || own))
            && (!y.phase.Active? ==> Aborted(y))
            && y.log == if y.phase.Active? && !(op.Delete? && own) then x.log + [Call(op, e.key, Some(e.row))]
              else x.log
  {
  }

  lemma MissLogs(s: State, t: nat, op: Op, k: Key)
    requires t in s.txns && s.txns[t].phase.Active? && FindIn(s, k) == -1
    ensures var y := OnElem(s, t, op, k).txns[t]; y.phase.Active? && y.log == s.txns[t].log + [Call(op, k, None)]
  {
  }

  lemma HitLogs(s: State, t: nat, op: Op, k: Key)
    requires t in s.txns && s.txns[t].phase.Active? && FindIn(s, k) != -1
    ensures OnElem(s, t, op, k) == WithTxn(s, t, Found(s.txns[t], op, s.els[FindIn(s, k)], FindIn(s, k)))
  {
  }

  /**
    A call stops its transaction exactly when it cannot use what it finds;
    otherwise the log grows by exactly this call and what its caller was told,
    except that a delete of an own insert does nothing at all.
   */
  lemma CallIsLogged(s: State, t: nat, op: Op, k: Key)
    requires Inv(s) && t in s.txns && s.txns[t].phase.Active?
    ensures var x, s' := s.txns[t], Perform(s, Do(t, op, k));
            && t in s'.txns
            && (s'.txns[t].phase.Active? <==> CanUse(s, x, k)) && (!CanUse(s, x, k) ==> Aborted(s'.txns[t]))
            && s'.txns[t].log == (if CanUse(s, x, k) && !OwnDelete(x, op, k)
                                  then x.log + [Call(op, k, RowFound(s, k))] else x.log)
            && (CanUse(s, x, k) && OwnDelete(x, op, k) ==> s' == s)
  {
    var x, id := s.txns[t], FindIn(s, k);
    FoundIsOwn(s, t, k);
    if id == -1 {
      MissLogs(s, t, op, k);
    } else {
      HitLogs(s, t, op, k);
      FoundLogs(x, op, s.els[id], id);
      assert s.txns[t := x] == s.txns;
    }
  }

  // ------------------------------------------------------------ all calls of a run

  datatype Asked = Asked(op: Op, k: Key)

  function AskedOf(log: seq<Call>): seq<Asked> { seq(|log|, i requires 0 <= i < |log| => Asked(log[i].op, log[i].k)) }

  /** The calls transaction t has made that could use what they found, without deletes of its own inserts. */
  ghost function Issued(actions: seq<Action>, t: nat): seq<Asked>
    decreases |actions|
  {
    if actions == [] then []
    else
      var front, a := actions[..|actions| - 1], actions[|actions| - 1];
      var s := Run(front);
      if a.Do? && a.t == t && t in s.txns && s.txns[t].phase.Active? && CanUse(s, s.txns[t], a.k)
         && !OwnDelete(s.txns[t], a.op, a.k)
      then Issued(front, t) + [Asked(a.op, a.k)]
      else Issued(front, t)
  }

  lemma PrivateKeepsLog(s: State, x: Txn, a: Action)
    requires Private(a) && Enabled(s, x, a)
    ensures NextTxn(s, x, a).log == x.log
  {
  }

  lemma LockKeepsLog(s: State, t: nat, x: Txn, id: nat)
    requires id < |s.els|
    ensures LockItem(s, t, x, id).txns[t].log == x.log
  {
  }

  lemma InstallKeepsLog(s: State, t: nat, x: Txn, id: nat)
    requires id < |s.els|
    ensures InstallItem(s, t, x, id).txns[t].log == x.log
  {
  }

  lemma UnlockKeepsLog(s: State, t: nat, x: Txn, id: nat)
    requires id < |s.els|
    ensures UnlockItem(s, t, x, id).txns[t].log == x.log
  {
  }

  lemma CleanKeepsLog(s: State, t: nat, x: Txn, id: nat)
    requires x.phase.Cleaning?
    ensures CleanItem(s, t, x, id).txns[t].log == x.log
  {
  }

  lemma OwnStepsKeepLog(s: State, a: Action)
    requires a.t in s.txns && Enabled(s, s.txns[a.t], a) && !a.Do?
    ensures a.t in Perform(s, a).txns && Perform(s, a).txns[a.t].log == s.txns[a.t].log
  {
    var x := s.txns[a.t];
    if Private(a) {
      PrivateKeepsLog(s, x, a);
    } else {
      match a
      case Lock(t, id) => LockKeepsLog(s, t, x, id);
      case AllLocked(_) =>
      case AllChecked(_) =>
      case Install(t, id) => InstallKeepsLog(s, t, x, id);
      case Clean(t, id) => CleanKeepsLog(s, t, x, id);
      case Unlock(t, id) => UnlockKeepsLog(s, t, x, id);
    }
  }

  /** Only a call of the transaction itself changes its log. */
  lemma OtherStepsKeepLog(s: State, a: Action, t: nat)
    requires Inv(s) && !(a.Do? && a.t == t && t in s.txns && s.txns[t].phase.Active?)
    ensures TxnOf(Perform(s, a), t).log == TxnOf(s, t).log
  {
    if a.t != t {
      StepMoves(s, a, t, 0, 0);
    } else if t in s.txns && Enabled(s, s.txns[t], a) {
      OwnStepsKeepLog(s, a);
    }
  }

  lemma AskedGrows(log: seq<Call>, c: Call)
    ensures AskedOf(log + [c]) == AskedOf(log) + [Asked(c.op, c.k)]
  {
  }

  /** In every run a transaction's log, committed or not, holds exactly the calls it has made. */
  lemma {:induction false} LogIsIssued(actions: seq<Action>, t: nat)
    ensures AskedOf(TxnOf(Run(actions), t).log) == Issued(actions, t)
    decreases |actions|
  {
    if actions != [] {
      var front, a := actions[..|actions| - 1], actions[|actions| - 1];
      LogIsIssued(front, t);
      RunKeeps(front);
      var s := Run(front);
      if a.Do? && a.t == t && t in s.txns && s.txns[t].phase.Active? {
        CallIsLogged(s, t, a.op, a.k);
        AskedGrows(s.txns[t].log, Call(a.op, a.k, RowFound(s, a.k)));
      } else {
        OtherStepsKeepLog(s, a, t);
      }
    }
  }

  // ------------------------------------------------------------ what a commit does

  /**
    After a commit every key has what the transaction's calls ask for: no row if
    it deleted the key, else the row it inserted, else the one of its last update,
    else the row that was there.
   */
  lemma CommitEffect(actions: seq<Action>, t: nat, k: Key)
    requires t in Run(actions).txns && Committed(Run(actions).txns[t])
    ensures var x, h := Run(actions).txns[t], Run(actions).history;
            Lookup(Replay(h, x.ticket + 1), k) ==
              if Removed(x.log, k) then None
              else if Added(x.log, k).Some? then Added(x.log, k)
              else if Updated(x.log, k).Some? then Updated(x.log, k)
              else Lookup(Replay(h, x.ticket), k)
  {
    var x, h := Run(actions).txns[t], Run(actions).history;
    Serializable(actions, t);
    InstalledIsFinal(Replay(h, x.ticket), x.log, k);
    WroteIs(Replay(h, x.ticket), x.log, k);
  }

  lemma {:induction false} RemovedStays(log: seq<Call>, i: nat)
    requires i < |log| && log[i].op.Delete? && log[i].was.Some?
    ensures Removed(log, log[i].k)
    decreases |log|
  {
    if i < |log| - 1 {
      RemovedStays(log[..|log| - 1], i);
    }
  }

  lemma {:induction false} LogStays(s: State, t: nat, more: seq<Action>)
    requires Inv(s)
    ensures TxnOf(s, t).log <= TxnOf(RunFrom(s, more), t).log
    decreases |more|
  {
    if more != [] {
      var v, a := RunFrom(s, more[..|more| - 1]), more[|more| - 1];
      LogStays(s, t, more[..|more| - 1]);
      RunFromKeeps(s, more[..|more| - 1]);
      if a.Do? && a.t == t && t in v.txns && v.txns[t].phase.Active? {
        CallIsLogged(v, t, a.op, a.k);
      } else {
        OtherStepsKeepLog(v, a, t);
      }
    }
  }

  /** The delete finds a row that is there and not the transaction's own insert. */
  ghost predicate DeletesRow(s: State, t: nat, k: Key) {
    && t in s.txns && s.txns[t].phase.Active? && CanUse(s, s.txns[t], k)
    && FindIn(s, k) != -1 && Added(s.txns[t].log, k).None?
  }

  lemma DeleteStaysLogged(s: State, t: nat, k: Key, more: seq<Action>)
    requires Inv(s) && DeletesRow(s, t, k)
    ensures Removed(TxnOf(RunFrom(Perform(s, Do(t, Delete, k)), more), t).log, k)
  {
    CallIsLogged(s, t, Delete, k);
    PerformKeeps(s, Do(t, Delete, k));
    LogStays(Perform(s, Do(t, Delete, k)), t, more);
    RemovedStays(TxnOf(RunFrom(Perform(s, Do(t, Delete, k)), more), t).log, |s.txns[t].log|);
  }

  /**
    A delete that finds somebody's row is carried out by the commit: whatever
    happens in between, once the transaction has committed the key has no row.
   */
  lemma DeleteTakesEffect(before: seq<Action>, t: nat, k: Key, more: seq<Action>)
    requires DeletesRow(Run(before), t, k)
    requires Committed(TxnOf(Run(before + [Do(t, Delete, k)] + more), t))
    ensures var v := Run(before + [Do(t, Delete, k)] + more); k !in Replay(v.history, TxnOf(v, t).ticket + 1)
  {
    RunKeeps(before);
    RunGrows(before, Do(t, Delete, k));
    RunAppend(EMPTY, before + [Do(t, Delete, k)], more);
    DeleteStaysLogged(Run(before), t, k, more);
    CommitEffect(before + [Do(t, Delete, k)] + more, t, k);
  }
}
