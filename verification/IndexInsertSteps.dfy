/** Inserting a new element keeps the invariant. */
module IndexInsertSteps {
  import opened Options
  import opened HashKeys
  import opened IndexCalls
  import opened IndexOcc
  import opened IndexInv
  import opened IndexSteps
  import opened IndexCallSteps

  ghost predicate NoneLinked(k: Key, els: seq<Elem>, linked: set<nat>) {
    forall id :: id in linked && id < |els| ==> els[id].key != k
  }

  lemma NotFoundIsNone(s: State, k: Key)
    requires FindIn(s, k) == -1
    ensures NoneLinked(k, s.els, s.linked)
  {
    assert forall id :: id in s.linked && id < |s.els| && s.els[id].key == k ==> Linked(s, k, id);
  }

  function Bumped(bver: map<nat, nat>, b: nat): map<nat, nat> { bver[b := BucketVersion(bver, b) + 1] }

  lemma InsertKeepsElems(els: seq<Elem>, linked: set<nat>, home: map<Key, nat>, clock: nat, e: Elem)
    requires ElemsOk(els, linked, home, clock) && !e.valid && !e.deleted && e.version <= clock && e.lock.None?
    requires NoneLinked(e.key, els, linked)
    ensures ElemsOk(els + [e], linked + {|els|}, home, clock)
  {
    forall id | 0 <= id <= |els|
      ensures ElemOk((els + [e])[id], clock) && AtHome(els + [e], home, id)
    {
      assert id < |els| ==> ElemOk(els[id], clock) && AtHome(els, home, id);
    }
    forall k | k in home
      ensures Live(els + [e], linked + {|els|}, k, home[k])
    {
      assert Live(els, linked, k, home[k]);
    }
  }

  // ------------------------------------------------------------ other transactions

  lemma InsertKeepsItems(t: nat, x: Txn, els: seq<Elem>, linked: set<nat>, e: Elem)
    requires AddedOk(t, x.added, x.log, els, linked) && SeenOk(x.seen, x.added, els)
    requires HitsOk(x.hits, x.seen, x.log, els)
    requires HeldOk(t, x.needs, els)
    ensures AddedOk(t, x.added, x.log, els + [e], linked + {|els|}) && SeenOk(x.seen, x.added, els + [e])
    ensures HitsOk(x.hits, x.seen, x.log, els + [e]) && HeldOk(t, x.needs, els + [e])
  {
    forall k | k in x.added
      ensures AddedAt(t, k, x.added[k], x.log, els + [e], linked + {|els|})
    {
      assert AddedAt(t, k, x.added[k], x.log, els, linked);
    }
    forall id | id in x.seen
      ensures SeenAt(id, x.seen[id], x.added, els + [e])
    {
      assert SeenAt(id, x.seen[id], x.added, els);
    }
    forall k | k in x.hits
      ensures HitAt(k, x.hits[k], x.seen, x.log, els + [e])
    {
      assert HitAt(k, x.hits[k], x.seen, x.log, els);
    }
    forall id | id in x.needs
      ensures HeldAt(t, id, els + [e])
    {
      assert HeldAt(t, id, els);
    }
  }

  /** An insert by somebody else makes every observation of its bucket stale. */
  lemma InsertKeepsLog(x: Txn, els: seq<Elem>, linked: set<nat>, bver: map<nat, nat>, h: map<nat, Done>, e: Elem)
    requires LogOk(x, els, linked, bver, h) && BucketsOk(x.buckets, bver)
    ensures LogOk(x, els + [e], linked + {|els|}, Bumped(bver, e.key.hash), h)
    ensures BucketsOk(x.buckets, Bumped(bver, e.key.hash))
  {
    forall i | 0 <= i < |x.log|
      ensures CallOk(x.log[i], x.marks[i], x, els + [e], linked + {|els|}, Bumped(bver, e.key.hash), h)
    {
      assert CallOk(x.log[i], x.marks[i], x, els, linked, bver, h);
    }
  }

  lemma InsertKeepsBefore(t: nat, x: Txn, els: seq<Elem>, linked: set<nat>, bver: map<nat, nat>, h: map<nat, Done>,
                          e: Elem)
    requires BeforeOk(t, x, els, linked, bver, h)
    ensures BeforeOk(t, x, els + [e], linked + {|els|}, Bumped(bver, e.key.hash), h)
  {
    InsertKeepsItems(t, x, els, linked, e);
    InsertKeepsLog(x, els, linked, bver, h, e);
  }

  lemma InsertKeepsInstalling(t: nat, x: Txn, els: seq<Elem>, linked: set<nat>, h: map<nat, Done>, e: Elem)
    requires InstallingOk(t, x, els, linked, h)
    ensures InstallingOk(t, x, els + [e], linked + {|els|}, h)
  {
    forall id | id in x.left
      ensures ToInstall(t, x, id, els + [e], linked + {|els|})
    {
      assert ToInstall(t, x, id, els, linked);
    }
    forall id | id in x.needs && id !in x.left
      ensures DeadAt(t, x, id, els + [e], linked + {|els|})
    {
      assert DeadAt(t, x, id, els, linked);
    }
    forall id | id in Written(x) && id !in x.left && IsDelete(x, els + [e], id)
      ensures id in x.needs
    {
      assert IsDelete(x, els, id);
    }
  }

  lemma InsertKeepsCleaning(t: nat, x: Txn, els: seq<Elem>, linked: set<nat>, e: Elem)
    ensures CleaningCommit(t, x, els, linked) ==> CleaningCommit(t, x, els + [e], linked + {|els|})
    ensures CleaningAbort(t, x, els, linked) ==> CleaningAbort(t, x, els + [e], linked + {|els|})
    ensures HeldOk(t, x.needs, els) ==> HeldOk(t, x.needs, els + [e])
  {
    if CleaningCommit(t, x, els, linked) {
      forall id | id in x.needs
        ensures id in x.left && DeadAt(t, x, id, els + [e], linked + {|els|})
      {
        assert DeadAt(t, x, id, els, linked);
      }
      forall id | id in x.left && IsDelete(x, els + [e], id)
        ensures id in x.needs
      {
        assert IsDelete(x, els, id);
      }
    }
    if HeldOk(t, x.needs, els) {
      forall id | id in x.needs
        ensures HeldAt(t, id, els + [e])
      {
        assert HeldAt(t, id, els);
      }
    }
    if CleaningAbort(t, x, els, linked) {
      forall id | id in x.left && id in x.added.Values
        ensures OrphanAt(t, x, id, els + [e], linked + {|els|})
      {
        assert OrphanAt(t, x, id, els, linked);
      }
    }
  }

  lemma InsertKeepsTidy(x: Txn, els: seq<Elem>, linked: set<nat>, left: set<nat>, done: bool, e: Elem)
    requires Tidy(x, els, linked, left, done)
    ensures Tidy(x, els + [e], linked + {|els|}, left, done)
  {
    forall id | id in Written(x) && id !in left && ToUnlink(x, els + [e], id, done)
      ensures id !in linked + {|els|}
    {
      assert ToUnlink(x, els, id, done);
    }
  }

  lemma InsertKeepsOther(u: nat, y: Txn, els: seq<Elem>, linked: set<nat>, bver: map<nat, nat>, h: map<nat, Done>,
                         e: Elem)
    requires TxnOk(u, y, els, linked, bver, h)
    ensures TxnOk(u, y, els + [e], linked + {|els|}, Bumped(bver, e.key.hash), h)
  {
    if y.phase.Installing? {
      InsertKeepsInstalling(u, y, els, linked, h, e);
    } else if y.phase.Active? || y.phase.Locking? || y.phase.Checking? {
      InsertKeepsBefore(u, y, els, linked, bver, h, e);
      assert forall id :: id in y.needs ==> HeldAt(u, id, els);
    } else {
      InsertKeepsCleaning(u, y, els, linked, e);
      InsertKeepsTidy(y, els, linked, if y.phase.Cleaning? then y.left else {}, y.phase.done, e);
    }
  }

  // ------------------------------------------------------------ the inserting transaction

  lemma AddingKeepsItems(t: nat, x: Txn, els: seq<Elem>, linked: set<nat>, e: Elem, was: nat)
    requires AddedOk(t, x.added, x.log, els + [e], linked + {|els|}) && SeenOk(x.seen, x.added, els + [e])
    requires HitsOk(x.hits, x.seen, x.log, els + [e]) && KeysOk(x) && e.key !in x.added && !e.valid && e.maker == t
    ensures var y := Adding(x, e, |els|, was);
            && AddedOk(t, y.added, y.log, els + [e], linked + {|els|}) && SeenOk(y.seen, y.added, els + [e])
            && HitsOk(y.hits, y.seen, y.log, els + [e]) && KeysOk(y)
  {
    var y, c := Adding(x, e, |els|, was), Call(Op.Insert(e.row), e.key, None);
    forall k | k in y.added
      ensures AddedAt(t, k, y.added[k], y.log, els + [e], linked + {|els|})
    {
      LogGrows(x.log, c, k);
      assert k != e.key ==> AddedAt(t, k, x.added[k], x.log, els + [e], linked + {|els|});
    }
    forall id | id in y.seen
      ensures SeenAt(id, y.seen[id], y.added, els + [e])
    {
      assert SeenAt(id, x.seen[id], x.added, els + [e]);
    }
    forall k | k in y.hits
      ensures HitAt(k, y.hits[k], y.seen, y.log, els + [e])
    {
      assert HitAt(k, x.hits[k], x.seen, x.log, els + [e]);
      LogGrows(x.log, c, k);
    }
    forall k
      ensures KeyOk(k, y)
    {
      assert KeyOk(k, x);
      LogGrows(x.log, c, k);
    }
  }

  /** The transaction's own observation of the bucket, if current, moves with its insert. */
  lemma AddingKeepsCall(x: Txn, els: seq<Elem>, linked: set<nat>, bver: map<nat, nat>, h: map<nat, Done>, e: Elem,
                        i: nat)
    requires LogOk(x, els, linked, bver, h) && BucketsOk(x.buckets, bver) && NoneLinked(e.key, els, linked)
    requires i <= |x.log|
    requires e.key !in x.added
    ensures var y := Adding(x, e, |els|, BucketVersion(bver, e.key.hash));
            CallOk(y.log[i], y.marks[i], y, els + [e], linked + {|els|}, Bumped(bver, e.key.hash), h)
  {
    if i < |x.log| {
      assert CallOk(x.log[i], x.marks[i], x, els, linked, bver, h);
    }
  }

  lemma AddingOk(t: nat, x: Txn, els: seq<Elem>, linked: set<nat>, bver: map<nat, nat>, h: map<nat, Done>, e: Elem)
    requires TxnOk(t, x, els, linked, bver, h) && x.phase.Active? && NoneLinked(e.key, els, linked) && !e.valid
    requires e.maker == t
    ensures TxnOk(t, Adding(x, e, |els|, BucketVersion(bver, e.key.hash)), els + [e], linked + {|els|},
                  Bumped(bver, e.key.hash), h)
  {
    var was := BucketVersion(bver, e.key.hash);
    var y := Adding(x, e, |els|, was);
    assert e.key in x.added ==> AddedAt(t, e.key, x.added[e.key], x.log, els, linked);
    assert KeyOk(e.key, x);
    InsertKeepsItems(t, x, els, linked, e);
    AddingKeepsItems(t, x, els, linked, e, was);
    OwnGrows(x.log, x.marks, Call(Op.Insert(e.row), e.key, None), Mark.Mine);
    forall i | 0 <= i < |y.log|
      ensures CallOk(y.log[i], y.marks[i], y, els + [e], linked + {|els|}, Bumped(bver, e.key.hash), h)
    {
      AddingKeepsCall(x, els, linked, bver, h, e, i);
    }
  }

  // ------------------------------------------------------------ rows and the whole state

  lemma InsertKeepsRows(els: seq<Elem>, home: map<Key, nat>, txns: map<nat, Txn>, h: map<nat, Done>, clock: nat,
                        e: Elem)
    requires RowsOk(els, home, txns, h, clock) && !e.valid
    requires forall k :: k in home ==> home[k] < |els|
    requires forall t, id: nat :: t in txns && Pending(txns[t], id) ==> id < |els|
    ensures RowsOk(els + [e], home, txns, h, clock)
  {
    forall t, id: nat | t in txns && Pending(txns[t], id)
      ensures PendingAt(txns[t], id, els + [e], h, clock)
    {
      assert PendingAt(txns[t], id, els, h, clock);
    }
    forall id: nat
      ensures VersionAt(id, els + [e], txns, h)
    {
      assert VersionAt(id, els, txns, h);
    }
    forall k
      ensures KeyRow(k, els + [e], home, txns, h, clock)
    {
      assert KeyRow(k, els, home, txns, h, clock);
      if t: nat, id: nat :| t in txns && Pending(txns[t], id) && id < |els| && els[id].key == k {
        assert (els + [e])[id].key == k;
      }
    }
  }

  lemma InsertKeepsTxns(txns: map<nat, Txn>, els: seq<Elem>, linked: set<nat>, bver: map<nat, nat>, h: map<nat, Done>,
                        t: nat, e: Elem)
    requires TxnsOk(txns, els, linked, bver, h) && t in txns && txns[t].phase.Active?
    requires NoneLinked(e.key, els, linked) && !e.valid && e.maker == t
    ensures TxnsOk(txns[t := Adding(txns[t], e, |els|, BucketVersion(bver, e.key.hash))], els + [e], linked + {|els|},
                   Bumped(bver, e.key.hash), h)
  {
    var txns' := txns[t := Adding(txns[t], e, |els|, BucketVersion(bver, e.key.hash))];
    forall u | u in txns'
      ensures TxnOk(u, txns'[u], els + [e], linked + {|els|}, Bumped(bver, e.key.hash), h)
    {
      assert TxnOk(u, txns[u], els, linked, bver, h);
      if u == t {
        AddingOk(t, txns[t], els, linked, bver, h, e);
      } else {
        InsertKeepsOther(u, txns[u], els, linked, bver, h, e);
      }
    }
  }

  lemma PendingInRange(txns: map<nat, Txn>, els: seq<Elem>, linked: set<nat>, bver: map<nat, nat>, h: map<nat, Done>)
    requires TxnsOk(txns, els, linked, bver, h)
    ensures forall t, id: nat :: t in txns && Pending(txns[t], id) ==> id < |els|
  {
    forall t, id: nat | t in txns && Pending(txns[t], id)
      ensures id < |els|
    {
      assert TxnOk(t, txns[t], els, linked, bver, h);
      assert ToInstall(t, txns[t], id, els, linked);
    }
  }

  lemma HomesInRange(els: seq<Elem>, linked: set<nat>, home: map<Key, nat>, clock: nat)
    requires ElemsOk(els, linked, home, clock)
    ensures forall k :: k in home ==> home[k] < |els|
  {
    assert forall k :: k in home ==> Live(els, linked, k, home[k]);
  }

  lemma MarksGrow(x: Txn, y: Txn, clock: nat)
    requires MarksBy(x, clock) && |y.marks| == |x.marks| + 1 && y.marks[..|x.marks|] == x.marks
    requires MarkBy(y.marks[|x.marks|], clock)
    ensures MarksBy(y, clock)
  {
    forall i | 0 <= i < |y.marks|
      ensures MarkBy(y.marks[i], clock)
    {
      assert i < |x.marks| ==> MarkBy(x.marks[i], clock) && y.marks[..|x.marks|][i] == y.marks[i];
    }
  }

  lemma InsertKeeps(s: State, t: nat, k: Key, row: int)
    requires Inv(s) && t in s.txns && s.txns[t].phase.Active? && NoneLinked(k, s.els, s.linked)
    ensures Inv(InsertNew(s, t, s.txns[t], k, row))
  {
    var e := Elem(k, row, false, false, 0, None, t);
    assert MarksBy(s.txns[t], s.clock);
    var y := Adding(s.txns[t], e, |s.els|, BucketVersion(s.bver, k.hash));
    InsertKeepsElems(s.els, s.linked, s.home, s.clock, e);
    InsertKeepsTxns(s.txns, s.els, s.linked, s.bver, s.history, t, e);
    MarksGrow(s.txns[t], y, s.clock);
    OrderKeeps(s.txns, t, y, s.history, s.clock);
    PendingInRange(s.txns, s.els, s.linked, s.bver, s.history);
    HomesInRange(s.els, s.linked, s.home, s.clock);
    InsertKeepsRows(s.els, s.home, s.txns, s.history, s.clock, e);
    RowsKeep(s.els + [e], s.home, s.txns, t, y, s.history, s.clock);
    Assemble(Bumped(s.bver, k.hash), s.els + [e], s.linked + {|s.els|}, s.home, s.txns[t := y], s.clock, s.history);
  }
}
