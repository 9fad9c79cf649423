/** The calls of an active transaction keep the invariant. */
module IndexCallSteps {
  import opened Options
  import opened HashKeys
  import opened IndexCalls
  import opened IndexOcc
  import opened IndexInv
  import opened IndexSteps

  // ------------------------------------------------------------ growing logs

  lemma LogGrows(log: seq<Call>, c: Call, k: Key)
    ensures Added(log + [c], k) == if c.k == k && c.op.Insert? && c.was.None? then Some(c.op.row) else Added(log, k)
    ensures c.k != k ==> Wrote(log + [c], k) == Wrote(log, k)
    ensures Wrote(log, k).Some? ==> Wrote(log + [c], k).Some?
    ensures c.k == k && c.op.Insert? && c.was.None? ==> Wrote(log + [c], k) == Some(Some(c.op.row))
    ensures c.k == k && (c.op.Update? || c.op.Delete?) && c.was.Some? && Added(log, k).None? ==>
            Wrote(log + [c], k).Some?
    ensures c.op.Select? || (c.op.Insert? && c.was.Some?) || (!c.op.Insert? && c.was.None?) ==>
            Wrote(log + [c], k) == Wrote(log, k)
    ensures c.op.Update? && c.was.Some? && Added(log, k).Some? ==> Wrote(log + [c], k) == Wrote(log, k)
  {
    assert (log + [c])[..|log|] == log;
  }

  lemma OwnGrows(log: seq<Call>, marks: seq<Mark>, c: Call, m: Mark)
    requires OwnOk(log, marks)
    requires c.was == if Added(log, c.k).Some? then Added(log, c.k) else Base(c, m)
    requires Added(log, c.k).Some? ==> m.Mine?
    ensures OwnOk(log + [c], marks + [m])
  {
    assert (log + [c])[..|log|] == log && (marks + [m])[..|marks|] == marks;
  }

  // ------------------------------------------------------------ a key that is not found

  lemma NotFoundNotMine(s: State, t: nat, x: Txn, k: Key)
    requires BeforeOk(t, x, s.els, s.linked, s.bver, s.history) && FindIn(s, k) == -1
    ensures k !in x.added && Added(x.log, k) == None
  {
    assert k in x.added ==> AddedAt(t, k, x.added[k], x.log, s.els, s.linked);
    assert k in x.added ==> Linked(s, k, x.added[k]);
    assert KeyOk(k, x);
  }

  lemma MissKeepsCalls(s: State, t: nat, x: Txn, op: Op, k: Key)
    requires LogOk(x, s.els, s.linked, s.bver, s.history) && FindIn(s, k) == -1
    requires forall n :: n in s.history ==> n <= s.clock
    ensures LogOk(Miss(s, x, op, k), s.els, s.linked, s.bver, s.history)
  {
    var y := Miss(s, x, op, k);
    forall i | 0 <= i < |y.log|
      ensures CallOk(y.log[i], y.marks[i], y, s.els, s.linked, s.bver, s.history)
    {
      if i < |x.log| {
        assert CallOk(x.log[i], x.marks[i], x, s.els, s.linked, s.bver, s.history);
      } else {
        assert forall id :: id in s.linked && id < |s.els| && s.els[id].key == k ==> Linked(s, k, id);
      }
    }
  }

  lemma MissOk(s: State, t: nat, x: Txn, op: Op, k: Key)
    requires TxnOk(t, x, s.els, s.linked, s.bver, s.history) && x.phase.Active? && FindIn(s, k) == -1 && !op.Insert?
    requires forall n :: n in s.history ==> n <= s.clock
    ensures TxnOk(t, Miss(s, x, op, k), s.els, s.linked, s.bver, s.history)
  {
    var y, c := Miss(s, x, op, k), Call(op, k, None);
    NotFoundNotMine(s, t, x, k);
    MissKeepsCalls(s, t, x, op, k);
    OwnGrows(x.log, x.marks, c, Gone(s.clock));
    forall j
      ensures Wrote(y.log, j) == Wrote(x.log, j) && Added(y.log, j) == Added(x.log, j)
    {
      LogGrows(x.log, c, j);
    }
    SameWritesKeep(t, x, y, s.els, s.linked);
  }

  /** A transaction whose log writes what it wrote before keeps its items. */
  lemma SameWritesKeep(t: nat, x: Txn, y: Txn, els: seq<Elem>, linked: set<nat>)
    requires AddedOk(t, x.added, x.log, els, linked) && SeenOk(x.seen, x.added, els)
    requires HitsOk(x.hits, x.seen, x.log, els) && KeysOk(x)
    requires y.added == x.added && y.hits == x.hits
    requires forall id :: id in x.seen ==> id in y.seen && y.seen[id] == x.seen[id]
    requires forall id :: id in y.seen && id !in x.seen ==> SeenAt(id, y.seen[id], x.added, els)
    requires forall j :: Wrote(y.log, j) == Wrote(x.log, j) && Added(y.log, j) == Added(x.log, j)
    ensures AddedOk(t, y.added, y.log, els, linked) && SeenOk(y.seen, y.added, els)
    ensures HitsOk(y.hits, y.seen, y.log, els) && KeysOk(y)
  {
    forall k | k in y.added
      ensures AddedAt(t, k, y.added[k], y.log, els, linked)
    {
      assert AddedAt(t, k, x.added[k], x.log, els, linked);
    }
    forall id | id in y.seen
      ensures SeenAt(id, y.seen[id], y.added, els)
    {
      assert id in x.seen ==> SeenAt(id, x.seen[id], x.added, els);
    }
    forall k | k in y.hits
      ensures HitAt(k, y.hits[k], y.seen, y.log, els)
    {
      assert HitAt(k, x.hits[k], x.seen, x.log, els);
    }
    forall k
      ensures KeyOk(k, y)
    {
      assert KeyOk(k, x);
    }
  }

  // ------------------------------------------------------------ an own insert

  /** While a transaction's insert is linked, a walk for its key finds that insert. */
  lemma FoundOwn(t: nat, x: Txn, els: seq<Elem>, linked: set<nat>, home: map<Key, nat>, clock: nat, id: nat)
    requires ElemsOk(els, linked, home, clock) && AddedOk(t, x.added, x.log, els, linked) && id in linked && id < |els|
    ensures Holds(x.added, els[id].key, id) <==> els[id].key in x.added
  {
    var k := els[id].key;
    assert k in x.added ==> AddedAt(t, k, x.added[k], x.log, els, linked);
  }

  lemma NotedKeepsCalls(x: Txn, y: Txn, els: seq<Elem>, linked: set<nat>, bver: map<nat, nat>, h: map<nat, Done>,
                        c: Call, m: Mark)
    requires LogOk(x, els, linked, bver, h) && y.log == x.log + [c] && y.marks == x.marks + [m]
    requires y.buckets == x.buckets && y.added == x.added
    requires forall id :: id in x.seen ==> id in y.seen && y.seen[id] == x.seen[id]
    requires CallOk(c, m, y, els, linked, bver, h)
    ensures LogOk(y, els, linked, bver, h)
  {
    forall i | 0 <= i < |y.log|
      ensures CallOk(y.log[i], y.marks[i], y, els, linked, bver, h)
    {
      assert i < |x.log| ==> CallOk(x.log[i], x.marks[i], x, els, linked, bver, h);
    }
  }

  lemma ReadOwnOk(t: nat, x: Txn, els: seq<Elem>, linked: set<nat>, bver: map<nat, nat>, h: map<nat, Done>, op: Op,
                  id: nat)
    requires TxnOk(t, x, els, linked, bver, h) && x.phase.Active? && !op.Delete?
    requires id < |els| && Holds(x.added, els[id].key, id)
    ensures TxnOk(t, ReadOwn(x, op, els[id], id), els, linked, bver, h)
  {
    var e, y := els[id], ReadOwn(x, op, els[id], id);
    var c := Call(op, e.key, Some(e.row));
    assert AddedAt(t, e.key, x.added[e.key], x.log, els, linked);
    OwnGrows(x.log, x.marks, c, Mark.Mine);
    NotedKeepsCalls(x, y, els, linked, bver, h, c, Mark.Mine);
    forall j
      ensures Wrote(y.log, j) == Wrote(x.log, j) && Added(y.log, j) == Added(x.log, j)
    {
      LogGrows(x.log, c, j);
    }
    SameWritesKeep(t, x, y, els, linked);
  }

  // ------------------------------------------------------------ another element

  lemma ReadKeepsItems(t: nat, x: Txn, els: seq<Elem>, linked: set<nat>, op: Op, id: nat)
    requires AddedOk(t, x.added, x.log, els, linked) && SeenOk(x.seen, x.added, els)
    requires HitsOk(x.hits, x.seen, x.log, els) && KeysOk(x)
    requires id < |els| && els[id].valid && els[id].key !in x.added
    ensures var y := Read(x, op, els[id], id);
            AddedOk(t, y.added, y.log, els, linked) && SeenOk(y.seen, y.added, els)
              && HitsOk(y.hits, y.seen, y.log, els) && KeysOk(y)
  {
    var e, y := els[id], Read(x, op, els[id], id);
    var c := Call(op, e.key, Some(e.row));
    assert KeyOk(e.key, x);
    forall k | k in y.added
      ensures AddedAt(t, k, y.added[k], y.log, els, linked)
    {
      assert AddedAt(t, k, x.added[k], x.log, els, linked);
      LogGrows(x.log, c, k);
    }
    forall j | j in y.seen
      ensures SeenAt(j, y.seen[j], y.added, els)
    {
      assert j in x.seen ==> SeenAt(j, x.seen[j], x.added, els);
    }
    forall k | k in y.hits
      ensures HitAt(k, y.hits[k], y.seen, y.log, els)
    {
      assert k in x.hits ==> HitAt(k, x.hits[k], x.seen, x.log, els);
      LogGrows(x.log, c, k);
    }
    forall k
      ensures KeyOk(k, y)
    {
      assert KeyOk(k, x);
      LogGrows(x.log, c, k);
    }
  }

  lemma ReadOk(t: nat, x: Txn, els: seq<Elem>, linked: set<nat>, bver: map<nat, nat>, h: map<nat, Done>, op: Op,
               id: nat)
    requires TxnOk(t, x, els, linked, bver, h) && x.phase.Active?
    requires id < |els| && els[id].valid && els[id].key !in x.added
    ensures TxnOk(t, Read(x, op, els[id], id), els, linked, bver, h)
  {
    var e, y := els[id], Read(x, op, els[id], id);
    var c := Call(op, e.key, Some(e.row));
    assert KeyOk(e.key, x);
    ReadKeepsItems(t, x, els, linked, op, id);
    OwnGrows(x.log, x.marks, c, Row(id));
    NotedKeepsCalls(x, y, els, linked, bver, h, c, Row(id));
  }
}
