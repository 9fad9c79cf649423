/** Two runs in which a transaction's own writes come back to it differently than from a plain map. */
module IndexWitness {
  import opened Options
  import opened HashKeys
  import opened IndexCalls
  import opened IndexOcc
  import opened IndexInv
  import opened IndexMoves
  import opened IndexRuns
  import opened IndexTheorems
  import opened IndexEffects

  // ------------------------------------------------------------ a transaction that is alone with one element

  /** The only element is e, linked, and t is the latest transaction. */
  ghost predicate Stage(s: State, e: Elem, t: nat, x: Txn) {
    s.els == [e] && s.linked == {0} && t in s.txns && s.txns[t] == x && forall u :: u in s.txns ==> u <= t
  }

  lemma FindsIt(s: State, e: Elem, t: nat, x: Txn)
    requires Stage(s, e, t, x)
    ensures FindIn(s, e.key) == 0
  {
    assert Linked(s, e.key, 0);
  }

  lemma Finds(s: State, e: Elem, t: nat, x: Txn, op: Op)
    requires Stage(s, e, t, x) && x.phase.Active?
    ensures Stage(Perform(s, Do(t, op, e.key)), e, t, Found(x, op, e, 0))
  {
    FindsIt(s, e, t, x);
  }

  /** All the steps up to the locks. */
  lemma Locks(s: State, e: Elem, t: nat, x: Txn)
    requires Stage(s, e, t, x) && x.phase.Active? && x.needs == {} && Written(x) == {0} && e.lock.None?
    ensures Stage(RunFrom(s, [TryCommit(t), Lock(t, 0)]), e.(lock := Some(t)), t,
                  x.(phase := Locking, needs := {0}, left := {}))
  {
    var y := x.(phase := Locking, left := Written(x));
    var s1 := Perform(s, TryCommit(t));
    assert Stage(s1, e, t, y);
    var s2 := Perform(s1, Lock(t, 0));
    assert y.needs + {0} == {0} && y.left - {0} == {};
    assert Stage(s2, e.(lock := Some(t)), t, x.(phase := Locking, needs := {0}, left := {}));
    assert [TryCommit(t), Lock(t, 0)] == [TryCommit(t)] + [Lock(t, 0)] && [Lock(t, 0)] == [Lock(t, 0)] + [];
    RunCons(s, TryCommit(t), [Lock(t, 0)]);
    RunCons(s1, Lock(t, 0), []);
  }

  /** Both are the same but for lock and version, and a deleted element is locked by t, any other by nobody. */
  predicate Left(e: Elem, e': Elem, t: nat) {
    && e'.key == e.key && e'.row == e.row && e'.valid == e.valid && e'.deleted == e.deleted
    && e'.lock == if e.deleted then Some(t) else None
  }

  /** The transaction has committed its log, and the element is what it leaves. */
  ghost predicate Ended(s: State, e: Elem, t: nat, x: Txn) {
    && |s.els| == 1 && Stage(s, s.els[0], t, TxnOf(s, t)) && Committed(TxnOf(s, t)) && TxnOf(s, t).log == x.log
    && TxnOf(s, t) == x.(phase := Installing, left := {}, leftBuckets := {}, ticket := TxnOf(s, t).ticket,
                         needs := if s.els[0].deleted then {0} else {})
    && Left(InstalledElem(e, 0, x), s.els[0], t)
  }

  /** The transaction writes just the element, which nobody has deleted yet. */
  predicate Writer(x: Txn, e: Elem) {
    && Written(x) == {0} && x.buckets == map[] && !e.deleted
    && if e.valid then Holds(x.hits, e.key, 0) else !Holds(x.hits, e.key, 0)
  }

  lemma Decided(s: State, e: Elem, t: nat, x: Txn)
    requires Stage(s, e, t, x) && x.phase.Checking? && x.left == {} && x.leftBuckets == {} && Writer(x, e)
    ensures Stage(Perform(s, AllChecked(t)), e, t, x.(phase := Installing, left := {0}))
  {
  }

  lemma Installs(s: State, e: Elem, t: nat, x: Txn)
    requires Stage(s, e, t, x) && x.phase.Installing? && x.left == {0} && x.leftBuckets == {} && Writer(x, e)
    requires e.lock == Some(t) && x.needs == {0}
    ensures Ended(RunFrom(s, [Install(t, 0)]), e, t, x)
  {
    RunCons(s, Install(t, 0), []);
    assert [Install(t, 0)] + [] == [Install(t, 0)];
    assert x.left - {0} == {} && x.needs - {0} == {};
  }

  lemma InstallsChecked(s: State, e: Elem, t: nat, x: Txn)
    requires Stage(s, e, t, x) && x.phase.Checking? && x.left == {} && x.leftBuckets == {} && Writer(x, e)
    requires e.lock == Some(t) && x.needs == {0}
    ensures Ended(RunFrom(s, [AllChecked(t)] + [Install(t, 0)]), e, t, x)
  {
    var y := x.(phase := Installing, left := {0});
    Decided(s, e, t, x);
    Installs(Perform(s, AllChecked(t)), e, t, y);
    RunCons(s, AllChecked(t), [Install(t, 0)]);
    assert InstalledElem(e, 0, y) == InstalledElem(e, 0, x);
  }

  lemma Passes(s: State, e: Elem, t: nat, x: Txn)
    requires Stage(s, e, t, x) && x.phase.Checking? && x.seen == map[0 := e.version] && x.left == {0} && Writer(x, e)
    ensures Stage(Perform(s, CheckRow(t, 0)), e, t, x.(left := {}))
  {
    assert RowPasses(s, x, 0) && x.left - {0} == {};
  }

  lemma InstallsRead(s: State, e: Elem, t: nat, x: Txn)
    requires Stage(s, e, t, x) && x.phase.Checking? && x.seen == map[0 := e.version] && x.left == {0}
    requires x.leftBuckets == {} && Writer(x, e) && e.lock == Some(t) && x.needs == {0}
    ensures Ended(RunFrom(s, [CheckRow(t, 0)] + ([AllChecked(t)] + [Install(t, 0)])), e, t, x)
  {
    var y := x.(left := {});
    Passes(s, e, t, x);
    InstallsChecked(Perform(s, CheckRow(t, 0)), e, t, y);
    RunCons(s, CheckRow(t, 0), [AllChecked(t)] + [Install(t, 0)]);
    assert InstalledElem(e, 0, y) == InstalledElem(e, 0, x);
  }

  /** The rest of a commit once all locks are held; a transaction that read its element checks it. */
  function Finish(t: nat, read: bool): seq<Action> {
    if read then [CheckRow(t, 0)] + ([AllChecked(t)] + [Install(t, 0)]) else [AllChecked(t)] + [Install(t, 0)]
  }

  lemma Draws(s: State, e: Elem, t: nat, x: Txn)
    requires Stage(s, e, t, x) && x.phase.Locking? && x.left == {} && x.buckets == map[]
    ensures Stage(Perform(s, AllLocked(t)), e, t,
                  x.(phase := Checking, ticket := s.clock + 1, left := x.seen.Keys, leftBuckets := {}))
  {
    assert x.buckets.Keys == {};
  }

  lemma Finishes(s: State, e: Elem, t: nat, x: Txn, read: bool)
    requires Stage(s, e, t, x) && x.phase.Locking? && x.left == {} && Writer(x, e)
    requires e.lock == Some(t) && x.needs == {0} && x.seen == if read then map[0 := e.version] else map[]
    ensures Ended(RunFrom(s, [AllLocked(t)] + Finish(t, read)), e, t, x)
  {
    var y := x.(phase := Checking, ticket := s.clock + 1, left := if read then {0} else {}, leftBuckets := {});
    assert x.seen.Keys == y.left;
    Draws(s, e, t, x);
    RunCons(s, AllLocked(t), Finish(t, read));
    if read {
      InstallsRead(Perform(s, AllLocked(t)), e, t, y);
    } else {
      InstallsChecked(Perform(s, AllLocked(t)), e, t, y);
    }
  }

  function CommitRun(t: nat, read: bool): seq<Action> {
    [TryCommit(t), Lock(t, 0)] + ([AllLocked(t)] + Finish(t, read))
  }

  /** A transaction alone with its element commits. */
  lemma Commits(s: State, e: Elem, t: nat, x: Txn, read: bool)
    requires Stage(s, e, t, x) && x.phase.Active? && x.needs == {} && Writer(x, e) && e.lock.None?
    requires x.seen == if read then map[0 := e.version] else map[]
    ensures Ended(RunFrom(s, CommitRun(t, read)), e, t, x)
  {
    var s1, e1, y := RunFrom(s, [TryCommit(t), Lock(t, 0)]), e.(lock := Some(t)),
      x.(phase := Locking, needs := {0}, left := {});
    Locks(s, e, t, x);
    Finishes(s1, e1, t, y, read);
    RunAppend(s, [TryCommit(t), Lock(t, 0)], [AllLocked(t)] + Finish(t, read));
  }

  // ------------------------------------------------------------ a row inserted, then updated and selected again

  function Inserting(k: Key): seq<Action> { [Begin(0)] + [Do(0, Op.Insert(1), k)] }

  function Inserter(k: Key): Txn {
    Txn(Active, map[], map[], map[k := 0], map[], [Call(Op.Insert(1), k, None)], [Mark.Mine], {}, {}, {}, 0)
  }

  lemma InserterWrites(k: Key)
    ensures Writer(Inserter(k), Elem(k, 1, false, false, 0, None, 0)) && Added(Inserter(k).log, k) == Some(1)
  {
    assert Inserter(k).added[k] == 0 && Inserter(k).added.Values == {0};
    assert Inserter(k).log[..0] == [];
  }

  lemma BeginsEmpty()
    ensures Perform(EMPTY, Begin(0)) == EMPTY.(txns := map[0 := START])
  {
  }

  lemma InsertsFirst(s: State, k: Key)
    requires s == EMPTY.(txns := map[0 := START])
    ensures Stage(Perform(s, Do(0, Op.Insert(1), k)), Elem(k, 1, false, false, 0, None, 0), 0, Inserter(k))
  {
    assert FindIn(s, k) == -1;
  }

  lemma Inserts(k: Key)
    ensures Stage(Run(Inserting(k)), Elem(k, 1, false, false, 0, None, 0), 0, Inserter(k))
  {
    var s := Perform(EMPTY, Begin(0));
    BeginsEmpty();
    InsertsFirst(s, k);
    RunCons(EMPTY, Begin(0), [Do(0, Op.Insert(1), k)]);
    RunCons(s, Do(0, Op.Insert(1), k), []);
    assert [Do(0, Op.Insert(1), k)] == [Do(0, Op.Insert(1), k)] + [];
  }

  /** The first transaction's run. */
  function Filling(k: Key): seq<Action> { Inserting(k) + CommitRun(0, false) }

  lemma Fills(k: Key)
    ensures Ended(Run(Filling(k)), Elem(k, 1, false, false, 0, None, 0), 0, Inserter(k))
  {
    Inserts(k);
    InserterWrites(k);
    Commits(Run(Inserting(k)), Elem(k, 1, false, false, 0, None, 0), 0, Inserter(k), false);
    RunAppend(EMPTY, Inserting(k), CommitRun(0, false));
  }

  function Asking(k: Key): seq<Action> { [Begin(1)] + ([Do(1, Update(2), k)] + [Do(1, Select, k)]) }

  function Rereader(k: Key, version: nat): Txn {
    Txn(Active, map[], map[0 := version], map[], map[k := 0], [Call(Update(2), k, Some(1)), Call(Select, k, Some(1))],
        [Row(0), Row(0)], {}, {}, {}, 0)
  }

  function Updater(k: Key, version: nat): Txn {
    Txn(Active, map[], map[0 := version], map[], map[k := 0], [Call(Update(2), k, Some(1))], [Row(0)], {}, {}, {}, 0)
  }

  lemma UpdaterIs(e: Elem)
    requires e.valid && !e.deleted && e.lock.None? && e.row == 1
    ensures Found(START, Update(2), e, 0) == Updater(e.key, e.version)
  {
  }

  lemma UpdaterSelects(e: Elem)
    requires e.valid && !e.deleted && e.lock.None? && e.row == 1
    ensures Found(Updater(e.key, e.version), Select, e, 0) == Rereader(e.key, e.version)
  {
    var first := [Call(Update(2), e.key, Some(1))];
    assert first[..0] == [] && Wrote(first, e.key) == Some(Some(2));
  }

  lemma RereaderWrites(e: Elem)
    requires e.valid && !e.deleted
    ensures Writer(Rereader(e.key, e.version), e)
  {
    var x := Rereader(e.key, e.version);
    assert x.hits[e.key] == 0 && x.hits.Values == {0};
    assert x.added.Values == {};
  }

  lemma RereaderIs(e: Elem)
    requires e.valid && !e.deleted && e.lock.None? && e.row == 1
    ensures Found(Found(START, Update(2), e, 0), Select, e, 0) == Rereader(e.key, e.version)
    ensures Found(START, Update(2), e, 0).phase.Active?
    ensures Writer(Rereader(e.key, e.version), e)
  {
    UpdaterIs(e);
    UpdaterSelects(e);
    RereaderWrites(e);
  }

  lemma Selects(s: State, e: Elem, t: nat, x: Txn, op: Op)
    requires Stage(s, e, t, x) && x.phase.Active?
    ensures Stage(RunFrom(s, [Do(t, op, e.key)]), e, t, Found(x, op, e, 0))
  {
    Finds(s, e, t, x, op);
    RunCons(s, Do(t, op, e.key), []);
    assert [Do(t, op, e.key)] == [Do(t, op, e.key)] + [];
  }

  lemma UpdatesAndSelects(s: State, e: Elem, t: nat, x: Txn)
    requires Stage(s, e, t, x) && x.phase.Active? && Found(x, Update(2), e, 0).phase.Active?
    ensures Stage(RunFrom(s, [Do(t, Update(2), e.key)] + [Do(t, Select, e.key)]), e, t,
                  Found(Found(x, Update(2), e, 0), Select, e, 0))
  {
    Finds(s, e, t, x, Update(2));
    Selects(Perform(s, Do(t, Update(2), e.key)), e, t, Found(x, Update(2), e, 0), Select);
    RunCons(s, Do(t, Update(2), e.key), [Do(t, Select, e.key)]);
  }

  lemma Asks(s: State, e: Elem, x: Txn)
    requires Stage(s, e, 0, x) && e.valid && !e.deleted && e.lock.None? && e.row == 1
    ensures Stage(RunFrom(s, Asking(e.key)), e, 1, Rereader(e.key, e.version))
  {
    RereaderIs(e);
    UpdatesAndSelects(Perform(s, Begin(1)), e, 1, START);
    RunCons(s, Begin(1), [Do(1, Update(2), e.key)] + [Do(1, Select, e.key)]);
  }

  /** Insert 1 and commit; then update it to 2, select it and commit. */
  function Reread(k: Key): seq<Action> { Filling(k) + (Asking(k) + CommitRun(1, true)) }

  lemma Rereads(s: State, e: Elem, x: Txn)
    requires Stage(s, e, 0, x) && e.valid && !e.deleted && e.lock.None? && e.row == 1
    ensures Ended(RunFrom(s, Asking(e.key) + CommitRun(1, true)), e, 1, Rereader(e.key, e.version))
  {
    Asks(s, e, x);
    RereaderIs(e);
    Commits(RunFrom(s, Asking(e.key)), e, 1, Rereader(e.key, e.version), true);
    RunAppend(s, Asking(e.key), CommitRun(1, true));
  }

  /** The second transaction commits, and was told 1 where a plain map says 2. */
  lemma OwnUpdateUnseen(k: Key)
    ensures var s := Run(Reread(k));
            && 1 in s.txns && Committed(s.txns[1])
            && s.txns[1].log == [Call(Update(2), k, Some(1)), Call(Select, k, Some(1))]
            && !Agrees(Replay(s.history, s.txns[1].ticket), s.txns[1].log)
  {
    var s := Run(Filling(k));
    Fills(k);
    Rereads(s, s.els[0], TxnOf(s, 0));
    RunAppend(EMPTY, Filling(k), Asking(k) + CommitRun(1, true));
    Serializable(Reread(k), 1);
    RereadDiffers(k);
  }

  // ------------------------------------------------------------ a row inserted and updated by the same transaction

  /** Insert 1, update it to 2, commit. */
  function Overwriting(k: Key): seq<Action> { Inserting(k) + ([Do(0, Update(2), k)] + CommitRun(0, true)) }

  function Overwriter(k: Key): Txn {
    Txn(Active, map[], map[0 := 0], map[k := 0], map[], [Call(Op.Insert(1), k, None), Call(Update(2), k, Some(1))],
        [Mark.Mine, Mark.Mine], {}, {}, {}, 0)
  }

  lemma OverwriterIs(k: Key)
    ensures var e := Elem(k, 1, false, false, 0, None, 0);
            Found(Inserter(k), Update(2), e, 0) == Overwriter(k) && Writer(Overwriter(k), e)
    ensures NoReread(Overwriter(k).log) && LosesUpdate(Overwriter(k).log, k)
  {
    var x, first := Overwriter(k), [Call(Op.Insert(1), k, None)];
    assert x.added[k] == 0 && x.added.Values == {0};
    assert NoReread(first) by {
      assert first[..|first| - 1] == [] && NoReread([]) && !Removed([], k);
    }
    assert x.log[..1] == first && first[..0] == [] && Wrote(first, k) == Some(Some(1)) && Added(first, k) == Some(1);
    assert !Removed(first, k) && !Changed(first, k);
  }

  lemma Overwrites(k: Key)
    ensures Ended(Run(Overwriting(k)), Elem(k, 1, false, false, 0, None, 0), 0, Overwriter(k))
  {
    var e, s := Elem(k, 1, false, false, 0, None, 0), Run(Inserting(k));
    Inserts(k);
    OverwriterIs(k);
    Finds(s, e, 0, Inserter(k), Update(2));
    Commits(Perform(s, Do(0, Update(2), k)), e, 0, Overwriter(k), true);
    RunCons(s, Do(0, Update(2), k), CommitRun(0, true));
    RunAppend(EMPTY, Inserting(k), [Do(0, Update(2), k)] + CommitRun(0, true));
  }

  /** The transaction commits and agrees with a plain map call by call, but its row is 1 where the map ends with 2. */
  lemma OwnUpdateDropped(k: Key)
    ensures var s := Run(Overwriting(k));
            && 0 in s.txns && Committed(s.txns[0]) && |s.els| == 1 && s.els[0].key == k && s.els[0].valid
            && s.els[0].row == 1
            && s.txns[0].log == [Call(Op.Insert(1), k, None), Call(Update(2), k, Some(1))]
            && Agrees(Replay(s.history, s.txns[0].ticket), s.txns[0].log)
            && Replay(s.history, s.txns[0].ticket + 1) != AfterAll(Replay(s.history, s.txns[0].ticket), s.txns[0].log)
  {
    Overwrites(k);
    OverwriterIs(k);
    Serializable(Overwriting(k), 0);
  }

  // ------------------------------------------------------------ a row inserted, then deleted

  function Deleter(k: Key, version: nat): Txn {
    Txn(Active, map[], map[0 := version], map[], map[k := 0], [Call(Delete, k, Some(1))], [Row(0)], {}, {}, {}, 0)
  }

  lemma DeleterIs(e: Elem)
    requires e.valid && !e.deleted && e.lock.None? && e.row == 1
    ensures Found(START, Delete, e, 0) == Deleter(e.key, e.version) && Writer(Deleter(e.key, e.version), e)
    ensures InstalledElem(e, 0, Deleter(e.key, e.version)).deleted
  {
    var x := Deleter(e.key, e.version);
    assert x.hits[e.key] == 0 && x.hits.Values == {0};
    assert x.log[..0] == [] && Wrote(x.log, e.key) == Some(None);
  }

  /** Insert 1 and commit; then delete it and commit. */
  function Deleting(k: Key): seq<Action> { Filling(k) + ([Begin(1)] + ([Do(1, Delete, k)] + CommitRun(1, true))) }

  lemma Deletes(s: State, e: Elem, x: Txn)
    requires Stage(s, e, 0, x) && e.valid && !e.deleted && e.lock.None? && e.row == 1
    ensures Ended(RunFrom(s, [Begin(1)] + ([Do(1, Delete, e.key)] + CommitRun(1, true))), e, 1,
                  Deleter(e.key, e.version))
  {
    var s1 := Perform(s, Begin(1));
    DeleterIs(e);
    Finds(s1, e, 1, START, Delete);
    Commits(Perform(s1, Do(1, Delete, e.key)), e, 1, Deleter(e.key, e.version), true);
    RunCons(s, Begin(1), [Do(1, Delete, e.key)] + CommitRun(1, true));
    RunCons(s1, Do(1, Delete, e.key), CommitRun(1, true));
  }

  lemma DeletedRun(k: Key) returns (e: Elem)
    ensures e.key == k && e.valid && !e.deleted && e.lock.None? && e.row == 1
    ensures Ended(Run(Deleting(k)), e, 1, Deleter(k, e.version))
  {
    var s := Run(Filling(k));
    Fills(k);
    e := s.els[0];
    Deletes(s, e, TxnOf(s, 0));
    RunAppend(EMPTY, Filling(k), [Begin(1)] + ([Do(1, Delete, k)] + CommitRun(1, true)));
  }

  /** The delete commits: the element is marked, and the key has no row after the transaction. */
  lemma DeleteCommits(k: Key)
    ensures var s := Run(Deleting(k));
            && 1 in s.txns && Committed(s.txns[1]) && s.txns[1].log == [Call(Delete, k, Some(1))]
            && |s.els| == 1 && s.els[0].key == k && s.els[0].deleted && s.els[0].lock == Some(1)
            && Lookup(Replay(s.history, s.txns[1].ticket), k) == Some(1)
            && k !in Replay(s.history, s.txns[1].ticket + 1)
  {
    var e := DeletedRun(k);
    DeleterIs(e);
    Serializable(Deleting(k), 1);
    CommitEffect(Deleting(k), 1, k);
    var log := [Call(Delete, k, Some(1))];
    assert log[..0] == [] && Added([], k) == None && Removed(log, k);
  }

  lemma Cleans(s: State, e: Elem, t: nat, x: Txn)
    requires Stage(s, e, t, x) && x.phase.Installing? && x.left == {} && Written(x) == {0} && IsDelete(x, [e], 0)
    ensures RunFrom(s, [AllInstalled(t)] + [Clean(t, 0)]).linked == {}
  {
    var s1 := Perform(s, AllInstalled(t));
    assert Stage(s1, e, t, Stop(x, true));
    RunCons(s, AllInstalled(t), [Clean(t, 0)]);
    RunCons(s1, Clean(t, 0), []);
    assert [Clean(t, 0)] == [Clean(t, 0)] + [];
  }

  /** After its cleanup a walk does not find the key any more. */
  lemma DeletedIsGone(k: Key)
    ensures FindIn(Run(Deleting(k) + ([AllInstalled(1)] + [Clean(1, 0)])), k) == -1
  {
    var e := DeletedRun(k);
    var s := Run(Deleting(k));
    DeleterIs(e);
    Cleans(s, s.els[0], 1, TxnOf(s, 1));
    RunAppend(EMPTY, Deleting(k), [AllInstalled(1)] + [Clean(1, 0)]);
  }
}
