/**
  What a transaction asks of the index and is told, and what a plain map would
  have told it, call by call. The index shows a transaction the committed rows
  and its own inserts, but not its own updates and deletes.
 */
module IndexCalls {
  import opened Options
  import opened HashKeys

  datatype Op = Select | Update(row: int) | Insert(row: int) | Delete

  /** One call and the row the walk found, if any. */
  datatype Call = Call(op: Op, k: Key, was: Option<int>)

  function Lookup(m: map<Key, int>, k: Key): Option<int> { if k in m then Some(m[k]) else None }

  // ------------------------------------------------------------ a plain map

  function After(m: map<Key, int>, c: Call): map<Key, int> {
    match c.op
    case Select => m
    case Update(row) => if c.k in m then m[c.k := row] else m
    case Insert(row) => if c.k in m then m else m[c.k := row]
    case Delete => m - {c.k}
  }

  /** Selects and updates are told the row, inserts and deletes whether there was one. */
  predicate Same(m: map<Key, int>, c: Call) {
    if c.op.Select? || c.op.Update? then c.was == Lookup(m, c.k) else c.was.Some? == (c.k in m)
  }

  function AfterAll(m: map<Key, int>, log: seq<Call>): map<Key, int> {
    if log == [] then m else After(AfterAll(m, log[..|log| - 1]), log[|log| - 1])
  }

  /** Every call was answered as the map answers it after the calls before it. */
  predicate Agrees(m: map<Key, int>, log: seq<Call>) {
    log == [] || (Agrees(m, log[..|log| - 1]) && Same(AfterAll(m, log[..|log| - 1]), log[|log| - 1]))
  }

  // ------------------------------------------------------------ what the log says of a key

  /** The row the transaction itself inserted under k. */
  function Added(log: seq<Call>, k: Key): Option<int> {
    if log == [] then None
    else
      var c := log[|log| - 1];
      if c.k == k && c.op.Insert? && c.was.None? then Some(c.op.row) else Added(log[..|log| - 1], k)
  }

  predicate Removed(log: seq<Call>, k: Key) {
    log != [] && ((log[|log| - 1].k == k && log[|log| - 1].op.Delete? && log[|log| - 1].was.Some?)
                  || Removed(log[..|log| - 1], k))
  }

  /** The last row it wrote over an existing one, its own inserts included. */
  function Updated(log: seq<Call>, k: Key): Option<int> {
    if log == [] then None
    else
      var c := log[|log| - 1];
      if c.k == k && c.op.Update? && c.was.Some? then Some(c.op.row) else Updated(log[..|log| - 1], k)
  }

  /** Its last update of k wrote another row than it had read. */
  predicate Changed(log: seq<Call>, k: Key) {
    log != [] &&
    var c := log[|log| - 1];
    if c.k == k && c.op.Update? && c.was.Some? then c.op.row != c.was.value else Changed(log[..|log| - 1], k)
  }

  /** What the commit installs under k: nothing, a deletion, or a row. Updates of its own inserts are not installed. */
  function Wrote(log: seq<Call>, k: Key): Option<Option<int>> {
    if log == [] then None
    else
      var c, before := log[|log| - 1], Wrote(log[..|log| - 1], k);
      if c.k != k then before
      else
        match c.op
        case Select => before
        case Insert(row) => if c.was.None? then Some(Some(row)) else before
        case Delete => if c.was.Some? then Some(None) else before
        case Update(row) =>
          if c.was.None? || before == Some(None) || Added(log[..|log| - 1], k).Some? then before else Some(Some(row))
  }

  /** What the index shows: the transaction's own insert, or the committed row. */
  function Shown(m: map<Key, int>, log: seq<Call>, k: Key): Option<int> {
    if Added(log, k).Some? then Added(log, k) else Lookup(m, k)
  }

  /** Every call was told what the index shows at that point, with m the committed rows. */
  predicate Told(m: map<Key, int>, log: seq<Call>) {
    log == [] || (Told(m, log[..|log| - 1]) && log[|log| - 1].was == Shown(m, log[..|log| - 1], log[|log| - 1].k))
  }

  /** The committed rows after the transaction. */
  function Keys(log: seq<Call>): set<Key> { set i | 0 <= i < |log| :: log[i].k }

  function Final(m: map<Key, int>, log: seq<Call>, k: Key): Option<int> {
    if Wrote(log, k).Some? then Wrote(log, k).value else Lookup(m, k)
  }

  function Installed(m: map<Key, int>, log: seq<Call>): map<Key, int> {
    map k | k in m.Keys + Keys(log) && Final(m, log, k).Some? :: Final(m, log, k).value
  }

  lemma {:induction false} WroteIsKey(log: seq<Call>, k: Key)
    requires Wrote(log, k).Some?
    ensures k in Keys(log)
    decreases |log|
  {
    if log[|log| - 1].k != k {
      WroteIsKey(log[..|log| - 1], k);
      var i :| 0 <= i < |log| - 1 && log[..|log| - 1][i].k == k;
      assert log[i].k == k;
    }
  }

  lemma InstalledIsFinal(m: map<Key, int>, log: seq<Call>, k: Key)
    ensures Lookup(Installed(m, log), k) == Final(m, log, k)
  {
    if Wrote(log, k).Some? {
      WroteIsKey(log, k);
    }
  }

  // ------------------------------------------------------------ when a plain map tells the same

  /** No call on a key the transaction deleted, and no read of a key it changed. */
  predicate NoReread(log: seq<Call>) {
    log == [] ||
    var c, before := log[|log| - 1], log[..|log| - 1];
    NoReread(before) && !Removed(before, c.k) && (c.op.Select? || c.op.Update? ==> !Changed(before, c.k))
  }

  /** The row a plain map holds under k after an agreeing log. */
  function Current(m: map<Key, int>, log: seq<Call>, k: Key): Option<int> {
    if Removed(log, k) then None else if Updated(log, k).Some? then Updated(log, k) else Shown(m, log, k)
  }

  /** What the transaction updated or deleted is something it was shown, and an update is a change against that. */
  lemma {:induction false} WrittenWasShown(m: map<Key, int>, log: seq<Call>, k: Key)
    requires Told(m, log)
    ensures Updated(log, k).Some? || Removed(log, k) ==> Shown(m, log, k).Some?
    ensures Updated(log, k).Some? ==> (Changed(log, k) <==> Updated(log, k) != Shown(m, log, k))
    ensures Updated(log, k).None? ==> !Changed(log, k)
    ensures Added(log, k).Some? ==> k !in m
    decreases |log|
  {
    if log != [] {
      WrittenWasShown(m, log[..|log| - 1], k);
    }
  }

  lemma {:induction false} AgreesExactly(m: map<Key, int>, log: seq<Call>)
    requires Told(m, log)
    ensures Agrees(m, log) <==> NoReread(log)
    ensures NoReread(log) ==> forall k :: Lookup(AfterAll(m, log), k) == Current(m, log, k)
    decreases |log|
  {
    if log != [] {
      var before, c := log[..|log| - 1], log[|log| - 1];
      AgreesExactly(m, before);
      WrittenWasShown(m, before, c.k);
      if NoReread(before) {
        assert Lookup(AfterAll(m, before), c.k) == Current(m, before, c.k);
        forall k | NoReread(log)
          ensures Lookup(AfterAll(m, log), k) == Current(m, log, k)
        {
          assert Lookup(AfterAll(m, before), k) == Current(m, before, k);
        }
      }
    }
  }

  // ------------------------------------------------------------ when a plain map ends up the same

  /** It updated a key it had inserted itself, to another row: the update is lost. */
  predicate LosesUpdate(log: seq<Call>, k: Key) {
    Added(log, k).Some? && !Removed(log, k) && Updated(log, k).Some? && Updated(log, k) != Added(log, k)
  }

  /** What a commit leaves under k, said by its calls: a delete wins, then its own insert, then its last update. */
  lemma {:induction false} WroteIs(m: map<Key, int>, log: seq<Call>, k: Key)
    requires Told(m, log)
    ensures Final(m, log, k) == if Removed(log, k) then None else if Added(log, k).Some? then Added(log, k)
                                else if Updated(log, k).Some? then Updated(log, k) else Lookup(m, k)
    ensures Wrote(log, k) == Some(None) <==> Removed(log, k)
    decreases |log|
  {
    if log != [] {
      WroteIs(m, log[..|log| - 1], k);
      WrittenWasShown(m, log[..|log| - 1], k);
    }
  }

  /** An agreeing transaction leaves the plain map's rows, except where it updated its own insert to another row. */
  lemma EndsExactly(m: map<Key, int>, log: seq<Call>)
    requires Told(m, log) && Agrees(m, log)
    ensures Installed(m, log) == AfterAll(m, log) <==> forall k :: !LosesUpdate(log, k)
  {
    AgreesExactly(m, log);
    forall k
      ensures Lookup(Installed(m, log), k) == Lookup(AfterAll(m, log), k) <==> !LosesUpdate(log, k)
    {
      WroteIs(m, log, k);
      WrittenWasShown(m, log, k);
      InstalledIsFinal(m, log, k);
      assert Lookup(AfterAll(m, log), k) == Current(m, log, k);
    }
    if forall k :: !LosesUpdate(log, k) {
      SameRows(Installed(m, log), AfterAll(m, log));
    }
  }

  lemma SameRows(a: map<Key, int>, b: map<Key, int>)
    requires forall k :: Lookup(a, k) == Lookup(b, k)
    ensures a == b
  {
    forall k
      ensures k in a <==> k in b
      ensures k in a ==> a[k] == b[k]
    {
      assert Lookup(a, k) == Lookup(b, k);
    }
  }

  /** A row 1, updated to 2 and selected again: the index shows 1, a map 2. */
  lemma RereadDiffers(k: Key)
    ensures var log := [Call(Update(2), k, Some(1)), Call(Select, k, Some(1))];
            Told(map[k := 1], log) && !Agrees(map[k := 1], log)
  {
    var log := [Call(Update(2), k, Some(1)), Call(Select, k, Some(1))];
    assert log[..1] == [Call(Update(2), k, Some(1))] && log[..1][..0] == [];
    AgreesExactly(map[k := 1], log);
  }
}
