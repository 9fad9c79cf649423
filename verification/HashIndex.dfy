/**
  The hash index's bucket lists on the heap: one singly linked list and one
  version per bucket. Together the lists refine a map from keys to rows.
 */
module HashIndex {
  import opened Options
  import opened HashKeys

  class Elem<V> {
    var next: Elem?<V>
    const key: Key
    var row: V
    var valid: bool

    constructor (key: Key, row: V, valid: bool)
      ensures this.key == key && this.row == row && this.valid == valid && next == null
    {
      this.key, this.row, this.valid, next := key, row, valid, null;
    }
  }

  /** A sequence without its i-th element, all others in the same order. */
  ghost function Without<T>(s: seq<T>, i: nat): seq<T>
    requires i < |s|
  {
    s[..i] + s[i + 1..]
  }

  // ------------------------------------------------------------ a list as a sequence of rows

  datatype Row<V> = Row(key: Key, row: V)

  /** The row of the first entry with the key. */
  function Lookup<V>(s: seq<Row<V>>, k: Key): Option<V> {
    if s == [] then None else if s[0].key == k then Some(s[0].row) else Lookup(s[1..], k)
  }

  /** The list without its first entry of the key. */
  function Dropped<V>(s: seq<Row<V>>, k: Key): seq<Row<V>> {
    if s == [] then [] else if s[0].key == k then s[1..] else [s[0]] + Dropped(s[1..], k)
  }

  /** The list with the row of the key's first entry replaced, or with a new first entry. */
  function Put<V>(s: seq<Row<V>>, k: Key, v: V): seq<Row<V>> {
    if Lookup(s, k).None? then [Row(k, v)] + s else Replaced(s, k, v)
  }

  function Replaced<V>(s: seq<Row<V>>, k: Key, v: V): seq<Row<V>> {
    if s == [] then [] else if s[0].key == k then [Row(k, v)] + s[1..] else [s[0]] + Replaced(s[1..], k, v)
  }

  lemma {:induction false} FirstMatch<V>(s: seq<Row<V>>, k: Key, v: V, i: nat)
    requires i < |s| && s[i].key == k && forall j :: 0 <= j < i ==> s[j].key != k
    ensures Lookup(s, k) == Some(s[i].row) && Dropped(s, k) == Without(s, i) && Replaced(s, k, v) == s[i := Row(k, v)]
    decreases |s|
  {
    if i > 0 {
      FirstMatch(s[1..], k, v, i - 1);
    }
  }

  lemma {:induction false} NoMatch<V>(s: seq<Row<V>>, k: Key)
    requires forall j :: 0 <= j < |s| ==> s[j].key != k
    ensures Lookup(s, k) == None && Dropped(s, k) == s
    decreases |s|
  {
    if s != [] {
      NoMatch(s[1..], k);
    }
  }

  // ------------------------------------------------------------ one bucket on the heap

  class Bucket<V> {
    var head: Elem?<V>
    var version: nat
    ghost var chain: seq<Elem<V>>

    /** chain lists the elements from head on, ending in null, and no key twice: the list is acyclic. */
    ghost predicate Valid()
      reads this, chain
    {
      && (if chain == [] then head == null else head == chain[0] && chain[|chain| - 1].next == null)
      && (forall i {:trigger chain[i].next} :: 0 <= i < |chain| - 1 ==> chain[i].next == chain[i + 1])
      && (forall i, j :: 0 <= i < j < |chain| ==> chain[i].key != chain[j].key)
    }

    ghost function Contents(): (s: seq<Row<V>>)
      reads this, chain
      ensures |s| == |chain|
    {
      seq(|chain|, i requires 0 <= i < |chain| reads this, chain => Row(chain[i].key, chain[i].row))
    }

    constructor ()
      ensures Valid() && chain == [] && version == 0
    {
      head, version, chain := null, 0, [];
    }

    /** The element with the key, or null exactly when the list has none. */
    method Find(k: Key) returns (e: Elem?<V>)
      requires Valid()
      ensures Lookup(Contents(), k) == if e == null then None else Some(e.row)
      ensures e == null ==> forall i :: 0 <= i < |chain| ==> chain[i].key != k
      ensures e != null ==> e in chain && e.key == k
    {
      ghost var i := 0;
      e := head;
      while e != null && e.key != k
        invariant i <= |chain| && e == (if i < |chain| then chain[i] else null)
        invariant forall j :: 0 <= j < i ==> chain[j].key != k
        decreases |chain| - i
      {
        e := e.next;
        i := i + 1;
      }
      if e == null {
        NoMatch(Contents(), k);
      } else {
        FirstMatch(Contents(), k, e.row, i);
      }
    }

    /** A new element becomes the head; the caller has not found the key. */
    method Prepend(k: Key, v: V, valid: bool, bump: nat) returns (e: Elem<V>)
      requires Valid() && forall i :: 0 <= i < |chain| ==> chain[i].key != k
      modifies this
      ensures Valid() && fresh(e) && chain == [e] + old(chain) && e.key == k && e.row == v && e.valid == valid
      ensures Contents() == [Row(k, v)] + old(Contents()) && version == old(version) + bump
    {
      e := new Elem<V>(k, v, valid);
      e.next := head;
      head, version := e, version + bump;
      chain := [e] + chain;
      assert forall i :: 1 <= i < |chain| ==> chain[i] == old(chain)[i - 1];
    }

    /** insert_in_bucket: a new head and a new version. */
    method Insert(k: Key, v: V) returns (e: Elem<V>)
      requires Valid() && forall i :: 0 <= i < |chain| ==> chain[i].key != k
      modifies this
      ensures Valid() && fresh(e) && chain == [e] + old(chain) && e.key == k && e.row == v && !e.valid
      ensures Contents() == Put(old(Contents()), k, v) && version == old(version) + 1
    {
      NoMatch(Contents(), k);
      e := Prepend(k, v, false, 1);
    }

    /** Unlinks the element that follows prev, or the head when prev is null. */
    method Splice(prev: Elem?<V>, curr: Elem<V>, ghost i: nat)
      requires Valid() && i < |chain| && chain[i] == curr && prev == if i == 0 then null else chain[i - 1]
      modifies this, chain`next
      ensures Valid() && chain == Without(old(chain), i) && version == old(version)
      ensures Contents() == Without(old(Contents()), i)
    {
      if prev != null {
        prev.next := curr.next;
      } else {
        head := curr.next;
      }
      chain := Without(chain, i);
      assert forall j :: 0 <= j < i ==> chain[j] == old(chain)[j];
      assert forall j :: i <= j < |chain| ==> chain[j] == old(chain)[j + 1];
    }

    /** Unlinks exactly the given element: all others stay, in the same order. */
    method Unlink(el: Elem<V>)
      requires Valid() && el in chain
      modifies this, chain`next
      ensures Valid() && Contents() == Dropped(old(Contents()), el.key) && version == old(version)
      ensures exists i :: 0 <= i < |old(chain)| && old(chain)[i] == el && chain == Without(old(chain), i)
    {
      var prev: Elem?<V>, curr := null, head;
      ghost var i := 0;
      while curr != null && curr != el
        invariant i <= |chain| && curr == (if i < |chain| then chain[i] else null)
        invariant prev == if i == 0 then null else chain[i - 1]
        invariant el !in chain[..i]
        decreases |chain| - i
      {
        prev := curr;
        curr := curr.next;
        i := i + 1;
      }
      FirstMatch(Contents(), el.key, el.row, i);
      Splice(prev, curr, i);
    }

    /** Removes a key's element, or says that there is none. */
    method Remove(k: Key) returns (found: bool)
      requires Valid()
      modifies this, chain`next
      ensures Valid() && Contents() == Dropped(old(Contents()), k) && version == old(version)
      ensures found == old(Lookup(Contents(), k)).Some?
      ensures forall e :: e in chain ==> e in old(chain)
    {
      var prev: Elem?<V>, curr := null, head;
      ghost var i := 0;
      while curr != null && curr.key != k
        invariant i <= |chain| && curr == (if i < |chain| then chain[i] else null)
        invariant prev == if i == 0 then null else chain[i - 1]
        invariant forall j :: 0 <= j < i ==> chain[j].key != k
        decreases |chain| - i
      {
        prev := curr;
        curr := curr.next;
        i := i + 1;
      }
      if curr == null {
        NoMatch(Contents(), k);
        return false;
      }
      FirstMatch(Contents(), k, curr.row, i);
      Splice(prev, curr, i);
      found := true;
    }

    /** nontrans_put: only the overwrite moves the version. */
    method NontransPut(k: Key, v: V)
      requires Valid()
      modifies this, chain`row
      ensures Valid() && Contents() == Put(old(Contents()), k, v)
      ensures version == old(version) + if old(Lookup(Contents(), k)).None? then 0 else 1
      ensures forall e :: e in chain ==> e in old(chain) || fresh(e)
    {
      var e := Find(k);
      if e == null {
        var _ := Prepend(k, v, true, 0);
      } else {
        ghost var i :| 0 <= i < |chain| && chain[i] == e;
        FirstMatch(Contents(), k, v, i);
        Overwrite(e, v, i);
      }
    }

    /** copy_row: the element's row is replaced in place. */
    method CopyRow(e: Elem<V>, v: V, ghost i: nat)
      requires Valid() && i < |chain| && chain[i] == e
      modifies e`row
      ensures Valid() && e.row == v && Contents() == old(Contents())[i := Row(e.key, v)]
    {
      e.row := v;
      assert forall j :: 0 <= j < |chain| && j != i ==> chain[j] != e;
    }

    method Overwrite(e: Elem<V>, v: V, ghost i: nat)
      requires Valid() && i < |chain| && chain[i] == e
      modifies this`version, e`row
      ensures Valid() && chain == old(chain) && version == old(version) + 1
      ensures Contents() == old(Contents())[i := Row(e.key, v)]
    {
      CopyRow(e, v, i);
      version := version + 1;
    }

    /** The insert of a row: a present key is left alone. */
    method InsertAbsent(k: Key, v: V) returns (found: bool, e: Elem<V>)
      requires Valid()
      modifies this
      ensures Valid() && found == old(Lookup(Contents(), k)).Some? && e.key == k
      ensures found ==> e in chain && chain == old(chain) && Contents() == old(Contents()) && version == old(version)
      ensures !found ==> fresh(e) && !e.valid && e.row == v && chain == [e] + old(chain)
      ensures !found ==> Contents() == Put(old(Contents()), k, v) && version == old(version) + 1
    {
      var there := Find(k);
      if there != null {
        return true, there;
      }
      e := Insert(k, v);
      found := false;
    }
  }

  // ------------------------------------------------------------ the table

  type Table<V> = seq<seq<Row<V>>>

  /** The bucket of a key: its hash modulo the number of buckets. */
  function Place(k: Key, size: nat): (b: nat)
    requires size > 0
    ensures b < size
  {
    k.hash % size
  }

  lemma PlaceOfReduced(k: Key, size: nat)
    requires k.hash < size
    ensures Place(k, size) == k.hash
  {
  }

  datatype Op<V> = Insert(k: Key, v: V) | Overwrite(k: Key, v: V) | Delete(k: Key)

  /** One operation, on the one list its key belongs to. Insert leaves a present key alone. */
  function Step<V>(t: Table<V>, op: Op<V>): (r: Table<V>)
    requires t != []
    ensures |r| == |t|
  {
    var b := Place(op.k, |t|);
    match op
    case Insert(k, v) => if Lookup(t[b], k).None? then t[b := Put(t[b], k, v)] else t
    case Overwrite(k, v) => t[b := Put(t[b], k, v)]
    case Delete(k) => t[b := Dropped(t[b], k)]
  }

  function MapStep<V>(m: map<Key, V>, op: Op<V>): map<Key, V> {
    match op
    case Insert(k, v) => if k in m then m else m[k := v]
    case Overwrite(k, v) => m[k := v]
    case Delete(k) => m - {k}
  }

  /** Looking a key up in its list is looking it up in the map. */
  ghost predicate Refines<V(!new)>(t: Table<V>, m: map<Key, V>)
    requires t != []
  {
    forall k :: Lookup(t[Place(k, |t|)], k) == if k in m then Some(m[k]) else None
  }

  // ------------------------------------------------------------ the table refines a map

  ghost predicate Unique<V>(s: seq<Row<V>>) {
    forall i, j :: 0 <= i < j < |s| ==> s[i].key != s[j].key
  }

  /** Only the entry of the key changes, and the others keep their order. */
  lemma {:induction false} PutEffect<V>(s: seq<Row<V>>, k: Key, v: V, x: Key)
    ensures Lookup(Put(s, k, v), x) == if x == k then Some(v) else Lookup(s, x)
    decreases |s|
  {
    if Lookup(s, k).None? {
      assert Put(s, k, v)[1..] == s;
    } else {
      ReplacedEffect(s, k, v, x);
    }
  }

  lemma {:induction false} ReplacedEffect<V>(s: seq<Row<V>>, k: Key, v: V, x: Key)
    requires Lookup(s, k).Some?
    ensures Lookup(Replaced(s, k, v), x) == if x == k then Some(v) else Lookup(s, x)
    decreases |s|
  {
    if s[0].key == k {
      assert Replaced(s, k, v)[1..] == s[1..];
    } else {
      ReplacedEffect(s[1..], k, v, x);
      assert Replaced(s, k, v)[1..] == Replaced(s[1..], k, v);
    }
  }

  lemma {:induction false} DroppedEffect<V>(s: seq<Row<V>>, k: Key, x: Key)
    requires Unique(s)
    ensures Lookup(Dropped(s, k), x) == if x == k then None else Lookup(s, x)
    decreases |s|
  {
    if s != [] {
      if s[0].key == k {
        forall j | 0 <= j < |s[1..]|
          ensures s[1..][j].key != k
        {
          assert s[1..][j] == s[j + 1];
        }
        NoMatch(s[1..], k);
      } else {
        DroppedEffect(s[1..], k, x);
        assert Dropped(s, k)[1..] == Dropped(s[1..], k);
      }
    }
  }

  /** The keys of a list after an operation are the old ones, one more or one less, none twice. */
  lemma {:induction false} DroppedUnique<V>(s: seq<Row<V>>, k: Key)
    requires Unique(s)
    ensures Unique(Dropped(s, k)) && forall i :: 0 <= i < |Dropped(s, k)| ==> Dropped(s, k)[i] in s
    decreases |s|
  {
    if s != [] && s[0].key != k {
      DroppedUnique(s[1..], k);
      var d := Dropped(s[1..], k);
      forall j | 0 <= j < |d|
        ensures d[j].key != s[0].key
      {
        var i :| 0 <= i < |s[1..]| && s[1..][i] == d[j];
        assert s[1..][i] == s[i + 1];
      }
    }
  }

  lemma {:induction false} SameKeys<V>(s: seq<Row<V>>, k: Key, v: V)
    ensures |Replaced(s, k, v)| == |s| && forall i :: 0 <= i < |s| ==> Replaced(s, k, v)[i].key == s[i].key
    decreases |s|
  {
    if s != [] && s[0].key != k {
      SameKeys(s[1..], k, v);
    }
  }

  lemma {:induction false} NoneIsNoMatch<V>(s: seq<Row<V>>, k: Key)
    requires Lookup(s, k).None?
    ensures forall i :: 0 <= i < |s| ==> s[i].key != k
    decreases |s|
  {
    if s != [] {
      NoneIsNoMatch(s[1..], k);
      assert forall i :: 1 <= i < |s| ==> s[i] == s[1..][i - 1];
    }
  }

  ghost predicate ListOk<V>(s: seq<Row<V>>, b: nat, size: nat)
    requires size > 0
  {
    Unique(s) && forall i :: 0 <= i < |s| ==> Place(s[i].key, size) == b
  }

  lemma PutOk<V>(s: seq<Row<V>>, k: Key, v: V, b: nat, size: nat)
    requires size > 0 && ListOk(s, b, size) && Place(k, size) == b
    ensures ListOk(Put(s, k, v), b, size)
  {
    if Lookup(s, k).None? {
      NoneIsNoMatch(s, k);
    } else {
      SameKeys(s, k, v);
    }
  }

  lemma DroppedOk<V>(s: seq<Row<V>>, k: Key, b: nat, size: nat)
    requires size > 0 && ListOk(s, b, size)
    ensures ListOk(Dropped(s, k), b, size)
  {
    DroppedUnique(s, k);
  }

  ghost predicate TableOk<V>(t: Table<V>) {
    t != [] && forall b :: 0 <= b < |t| ==> ListOk(t[b], b, |t|)
  }

  lemma StepKeeps<V>(t: Table<V>, op: Op<V>)
    requires TableOk(t)
    ensures TableOk(Step(t, op))
  {
    var b := Place(op.k, |t|);
    if op.Delete? {
      DroppedOk(t[b], op.k, b, |t|);
    } else {
      PutOk(t[b], op.k, op.v, b, |t|);
    }
  }

  lemma StepRefines<V(!new)>(t: Table<V>, op: Op<V>, m: map<Key, V>)
    requires TableOk(t) && Refines(t, m)
    ensures Refines(Step(t, op), MapStep(m, op))
  {
    var b, r, m' := Place(op.k, |t|), Step(t, op), MapStep(m, op);
    forall x
      ensures Lookup(r[Place(x, |t|)], x) == if x in m' then Some(m'[x]) else None
    {
      assert Lookup(t[Place(x, |t|)], x) == if x in m then Some(m[x]) else None;
      if Place(x, |t|) == b {
        if op.Delete? {
          DroppedEffect(t[b], op.k, x);
        } else {
          PutEffect(t[b], op.k, op.v, x);
        }
      }
    }
  }

  function Run<V>(t: Table<V>, ops: seq<Op<V>>): (r: Table<V>)
    requires t != []
    ensures |r| == |t|
    decreases |ops|
  {
    if ops == [] then t else Step(Run(t, ops[..|ops| - 1]), ops[|ops| - 1])
  }

  function MapRun<V>(m: map<Key, V>, ops: seq<Op<V>>): map<Key, V>
    decreases |ops|
  {
    if ops == [] then m else MapStep(MapRun(m, ops[..|ops| - 1]), ops[|ops| - 1])
  }

  /** Any sequence of operations on the lists is the same sequence on a map. */
  lemma {:induction false} TableRefinesMap<V(!new)>(t: Table<V>, m: map<Key, V>, ops: seq<Op<V>>)
    requires TableOk(t) && Refines(t, m)
    ensures TableOk(Run(t, ops)) && Refines(Run(t, ops), MapRun(m, ops))
    decreases |ops|
  {
    if ops != [] {
      var front := ops[..|ops| - 1];
      TableRefinesMap(t, m, front);
      StepKeeps(Run(t, front), ops[|ops| - 1]);
      StepRefines(Run(t, front), ops[|ops| - 1], MapRun(m, front));
    }
  }

  function Empty<V>(size: nat): Table<V> { seq(size, _ => []) }

  lemma EmptyTable<V(!new)>(size: nat)
    requires size > 0
    ensures TableOk(Empty<V>(size)) && Refines(Empty<V>(size), map[])
  {
  }
}
