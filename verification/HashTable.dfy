/**
  The hash table on the heap: one bucket object per slot, each with its own
  linked list. Every method works on the one bucket its key hashes to.
 */
module HashTable {
  import opened Options
  import opened HashKeys
  import opened HashIndex

  class Table<V(!new)> {
    const buckets: seq<Bucket<V>>
    ghost var rows: HashIndex.Table<V>
    /** All operations since the table was made. */
    ghost var done: seq<Op<V>>
    /** The table, its buckets and the elements of their lists. */
    ghost var Repr: set<object>

    /**
      Buckets are distinct objects with well-linked lists; rows is what the lists
      hold, every key in its own bucket once, and what the operations lead to.
     */
    ghost predicate Valid()
      reads this, Repr
    {
      && this in Repr && (forall b {:trigger buckets[b]} :: 0 <= b < |buckets| ==> buckets[b] in Repr && Owned(b))
      && |buckets| == |rows| > 0 && rows == Run(Empty(|buckets|), done)
      && (forall a, b :: 0 <= a < b < |buckets| ==> buckets[a] != buckets[b])
      && (forall b :: 0 <= b < |buckets| ==> BucketOk(b))
      && TableOk(rows)
    }

    ghost predicate Owned(b: nat)
      requires b < |buckets|
      reads this, buckets[b]
    {
      forall e :: e in buckets[b].chain ==> e in Repr
    }

    ghost predicate BucketOk(b: nat)
      requires b < |buckets| == |rows|
      reads this, buckets[b], buckets[b].chain
    {
      buckets[b].Valid() && buckets[b].Contents() == rows[b]
    }

    /** The list of the key's bucket. */
    ghost function Chain(k: Key): seq<Elem<V>>
      requires |buckets| > 0
      reads buckets[Place(k, |buckets|)]
    {
      buckets[Place(k, |buckets|)].chain
    }

    /** Lists of different buckets share no element: their keys hash to different buckets. */
    lemma ListsDisjoint(a: nat, b: nat, i: nat, j: nat)
      requires Valid() && a < |buckets| && b < |buckets| && a != b
      requires i < |buckets[a].chain| && j < |buckets[b].chain|
      ensures buckets[a].chain[i] != buckets[b].chain[j]
    {
      KeyHashesHere(a, i);
      KeyHashesHere(b, j);
    }

    lemma KeyHashesHere(b: nat, i: nat)
      requires Valid() && b < |buckets| && i < |buckets[b].chain|
      ensures Place(buckets[b].chain[i].key, |buckets|) == b
    {
      assert BucketOk(b) && rows[b][i].key == buckets[b].chain[i].key && ListOk(rows[b], b, |rows|);
    }

    ghost predicate Apart(a: nat, b: nat)
      requires a < |buckets| && b < |buckets|
      reads buckets[a], buckets[b]
    {
      forall i :: 0 <= i < |buckets[a].chain| ==> buckets[a].chain[i] !in buckets[b].chain
    }

    lemma OthersApart(b: nat)
      requires Valid() && b < |buckets|
      ensures forall a :: 0 <= a < |buckets| && a != b ==> Apart(a, b)
    {
      forall a, i | 0 <= a < |buckets| && a != b && 0 <= i < |buckets[a].chain|
        ensures buckets[a].chain[i] !in buckets[b].chain
      {
        forall j | 0 <= j < |buckets[b].chain|
          ensures buckets[a].chain[i] != buckets[b].chain[j]
        {
          ListsDisjoint(a, b, i, j);
        }
      }
    }

    /** A bucket whose object and elements did not change still holds its rows. */
    twostate lemma Kept(a: nat)
      requires a < |buckets| == |rows| == |old(rows)| && old(BucketOk(a)) && rows[a] == old(rows)[a]
      requires Untouched(a)
      ensures BucketOk(a)
    {
    }

    /**
      Once the bucket of op's key holds its new rows and the other buckets did not
      change, the table is valid again.
     */
    twostate lemma AfterStep(op: Op<V>)
      requires old(Valid()) && rows == Step(old(rows), op) && done == old(done) + [op]
      requires old(Repr) <= Repr && BucketOk(Place(op.k, |buckets|))
      requires Owned(Place(op.k, |buckets|))
      requires forall a :: 0 <= a < |buckets| && a != Place(op.k, |buckets|) ==> Untouched(a)
      ensures Valid()
    {
      StepKeeps(old(rows), op);
      assert (old(done) + [op])[..|old(done)|] == old(done);
      forall a | 0 <= a < |buckets| && a != Place(op.k, |buckets|)
        ensures BucketOk(a) && Owned(a)
      {
        assert Untouched(a);
        assert old(BucketOk(a)) && old(Owned(a));
        Kept(a);
      }
    }

    twostate predicate Untouched(a: nat)
      requires a < |buckets|
      reads *
    {
      unchanged(buckets[a]) && forall i :: 0 <= i < |old(buckets[a].chain)| ==> unchanged(old(buckets[a].chain)[i])
    }

    constructor (size: nat)
      requires size > 0
      ensures Valid() && fresh(Repr) && done == [] && |buckets| == size
      ensures forall b :: 0 <= b < size ==> buckets[b].chain == [] && buckets[b].version == 0
    {
      var made: seq<Bucket<V>> := [];
      ghost var all: set<object> := {};
      for n := 0 to size
        invariant |made| == n && forall b :: 0 <= b < n ==> fresh(made[b]) && made[b].Valid()
        invariant forall b :: 0 <= b < n ==> made[b].chain == [] && made[b].version == 0
        invariant forall a, b :: 0 <= a < b < n ==> made[a] != made[b]
        invariant fresh(all) && forall b :: 0 <= b < n ==> made[b] in all
      {
        var buck := new Bucket<V>();
        made, all := made + [buck], all + {buck};
      }
      buckets := made;
      rows, done := Empty(size), [];
      Repr := {this} + all;
      EmptyTable<V>(size);
      new;
      assert Run(Empty<V>(size), []) == Empty(size);
      assert forall b :: 0 <= b < size ==> buckets[b].chain == [] && BucketOk(b) && Owned(b);
    }

    /** The lists answer as a map does that saw the same operations. */
    lemma IsMap(k: Key)
      requires Valid()
      ensures var m := MapRun(map[], done); Lookup(rows[Place(k, |rows|)], k) == if k in m then Some(m[k]) else None
    {
      EmptyTable<V>(|buckets|);
      TableRefinesMap(Empty<V>(|buckets|), map[], done);
    }

    /** The element of the key in its list, or null exactly when the map has no row. */
    method Find(k: Key) returns (e: Elem?<V>)
      requires Valid()
      ensures e == null ==> forall i :: 0 <= i < |Chain(k)| ==> Chain(k)[i].key != k
      ensures e != null ==> e in Chain(k) && e.key == k
      ensures var m := MapRun(map[], done); if e == null then k !in m else k in m && m[k] == e.row
    {
      var b := Place(k, |buckets|);
      assert BucketOk(b);
      IsMap(k);
      e := buckets[b].Find(k);
    }

    /** Looking a key up answers as a map does that saw the same operations. */
    method Get(k: Key) returns (r: Option<V>)
      requires Valid()
      ensures var m := MapRun(map[], done); r == if k in m then Some(m[k]) else None
    {
      var e := Find(k);
      r := if e == null then None else Some(e.row);
    }

    /** Inserts a key that is not there yet, as a new invalid head of its list. */
    method Insert(k: Key, v: V) returns (found: bool, e: Elem<V>)
      requires Valid()
      modifies this`rows, this`done, this`Repr, buckets[Place(k, |buckets|)]
      ensures Valid() && fresh(Repr - old(Repr)) && done == old(done) + [Op.Insert(k, v)]
      ensures found == (k in MapRun(map[], old(done))) && e.key == k
      ensures found ==> e in Chain(k) && Chain(k) == old(Chain(k))
      ensures !found ==> fresh(e) && !e.valid && e.row == v && Chain(k) == [e] + old(Chain(k))
      ensures buckets[Place(k, |buckets|)].version == old(buckets[Place(k, |buckets|)].version) + if found then 0 else 1
    {
      var b := Place(k, |buckets|);
      assert BucketOk(b);
      IsMap(k);
      found, e := buckets[b].InsertAbsent(k, v);
      rows, done, Repr := Step(rows, Op.Insert(k, v)), done + [Op.Insert(k, v)], Repr + {e};
      AfterStep(Op.Insert(k, v));
    }

    /** Puts a row outside any transaction. */
    method NontransPut(k: Key, v: V)
      requires Valid()
      modifies this`rows, this`done, this`Repr, buckets[Place(k, |buckets|)], Chain(k)`row
      ensures Valid() && fresh(Repr - old(Repr)) && done == old(done) + [Overwrite(k, v)]
    {
      var b := Place(k, |buckets|);
      assert BucketOk(b);
      OthersApart(b);
      buckets[b].NontransPut(k, v);
      rows, done, Repr := Step(rows, Overwrite(k, v)), done + [Overwrite(k, v)],
        Repr + set e: Elem<V> | e in buckets[b].chain;
      forall a | 0 <= a < |buckets| && a != b
        ensures Untouched(a)
      {
        assert old(Apart(a, b));
      }
      AfterStep(Overwrite(k, v));
    }

    /** Removes a key, and says whether it was there. */
    method Remove(k: Key) returns (found: bool)
      requires Valid()
      modifies this`rows, this`done, buckets[Place(k, |buckets|)], Chain(k)`next
      ensures Valid() && Repr == old(Repr) && done == old(done) + [Delete(k)]
      ensures found == (k in MapRun(map[], old(done)))
    {
      var b := Place(k, |buckets|);
      assert BucketOk(b);
      OthersApart(b);
      IsMap(k);
      found := buckets[b].Remove(k);
      rows, done := Step(rows, Delete(k)), done + [Delete(k)];
      forall a | 0 <= a < |buckets| && a != b
        ensures Untouched(a)
      {
        assert old(Apart(a, b));
      }
      AfterStep(Delete(k));
    }

    /** Unlinks exactly the given element of the table. */
    method Unlink(el: Elem<V>)
      requires Valid() && el in Chain(el.key)
      modifies this`rows, this`done, buckets[Place(el.key, |buckets|)], Chain(el.key)`next
      ensures Valid() && Repr == old(Repr) && done == old(done) + [Delete(el.key)]
      ensures forall e :: e in Chain(el.key) <==> e in old(Chain(el.key)) && e != el
      ensures buckets[Place(el.key, |buckets|)].version == old(buckets[Place(el.key, |buckets|)].version)
    {
      var b := Place(el.key, |buckets|);
      assert BucketOk(b);
      OthersApart(b);
      buckets[b].Unlink(el);
      rows, done := Step(rows, Delete(el.key)), done + [Delete(el.key)];
      forall a | 0 <= a < |buckets| && a != b
        ensures Untouched(a)
      {
        assert old(Apart(a, b));
      }
      AfterStep(Delete(el.key));
    }

    /** Replaces the row of an element in place, as an install does; the bucket's version stays. */
    method CopyRow(el: Elem<V>, v: V)
      requires Valid() && el in Chain(el.key)
      modifies this`rows, this`done, el`row
      ensures Valid() && Repr == old(Repr) && done == old(done) + [Overwrite(el.key, v)] && el.row == v
    {
      var b := Place(el.key, |buckets|);
      assert BucketOk(b);
      OthersApart(b);
      ghost var i :| 0 <= i < |buckets[b].chain| && buckets[b].chain[i] == el;
      FirstMatch(buckets[b].Contents(), el.key, v, i);
      buckets[b].CopyRow(el, v, i);
      rows, done := Step(rows, Overwrite(el.key, v)), done + [Overwrite(el.key, v)];
      forall a | 0 <= a < |buckets| && a != b
        ensures Untouched(a)
      {
        assert old(Apart(a, b));
      }
      AfterStep(Overwrite(el.key, v));
    }

    /** Makes an inserted element visible. */
    method SetValid(el: Elem<V>)
      requires Valid()
      modifies el`valid
      ensures Valid() && el.valid
    {
      el.valid := true;
      forall b | 0 <= b < |buckets|
        ensures BucketOk(b)
      {
        assert old(BucketOk(b));
      }
    }
  }

  // ------------------------------------------------------------ calls one after another

  /** A key comes and goes. */
  method InsertThenRemove<V(!new)>(size: nat, k: Key, v: V) returns (between: Option<V>, after: Option<V>)
    requires size > 0
    ensures between == Some(v) && after == None
  {
    var table := new Table<V>(size);
    var _, _ := table.Insert(k, v);
    assert [Op.Insert(k, v)][..0] == [];
    between := table.Get(k);
    var _ := table.Remove(k);
    assert [Op.Insert(k, v), Delete(k)][..1] == [Op.Insert(k, v)];
    after := table.Get(k);
  }

  /** Loading a table puts its rows one after another. */
  method Load<V(!new)>(table: Table<V>, todo: seq<Row<V>>)
    requires table.Valid()
    modifies table.Repr
    ensures table.Valid() && fresh(table.Repr - old(table.Repr))
    ensures table.done ==
            old(table.done) + seq(|todo|, i requires 0 <= i < |todo| => Overwrite(todo[i].key, todo[i].row))
  {
    for n := 0 to |todo|
      invariant table.Valid() && fresh(table.Repr - old(table.Repr))
      invariant table.done == old(table.done) + seq(n, i requires 0 <= i < n => Overwrite(todo[i].key, todo[i].row))
    {
      table.NontransPut(todo[n].key, todo[n].row);
    }
  }
}
