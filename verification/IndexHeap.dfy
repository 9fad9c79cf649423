/**
  The transactions' state machine on the heap: its elements are list nodes of the
  hash table, its linked elements are the nodes in the lists, and its bucket
  versions are those of the buckets. The steps that touch a list or a row are
  methods over the nodes.
 */
module IndexHeap {
  import opened Options
  import opened HashKeys
  import opened IndexCalls
  import opened IndexOcc
  import opened IndexInv
  import opened IndexInsertSteps
  import opened IndexLockSteps
  import opened IndexRuns
  import opened IndexEffects
  import opened IndexWitness
  import HashIndex
  import HashTable

  type Node = HashIndex.Elem<int>

  // ------------------------------------------------------------ nodes, lists and the state machine

  /** Element i is node i: same key, and linked exactly when it is in the list of its bucket. */
  ghost predicate NodeAt(nodes: seq<Node>, chains: seq<seq<Node>>, els: seq<Elem>, linked: set<nat>, i: nat) {
    && i < |nodes| && i < |els| && nodes[i].key == els[i].key && els[i].key.hash < |chains|
    && (i in linked <==> nodes[i] in chains[els[i].key.hash])
  }

  ghost predicate Distinct(nodes: seq<Node>) { forall i, j :: 0 <= i < j < |nodes| ==> nodes[i] != nodes[j] }

  /** The lists hold the linked elements and nothing else. */
  ghost predicate LinksOk(nodes: seq<Node>, chains: seq<seq<Node>>, els: seq<Elem>, linked: set<nat>) {
    && |nodes| == |els| && Distinct(nodes) && (forall id :: id in linked ==> id < |els|)
    && (forall i {:trigger NodeAt(nodes, chains, els, linked, i)} ::
          0 <= i < |nodes| ==> NodeAt(nodes, chains, els, linked, i))
    && (forall b, e :: 0 <= b < |chains| && e in chains[b] ==> e in nodes)
  }

  ghost predicate VersionsOk(versions: seq<nat>, bver: map<nat, nat>) {
    forall b :: 0 <= b < |versions| ==> versions[b] == BucketVersion(bver, b)
  }

  /** What a walk finds on the heap is what the state machine finds. */
  lemma WalkFinds(nodes: seq<Node>, chains: seq<seq<Node>>, s: State, k: Key, e: Node)
    requires LinksOk(nodes, chains, s.els, s.linked) && ElemsOk(s.els, s.linked, s.home, s.clock)
    requires k.hash < |chains| && e in chains[k.hash] && e.key == k
    ensures 0 <= FindIn(s, k) < |nodes| && nodes[FindIn(s, k)] == e
  {
    assert e in nodes;
    var i :| 0 <= i < |nodes| && nodes[i] == e;
    assert NodeAt(nodes, chains, s.els, s.linked, i);
    assert Linked(s, k, i);
  }

  lemma WalkMisses(nodes: seq<Node>, chains: seq<seq<Node>>, s: State, k: Key)
    requires LinksOk(nodes, chains, s.els, s.linked)
    requires k.hash < |chains| && forall i :: 0 <= i < |chains[k.hash]| ==> chains[k.hash][i].key != k
    ensures FindIn(s, k) == -1
  {
    var r := FindIn(s, k);
    assert r != -1 ==> NodeAt(nodes, chains, s.els, s.linked, r);
  }

  lemma InsertLinks(nodes: seq<Node>, chains: seq<seq<Node>>, els: seq<Elem>, linked: set<nat>, x: Elem, e: Node)
    requires LinksOk(nodes, chains, els, linked) && e !in nodes && e.key == x.key && x.key.hash < |chains|
    ensures LinksOk(nodes + [e], chains[x.key.hash := [e] + chains[x.key.hash]], els + [x], linked + {|els|})
  {
    var b := x.key.hash;
    var nodes', chains', els', linked' := nodes + [e], chains[b := [e] + chains[b]], els + [x], linked + {|els|};
    forall i | 0 <= i < |nodes'|
      ensures NodeAt(nodes', chains', els', linked', i)
    {
      assert i < |nodes| ==> NodeAt(nodes, chains, els, linked, i);
    }
    forall a, y | 0 <= a < |chains'| && y in chains'[a]
      ensures y in nodes'
    {
      assert y in chains[a] || y == e;
    }
  }

  lemma UnlinkLinks(nodes: seq<Node>, chains: seq<seq<Node>>, chains': seq<seq<Node>>, els: seq<Elem>,
                    linked: set<nat>, id: nat)
    requires LinksOk(nodes, chains, els, linked) && id in linked && |chains'| == |chains|
    requires var b := els[id].key.hash;
             b < |chains| && (forall e :: e in chains'[b] <==> e in chains[b] && e != nodes[id])
               && chains' == chains[b := chains'[b]]
    ensures LinksOk(nodes, chains', els, linked - {id})
  {
    forall i | 0 <= i < |nodes|
      ensures NodeAt(nodes, chains', els, linked - {id}, i)
    {
      assert NodeAt(nodes, chains, els, linked, i);
    }
  }

  lemma SameLinks(nodes: seq<Node>, chains: seq<seq<Node>>, els: seq<Elem>, els': seq<Elem>, linked: set<nat>)
    requires LinksOk(nodes, chains, els, linked) && |els'| == |els|
    requires forall i :: 0 <= i < |els| ==> els'[i].key == els[i].key
    ensures LinksOk(nodes, chains, els', linked)
  {
    forall i | 0 <= i < |nodes|
      ensures NodeAt(nodes, chains, els', linked, i)
    {
      assert NodeAt(nodes, chains, els, linked, i);
    }
  }

  // ------------------------------------------------------------ what the steps do to lists and rows

  /** The steps that touch neither lists nor rows. */
  predicate Quiet(a: Action) { !a.Do? && !a.Install? && !a.Clean? }

  ghost predicate SameElem(x: Elem, y: Elem) { y.key == x.key && y.row == x.row && y.valid == x.valid }

  /** The elements look the same from the lists. */
  ghost predicate SameElems(els: seq<Elem>, els': seq<Elem>) {
    |els'| == |els| && forall i {:trigger els'[i]} :: 0 <= i < |els| ==> SameElem(els[i], els'[i])
  }

  ghost predicate SameLists(v: State, v': State) {
    v'.linked == v.linked && v'.bver == v.bver && SameElems(v.els, v'.els)
  }

  lemma LockLooks(v: State, t: nat, x: Txn, id: nat)
    requires id < |v.els|
    ensures SameLists(v, LockItem(v, t, x, id)) && SameLists(v, UnlockItem(v, t, x, id))
  {
  }

  lemma TxnLooks(v: State, t: nat, x: Txn)
    ensures SameLists(v, WithTxn(v, t, x)) && SameLists(v, LocksHeld(v, t, x)) && SameLists(v, Decide(v, t, x))
  {
  }

  lemma QuietStep(v: State, a: Action)
    requires Quiet(a)
    ensures SameLists(v, Perform(v, a))
  {
    TxnLooks(v, a.t, START);
    if a.t in v.txns && !a.Begin? && Enabled(v, v.txns[a.t], a) {
      if Private(a) {
        TxnLooks(v, a.t, NextTxn(v, v.txns[a.t], a));
      } else if a.Lock? || a.Unlock? {
        LockLooks(v, a.t, v.txns[a.t], a.id);
      } else {
        TxnLooks(v, a.t, v.txns[a.t]);
      }
    }
  }

  lemma CallStep(steps: seq<Action>, t: nat, op: Op, k: Key)
    requires t in Run(steps).txns && Run(steps).txns[t].phase.Active?
    ensures var v, v' := Run(steps), Run(steps + [Do(t, op, k)]);
            if op.Insert? && FindIn(v, k) == -1 then
              && v'.els == v.els + [Elem(k, op.row, false, false, 0, None, t)]
              && v'.linked == v.linked + {|v.els|} && v'.bver == Bumped(v.bver, k.hash)
            else v'.els == v.els && v'.linked == v.linked && v'.bver == v.bver
  {
    RunGrows(steps, Do(t, op, k));
  }

  /** The log takes over what the walk finds. */
  lemma CallIsTold(steps: seq<Action>, t: nat, op: Op, k: Key)
    requires t in Run(steps).txns && Run(steps).txns[t].phase.Active?
    ensures t in Run(steps + [Do(t, op, k)]).txns
    ensures var v, x, y := Run(steps), Run(steps).txns[t], Run(steps + [Do(t, op, k)]).txns[t];
            y.log == if y.phase.Active? && !OwnDelete(x, op, k)
                     then x.log + [Call(op, k, RowFound(v, k))] else x.log
  {
    RunKeeps(steps);
    CallIsLogged(Run(steps), t, op, k);
    RunGrows(steps, Do(t, op, k));
  }

  lemma CleanStep(steps: seq<Action>, t: nat, id: nat)
    requires t in Run(steps).txns && Enabled(Run(steps), Run(steps).txns[t], Action.Clean(t, id))
    ensures var v, v', x := Run(steps), Run(steps + [Action.Clean(t, id)]), Run(steps).txns[t];
            && v'.els == v.els && v'.bver == v.bver
            && v'.linked == if ToUnlink(x, v.els, id, x.phase.done) then v.linked - {id} else v.linked
  {
    RunGrows(steps, Action.Clean(t, id));
  }

  lemma InstallStep(steps: seq<Action>, t: nat, id: nat)
    requires t in Run(steps).txns && Enabled(Run(steps), Run(steps).txns[t], Action.Install(t, id))
    ensures var v, v', x := Run(steps), Run(steps + [Action.Install(t, id)]), Run(steps).txns[t];
            v'.els == v.els[id := InstalledElem(v.els[id], id, x)] && v'.linked == v.linked && v'.bver == v.bver
  {
    RunGrows(steps, Action.Install(t, id));
  }

  /** The walk on the heap and the state machine's agree in every run. */
  lemma WalkAgrees(steps: seq<Action>, nodes: seq<Node>, chains: seq<seq<Node>>, k: Key, e: HashIndex.Elem?<int>)
    requires LinksOk(nodes, chains, Run(steps).els, Run(steps).linked) && k.hash < |chains|
    requires e == null ==> forall i :: 0 <= i < |chains[k.hash]| ==> chains[k.hash][i].key != k
    requires e != null ==> e in chains[k.hash] && e.key == k
    ensures e == null <==> FindIn(Run(steps), k) == -1
    ensures e != null ==> FindIn(Run(steps), k) < |nodes| && e == nodes[FindIn(Run(steps), k)]
  {
    RunKeeps(steps);
    if e == null {
      WalkMisses(nodes, chains, Run(steps), k);
    } else {
      WalkFinds(nodes, chains, Run(steps), k, e);
    }
  }

  /** What a cleanup is to unlink is linked. */
  lemma CleanFinds(steps: seq<Action>, t: nat, id: nat)
    requires var v := Run(steps); t in v.txns && Enabled(v, v.txns[t], Action.Clean(t, id))
    requires var v := Run(steps); ToUnlink(v.txns[t], v.els, id, v.txns[t].phase.done)
    ensures id in Run(steps).linked
  {
    var v := Run(steps);
    RunKeeps(steps);
    assert TxnOk(t, v.txns[t], v.els, v.linked, v.bver, v.history);
    UnlinksOwn(t, v.txns[t], v.els, v.linked, v.bver, v.history, id);
  }

  /** What is to be installed is linked. */
  lemma InstallFinds(steps: seq<Action>, t: nat, id: nat)
    requires var v := Run(steps); t in v.txns && Enabled(v, v.txns[t], Action.Install(t, id))
    ensures id in Run(steps).linked
  {
    var v := Run(steps);
    RunKeeps(steps);
    assert TxnOk(t, v.txns[t], v.els, v.linked, v.bver, v.history);
    assert ToInstall(t, v.txns[t], id, v.els, v.linked);
  }

  // ------------------------------------------------------------ the index

  class Index {
    const table: HashTable.Table<int>
    /** The node of each element, linked or not. */
    ghost var nodes: seq<Node>
    ghost var chains: seq<seq<Node>>
    ghost var versions: seq<nat>
    /** The steps taken so far. */
    ghost var steps: seq<Action>
    ghost var Repr: set<object>

    /** What the buckets hold. */
    ghost predicate Mirrored()
      reads this, table.buckets
    {
      && |chains| == |versions| == |table.buckets|
      && forall b :: 0 <= b < |chains| ==>
           table.buckets[b].chain == chains[b] && table.buckets[b].version == versions[b]
    }

    ghost predicate NodesHold(els: seq<Elem>)
      reads this, nodes
    {
      |nodes| == |els| && forall i :: 0 <= i < |els| ==> nodes[i].row == els[i].row && nodes[i].valid == els[i].valid
    }

    /** Lists, versions, rows and valid flags on the heap are those of the state machine. */
    ghost predicate Represents(els: seq<Elem>, linked: set<nat>, bver: map<nat, nat>)
      reads this, nodes
    {
      LinksOk(nodes, chains, els, linked) && VersionsOk(versions, bver) && NodesHold(els)
    }

    ghost predicate Owned()
      reads this, Repr
    {
      && this in Repr && table in Repr && table.Repr <= Repr && this !in table.Repr && table.Valid() && Mirrored()
      && forall i :: 0 <= i < |nodes| ==> nodes[i] in Repr
    }

    /** The state machine after the steps taken so far. */
    ghost function Now(): State
      reads this
    {
      Run(steps)
    }

    ghost predicate Valid()
      reads this, Repr
    {
      Owned() && Represents(Now().els, Now().linked, Now().bver)
    }

    constructor (size: nat)
      requires size > 0
      ensures Valid() && fresh(Repr) && steps == [] && |table.buckets| == size
    {
      table := new HashTable.Table<int>(size);
      nodes, steps, chains, versions := [], [], seq(size, _ => []), seq(size, _ => 0);
      new;
      Repr := {this, table} + table.Repr;
    }

    /** A step that touches neither lists nor rows. */
    ghost method Advance(a: Action)
      requires Valid() && Quiet(a)
      modifies this`steps
      ensures Valid() && steps == old(steps) + [a]
    {
      QuietStep(Now(), a);
      SameLinks(nodes, chains, Now().els, Perform(Now(), a).els, Now().linked);
      RunGrows(steps, a);
      steps := steps + [a];
    }

    // ---------------------------------------------------------- calls

    /** The walk through the list of a key's bucket. */
    method Walk(k: Key) returns (e: HashIndex.Elem?<int>)
      requires Owned() && k.hash < |table.buckets|
      ensures e == null ==> k !in HashIndex.MapRun(map[], table.done)
      ensures e == null ==> forall i :: 0 <= i < |chains[k.hash]| ==> chains[k.hash][i].key != k
      ensures e != null ==> e in chains[k.hash] && e.key == k
    {
      HashIndex.PlaceOfReduced(k, |table.buckets|);
      e := table.Find(k);
      assert table.Chain(k) == chains[k.hash];
    }

    /** insert_in_bucket: a new node at the head of its list. */
    method Link(k: Key, row: int, ghost els: seq<Elem>, ghost linked: set<nat>, ghost bver: map<nat, nat>,
                ghost x: Elem)
      requires Owned() && Represents(els, linked, bver) && k.hash < |table.buckets|
      requires k !in HashIndex.MapRun(map[], table.done) && x.key == k && x.row == row && !x.valid
      modifies Repr
      ensures Owned() && fresh(Repr - old(Repr)) && steps == old(steps)
      ensures Represents(els + [x], linked + {|els|}, Bumped(bver, k.hash))
    {
      HashIndex.PlaceOfReduced(k, |table.buckets|);
      var found, e := table.Insert(k, row);
      InsertLinks(nodes, chains, els, linked, x, e);
      chains, versions := chains[k.hash := [e] + chains[k.hash]], versions[k.hash := versions[k.hash] + 1];
      nodes, Repr := nodes + [e], Repr + {e} + table.Repr;
    }

    /** What a call does to the lists: the walk, and for an absent key the insert. */
    method WalkOrLink(op: Op, k: Key, ghost els: seq<Elem>, ghost linked: set<nat>, ghost bver: map<nat, nat>,
                      ghost t: nat)
        returns (e: HashIndex.Elem?<int>)
      requires Owned() && Represents(els, linked, bver) && k.hash < |table.buckets|
      modifies Repr
      ensures Owned() && fresh(Repr - old(Repr)) && steps == old(steps)
      ensures e == null ==> forall i :: 0 <= i < |old(chains)[k.hash]| ==> old(chains)[k.hash][i].key != k
      ensures e != null ==> e in old(chains)[k.hash] && e.key == k && nodes == old(nodes)
      ensures if op.Insert? && e == null then
                Represents(els + [Elem(k, op.row, false, false, 0, None, t)], linked + {|els|}, Bumped(bver, k.hash))
              else Represents(els, linked, bver)
    {
      e := Walk(k);
      if e == null && op.Insert? {
        Link(k, op.row, els, linked, bver, Elem(k, op.row, false, false, 0, None, t));
      }
    }

    /** A call of a running transaction is the call of the state machine, and is shown the row that finds. */
    method Call(t: nat, op: Op, k: Key) returns (e: HashIndex.Elem?<int>)
      requires Valid() && k.hash < |table.buckets| && t in Now().txns && Now().txns[t].phase.Active?
      modifies Repr
      ensures Valid() && fresh(Repr - old(Repr)) && steps == old(steps) + [Do(t, op, k)]
      ensures e == null <==> FindIn(old(Now()), k) == -1
      ensures e != null ==> var i := FindIn(old(Now()), k); i < |old(Now()).els| && e.row == old(Now()).els[i].row
      ensures var x, y := old(Now().txns[t]), Run(old(steps) + [Do(t, op, k)]).txns[t];
              y.log == if y.phase.Active? && !OwnDelete(x, op, k)
                       then x.log + [IndexCalls.Call(op, k, if e == null then None else Some(e.row))] else x.log
    {
      ghost var v := Now();
      e := WalkOrLink(op, k, v.els, v.linked, v.bver, t);
      WalkAgrees(steps, old(nodes), old(chains), k, e);
      CallStep(steps, t, op, k);
      CallIsTold(steps, t, op, k);
      steps := steps + [Do(t, op, k)];
    }

    // ---------------------------------------------------------- cleanup and install

    /** _remove: the node is in its list, so the walk for it cannot run off the end. */
    method Unhook(el: Node, ghost els: seq<Elem>, ghost linked: set<nat>, ghost bver: map<nat, nat>, ghost id: nat)
      requires Owned() && Represents(els, linked, bver) && id in linked && nodes[id] == el
      modifies Repr
      ensures Owned() && Repr == old(Repr) && steps == old(steps) && nodes == old(nodes)
      ensures Represents(els, linked - {id}, bver)
    {
      ghost var b := el.key.hash;
      assert NodeAt(nodes, chains, els, linked, id);
      HashIndex.PlaceOfReduced(el.key, |table.buckets|);
      table.Unlink(el);
      ghost var chains' := chains[b := table.buckets[b].chain];
      UnlinkLinks(nodes, chains, chains', els, linked, id);
      chains := chains';
    }

    /** A cleanup: the nodes of committed deletes and aborted inserts leave their lists. */
    method Clean(t: nat, el: Node, unlink: bool, ghost id: nat)
      requires Valid() && t in Now().txns && Enabled(Now(), Now().txns[t], Action.Clean(t, id)) && id < |nodes|
      requires nodes[id] == el
      requires unlink == ToUnlink(Now().txns[t], Now().els, id, Now().txns[t].phase.done)
      modifies Repr
      ensures Valid() && Repr == old(Repr) && nodes == old(nodes) && steps == old(steps) + [Action.Clean(t, id)]
    {
      ghost var v := Now();
      CleanStep(steps, t, id);
      if unlink {
        CleanFinds(steps, t, id);
        Unhook(el, v.els, v.linked, v.bver, id);
      }
      steps := steps + [Action.Clean(t, id)];
    }

    /** copy_row: the node's row is replaced. */
    method SetRow(el: Node, row: int, ghost els: seq<Elem>, ghost linked: set<nat>, ghost bver: map<nat, nat>,
                  ghost id: nat, ghost x: Elem)
      requires Owned() && Represents(els, linked, bver) && id in linked && nodes[id] == el
      requires x.key == els[id].key && x.row == row && x.valid == els[id].valid
      modifies Repr
      ensures Owned() && Repr == old(Repr) && steps == old(steps) && nodes == old(nodes)
      ensures Represents(els[id := x], linked, bver)
    {
      assert NodeAt(nodes, chains, els, linked, id);
      HashIndex.PlaceOfReduced(el.key, |table.buckets|);
      table.CopyRow(el, row);
      SameLinks(nodes, chains, els, els[id := x], linked);
    }

    /** The node of a committed insert becomes valid. */
    method SetValid(el: Node, ghost els: seq<Elem>, ghost linked: set<nat>, ghost bver: map<nat, nat>, ghost id: nat,
                    ghost x: Elem)
      requires Owned() && Represents(els, linked, bver) && id < |nodes| && nodes[id] == el
      requires x.key == els[id].key && x.row == els[id].row && x.valid
      modifies Repr
      ensures Owned() && Repr == old(Repr) && steps == old(steps) && nodes == old(nodes)
      ensures Represents(els[id := x], linked, bver)
    {
      table.SetValid(el);
      SameLinks(nodes, chains, els, els[id := x], linked);
    }

    /** An install: an inserted node becomes valid, an updated one gets its row, a deleted one keeps both. */
    method Install(t: nat, el: Node, insert: bool, row: Option<int>, ghost id: nat)
      requires Valid() && t in Now().txns && Enabled(Now(), Now().txns[t], Action.Install(t, id)) && id < |nodes|
      requires nodes[id] == el
      requires insert == !Holds(Now().txns[t].hits, Now().els[id].key, id) && (insert ==> row.None?)
      requires InstalledElem(Now().els[id], id, Now().txns[t]).row == if row.Some? then row.value else Now().els[id].row
      modifies Repr
      ensures Valid() && Repr == old(Repr) && nodes == old(nodes) && steps == old(steps) + [Action.Install(t, id)]
    {
      ghost var v := Now();
      ghost var x := InstalledElem(v.els[id], id, v.txns[t]);
      InstallStep(steps, t, id);
      if insert {
        SetValid(el, v.els, v.linked, v.bver, id, x);
      } else if row.Some? {
        InstallFinds(steps, t, id);
        SetRow(el, row.value, v.els, v.linked, v.bver, id, x);
      } else {
        SameLinks(nodes, chains, v.els, v.els[id := x], v.linked);
      }
      steps := steps + [Action.Install(t, id)];
    }
  }

  lemma BeginIsActive(t: nat)
    ensures t in Run([] + [Begin(t)]).txns && Run([] + [Begin(t)]).txns[t].phase.Active?
  {
    RunGrows([], Begin(t));
  }

  /** On the heap too, a transaction finds the row it has just inserted. */
  method OwnInsertIsFound(size: nat, k: Key) returns (e: HashIndex.Elem?<int>)
    requires k.hash < size
    ensures e != null && e.row == 1
  {
    var index := new Index(size);
    index.Advance(Begin(0));
    BeginIsActive(0);
    var _ := index.Call(0, Op.Insert(1), k);
    assert index.steps == Inserting(k);
    Inserts(k);
    FindsIt(Run(Inserting(k)), Elem(k, 1, false, false, 0, None, 0), 0, Inserter(k));
    e := index.Call(0, Select, k);
  }
}
