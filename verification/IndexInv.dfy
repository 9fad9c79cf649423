/** What holds in every state of the index's state machine. Each condition names just the parts it speaks of. */
module IndexInv {
  import opened Options
  import opened HashKeys
  import opened IndexCalls
  import opened IndexOcc

  // ------------------------------------------------------------ elements

  ghost predicate ElemOk(e: Elem, clock: nat) {
    && (e.deleted ==> e.valid && e.lock.Some?) && e.version <= clock
    && (e.lock.Some? && !e.valid ==> e.lock.value == e.maker)
  }

  ghost predicate Live(els: seq<Elem>, linked: set<nat>, k: Key, id: nat) {
    id < |els| && id in linked && els[id].key == k && els[id].valid && !els[id].deleted
  }

  ghost predicate AtHome(els: seq<Elem>, home: map<Key, nat>, id: nat)
    requires id < |els|
  {
    els[id].valid && !els[id].deleted ==> Holds(home, els[id].key, id)
  }

  /** A key is in at most one linked element, and home is the live element of every key that has one. */
  ghost predicate ElemsOk(els: seq<Elem>, linked: set<nat>, home: map<Key, nat>, clock: nat) {
    && (forall id {:trigger ElemOk(els[id], clock)} :: 0 <= id < |els| ==> ElemOk(els[id], clock))
    && (forall id :: id in linked ==> id < |els|)
    && (forall i, j :: i in linked && j in linked && els[i].key == els[j].key ==> i == j)
    && (forall k {:trigger Live(els, linked, k, home[k])} :: k in home ==> Live(els, linked, k, home[k]))
    && (forall id {:trigger AtHome(els, home, id)} :: 0 <= id < |els| ==> AtHome(els, home, id))
  }

  // ------------------------------------------------------------ the serial history

  ghost predicate Writes(h: map<nat, Done>, n: nat, k: Key) { n in h && Wrote(h[n].log, k).Some? }

  /** The row of k after the committed transactions with tickets below n, in ticket order. */
  ghost function Value(h: map<nat, Done>, n: nat, k: Key): Option<int> {
    if n == 0 then None
    else if Writes(h, n - 1, k) then Wrote(h[n - 1].log, k).value
    else Value(h, n - 1, k)
  }

  /** What a call says about the committed rows: nothing is there under an own insert. */
  function Base(c: Call, m: Mark): Option<int> { if m.Row? then c.was else None }

  /** Every call was told its base, or the transaction's own insert. */
  ghost predicate OwnOk(log: seq<Call>, marks: seq<Mark>) {
    && |log| == |marks|
    && (log == [] ||
        var n := |log| - 1;
        var own := Added(log[..n], log[n].k);
        && OwnOk(log[..n], marks[..n])
        && log[n].was == (if own.Some? then own else Base(log[n], marks[n])) && (own.Some? ==> marks[n].Mine?))
  }

  // ------------------------------------------------------------ transactions before the decision

  ghost predicate AddedAt(t: nat, k: Key, id: nat, log: seq<Call>, els: seq<Elem>, linked: set<nat>) {
    && id < |els| && id in linked
    && els[id].key == k && !els[id].valid && els[id].maker == t
    && Added(log, k) == Some(els[id].row) && Wrote(log, k) == Some(Some(els[id].row))
  }

  /** A transaction's inserts are linked, invalid and carry the row to install. */
  ghost predicate AddedOk(t: nat, added: map<Key, nat>, log: seq<Call>, els: seq<Elem>, linked: set<nat>) {
    forall k {:trigger AddedAt(t, k, added[k], log, els, linked)} :: k in added ==>
      AddedAt(t, k, added[k], log, els, linked)
  }

  ghost predicate SeenAt(id: nat, version: nat, added: map<Key, nat>, els: seq<Elem>) {
    id < |els| && version <= els[id].version && (els[id].valid || Holds(added, els[id].key, id))
  }

  ghost predicate SeenOk(seen: map<nat, nat>, added: map<Key, nat>, els: seq<Elem>) {
    forall id {:trigger SeenAt(id, seen[id], added, els)} :: id in seen ==> SeenAt(id, seen[id], added, els)
  }

  ghost predicate HitAt(k: Key, id: nat, seen: map<nat, nat>, log: seq<Call>, els: seq<Elem>) {
    id in seen && id < |els| && els[id].key == k && els[id].valid && Wrote(log, k).Some?
  }

  ghost predicate HitsOk(hits: map<Key, nat>, seen: map<nat, nat>, log: seq<Call>, els: seq<Elem>) {
    forall k {:trigger HitAt(k, hits[k], seen, log, els)} :: k in hits ==> HitAt(k, hits[k], seen, log, els)
  }

  ghost predicate KeyOk(k: Key, x: Txn) {
    (Wrote(x.log, k).Some? ==> WritesTo(x, k)) && (Added(x.log, k).Some? <==> k in x.added)
  }

  /** Nothing else is written, and the log knows the inserts. */
  ghost predicate KeysOk(x: Txn) { forall k {:trigger KeyOk(k, x)} :: KeyOk(k, x) }

  ghost predicate BucketsOk(buckets: map<nat, nat>, bver: map<nat, nat>) {
    forall b :: b in buckets ==> buckets[b] <= BucketVersion(bver, b)
  }

  ghost predicate OnlyMine(k: Key, added: map<Key, nat>, els: seq<Elem>, linked: set<nat>) {
    forall id :: id in linked && id < |els| && els[id].key == k ==> Holds(added, k, id)
  }

  ghost predicate WritersBy(h: map<nat, Done>, k: Key, at: nat) {
    forall n: nat {:trigger Writes(h, n, k)} :: Writes(h, n, k) ==> n <= at
  }

  /** While the bucket's version stands, the key is nobody else's and nobody has committed it since. */
  ghost predicate GoneOk(k: Key, at: nat, buckets: map<nat, nat>, added: map<Key, nat>, els: seq<Elem>,
                         linked: set<nat>, bver: map<nat, nat>, h: map<nat, Done>) {
    && k.hash in buckets
    && (buckets[k.hash] == BucketVersion(bver, k.hash) ==> OnlyMine(k, added, els, linked) && WritersBy(h, k, at))
  }

  /** While the element's version stands, it holds the row that was read. */
  ghost predicate RowOk(c: Call, id: nat, seen: map<nat, nat>, els: seq<Elem>) {
    && c.was.Some? && id in seen && id < |els| && els[id].key == c.k && els[id].valid
    && (els[id].version == seen[id] ==> els[id].row == c.was.value)
  }

  ghost predicate CallOk(c: Call, m: Mark, x: Txn, els: seq<Elem>, linked: set<nat>, bver: map<nat, nat>,
                         h: map<nat, Done>) {
    match m
    case Row(id) => RowOk(c, id, x.seen, els)
    case Gone(at) => GoneOk(c.k, at, x.buckets, x.added, els, linked, bver, h)
    case Mine => c.k in x.added
  }

  ghost predicate LogOk(x: Txn, els: seq<Elem>, linked: set<nat>, bver: map<nat, nat>, h: map<nat, Done>) {
    && |x.marks| == |x.log|
    && forall i {:trigger CallOk(x.log[i], x.marks[i], x, els, linked, bver, h)} ::
         0 <= i < |x.log| ==> CallOk(x.log[i], x.marks[i], x, els, linked, bver, h)
  }

  /** An element locked by t that nobody has deleted. */
  ghost predicate HeldAt(t: nat, id: nat, els: seq<Elem>) { id < |els| && els[id].lock == Some(t) && !els[id].deleted }

  ghost predicate HeldOk(t: nat, needs: set<nat>, els: seq<Elem>) {
    forall id {:trigger HeldAt(t, id, els)} :: id in needs ==> HeldAt(t, id, els)
  }

  ghost predicate BeforeOk(t: nat, x: Txn, els: seq<Elem>, linked: set<nat>, bver: map<nat, nat>, h: map<nat, Done>) {
    && AddedOk(t, x.added, x.log, els, linked) && SeenOk(x.seen, x.added, els) && HitsOk(x.hits, x.seen, x.log, els)
    && KeysOk(x) && BucketsOk(x.buckets, bver) && LogOk(x, els, linked, bver, h) && OwnOk(x.log, x.marks)
    && HeldOk(t, x.needs, els)
  }

  ghost predicate MarkBy(m: Mark, at: nat) { m.Gone? ==> m.at <= at }

  /** What was read, missed or locked is older than the commit number. */
  ghost predicate TicketOk(x: Txn, els: seq<Elem>) {
    && (forall id :: id in x.seen ==> x.seen[id] < x.ticket)
    && x.ticket > 0 && MarksBy(x, x.ticket - 1)
    && (forall id :: id in x.needs && id < |els| ==> els[id].version < x.ticket)
  }

  // ------------------------------------------------------------ transactions after the decision

  /** An item still to install: locked, linked and as it was when it was locked. */
  ghost predicate ToInstall(t: nat, x: Txn, id: nat, els: seq<Elem>, linked: set<nat>) {
    && HeldAt(t, id, els) && id in x.needs && id in linked && els[id].version < x.ticket
    && (var e := els[id];
        if Holds(x.hits, e.key, id) then e.valid && Wrote(x.log, e.key).Some?
        else Holds(x.added, e.key, id) && !e.valid && e.maker == t && Wrote(x.log, e.key) == Some(Some(e.row)))
  }

  /** A deleted element still in its list, whose lock its deleter will never give back. */
  ghost predicate DeadAt(t: nat, x: Txn, id: nat, els: seq<Elem>, linked: set<nat>) {
    IsDelete(x, els, id) && els[id].lock == Some(t) && els[id].deleted && id in linked
  }

  ghost predicate InRange(ids: set<nat>, els: seq<Elem>) { forall id :: id in ids ==> id < |els| }

  ghost predicate InstallingOk(t: nat, x: Txn, els: seq<Elem>, linked: set<nat>, h: map<nat, Done>) {
    && (forall id {:trigger ToInstall(t, x, id, els, linked)} :: id in x.left ==> ToInstall(t, x, id, els, linked))
    && (forall id {:trigger DeadAt(t, x, id, els, linked)} :: id in x.needs && id !in x.left ==>
        DeadAt(t, x, id, els, linked))
    && (forall id {:trigger IsDelete(x, els, id)} :: id in Written(x) && id !in x.left && IsDelete(x, els, id) ==>
        id in x.needs)
    && x.ticket in h && h[x.ticket] == Done(x.log, x.marks) && x.left <= Written(x) && InRange(Written(x), els)
  }

  /** After a commit exactly the deleted elements are still locked, and all of them wait for their cleanup. */
  ghost predicate CleaningCommit(t: nat, x: Txn, els: seq<Elem>, linked: set<nat>) {
    && (forall id {:trigger DeadAt(t, x, id, els, linked)} :: id in x.needs ==>
        id in x.left && DeadAt(t, x, id, els, linked))
    && (forall id {:trigger IsDelete(x, els, id)} :: id in x.left && IsDelete(x, els, id) ==> id in x.needs)
    && InRange(x.left, els)
  }

  ghost predicate OrphanAt(t: nat, x: Txn, id: nat, els: seq<Elem>, linked: set<nat>) {
    IsInsert(x, els, id) && id in linked && !els[id].valid && els[id].maker == t
  }

  /** After an abort the inserts wait for their cleanup, and what is still locked is not deleted. */
  ghost predicate CleaningAbort(t: nat, x: Txn, els: seq<Elem>, linked: set<nat>) {
    && HeldOk(t, x.needs, els)
    && (forall id {:trigger OrphanAt(t, x, id, els, linked)} ::
          id in x.left && id in x.added.Values ==> OrphanAt(t, x, id, els, linked))
  }

  /** The element is one that the end of the transaction unlinks. */
  predicate ToUnlink(x: Txn, els: seq<Elem>, id: nat, done: bool) {
    if done then IsDelete(x, els, id) else IsInsert(x, els, id)
  }

  /** Whatever had to be unlinked and was visited is out of its list. */
  ghost predicate Tidy(x: Txn, els: seq<Elem>, linked: set<nat>, left: set<nat>, done: bool) {
    && InRange(Written(x), els)
    && forall id {:trigger ToUnlink(x, els, id, done)} ::
         id in Written(x) && id !in left && ToUnlink(x, els, id, done) ==> id !in linked
  }

  ghost predicate TxnOk(t: nat, x: Txn, els: seq<Elem>, linked: set<nat>, bver: map<nat, nat>, h: map<nat, Done>) {
    match x.phase
    case Active => BeforeOk(t, x, els, linked, bver, h) && x.needs == {}
    case Locking =>
      && BeforeOk(t, x, els, linked, bver, h) && x.left <= Written(x) && x.needs <= Written(x)
      && (forall id :: id in Written(x) ==> id in x.needs || id in x.left)
    case Checking =>
      BeforeOk(t, x, els, linked, bver, h) && x.needs == Written(x) && TicketOk(x, els)
    case Installing => InstallingOk(t, x, els, linked, h)
    case Cleaning(done) =>
      && (if done then CleaningCommit(t, x, els, linked) else CleaningAbort(t, x, els, linked))
      && Tidy(x, els, linked, x.left, done)
    case Unlocking(done) => HeldOk(t, x.needs, els) && Tidy(x, els, linked, {}, done)
    case Over(done) => x.needs == {} && Tidy(x, els, linked, {}, done)
  }

  ghost predicate TxnsOk(txns: map<nat, Txn>, els: seq<Elem>, linked: set<nat>, bver: map<nat, nat>,
                         h: map<nat, Done>) {
    forall t {:trigger TxnOk(t, txns[t], els, linked, bver, h)} :: t in txns ==> TxnOk(t, txns[t], els, linked, bver, h)
  }

  // ------------------------------------------------------------ the order of commit numbers

  ghost predicate Ticketed(x: Txn) { x.phase.Checking? || x.phase.Installing? }

  ghost predicate MarksBy(x: Txn, at: nat) {
    forall i {:trigger MarkBy(x.marks[i], at)} :: 0 <= i < |x.marks| ==> MarkBy(x.marks[i], at)
  }

  ghost predicate TicketsOk(txns: map<nat, Txn>, h: map<nat, Done>, clock: nat) {
    && (forall n :: n in h ==> 1 <= n <= clock)
    && (forall t {:trigger MarksBy(txns[t], clock)} :: t in txns ==> MarksBy(txns[t], clock))
    && (forall t :: t in txns && Ticketed(txns[t]) ==> 1 <= txns[t].ticket <= clock)
    && (forall t :: t in txns && txns[t].phase.Checking? ==> txns[t].ticket !in h)
    && (forall t, u :: t in txns && u in txns && t != u && Ticketed(txns[t]) && Ticketed(txns[u]) ==>
          txns[t].ticket != txns[u].ticket)
  }

  /** The call's check has passed, or it needs none. */
  predicate Settled(x: Txn, i: nat)
    requires i < |x.log| == |x.marks|
  {
    match x.marks[i]
    case Row(id) => id !in x.left
    case Gone(_) => x.log[i].k.hash !in x.leftBuckets
    case Mine => true
  }

  /** Nobody with a smaller commit number who could still commit writes k. */
  ghost predicate NoneBelow(txns: map<nat, Txn>, ticket: nat, k: Key) {
    forall u :: u in txns && txns[u].phase.Checking? && txns[u].ticket < ticket ==> !WritesTo(txns[u], k)
  }

  /** A settled call is true of the rows committed below the transaction's number, and stays so. */
  ghost predicate SettledAt(x: Txn, i: nat, txns: map<nat, Txn>, h: map<nat, Done>)
    requires i < |x.log| == |x.marks|
  {
    Settled(x, i) ==>
      Value(h, x.ticket, x.log[i].k) == Base(x.log[i], x.marks[i]) && NoneBelow(txns, x.ticket, x.log[i].k)
  }

  ghost predicate SettledOk(x: Txn, txns: map<nat, Txn>, h: map<nat, Done>) {
    && |x.log| == |x.marks|
    && forall i {:trigger SettledAt(x, i, txns, h)} :: 0 <= i < |x.log| ==> SettledAt(x, i, txns, h)
  }

  /** A committed call is true of the rows committed below its transaction's number, and stays so. */
  ghost predicate DoneAt(h: map<nat, Done>, n: nat, i: nat, txns: map<nat, Txn>)
    requires n in h && i < |h[n].log| == |h[n].marks|
  {
    Value(h, n, h[n].log[i].k) == Base(h[n].log[i], h[n].marks[i]) && NoneBelow(txns, n, h[n].log[i].k)
  }

  ghost predicate DoneOk(h: map<nat, Done>, n: nat, txns: map<nat, Txn>)
    requires n in h
  {
    && OwnOk(h[n].log, h[n].marks) && |h[n].log| == |h[n].marks|
    && forall i {:trigger DoneAt(h, n, i, txns)} :: 0 <= i < |h[n].log| ==> DoneAt(h, n, i, txns)
  }

  ghost predicate OrderOk(txns: map<nat, Txn>, h: map<nat, Done>, clock: nat) {
    && TicketsOk(txns, h, clock)
    && (forall t {:trigger SettledOk(txns[t], txns, h)} :: t in txns && txns[t].phase.Checking? ==>
        SettledOk(txns[t], txns, h))
    && (forall n {:trigger DoneOk(h, n, txns)} :: n in h ==> DoneOk(h, n, txns))
  }

  // ------------------------------------------------------------ rows and history

  ghost predicate Pending(x: Txn, id: nat) { x.phase.Installing? && id in x.left }

  ghost function RowAt(els: seq<Elem>, home: map<Key, nat>, k: Key): Option<int> {
    if k in home && home[k] < |els| then Some(els[home[k]].row) else None
  }

  ghost predicate PendingKey(txns: map<nat, Txn>, els: seq<Elem>, k: Key) {
    exists t, id: nat :: t in txns && Pending(txns[t], id) && id < |els| && els[id].key == k
  }

  /** An install that is still to come is already in the history, and is the last word on its key. */
  ghost predicate PendingAt(x: Txn, id: nat, els: seq<Elem>, h: map<nat, Done>, clock: nat) {
    id < |els| ==>
      && Wrote(x.log, els[id].key).Some? && Value(h, clock + 1, els[id].key) == Wrote(x.log, els[id].key).value
      && WritersBy(h, els[id].key, x.ticket)
  }

  /** The last committed writer of a live element's key is the one its version names, or the pending one. */
  ghost predicate VersionAt(id: nat, els: seq<Elem>, txns: map<nat, Txn>, h: map<nat, Done>) {
    id < |els| && els[id].valid && !els[id].deleted ==>
      WritersBy(h, els[id].key, els[id].version) || (exists t :: t in txns && Pending(txns[t], id))
  }

  ghost predicate KeyRow(k: Key, els: seq<Elem>, home: map<Key, nat>, txns: map<nat, Txn>, h: map<nat, Done>,
                         clock: nat) {
    PendingKey(txns, els, k) || Value(h, clock + 1, k) == RowAt(els, home, k)
  }

  ghost predicate RowsOk(els: seq<Elem>, home: map<Key, nat>, txns: map<nat, Txn>, h: map<nat, Done>, clock: nat) {
    && (forall t, id {:trigger PendingAt(txns[t], id, els, h, clock)} ::
          t in txns && Pending(txns[t], id) ==> PendingAt(txns[t], id, els, h, clock))
    && (forall id {:trigger VersionAt(id, els, txns, h)} :: VersionAt(id, els, txns, h))
    && (forall k {:trigger KeyRow(k, els, home, txns, h, clock)} :: KeyRow(k, els, home, txns, h, clock))
  }

  ghost predicate Inv(s: State) {
    && ElemsOk(s.els, s.linked, s.home, s.clock)
    && TxnsOk(s.txns, s.els, s.linked, s.bver, s.history)
    && OrderOk(s.txns, s.history, s.clock)
    && RowsOk(s.els, s.home, s.txns, s.history, s.clock)
  }
}
