/**
  Transactions over the hash index as a state machine. Every lookup, insert,
  update and delete is a step, and so is every lock, check, install, cleanup and
  unlock of one item at commit or abort. Any interleaving of any number of
  transactions is a run. The hash of a key is here already reduced to the number
  of its bucket.
 */
module IndexOcc {
  import opened Options
  import opened HashKeys
  import opened IndexCalls

  /** A list element; lock is its holder, maker its inserter. */
  datatype Elem = Elem(key: Key, row: int, valid: bool, deleted: bool, version: nat, lock: Option<nat>, maker: nat)

  /** Cleaning and Unlocking are the two loops that end a transaction, committed (done) or not. */
  datatype Phase =
    | Active | Locking | Checking | Installing
    | Cleaning(done: bool) | Unlocking(done: bool) | Over(done: bool)

  /**
    What a call rests on: an element it read, a bucket it found without the key at a
    time, or the transaction's own insert.
   */
  datatype Mark = Row(id: nat) | Gone(at: nat) | Mine

  /**
    buckets, seen: first observed versions of buckets and elements; added, hits:
    elements inserted and existing elements written; needs: elements to unlock at
    the end; left, leftBuckets: items the current loop has still to visit; ticket:
    the place in the order in which transactions come to hold all their locks.
   */
  datatype Txn = Txn(phase: Phase, buckets: map<nat, nat>, seen: map<nat, nat>, added: map<Key, nat>,
                     hits: map<Key, nat>, log: seq<Call>, marks: seq<Mark>, needs: set<nat>, left: set<nat>,
                     leftBuckets: set<nat>, ticket: nat)

  const START: Txn := Txn(Active, map[], map[], map[], map[], [], [], {}, {}, {}, 0)

  datatype Done = Done(log: seq<Call>, marks: seq<Mark>)

  /** linked: elements in their bucket lists; home: the live element of a key; history: committed logs by ticket. */
  datatype State = State(bver: map<nat, nat>, els: seq<Elem>, linked: set<nat>, home: map<Key, nat>,
                         txns: map<nat, Txn>, clock: nat, history: map<nat, Done>)

  function BucketVersion(bver: map<nat, nat>, b: nat): nat { if b in bver then bver[b] else 0 }

  predicate Holds(m: map<Key, nat>, k: Key, id: nat) { k in m && m[k] == id }

  /** The items with a write. */
  function Written(x: Txn): set<nat> { x.hits.Values + x.added.Values }

  predicate WritesTo(x: Txn, k: Key) { k in x.hits || k in x.added }

  /** The item carries the delete flag. */
  predicate IsDelete(x: Txn, els: seq<Elem>, id: nat) {
    id < |els| && Holds(x.hits, els[id].key, id) && Wrote(x.log, els[id].key) == Some(None)
  }

  predicate IsInsert(x: Txn, els: seq<Elem>, id: nat) { id < |els| && Holds(x.added, els[id].key, id) }

  // ------------------------------------------------------------ calls

  ghost predicate Linked(s: State, k: Key, id: nat) {
    id in s.linked && id < |s.els| && s.els[id].key == k
  }

  /** The element a list walk finds, or -1. */
  ghost function FindIn(s: State, k: Key): (r: int)
    ensures r == -1 ==> forall id: nat :: !Linked(s, k, id)
    ensures r != -1 ==> 0 <= r && Linked(s, k, r)
  {
    if exists id: nat :: Linked(s, k, id) then var id: nat :| Linked(s, k, id); id else -1
  }

  /** A first observation is kept. */
  function Observed(seen: map<nat, nat>, id: nat, version: nat): map<nat, nat> {
    if id in seen then seen else seen[id := version]
  }

  function WithTxn(s: State, t: nat, x: Txn): State { s.(txns := s.txns[t := x]) }

  /** The end of a transaction begins with the cleanup of its written items. */
  function Stop(x: Txn, done: bool): Txn { x.(phase := Cleaning(done), left := Written(x), leftBuckets := {}) }

  /** The element found cannot be used: locked, or an insert of someone else. */
  predicate Blocked(x: Txn, e: Elem, id: nat) {
    e.lock.Some? || (!e.valid && !Holds(x.added, e.key, id))
  }

  function Noted(x: Txn, c: Call, m: Mark): Txn { x.(log := x.log + [c], marks := x.marks + [m]) }

  /** No element: the bucket's version is observed. */
  function Miss(s: State, x: Txn, op: Op, k: Key): Txn {
    Noted(x.(buckets := Observed(x.buckets, k.hash, BucketVersion(s.bver, k.hash))), Call(op, k, None), Gone(s.clock))
  }

  /** An own insert is shown to its transaction; an update of it is buffered and never installed. */
  function ReadOwn(x: Txn, op: Op, e: Elem, id: nat): Txn {
    Noted(x.(seen := Observed(x.seen, id, e.version)), Call(op, e.key, Some(e.row)), Mark.Mine)
  }

  /** The element's version is observed; updates and deletes are buffered. */
  function Read(x: Txn, op: Op, e: Elem, id: nat): Txn {
    Noted(x.(seen := Observed(x.seen, id, e.version),
             hits := if op.Update? || op.Delete? then x.hits[e.key := id] else x.hits),
          Call(op, e.key, Some(e.row)), Row(id))
  }

  /** An observation of the bucket version just replaced moves along with it. */
  function Moved(x: Txn, bucket: nat, was: nat): map<nat, nat> {
    if bucket in x.buckets && x.buckets[bucket] == was then x.buckets[bucket := was + 1] else x.buckets
  }

  function Adding(x: Txn, e: Elem, id: nat, was: nat): Txn {
    Noted(x.(buckets := Moved(x, e.key.hash, was), added := x.added[e.key := id]),
          Call(Op.Insert(e.row), e.key, None), Mark.Mine)
  }

  /** A new, invalid element at the head of its bucket's list. */
  function InsertNew(s: State, t: nat, x: Txn, k: Key, row: int): State {
    var was := BucketVersion(s.bver, k.hash);
    var id, e := |s.els|, Elem(k, row, false, false, 0, None, t);
    s.(bver := s.bver[k.hash := was + 1], els := s.els + [e], linked := s.linked + {id},
       txns := s.txns[t := Adding(x, e, id, was)])
  }

  /** What a call makes of its transaction when the walk finds an element. */
  function Found(x: Txn, op: Op, e: Elem, id: nat): Txn {
    if Blocked(x, e, id) then Stop(x, false)
    else if !Holds(x.added, e.key, id) then Read(x, op, e, id)
    else if op.Delete? then x
    else ReadOwn(x, op, e, id)
  }

  ghost function CallTxn(s: State, x: Txn, op: Op, k: Key): Txn {
    var id := FindIn(s, k);
    if id == -1 then Miss(s, x, op, k) else Found(x, op, s.els[id], id)
  }

  ghost function OnElem(s: State, t: nat, op: Op, k: Key): State
    requires t in s.txns
  {
    if op.Insert? && FindIn(s, k) == -1 then InsertNew(s, t, s.txns[t], k, op.row)
    else WithTxn(s, t, CallTxn(s, s.txns[t], op, k))
  }

  // ------------------------------------------------------------ commit

  /** Tries the lock of one written item; a lock held by anyone stops the transaction. */
  function LockItem(s: State, t: nat, x: Txn, id: nat): State
    requires id < |s.els|
  {
    if s.els[id].lock.None? then
      s.(els := s.els[id := s.els[id].(lock := Some(t))],
         txns := s.txns[t := x.(needs := x.needs + {id}, left := x.left - {id})])
    else WithTxn(s, t, Stop(x, false))
  }

  /**
    All locks are held and the checks begin. The ticket names this moment; it
    stands for the versions of what the transaction installs, of which only
    equality is ever asked.
   */
  function LocksHeld(s: State, t: nat, x: Txn): State {
    s.(clock := s.clock + 1,
       txns := s.txns[t := x.(phase := Checking, ticket := s.clock + 1, left := x.seen.Keys,
                              leftBuckets := x.buckets.Keys)])
  }

  /** A read row is unchanged and not locked, unless the transaction writes it and so holds the lock itself. */
  predicate RowPasses(s: State, x: Txn, id: nat)
    requires id in x.seen
  {
    id < |s.els| && s.els[id].version == x.seen[id] && (s.els[id].lock.None? || id in Written(x))
  }

  predicate BucketPasses(s: State, x: Txn, b: nat)
    requires b in x.buckets
  {
    x.buckets[b] == BucketVersion(s.bver, b)
  }

  /** All checks passed. */
  function Decide(s: State, t: nat, x: Txn): State {
    s.(history := s.history[x.ticket := Done(x.log, x.marks)],
       txns := s.txns[t := x.(phase := Installing, left := Written(x))])
  }

  function InstalledElem(e: Elem, id: nat, x: Txn): Elem {
    var w := Wrote(x.log, e.key);
    if !Holds(x.hits, e.key, id) then e.(valid := true, version := x.ticket, lock := None)
    else if w == Some(None) then e.(deleted := true, version := x.ticket)
    else e.(row := if w.Some? then w.value.value else e.row, version := x.ticket, lock := None)
  }

  /** A delete only marks the element and keeps its lock; an update or insert sets the version and unlocks in one go. */
  function InstallItem(s: State, t: nat, x: Txn, id: nat): State
    requires id < |s.els|
  {
    var e := s.els[id];
    s.(els := s.els[id := InstalledElem(e, id, x)],
       home := if !Holds(x.hits, e.key, id) then s.home[e.key := id]
               else if IsDelete(x, s.els, id) then s.home - {e.key} else s.home,
       txns := s.txns[t := x.(left := x.left - {id},
                              needs := if IsDelete(x, s.els, id) then x.needs else x.needs - {id})])
  }

  // ------------------------------------------------------------ the end of a transaction

  /** Committed deletes and aborted inserts are unlinked, and their unlock flag is cleared. */
  function CleanItem(s: State, t: nat, x: Txn, id: nat): State
    requires x.phase.Cleaning?
  {
    if (if x.phase.done then IsDelete(x, s.els, id) else IsInsert(x, s.els, id)) then
      s.(linked := s.linked - {id}, txns := s.txns[t := x.(left := x.left - {id}, needs := x.needs - {id})])
    else WithTxn(s, t, x.(left := x.left - {id}))
  }

  function UnlockItem(s: State, t: nat, x: Txn, id: nat): State
    requires id < |s.els|
  {
    s.(els := s.els[id := s.els[id].(lock := None)], txns := s.txns[t := x.(needs := x.needs - {id})])
  }

  // ------------------------------------------------------------ steps

  datatype Action =
    | Begin(t: nat)
    | Do(t: nat, op: Op, k: Key)
    | TryCommit(t: nat)
    | Lock(t: nat, id: nat)
    | AllLocked(t: nat)
    | CheckRow(t: nat, id: nat)
    | CheckBucket(t: nat, b: nat)
    | AllChecked(t: nat)
    | Install(t: nat, id: nat)
    | AllInstalled(t: nat)
    | Abort(t: nat)
    | Clean(t: nat, id: nat)
    | AllClean(t: nat)
    | Unlock(t: nat, id: nat)
    | AllUnlocked(t: nat)

  /** Which steps a transaction can take; any other step of a run does nothing. */
  predicate Enabled(s: State, x: Txn, a: Action) {
    match a
    case Begin(_) => false
    case Do(_, _, _) => x.phase.Active?
    case TryCommit(_) => x.phase.Active?
    case Lock(_, id) => x.phase.Locking? && id in x.left && id < |s.els|
    case AllLocked(_) => x.phase.Locking? && x.left == {}
    case CheckRow(_, id) => x.phase.Checking? && id in x.left && id in x.seen
    case CheckBucket(_, b) => x.phase.Checking? && b in x.leftBuckets && b in x.buckets
    case AllChecked(_) => x.phase.Checking? && x.left == {} && x.leftBuckets == {}
    case Install(_, id) => x.phase.Installing? && id in x.left && id < |s.els|
    case AllInstalled(_) => x.phase.Installing? && x.left == {}
    case Abort(_) => x.phase.Active? || x.phase.Locking? || x.phase.Checking?
    case Clean(_, id) => x.phase.Cleaning? && id in x.left
    case AllClean(_) => x.phase.Cleaning? && x.left == {}
    case Unlock(_, id) => x.phase.Unlocking? && id in x.needs && id < |s.els|
    case AllUnlocked(_) => x.phase.Unlocking? && x.needs == {}
  }

  /** The steps that change nothing but their transaction. */
  predicate Private(a: Action) {
    a.TryCommit? || a.CheckRow? || a.CheckBucket? || a.AllInstalled? || a.Abort? || a.AllClean? || a.AllUnlocked?
  }

  function NextTxn(s: State, x: Txn, a: Action): Txn
    requires Private(a) && Enabled(s, x, a)
  {
    match a
    case TryCommit(_) => x.(phase := Locking, left := Written(x))
    case CheckRow(_, id) => if RowPasses(s, x, id) then x.(left := x.left - {id}) else Stop(x, false)
    case CheckBucket(_, b) => if BucketPasses(s, x, b) then x.(leftBuckets := x.leftBuckets - {b}) else Stop(x, false)
    case AllInstalled(_) => Stop(x, true)
    case Abort(_) => Stop(x, false)
    case AllClean(_) => x.(phase := Unlocking(x.phase.done))
    case AllUnlocked(_) => x.(phase := Over(x.phase.done))
  }

  ghost function Perform(s: State, a: Action): State {
    if a.Begin? then if a.t in s.txns then s else WithTxn(s, a.t, START)
    else if a.t !in s.txns || !Enabled(s, s.txns[a.t], a) then s
    else if Private(a) then WithTxn(s, a.t, NextTxn(s, s.txns[a.t], a))
    else
      var t, x := a.t, s.txns[a.t];
      match a
      case Do(_, op, k) => OnElem(s, t, op, k)
      case Lock(_, id) => LockItem(s, t, x, id)
      case AllLocked(_) => LocksHeld(s, t, x)
      case AllChecked(_) => Decide(s, t, x)
      case Install(_, id) => InstallItem(s, t, x, id)
      case Clean(_, id) => CleanItem(s, t, x, id)
      case Unlock(_, id) => UnlockItem(s, t, x, id)
  }

  const EMPTY: State := State(map[], [], {}, map[], map[], 0, map[])

  ghost function RunFrom(s: State, actions: seq<Action>): State
    decreases |actions|
  {
    if actions == [] then s else Perform(RunFrom(s, actions[..|actions| - 1]), actions[|actions| - 1])
  }

  ghost function Run(actions: seq<Action>): State { RunFrom(EMPTY, actions) }
}
