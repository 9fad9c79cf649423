/**
  Transactions over the ring: every push, pop and front call only changes the
  transaction's own items; the commit validates the observed versions and then
  installs. The state machine lets any number of transactions interleave call
  by call; lock, check and install are one step.
 */
module TransQueue {
  import opened Options
  import opened Fifo
  import opened Ring

  /** Write value of the push item: none, a single value with its empty bit, or a list. */
  datatype Pending<T> = NoWrite | One(v: T, emptied: bool) | Many(list: seq<T>) {
    function Values(): seq<T> {
      match this
      case NoWrite => []
      case One(v, emptied) => if emptied then [] else [v]
      case Many(list) => list
    }

    /** A pop that reads own writes: sets the empty bit or drops the first list entry. */
    function Drop(): (p: Pending<T>)
      ensures p.Values() == if Values() == [] then [] else Values()[1..]
      ensures p.NoWrite? <==> NoWrite?
    {
      match this
      case One(v, false) => One(v, true)
      case Many(list) => if list == [] then this else Many(list[1..])
      case _ => this
    }
  }

  /**
    deleted and readOwn hold the slots whose item carries delete_bit and
    read_writes; headSeen and tailSeen are the observed version words of the
    items -2 and -1. log records the calls made so far.
   */
  datatype Txn<T> = Txn(deleted: set<nat>, readOwn: set<nat>, headSeen: Option<nat>, tailSeen: Option<nat>,
                        pending: Pending<T>, log: seq<Event<T>>)

  function Fresh<T>(): Txn<T> {
    Txn({}, {}, None, None, NoWrite, [])
  }

  function Observe(seen: Option<nat>, version: nat): Option<nat> {
    if seen.Some? then seen else Some(version)
  }

  /** The walk over delete-marked slots, stopping at the tail. */
  function Walk<T>(r: State<T>, deleted: set<nat>, i: nat): (j: nat)
    requires r.Valid() && i < |r.slots|
    ensures j < |r.slots|
    decreases if i <= r.tail then r.tail - i else r.tail + |r.slots| - i
  {
    if i == r.tail || i !in deleted then i else Walk(r, deleted, Next(i, |r.slots|))
  }

  function PushCall<T>(t: Txn<T>, v: T): Txn<T> {
    var p := match t.pending
             case NoWrite => One(v, false)
             case One(w, emptied) => Many(if emptied then [v] else [w, v])
             case Many(list) => Many(list + [v]);
    t.(pending := p, log := t.log + [Event(Push(v), Pushed)])
  }

  function PopCall<T>(r: State<T>, t: Txn<T>): (Txn<T>, bool)
    requires r.Valid()
  {
    var i := Walk(r, t.deleted, r.head);
    if i != r.tail then
      (t.(deleted := t.deleted + {i}, headSeen := Observe(t.headSeen, r.headVersion),
          log := t.log + [Event(Pop, Popped(true))]), true)
    else
      var ok := t.pending.Values() != [];
      (t.(tailSeen := Observe(t.tailSeen, r.tailVersion), pending := t.pending.Drop(),
          readOwn := if t.pending.Many? && ok then t.readOwn + {i} else t.readOwn,
          log := t.log + [Event(Pop, Popped(ok))]), ok)
  }

  function FrontCall<T>(r: State<T>, t: Txn<T>): (Txn<T>, Option<T>)
    requires r.Valid()
  {
    var i := Walk(r, t.deleted, r.head);
    if i != r.tail then
      (t.(headSeen := Observe(t.headSeen, r.headVersion), log := t.log + [Event(Front, Seen(Some(r.slots[i])))]),
       Some(r.slots[i]))
    else
      var a := if t.pending.Values() == [] then None else Some(t.pending.Values()[0]);
      (t.(tailSeen := Observe(t.tailSeen, r.tailVersion), log := t.log + [Event(Front, Seen(a))]), a)
  }

  /** check: every observed version is still the current one. */
  predicate Checks<T>(r: State<T>, t: Txn<T>) {
    && (t.headSeen.Some? ==> t.headSeen.value == r.headVersion)
    && (t.tailSeen.Some? ==> t.tailSeen.value == r.tailVersion)
  }

  /** install: each deleted slot that is not a read of own writes moves head; pushes go to tail. */
  function Install<T>(r: State<T>, t: Txn<T>, tid: nat): State<T>
    requires r.Valid()
  {
    var n := |r.slots|;
    State(Stored(r.slots, r.tail, t.pending.Values()),
          Advance(r.head, |t.deleted - t.readOwn|, n),
          Advance(r.tail, |t.pending.Values()|, n),
          if t.deleted == {} then r.headVersion else tid,
          if t.pending.NoWrite? then r.tailVersion else tid)
  }

  predicate HasRoom<T>(r: State<T>, t: Txn<T>)
    requires r.Valid()
  {
    r.Length() + |t.pending.Values()| < |r.slots| + |t.deleted - t.readOwn|
  }

  // ---------------------------------------------------------------- interleaving

  datatype System<T> = System(ring: State<T>, txns: map<nat, Txn<T>>, lastTid: nat, committed: seq<Event<T>>)

  datatype Action<T> =
    | Begin(id: nat)
    | CallPush(id: nat, v: T)
    | CallPop(id: nat)
    | CallFront(id: nat)
    | Commit(id: nat)
    | Abort(id: nat)

  predicate Enabled<T>(s: System<T>, a: Action<T>)
    requires s.ring.Valid()
  {
    match a
    case Begin(id) => id !in s.txns
    case Commit(id) => id in s.txns && Checks(s.ring, s.txns[id]) && HasRoom(s.ring, s.txns[id])
    case _ => a.id in s.txns
  }

  /** One step; a step that is not enabled changes nothing. */
  function Perform<T>(s: System<T>, a: Action<T>): (s': System<T>)
    requires s.ring.Valid()
    ensures s'.ring.Valid()
  {
    if !Enabled(s, a) then s
    else
      match a
      case Begin(id) => s.(txns := s.txns[id := Fresh()])
      case CallPush(id, v) => s.(txns := s.txns[id := PushCall(s.txns[id], v)])
      case CallPop(id) => s.(txns := s.txns[id := PopCall(s.ring, s.txns[id]).0])
      case CallFront(id) => s.(txns := s.txns[id := FrontCall(s.ring, s.txns[id]).0])
      case Commit(id) =>
        var t := s.txns[id];
        System(Install(s.ring, t, s.lastTid + 1), s.txns - {id}, s.lastTid + 1, s.committed + t.log)
      case Abort(id) => s.(txns := s.txns - {id})
  }

  function Run<T>(s: System<T>, actions: seq<Action<T>>): (s': System<T>)
    requires s.ring.Valid()
    ensures s'.ring.Valid()
    decreases |actions|
  {
    if actions == [] then s else Perform(Run(s, actions[..|actions| - 1]), actions[|actions| - 1])
  }

  // ---------------------------------------------------------------- invariant

  /** Slots of the k oldest committed elements. */
  ghost function Oldest(head: nat, k: nat, n: nat): set<nat>
    requires head < n && k <= n
  {
    if k == 0 then {} else Oldest(head, k - 1, n) + {Slot(head, k - 1, n)}
  }

  ghost function AsOverlay<T>(t: Txn<T>): Overlay<T> {
    Overlay(|t.deleted|, t.pending.Values(), t.headSeen.Some?, t.tailSeen.Some?)
  }

  /** What holds of a transaction, over committed contents c, as long as it could still pass its checks. */
  ghost predicate Faithful<T>(r: State<T>, c: seq<T>, t: Txn<T>)
    requires r.Valid() && |c| == r.Length()
  {
    && |t.deleted| <= |c|
    && t.deleted == Oldest(r.head, |t.deleted|, |r.slots|)
    && (t.deleted != {} ==> t.headSeen.Some?)
    && (t.tailSeen.Some? ==> |t.deleted| == |c|)
    && (t.tailSeen.None? ==> t.readOwn == {})
    && t.readOwn <= {r.tail}
    && Steps(c, t.log) == AsOverlay(t)
    && StepsAgree(c, t.log)
  }

  ghost predicate TxnInv<T>(r: State<T>, c: seq<T>, t: Txn<T>)
    requires r.Valid() && |c| == r.Length()
  {
    && (t.headSeen.Some? ==> t.headSeen.value <= r.headVersion)
    && (t.tailSeen.Some? ==> t.tailSeen.value <= r.tailVersion)
    && (Checks(r, t) ==> Faithful(r, c, t))
  }

  ghost predicate TxnsInv<T>(r: State<T>, c: seq<T>, txns: map<nat, Txn<T>>)
    requires r.Valid() && |c| == r.Length()
  {
    forall id :: id in txns ==> TxnInv(r, c, txns[id])
  }

  ghost predicate Inv<T>(s: System<T>, start: seq<T>)
    requires s.ring.Valid()
  {
    && s.ring.headVersion <= s.lastTid && s.ring.tailVersion <= s.lastTid
    && TxnsInv(s.ring, s.ring.Contents(), s.txns)
    && Agrees(start, s.committed)
    && s.ring.Contents() == AfterAll(start, s.committed)
  }

  // ---------------------------------------------------------------- single calls

  lemma {:induction false} OldestMembers(head: nat, k: nat, n: nat)
    requires head < n && k <= n
    ensures |Oldest(head, k, n)| == k
    ensures forall x :: 0 <= x < k ==> Slot(head, x, n) in Oldest(head, k, n)
    ensures forall x :: k <= x < n ==> Slot(head, x, n) !in Oldest(head, k, n)
    decreases k
  {
    if k > 0 {
      OldestMembers(head, k - 1, n);
    }
  }

  /** Over the k oldest slots the walk ends at the next element, or at the tail if there is none. */
  lemma {:induction false} WalkFrom<T>(r: State<T>, k: nat, x: nat)
    requires r.Valid() && x <= k <= r.Length()
    ensures Walk(r, Oldest(r.head, k, |r.slots|), Slot(r.head, x, |r.slots|)) == Slot(r.head, k, |r.slots|)
    ensures Slot(r.head, k, |r.slots|) == r.tail <==> k == r.Length()
    decreases k - x
  {
    OldestMembers(r.head, k, |r.slots|);
    if x < k {
      WalkFrom(r, k, x + 1);
    }
  }

  lemma LogGrows<T>(c: seq<T>, log: seq<Event<T>>, e: Event<T>)
    ensures Steps(c, log + [e]) == Step(c, Steps(c, log), e.op)
    ensures StepsAgree(c, log + [e]) <==> StepsAgree(c, log) && e.answer == StepReply(c, Steps(c, log), e.op)
  {
    assert (log + [e])[..|log|] == log;
  }

  lemma PushKeeps<T>(r: State<T>, c: seq<T>, t: Txn<T>, v: T)
    requires r.Valid() && |c| == r.Length() && TxnInv(r, c, t)
    ensures TxnInv(r, c, PushCall(t, v))
  {
    LogGrows(c, t.log, Event(Push(v), Pushed));
  }

  lemma PopKeeps<T>(r: State<T>, c: seq<T>, t: Txn<T>)
    requires r.Valid() && |c| == r.Length() && TxnInv(r, c, t)
    ensures TxnInv(r, c, PopCall(r, t).0)
  {
    if Checks(r, t) {
      var k := |t.deleted|;
      WalkFrom(r, k, 0);
      LogGrows(c, t.log, Event(Pop, Popped(k < |c| || t.pending.Values() != [])));
      if k < |c| {
        OldestMembers(r.head, k + 1, |r.slots|);
      }
    }
  }

  lemma FrontKeeps<T>(r: State<T>, c: seq<T>, t: Txn<T>)
    requires r.Valid() && c == r.Contents() && TxnInv(r, c, t)
    ensures TxnInv(r, c, FrontCall(r, t).0)
  {
    if Checks(r, t) {
      WalkFrom(r, |t.deleted|, 0);
      LogGrows(c, t.log, Event(Front, Seen(FrontCall(r, t).1)));
    }
  }

  /**
    What the caller is told: over a ring that still passes its checks, front
    returns the first value of a plain queue that saw all calls so far, and pop
    says whether there was one.
   */
  lemma AnswersAreFifo<T>(r: State<T>, t: Txn<T>)
    requires r.Valid() && TxnInv(r, r.Contents(), t) && Checks(r, t)
    ensures var q := AfterAll(r.Contents(), t.log);
            FrontCall(r, t).1 == (if q == [] then None else Some(q[0])) && PopCall(r, t).1 == (q != [])
  {
    OverlayIsFifo(r.Contents(), t.log);
    WalkFrom(r, |t.deleted|, 0);
  }

  /** A call logs exactly itself and what it told its caller. */
  lemma CallsAreLogged<T>(r: State<T>, t: Txn<T>, v: T)
    requires r.Valid()
    ensures PushCall(t, v).log == t.log + [Event(Push(v), Pushed)]
    ensures PopCall(r, t).0.log == t.log + [Event(Pop, Popped(PopCall(r, t).1))]
    ensures FrontCall(r, t).0.log == t.log + [Event(Front, Seen(FrontCall(r, t).1))]
  {
  }

  // ---------------------------------------------------------------- commits

  lemma OwnReadsAreNotDeletes<T>(r: State<T>, c: seq<T>, t: Txn<T>)
    requires r.Valid() && |c| == r.Length() && Faithful(r, c, t)
    ensures t.deleted - t.readOwn == t.deleted
  {
    OldestMembers(r.head, |t.deleted|, |r.slots|);
    assert r.tail == Slot(r.head, |c|, |r.slots|);
  }

  /** A passing commit turns the committed contents into what a plain queue would hold. */
  lemma CommitInstalls<T>(r: State<T>, t: Txn<T>, tid: nat)
    requires r.Valid() && Faithful(r, r.Contents(), t) && HasRoom(r, t)
    ensures Agrees(r.Contents(), t.log)
    ensures Install(r, t, tid).Contents() == AfterAll(r.Contents(), t.log)
    ensures Install(r, t, tid).Contents() == r.Contents()[|t.deleted|..] + t.pending.Values()
  {
    OverlayIsFifo(r.Contents(), t.log);
    OwnReadsAreNotDeletes(r, r.Contents(), t);
    ContentsAfter(r, |t.deleted|, t.pending.Values(), Install(r, t, tid));
  }

  /** Another transaction's commit, which turned c into c', leaves a transaction consistent or doomed. */
  lemma CommitKeepsOther<T>(r: State<T>, c: seq<T>, t: Txn<T>, tid: nat, c': seq<T>, u: Txn<T>)
    requires r.Valid() && |c| == r.Length() && Faithful(r, c, t) && HasRoom(r, t)
    requires r.headVersion < tid && r.tailVersion < tid
    requires c' == c[|t.deleted|..] + t.pending.Values() && |c'| == Install(r, t, tid).Length()
    requires TxnInv(r, c, u)
    ensures TxnInv(Install(r, t, tid), c', u)
  {
    var r' := Install(r, t, tid);
    if Checks(r', u) {
      assert Checks(r, u);
      if t.deleted != {} {
        assert u.headSeen.None? && u.deleted == {};
        assert u.tailSeen.Some? ==> c == [];
        OverlayOfPushes(c, c', u.log);
      } else {
        assert r'.head == r.head && c' == c + t.pending.Values();
        if t.pending.NoWrite? {
          assert r' == r && c' == c;
        } else {
          assert u.tailSeen.None?;
          OverlaySurvivesPushes(c, t.pending.Values(), u.log);
        }
      }
    }
  }

  lemma CommitKeeps<T>(s: System<T>, id: nat, start: seq<T>)
    requires s.ring.Valid() && Inv(s, start) && Enabled(s, Commit(id))
    ensures Inv(Perform(s, Commit(id)), start)
  {
    var s', t, tid := Perform(s, Commit(id)), s.txns[id], s.lastTid + 1;
    CommitInstalls(s.ring, t, tid);
    RunsConcatenate(start, s.committed, t.log);
    forall other | other in s'.txns
      ensures TxnInv(s'.ring, s'.ring.Contents(), s'.txns[other])
    {
      CommitKeepsOther(s.ring, s.ring.Contents(), t, tid, s'.ring.Contents(), s.txns[other]);
    }
  }

  lemma PerformKeeps<T>(s: System<T>, a: Action<T>, start: seq<T>)
    requires s.ring.Valid() && Inv(s, start)
    ensures Inv(Perform(s, a), start)
  {
    if Enabled(s, a) {
      var r, c := s.ring, s.ring.Contents();
      match a
      case Begin(id) => assert TxnInv(r, c, Fresh());
      case CallPush(id, v) => PushKeeps(r, c, s.txns[id], v);
      case CallPop(id) => PopKeeps(r, c, s.txns[id]);
      case CallFront(id) => FrontKeeps(r, c, s.txns[id]);
      case Commit(id) => CommitKeeps(s, id, start);
      case Abort(id) =>
    }
  }

  lemma {:induction false} RunKeeps<T>(s: System<T>, actions: seq<Action<T>>, start: seq<T>)
    requires s.ring.Valid() && Inv(s, start)
    ensures Inv(Run(s, actions), start)
    decreases |actions|
  {
    if actions != [] {
      RunKeeps(s, actions[..|actions| - 1], start);
      PerformKeeps(Run(s, actions[..|actions| - 1]), actions[|actions| - 1], start);
    }
  }

  function Start<T>(r: State<T>): System<T> {
    System(r, map[], if r.headVersion < r.tailVersion then r.tailVersion else r.headVersion, [])
  }

  /**
    Serializability: whatever the interleaving, the answers of all committed
    transactions, laid end to end in commit order, are those of one plain queue
    that started with the initial contents, and the ring holds what that queue holds.
   */
  lemma Serializable<T>(r: State<T>, actions: seq<Action<T>>)
    requires r.Valid()
    ensures var s := Run(Start(r), actions);
            Agrees(r.Contents(), s.committed) && s.ring.Contents() == AfterAll(r.Contents(), s.committed)
  {
    RunKeeps(Start(r), actions, r.Contents());
  }

  // ---------------------------------------------------------------- one transaction alone

  function Call<T>(r: State<T>, t: Txn<T>, op: Op<T>): Txn<T>
    requires r.Valid()
  {
    match op
    case Push(v) => PushCall(t, v)
    case Pop => PopCall(r, t).0
    case Front => FrontCall(r, t).0
  }

  function Calls<T>(r: State<T>, ops: seq<Op<T>>): Txn<T>
    requires r.Valid()
    decreases |ops|
  {
    if ops == [] then Fresh() else Call(r, Calls(r, ops[..|ops| - 1]), ops[|ops| - 1])
  }

  lemma CallKeeps<T>(r: State<T>, t: Txn<T>, op: Op<T>)
    requires r.Valid() && TxnInv(r, r.Contents(), t) && Checks(r, t)
    ensures TxnInv(r, r.Contents(), Call(r, t, op)) && Checks(r, Call(r, t, op))
  {
    match op
    case Push(v) => PushKeeps(r, r.Contents(), t, v);
    case Pop => PopKeeps(r, r.Contents(), t);
    case Front => FrontKeeps(r, r.Contents(), t);
  }

  lemma CallRecords<T>(r: State<T>, t: Txn<T>, op: Op<T>)
    requires r.Valid()
    ensures exists a :: Call(r, t, op).log == t.log + [Event(op, a)]
  {
    var log := Call(r, t, op).log;
    assert log == t.log + [Event(op, log[|t.log|].answer)];
  }

  lemma {:induction false} CallsStayFaithful<T>(r: State<T>, ops: seq<Op<T>>)
    requires r.Valid()
    ensures TxnInv(r, r.Contents(), Calls(r, ops)) && Checks(r, Calls(r, ops))
    ensures |Calls(r, ops).log| == |ops| && forall i :: 0 <= i < |ops| ==> Calls(r, ops).log[i].op == ops[i]
    decreases |ops|
  {
    if ops != [] {
      var t := Calls(r, ops[..|ops| - 1]);
      CallsStayFaithful(r, ops[..|ops| - 1]);
      CallKeeps(r, t, ops[|ops| - 1]);
      CallRecords(r, t, ops[|ops| - 1]);
    }
  }

  /**
    Read-your-own-operations: over an unchanged ring, any sequence of calls gets
    a plain queue's answers, passes its checks, and installs that queue's contents.
   */
  lemma OwnOperations<T>(r: State<T>, ops: seq<Op<T>>, tid: nat)
    requires r.Valid()
    ensures var t := Calls(r, ops);
            && |t.log| == |ops| && (forall i :: 0 <= i < |ops| ==> t.log[i].op == ops[i])
            && Checks(r, t) && Agrees(r.Contents(), t.log)
            && (HasRoom(r, t) ==> Install(r, t, tid).Contents() == AfterAll(r.Contents(), t.log))
  {
    CallsStayFaithful(r, ops);
    var t := Calls(r, ops);
    OverlayIsFifo(r.Contents(), t.log);
    if HasRoom(r, t) {
      CommitInstalls(r, t, tid);
    }
  }

  // ---------------------------------------------------------------- what was called, and that it takes effect

  /** Contents of a plain queue after the calls. */
  function AfterOps<T>(q: seq<T>, ops: seq<Op<T>>): seq<T> {
    if ops == [] then q else After(AfterOps(q, ops[..|ops| - 1]), ops[|ops| - 1])
  }

  function OpsOf<T>(log: seq<Event<T>>): seq<Op<T>> { seq(|log|, i requires 0 <= i < |log| => log[i].op) }

  lemma {:induction false} OnlyOpsMatter<T>(q: seq<T>, log: seq<Event<T>>)
    ensures AfterAll(q, log) == AfterOps(q, OpsOf(log))
    decreases |log|
  {
    if log != [] {
      OnlyOpsMatter(q, log[..|log| - 1]);
      assert OpsOf(log)[..|log| - 1] == OpsOf(log[..|log| - 1]);
    }
  }

  /** The calls id has made in the run since it last began. */
  function Issued<T>(s: System<T>, actions: seq<Action<T>>, id: nat): seq<Op<T>>
    requires s.ring.Valid()
    decreases |actions|
  {
    if actions == [] then []
    else
      var front, a := actions[..|actions| - 1], actions[|actions| - 1];
      var before := Issued(s, front, id);
      if a.id != id then before
      else if id !in Run(s, front).txns then []
      else
        match a
        case CallPush(_, v) => before + [Push(v)]
        case CallPop(_) => before + [Pop]
        case CallFront(_) => before + [Front]
        case _ => before
  }

  lemma OpsGrow<T>(log: seq<Event<T>>, e: Event<T>)
    ensures OpsOf(log + [e]) == OpsOf(log) + [e.op]
  {
  }

  /** In every run a transaction's log holds exactly the calls it has made. */
  lemma {:induction false} LogIsIssued<T>(r: State<T>, actions: seq<Action<T>>, id: nat)
    requires r.Valid()
    ensures var s := Run(Start(r), actions); id in s.txns ==> OpsOf(s.txns[id].log) == Issued(Start(r), actions, id)
    decreases |actions|
  {
    if actions != [] {
      var front, a := actions[..|actions| - 1], actions[|actions| - 1];
      LogIsIssued(r, front, id);
      var s := Run(Start(r), front);
      if a.id == id && id in s.txns {
        var t := s.txns[id];
        match a
        case CallPush(_, v) =>
          CallsAreLogged(s.ring, t, v);
          OpsGrow(t.log, Event(Push(v), Pushed));
        case CallPop(_) => OpsGrow(t.log, Event(Pop, Popped(PopCall(s.ring, t).1)));
        case CallFront(_) => OpsGrow(t.log, Event(Front, Seen(FrontCall(s.ring, t).1)));
        case _ =>
      }
    }
  }

  /**
    In every run, as long as a transaction would pass its checks, its next front
    and pop are told what a plain queue tells them that starts with the committed
    contents and sees the calls the transaction has made.
   */
  lemma AnswersInRuns<T>(r: State<T>, actions: seq<Action<T>>, id: nat)
    requires r.Valid() && id in Run(Start(r), actions).txns
    requires var s := Run(Start(r), actions); Checks(s.ring, s.txns[id])
    ensures var s := Run(Start(r), actions);
            var q := AfterOps(s.ring.Contents(), Issued(Start(r), actions, id));
            && FrontCall(s.ring, s.txns[id]).1 == (if q == [] then None else Some(q[0]))
            && PopCall(s.ring, s.txns[id]).1 == (q != [])
  {
    var s := Run(Start(r), actions);
    RunKeeps(Start(r), actions, r.Contents());
    LogIsIssued(r, actions, id);
    OnlyOpsMatter(s.ring.Contents(), s.txns[id].log);
    AnswersAreFifo(s.ring, s.txns[id]);
  }

  /** For a transaction that passes its checks the room test is about the contents it would leave. */
  lemma RoomExact<T>(r: State<T>, t: Txn<T>)
    requires r.Valid() && Faithful(r, r.Contents(), t)
    ensures HasRoom(r, t) <==> |AfterAll(r.Contents(), t.log)| < |r.slots|
  {
    OverlayIsFifo(r.Contents(), t.log);
    OwnReadsAreNotDeletes(r, r.Contents(), t);
  }

  function CallAction<T>(id: nat, op: Op<T>): Action<T> {
    match op
    case Push(v) => CallPush(id, v)
    case Pop => CallPop(id)
    case Front => CallFront(id)
  }

  function CallActions<T>(id: nat, ops: seq<Op<T>>): seq<Action<T>> {
    [Begin(id)] + seq(|ops|, i requires 0 <= i < |ops| => CallAction(id, ops[i]))
  }

  lemma RunGrows<T>(s: System<T>, actions: seq<Action<T>>, a: Action<T>)
    requires s.ring.Valid()
    ensures Run(s, actions + [a]) == Perform(Run(s, actions), a)
  {
    assert (actions + [a])[..|actions|] == actions;
  }

  lemma CallStep<T>(s: System<T>, id: nat, t: Txn<T>, op: Op<T>)
    requires s.ring.Valid()
    ensures Perform(s.(txns := s.txns[id := t]), CallAction(id, op)) == s.(txns := s.txns[id := Call(s.ring, t, op)])
  {
    var txns := s.txns[id := t];
    assert txns[id := Call(s.ring, t, op)] == s.txns[id := Call(s.ring, t, op)];
  }

  lemma CommitStep<T>(s: System<T>, id: nat, t: Txn<T>)
    requires s.ring.Valid() && id !in s.txns
    ensures var s', tid := Perform(s.(txns := s.txns[id := t]), Commit(id)), s.lastTid + 1;
            s' == if Checks(s.ring, t) && HasRoom(s.ring, t)
                  then System(Install(s.ring, t, tid), s.txns, tid, s.committed + t.log)
                  else s.(txns := s.txns[id := t])
  {
    assert s.txns[id := t] - {id} == s.txns;
  }

  lemma {:induction false} CallsAlone<T>(s: System<T>, id: nat, ops: seq<Op<T>>)
    requires s.ring.Valid() && id !in s.txns
    ensures Run(s, CallActions(id, ops)) == s.(txns := s.txns[id := Calls(s.ring, ops)])
    decreases |ops|
  {
    if ops == [] {
      RunGrows(s, [], Begin(id));
      assert CallActions(id, ops) == [] + [Begin(id)];
    } else {
      var front, op := ops[..|ops| - 1], ops[|ops| - 1];
      CallsAlone(s, id, front);
      assert CallActions(id, ops) == CallActions(id, front) + [CallAction(id, op)];
      RunGrows(s, CallActions(id, front), CallAction(id, op));
      CallStep(s, id, Calls(s.ring, front), op);
    }
  }

  /**
    In any state, whatever else is under way, a transaction that begins, makes
    its calls and commits with nobody in between leaves the contents of a plain
    queue after those calls; only if that many values do not fit does it leave
    the ring as it was.
   */
  lemma AloneCommits<T>(s: System<T>, id: nat, ops: seq<Op<T>>)
    requires s.ring.Valid() && id !in s.txns
    ensures var s', q := Run(s, CallActions(id, ops) + [Commit(id)]), AfterOps(s.ring.Contents(), ops);
            if |q| < |s.ring.slots| then
              && s'.ring.Contents() == q && s'.txns == s.txns
              && s'.committed == s.committed + Calls(s.ring, ops).log && OpsOf(Calls(s.ring, ops).log) == ops
            else s'.ring == s.ring && s'.committed == s.committed && id in s'.txns
  {
    var t := Calls(s.ring, ops);
    CallsAlone(s, id, ops);
    RunGrows(s, CallActions(id, ops), Commit(id));
    OwnOperations(s.ring, ops, s.lastTid + 1);
    CallsStayFaithful(s.ring, ops);
    assert OpsOf(t.log) == ops;
    OnlyOpsMatter(s.ring.Contents(), t.log);
    RoomExact(s.ring, t);
    CommitStep(s, id, t);
  }

  /** An abort leaves nothing of a transaction. */
  lemma AbortLeavesNothing<T>(s: System<T>, id: nat, ops: seq<Op<T>>)
    requires s.ring.Valid() && id !in s.txns
    ensures Run(s, CallActions(id, ops) + [Abort(id)]) == s
  {
    CallsAlone(s, id, ops);
    RunGrows(s, CallActions(id, ops), Abort(id));
    assert s.txns[id := Calls(s.ring, ops)] - {id} == s.txns;
  }
}
