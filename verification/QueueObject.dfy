/**
  The queue as the object it is: an array of slots and four words changed in
  place, and the transaction's items changed by each call. Every method is
  proved equal to the corresponding step of TransQueue.
 */
module QueueObject {
  import opened Options
  import opened Fifo
  import opened Ring
  import opened TransQueue

  /** The items a transaction keeps for one queue. */
  class Items<T> {
    var deleted: set<nat>
    var readOwn: set<nat>
    var headSeen: Option<nat>
    var tailSeen: Option<nat>
    var pending: Pending<T>
    ghost var log: seq<Event<T>>

    constructor ()
      ensures View() == Fresh()
    {
      deleted, readOwn, headSeen, tailSeen, pending, log := {}, {}, None, None, NoWrite, [];
    }

    ghost function View(): Txn<T>
      reads this
    {
      Txn(deleted, readOwn, headSeen, tailSeen, pending, log)
    }
  }

  class Queue<T(0)> {
    const slots: array<T>
    var head: nat
    var tail: nat
    var headVersion: nat
    var tailVersion: nat

    ghost predicate Valid()
      reads this, slots
    {
      head < slots.Length && tail < slots.Length
    }

    ghost function View(): State<T>
      reads this, slots
    {
      State(slots[..], head, tail, headVersion, tailVersion)
    }

    constructor (size: nat)
      requires 0 < size
      ensures Valid() && View().Contents() == [] && slots.Length == size && fresh(slots)
    {
      slots := new T[size];
      head, tail, headVersion, tailVersion := 0, 0, 0, 0;
    }

    // ------------------------------------------------ non-transactional calls

    method NontransPush(v: T)
      requires Valid() && View().Length() + 1 < slots.Length
      modifies this`tail, slots
      ensures Valid() && View().Contents() == old(View().Contents()) + [v]
    {
      ghost var r := View();
      slots[tail] := v;
      tail := Next(tail, slots.Length);
      assert Stored(r.slots, r.tail, [v][..0]) == r.slots && Advance(r.tail, 0, |r.slots|) == r.tail;
      assert Advance(r.tail, 1, |r.slots|) == Next(r.tail, |r.slots|) == tail;
      assert Advance(r.head, 0, |r.slots|) == r.head;
      ContentsAfter(r, 0, [v], View());
    }

    method NontransPop() returns (v: T)
      requires Valid() && head != tail
      modifies this`head
      ensures Valid() && old(View().Contents()) == [v] + View().Contents()
    {
      ghost var r := View();
      v := slots[head];
      head := Next(head, slots.Length);
      assert Advance(r.head, 0, |r.slots|) == r.head && Advance(r.tail, 0, |r.slots|) == r.tail;
      assert Advance(r.head, 1, |r.slots|) == Next(r.head, |r.slots|) == head;
      ContentsAfter(r, 1, [], View());
    }

    method NontransClear()
      requires Valid()
      modifies this`head
      ensures Valid() && View().Contents() == []
    {
      while head != tail
        invariant Valid()
        decreases View().Length()
      {
        var _ := NontransPop();
      }
    }

    // ------------------------------------------------ transactional calls

    /** The transaction would still pass its checks, and its items are those of its calls. */
    ghost predicate Current(t: Txn<T>)
      requires Valid()
      reads this, slots
    {
      TxnInv(View(), View().Contents(), t) && Checks(View(), t)
    }

    /** The contents of a plain queue after the transaction's calls. */
    ghost function Shows(t: Txn<T>): seq<T>
      requires Valid()
      reads this, slots
    {
      AfterAll(View().Contents(), t.log)
    }

    lemma Answers(t: Txn<T>)
      requires Valid()
      ensures Current(t) ==> PopCall(View(), t).1 == (Shows(t) != [])
      ensures Current(t) ==> FrontCall(View(), t).1 == if Shows(t) == [] then None else Some(Shows(t)[0])
    {
      if Current(t) {
        AnswersAreFifo(View(), t);
      }
    }

    method TransPush(t: Items<T>, v: T)
      modifies t
      ensures t.View() == PushCall(old(t.View()), v)
    {
      match t.pending {
        case NoWrite => t.pending := One(v, false);
        case One(w, emptied) =>
          var list := [];
          if !emptied {
            list := list + [w];
          }
          list := list + [v];
          assert list == if emptied then [v] else [w, v];
          t.pending := Many(list);
        case Many(list) => t.pending := Many(list + [v]);
      }
      t.log := t.log + [Event(Push(v), Pushed)];
    }

    /** The loop both calls start with: from head over delete-marked slots. */
    method SkipDeleted(t: Items<T>) returns (index: nat)
      requires Valid()
      ensures index == Walk(View(), t.deleted, head)
    {
      index := head;
      while index != tail && index in t.deleted
        invariant index < slots.Length
        invariant Walk(View(), t.deleted, index) == Walk(View(), t.deleted, head)
        decreases if index <= tail then tail - index else tail + slots.Length - index
      {
        index := Next(index, slots.Length);
      }
    }

    method TransPop(t: Items<T>) returns (ok: bool)
      requires Valid()
      modifies t
      ensures (t.View(), ok) == PopCall(View(), old(t.View()))
      ensures Current(old(t.View())) ==> ok == (Shows(old(t.View())) != [])
    {
      Answers(t.View());
      var index := SkipDeleted(t);
      if index == tail {
        if t.tailSeen.None? {
          t.tailSeen := Some(tailVersion);
        }
        match t.pending {
          case Many(list) =>
            ok := list != [];
            if ok {
              t.pending := Many(list[1..]);
              t.readOwn := t.readOwn + {index};
            }
          case One(v, emptied) =>
            ok := !emptied;
            if ok {
              t.pending := One(v, true);
            }
          case NoWrite => ok := false;
        }
      } else {
        if t.headSeen.None? {
          t.headSeen := Some(headVersion);
        }
        t.deleted := t.deleted + {index};
        ok := true;
      }
      t.log := t.log + [Event(Pop, Popped(ok))];
    }

    method TransFront(t: Items<T>) returns (front: Option<T>)
      requires Valid()
      modifies t
      ensures (t.View(), front) == FrontCall(View(), old(t.View()))
      ensures Current(old(t.View())) ==>
                front == if Shows(old(t.View())) == [] then None else Some(Shows(old(t.View()))[0])
    {
      Answers(t.View());
      var index := SkipDeleted(t);
      if index == tail {
        if t.tailSeen.None? {
          t.tailSeen := Some(tailVersion);
        }
        match t.pending {
          case Many(list) => front := if list != [] then Some(list[0]) else None;
          case One(v, emptied) => front := if !emptied then Some(v) else None;
          case NoWrite => front := None;
        }
      } else {
        if t.headSeen.None? {
          t.headSeen := Some(headVersion);
        }
        front := Some(slots[index]);
      }
      t.log := t.log + [Event(Front, Seen(front))];
    }

    // ------------------------------------------------ commit

    method InstallPops(t: Items<T>, tid: nat)
      requires Valid()
      modifies this`head, this`headVersion
      ensures Valid() && head == Advance(old(head), |t.deleted - t.readOwn|, slots.Length)
      ensures headVersion == if t.deleted == {} then old(headVersion) else tid
    {
      var todo, own, n := t.deleted, t.readOwn, slots.Length;
      ghost var moves, first := 0, head;
      while todo != {}
        invariant head < n
        invariant moves + |todo - own| == |t.deleted - own|
        invariant head == Advance(first, moves, n)
        invariant todo <= t.deleted && headVersion == if todo == t.deleted then old(headVersion) else tid
        decreases todo
      {
        var i :| i in todo;
        if i !in own {
          head, moves := Next(head, n), moves + 1;
          assert (todo - {i}) - own == (todo - own) - {i};
        } else {
          assert (todo - {i}) - own == todo - own;
        }
        headVersion := tid;
        todo := todo - {i};
      }
    }

    method InstallPushes(t: Items<T>, tid: nat)
      requires Valid()
      modifies this`tail, this`tailVersion, slots
      ensures Valid() && tail == Advance(old(tail), |t.pending.Values()|, slots.Length)
      ensures slots[..] == Stored(old(slots[..]), old(tail), t.pending.Values())
      ensures tailVersion == if t.pending.NoWrite? then old(tailVersion) else tid
    {
      ghost var before := slots[..];
      match t.pending {
        case NoWrite =>
        case One(v, emptied) =>
          if !emptied {
            slots[tail] := v;
            tail := Next(tail, slots.Length);
            assert [v][..0] == [] && Advance(old(tail), 0, |before|) == old(tail);
          }
          tailVersion := tid;
        case Many(list) =>
          var rest := list;
          ghost var done: seq<T> := [];
          while rest != []
            invariant done + rest == list
            invariant tail < slots.Length && tail == Advance(old(tail), |done|, slots.Length)
            invariant slots[..] == Stored(before, old(tail), done)
            decreases |rest|
          {
            slots[tail] := rest[0];
            assert (done + [rest[0]])[..|done|] == done;
            done := done + [rest[0]];
            rest := rest[1..];
            tail := Next(tail, slots.Length);
          }
          assert done == list;
          tailVersion := tid;
      }
    }

    /** lock, check and install in one go; tid is the commit's version. */
    method Commit(t: Items<T>, tid: nat) returns (ok: bool)
      requires Valid()
      modifies this, slots
      ensures Valid()
      ensures ok == Checks(old(View()), t.View())
      ensures View() == if ok then Install(old(View()), t.View(), tid) else old(View())
    {
      ok := (t.headSeen.Some? ==> t.headSeen.value == headVersion) &&
            (t.tailSeen.Some? ==> t.tailSeen.value == tailVersion);
      if ok {
        InstallPops(t, tid);
        InstallPushes(t, tid);
      }
    }
  }
}
