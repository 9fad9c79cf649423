/**
  The committed part of the queue: a ring of slots in which one slot always
  stays unused, so that head == tail means empty, and the two version words
  that guard its ends.
 */
module Ring {
  import opened Division

  /** The following index: (i + 1) % n without the division. */
  function Next(i: nat, n: nat): (r: nat)
    requires i < n
    ensures r == (i + 1) % n && r < n
  {
    if i + 1 == n then 0 else i + 1
  }

  /** The slot that lies x steps after slot h. */
  function Slot(h: nat, x: nat, n: nat): (s: nat)
    requires h < n && x <= n
    ensures s < n
  {
    if h + x < n then h + x else h + x - n
  }

  lemma SlotsDiffer(h: nat, x: nat, y: nat, n: nat)
    requires h < n && x < n && y < n && x != y
    ensures Slot(h, x, n) != Slot(h, y, n)
  {
  }

  datatype State<T> = State(slots: seq<T>, head: nat, tail: nat, headVersion: nat, tailVersion: nat) {
    predicate Valid() {
      head < |slots| && tail < |slots|
    }

    function Length(): nat
      requires Valid()
    {
      if head <= tail then tail - head else tail + |slots| - head
    }

    function Contents(): (c: seq<T>)
      requires Valid()
      ensures |c| == Length() < |slots|
    {
      seq(Length(), x requires 0 <= x < Length() => slots[Slot(head, x, |slots|)])
    }
  }

  /** Moves an index forward n times, as the commit does one element at a time. */
  function Advance(i: nat, k: nat, n: nat): (r: nat)
    requires i < n
    ensures r < n
    decreases k
  {
    if k == 0 then i else Next(Advance(i, k - 1, n), n)
  }

  lemma {:induction false} AdvanceIsSlot(i: nat, k: nat, n: nat)
    requires i < n && k <= n
    ensures Advance(i, k, n) == Slot(i, k, n)
    decreases k
  {
    if k > 0 {
      AdvanceIsSlot(i, k - 1, n);
    }
  }

  /** Slots after the values p were stored one by one from slot t on. */
  function Stored<T>(slots: seq<T>, t: nat, p: seq<T>): (r: seq<T>)
    requires t < |slots|
    ensures |r| == |slots|
    decreases |p|
  {
    if p == [] then slots
    else Stored(slots, t, p[..|p| - 1])[Advance(t, |p| - 1, |slots|) := p[|p| - 1]]
  }

  lemma {:induction false} StoredAt<T>(slots: seq<T>, t: nat, p: seq<T>)
    requires t < |slots| && |p| <= |slots|
    ensures forall x :: 0 <= x < |p| ==> Stored(slots, t, p)[Slot(t, x, |slots|)] == p[x]
    ensures forall x :: |p| <= x < |slots| ==> Stored(slots, t, p)[Slot(t, x, |slots|)] == slots[Slot(t, x, |slots|)]
    decreases |p|
  {
    if p != [] {
      var q := p[..|p| - 1];
      StoredAt(slots, t, q);
      AdvanceIsSlot(t, |q|, |slots|);
      forall x | 0 <= x < |slots| && x != |q|
        ensures Stored(slots, t, p)[Slot(t, x, |slots|)] == Stored(slots, t, q)[Slot(t, x, |slots|)]
      {
        SlotsDiffer(t, x, |q|, |slots|);
      }
    }
  }

  /** Seen from the tail, an element that is not dropped lies beyond the values stored there. */
  lemma SurvivorKept<T>(slots: seq<T>, head: nat, tail: nat, length: nat, k: nat, p: seq<T>, x: nat)
    requires head < |slots| && length < |slots| && tail == Slot(head, length, |slots|)
    requires k <= x < length && length - k + |p| < |slots|
    ensures Stored(slots, tail, p)[Slot(head, x, |slots|)] == slots[Slot(head, x, |slots|)]
  {
    var n := |slots|;
    var s := Slot(head, x, n);
    var y := if s >= tail then s - tail else s + n - tail;
    assert |p| <= y < n && s == Slot(tail, y, n);
    StoredAt(slots, tail, p);
  }

  lemma SlotsCompose(h: nat, x: nat, y: nat, n: nat)
    requires h < n && x <= n && y <= n
    ensures Slot(Slot(h, x, n), y, n) == if x + y <= n then Slot(h, x + y, n) else Slot(h, x + y - n, n)
  {
  }

  /** Position x of the ring after dropping k of length elements and storing p. */
  lemma ElementAfter<T>(slots: seq<T>, head: nat, tail: nat, length: nat, k: nat, p: seq<T>, x: nat)
    requires head < |slots| && length < |slots| && tail == Slot(head, length, |slots|)
    requires k <= length && x < length - k + |p| < |slots|
    ensures Stored(slots, tail, p)[Slot(Slot(head, k, |slots|), x, |slots|)]
            == if x < length - k then slots[Slot(head, k + x, |slots|)] else p[x - (length - k)]
  {
    SlotsCompose(head, k, x, |slots|);
    if x < length - k {
      SurvivorKept(slots, head, tail, length, k, p, k + x);
    } else {
      SlotsCompose(head, length, x - (length - k), |slots|);
      StoredAt(slots, tail, p);
    }
  }

  lemma LengthAfter<T>(r: State<T>, k: nat, m: nat, r': State<T>)
    requires r.Valid() && k <= r.Length() && r.Length() - k + m < |r.slots| == |r'.slots|
    requires r'.head == Slot(r.head, k, |r.slots|) && r'.tail == Slot(r.tail, m, |r.slots|)
    ensures r'.Length() == r.Length() - k + m && r.tail == Slot(r.head, r.Length(), |r.slots|)
  {
  }

  function Expected<T>(r: State<T>, k: nat, p: seq<T>, x: nat): T
    requires r.Valid() && k <= r.Length() && x < r.Length() - k + |p|
  {
    if x < r.Length() - k then r.slots[Slot(r.head, k + x, |r.slots|)] else p[x - (r.Length() - k)]
  }

  lemma ContentsByElement<T>(r: State<T>, k: nat, p: seq<T>, r': State<T>)
    requires r.Valid() && k <= r.Length() && r'.Valid() && |r'.slots| == |r.slots|
    requires r'.Length() == r.Length() - k + |p|
    requires forall x :: 0 <= x < r.Length() - k + |p| ==> r'.slots[Slot(r'.head, x, |r.slots|)] == Expected(r, k, p, x)
    ensures r'.Contents() == r.Contents()[k..] + p
  {
  }

  /** Dropping k elements at the head and storing p at the tail does exactly that to the contents. */
  lemma ContentsAfter<T>(r: State<T>, k: nat, p: seq<T>, r': State<T>)
    requires r.Valid() && k <= r.Length() && r.Length() - k + |p| < |r.slots|
    requires r'.slots == Stored(r.slots, r.tail, p)
    requires r'.head == Advance(r.head, k, |r.slots|) && r'.tail == Advance(r.tail, |p|, |r.slots|)
    ensures r'.Valid() && r'.Contents() == r.Contents()[k..] + p
  {
    AdvanceIsSlot(r.head, k, |r.slots|);
    AdvanceIsSlot(r.tail, |p|, |r.slots|);
    LengthAfter(r, k, |p|, r');
    forall x | 0 <= x < r.Length() - k + |p|
      ensures r'.slots[Slot(r'.head, x, |r.slots|)] == Expected(r, k, p, x)
    {
      ElementAfter(r.slots, r.head, r.tail, r.Length(), k, p, x);
    }
    ContentsByElement(r, k, p, r');
  }

  // ------------------------------------------------ the out-of-space assertion

  const WORD: nat := 0x1_0000_0000

  /** head - 1 in 32-bit unsigned arithmetic. */
  function Before(head: nat): (r: nat)
    requires head < WORD
    ensures r == (head + WORD - 1) % WORD
  {
    if head == 0 then WORD - 1 else head - 1
  }

  /** The test in the commit loop: tail == (head - 1) % n. */
  predicate FlaggedFull(head: nat, tail: nat, n: nat)
    requires 0 < n && head < WORD
  {
    tail == Before(head) % n
  }

  /** One more push would make the ring look empty. */
  predicate Full(head: nat, tail: nat, n: nat)
    requires tail < n
  {
    Next(tail, n) == head
  }

  /**
    The test is meant to flag exactly the full rings. For a given head it does
    so, whatever the tail, if and only if head is not slot 0 or the ring size
    divides 2^32: at slot 0 the subtraction wraps before the remainder is taken.
   */
  lemma FullTestExact(head: nat, n: nat)
    requires head < n <= WORD
    ensures (forall tail: nat :: tail < n ==> (FlaggedFull(head, tail, n) <==> Full(head, tail, n)))
            <==> (head != 0 || WORD % n == 0)
  {
    if head == 0 {
      LastResidue(WORD, n);
      assert Full(0, n - 1, n);
    }
  }

  lemma LastResidue(m: nat, n: nat)
    requires 0 < n <= m
    ensures (m - 1) % n == n - 1 <==> m % n == 0
  {
    var q, r := m / n, m % n;
    assert m == q * n + r;
    if r == 0 {
      assert m - 1 == (q - 1) * n + (n - 1);
      Residue(m - 1, q - 1, n - 1, n);
    } else {
      assert m - 1 == q * n + (r - 1);
      Residue(m - 1, q, r - 1, n);
    }
  }

  /** With the default ring of 1000000 slots a full ring whose head is slot 0 passes the test unflagged. */
  lemma FullTestMissesDefaultRing()
    ensures Next(999999, 1000000) == 0 && !FlaggedFull(0, 999999, 1000000) && FlaggedFull(0, 967295, 1000000)
  {
  }
}
