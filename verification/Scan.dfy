/**
  The range scanner of the ordered index. A leaf check decides once per leaf
  whether its keys have to be compared with the boundary at all.
 */
module Scan {
  import opened Bytes

  type Key = seq<Byte>

  /** A row met by a scan: invalid rows (inserted but not committed) are passed over. */
  datatype Entry = Entry(key: Key, valid: bool)

  /** One leaf visit: the prefix its keys share, the entries met, and the largest slice in the leaf. */
  datatype Leaf = Leaf(prefix: Key, entries: seq<Entry>, last: nat)

  // ------------------------------------------------------------ slices

  function Zeros(n: nat): (s: Key)
    ensures |s| == n
  {
    seq(n, _ => 0)
  }

  lemma {:induction false} NothingBelowZeros(s: Key, n: nat)
    requires |s| == n
    ensures !Less(s, Zeros(n))
    decreases n
  {
    if n > 0 {
      NothingBelowZeros(s[1..], n - 1);
      assert Zeros(n)[1..] == Zeros(n - 1);
    }
  }

  /** The first n bytes, filled up with zeros. */
  function Pad(s: Key, n: nat): (r: Key)
    ensures |r| == n
  {
    if |s| >= n then s[..n] else s + Zeros(n - |s|)
  }

  /** Cutting off and filling up keeps the order, weakly. */
  lemma {:induction false} PadMonotone(a: Key, b: Key, n: nat)
    requires Less(Pad(a, n), Pad(b, n))
    ensures Less(a, b)
    decreases n
  {
    if b == [] {
      assert Pad(b, n) == Zeros(n);
      NothingBelowZeros(Pad(a, n), n);
    } else if a != [] && n > 0 {
      assert Pad(a, n)[0] == a[0] && Pad(b, n)[0] == b[0];
      assert Pad(a, n)[1..] == Pad(a[1..], n - 1) && Pad(b, n)[1..] == Pad(b[1..], n - 1);
      if a[0] == b[0] {
        PadMonotone(a[1..], b[1..], n - 1);
      }
    }
  }

  /** The next eight bytes as one comparable word. */
  function Slice(s: Key): nat { Value(Pad(s, 8)) }

  lemma SliceOrder(a: Key, b: Key)
    requires Slice(a) < Slice(b)
    ensures Less(a, b)
  {
    ValueOrder(Pad(a, 8), Pad(b, 8));
    PadMonotone(a, b, 8);
  }

  // ------------------------------------------------------------ the leaf check

  predicate IsPrefix(p: Key, k: Key) { |p| <= |k| && k[..|p|] == p }

  ghost predicate LeafOk(leaf: Leaf) {
    forall i :: 0 <= i < |leaf.entries| ==>
      IsPrefix(leaf.prefix, leaf.entries[i].key) && Slice(leaf.entries[i].key[|leaf.prefix|..]) <= leaf.last
  }

  /** An empty boundary bounds nothing. */
  predicate Inside(boundary: Key, reverse: bool, k: Key) {
    boundary == [] || if reverse then Less(boundary, k) else Less(k, boundary)
  }

  ghost predicate AllInside(boundary: Key, reverse: bool, leaf: Leaf) {
    forall i :: 0 <= i < |leaf.entries| ==> Inside(boundary, reverse, leaf.entries[i].key)
  }

  function Min(a: nat, b: nat): nat { if a <= b then a else b }

  /** The flag after the check of a leaf. */
  function Checked(boundary: Key, reverse: bool, flag: bool, leaf: Leaf): bool {
    var m := Min(|boundary|, |leaf.prefix|);
    var b, p := boundary[..m], leaf.prefix[..m];
    if reverse then flag || !Less(b, p)
    else if Less(b, p) || (b == p && |boundary| <= |leaf.prefix|) then true
    else if b == p then Slice(boundary[|leaf.prefix|..]) <= leaf.last
    else flag
  }

  lemma FrontDecides(a: Key, b: Key, m: nat)
    requires m <= |a| && m <= |b| && a[..m] != b[..m]
    ensures Less(a, b) <==> Less(a[..m], b[..m])
  {
    assert a == a[..m] + a[m..] && b == b[..m] + b[m..];
    LessFront(a[..m], a[m..], b[..m], b[m..]);
  }

  /** A false flag means that no key of the leaf can be outside. */
  lemma ShortcutSoundAt(boundary: Key, reverse: bool, flag: bool, leaf: Leaf, k: Key)
    requires !Checked(boundary, reverse, flag, leaf)
    requires IsPrefix(leaf.prefix, k) && Slice(k[|leaf.prefix|..]) <= leaf.last
    ensures Inside(boundary, reverse, k)
  {
    var n := |leaf.prefix|;
    var m := Min(|boundary|, n);
    assert leaf.prefix[..m] == k[..m];
    if boundary[..m] != k[..m] {
      FrontDecides(boundary, k, m);
      FrontDecides(k, boundary, m);
      LessTotal(boundary[..m], k[..m]);
    } else {
      LessIrreflexive(k[..m]);
      SliceOrder(k[n..], boundary[n..]);
      assert k == k[..n] + k[n..] && boundary == k[..n] + boundary[n..];
      LessCancel(k[..n], k[n..], boundary[n..]);
    }
  }

  lemma ShortcutSound(boundary: Key, reverse: bool, flag: bool, leaf: Leaf)
    requires LeafOk(leaf) && !Checked(boundary, reverse, flag, leaf)
    ensures AllInside(boundary, reverse, leaf)
  {
    forall i | 0 <= i < |leaf.entries|
      ensures Inside(boundary, reverse, leaf.entries[i].key)
    {
      ShortcutSoundAt(boundary, reverse, flag, leaf, leaf.entries[i].key);
    }
  }

  // ------------------------------------------------------------ the scan without the shortcut

  datatype Progress = Progress(found: seq<Key>, more: bool)

  /** Every entry is compared with the boundary; limit -1 means no limit. */
  function Plain(entries: seq<Entry>, boundary: Key, reverse: bool, limit: int, found: seq<Key>): Progress {
    if entries == [] then Progress(found, true)
    else if !Inside(boundary, reverse, entries[0].key) then Progress(found, false)
    else
      var next := if entries[0].valid then found + [entries[0].key] else found;
      if 0 < limit <= |next| then Progress(next, false)
      else Plain(entries[1..], boundary, reverse, limit, next)
  }

  lemma {:induction false} PlainThen(a: seq<Entry>, b: seq<Entry>, boundary: Key, reverse: bool, limit: int,
                                     found: seq<Key>)
    ensures var first := Plain(a, boundary, reverse, limit, found);
            Plain(a + b, boundary, reverse, limit, found)
            == if first.more then Plain(b, boundary, reverse, limit, first.found) else first
    decreases |a|
  {
    if a == [] {
      assert a + b == b;
    } else {
      assert (a + b)[1..] == a[1..] + b;
      var next := if a[0].valid then found + [a[0].key] else found;
      PlainThen(a[1..], b, boundary, reverse, limit, next);
    }
  }

  function Entries(leaves: seq<Leaf>): seq<Entry> {
    if leaves == [] then [] else Entries(leaves[..|leaves| - 1]) + leaves[|leaves| - 1].entries
  }

  lemma {:induction false} PlainStops(leaves: seq<Leaf>, k: nat, boundary: Key, reverse: bool, limit: int)
    requires k <= |leaves| && !Plain(Entries(leaves[..k]), boundary, reverse, limit, []).more
    ensures Plain(Entries(leaves), boundary, reverse, limit, []) ==
            Plain(Entries(leaves[..k]), boundary, reverse, limit, [])
    decreases |leaves|
  {
    if k == |leaves| {
      assert leaves[..k] == leaves;
    } else {
      var front := leaves[..|leaves| - 1];
      assert front[..k] == leaves[..k];
      PlainStops(front, k, boundary, reverse, limit);
      PlainThen(Entries(front), leaves[|leaves| - 1].entries, boundary, reverse, limit, []);
    }
  }

  // ------------------------------------------------------------ what a scan finds

  /** In scan order an entry outside the boundary is followed only by such entries. */
  ghost predicate Ordered(entries: seq<Entry>, reverse: bool) {
    forall i, j :: 0 <= i < j < |entries| ==>
      if reverse then Less(entries[j].key, entries[i].key) else Less(entries[i].key, entries[j].key)
  }

  /** The valid keys inside the boundary, in scan order. */
  function KeysInside(entries: seq<Entry>, boundary: Key, reverse: bool): seq<Key> {
    if entries == [] then []
    else
      (if entries[0].valid && Inside(boundary, reverse, entries[0].key) then [entries[0].key] else [])
      + KeysInside(entries[1..], boundary, reverse)
  }

  lemma OutsideStays(entries: seq<Entry>, boundary: Key, reverse: bool, i: nat, j: nat)
    requires Ordered(entries, reverse) && i < j < |entries| && !Inside(boundary, reverse, entries[i].key)
    ensures !Inside(boundary, reverse, entries[j].key)
  {
    var a, b := entries[i].key, entries[j].key;
    if Inside(boundary, reverse, b) {
      if reverse {
        LessTransitive(boundary, b, a);
      } else {
        LessTransitive(a, b, boundary);
      }
    }
  }

  lemma {:induction false} NothingInside(entries: seq<Entry>, boundary: Key, reverse: bool)
    requires forall i :: 0 <= i < |entries| ==> !Inside(boundary, reverse, entries[i].key)
    ensures KeysInside(entries, boundary, reverse) == []
    decreases |entries|
  {
    if entries != [] {
      NothingInside(entries[1..], boundary, reverse);
    }
  }

  function Limited(keys: seq<Key>, limit: int): seq<Key> {
    if 0 < limit < |keys| then keys[..limit] else keys
  }

  /** The plain scan finds the wanted keys, in order, up to the limit. */
  lemma {:induction false} PlainFinds(entries: seq<Entry>, boundary: Key, reverse: bool, limit: int, found: seq<Key>)
    requires Ordered(entries, reverse) && (0 < limit ==> |found| < limit)
    ensures Plain(entries, boundary, reverse, limit, found).found
            == Limited(found + KeysInside(entries, boundary, reverse), limit)
    decreases |entries|
  {
    if entries == [] {
      assert found + [] == found;
    } else if !Inside(boundary, reverse, entries[0].key) {
      forall i | 0 <= i < |entries|
        ensures !Inside(boundary, reverse, entries[i].key)
      {
        if i > 0 {
          OutsideStays(entries, boundary, reverse, 0, i);
        }
      }
      NothingInside(entries, boundary, reverse);
      assert found + [] == found;
    } else {
      var rest := KeysInside(entries[1..], boundary, reverse);
      var next := if entries[0].valid then found + [entries[0].key] else found;
      assert next + rest == found + KeysInside(entries, boundary, reverse);
      if !(0 < limit <= |next|) {
        PlainFinds(entries[1..], boundary, reverse, limit, next);
      }
    }
  }

  // ------------------------------------------------------------ the scanner

  class RangeScanner {
    const boundary: Key
    const reverse: bool
    const limit: int
    var flag: bool
    var found: seq<Key>

    constructor (boundary: Key, reverse: bool, limit: int)
      requires limit == -1 || 0 < limit
      ensures this.boundary == boundary && this.reverse == reverse && this.limit == limit && !flag && found == []
    {
      this.boundary, this.reverse, this.limit := boundary, reverse, limit;
      flag, found := false, [];
    }

    method Check(leaf: Leaf)
      modifies this`flag
      ensures flag == Checked(boundary, reverse, old(flag), leaf)
    {
      var m := if |boundary| < |leaf.prefix| then |boundary| else |leaf.prefix|;
      var b, p := boundary[..m], leaf.prefix[..m];
      if !reverse {
        if Less(b, p) || (b == p && |boundary| <= |leaf.prefix|) {
          flag := true;
        } else if b == p {
          flag := Slice(boundary[|leaf.prefix|..]) <= leaf.last;
        }
      } else if AtMost(p, b) {
        flag := true;
      }
    }

    /** The row is readable; the answer says whether the scan goes on. */
    method VisitValue(e: Entry) returns (more: bool)
      requires !flag ==> Inside(boundary, reverse, e.key)
      requires boundary == [] ==> !flag
      modifies this`found
      ensures Progress(found, more) == Plain([e], boundary, reverse, limit, old(found))
    {
      if flag && ((reverse && AtMost(e.key, boundary)) || (!reverse && AtMost(boundary, e.key))) {
        return false;
      }
      if e.valid {
        found := found + [e.key];
      }
      if limit > 0 && |found| >= limit {
        return false;
      }
      more := true;
      assert [e][1..] == [];
    }

    method VisitLeaf(leaf: Leaf) returns (more: bool)
      requires LeafOk(leaf) && (boundary == [] ==> !flag)
      modifies this
      ensures Progress(found, more) == Plain(leaf.entries, boundary, reverse, limit, old(found))
      ensures boundary == [] ==> !flag
    {
      if boundary != [] {
        Check(leaf);
        if !flag {
          ShortcutSound(boundary, reverse, old(flag), leaf);
        }
      }
      more := true;
      var i := 0;
      while more && i < |leaf.entries|
        invariant i <= |leaf.entries| && (!flag ==> AllInside(boundary, reverse, leaf)) && (boundary == [] ==> !flag)
        invariant Progress(found, more) == Plain(leaf.entries[..i], boundary, reverse, limit, old(found))
      {
        PlainThen(leaf.entries[..i], [leaf.entries[i]], boundary, reverse, limit, old(found));
        assert leaf.entries[..i + 1] == leaf.entries[..i] + [leaf.entries[i]];
        more := VisitValue(leaf.entries[i]);
        i := i + 1;
      }
      PlainThen(leaf.entries[..i], leaf.entries[i..], boundary, reverse, limit, old(found));
      assert leaf.entries == leaf.entries[..i] + leaf.entries[i..];
    }

    /** A whole scan finds exactly the valid keys inside the boundary, in scan order, up to the limit. */
    method Scan(leaves: seq<Leaf>)
      requires limit == -1 || 0 < limit
      requires forall i :: 0 <= i < |leaves| ==> LeafOk(leaves[i])
      requires Ordered(Entries(leaves), reverse) && found == [] && !flag
      modifies this
      ensures found == Limited(KeysInside(Entries(leaves), boundary, reverse), limit)
    {
      var more, i := true, 0;
      while more && i < |leaves|
        invariant i <= |leaves| && (boundary == [] ==> !flag)
        invariant Progress(found, more) == Plain(Entries(leaves[..i]), boundary, reverse, limit, [])
      {
        PlainThen(Entries(leaves[..i]), leaves[i].entries, boundary, reverse, limit, []);
        assert leaves[..i + 1][..i] == leaves[..i];
        more := VisitLeaf(leaves[i]);
        i := i + 1;
      }
      if more {
        assert leaves[..i] == leaves;
      } else {
        PlainStops(leaves, i, boundary, reverse, limit);
      }
      PlainFinds(Entries(leaves), boundary, reverse, limit, []);
      assert [] + KeysInside(Entries(leaves), boundary, reverse) == KeysInside(Entries(leaves), boundary, reverse);
    }
  }
}
