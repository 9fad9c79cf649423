/**
  Byte strings in key order, and integers stored as byte-swapped words so that
  bytes compare as the numbers do.
 */
module Bytes {
  type Byte = x: int | 0 <= x < 256

  /** Bytewise order, a proper prefix first: memcmp on the common length, then the lengths. */
  predicate Less(a: seq<Byte>, b: seq<Byte>)
    decreases |a|
  {
    b != [] && (a == [] || a[0] < b[0] || (a[0] == b[0] && Less(a[1..], b[1..])))
  }

  predicate AtMost(a: seq<Byte>, b: seq<Byte>) { !Less(b, a) }

  lemma {:induction false} LessIrreflexive(a: seq<Byte>)
    ensures !Less(a, a)
    decreases |a|
  {
    if a != [] {
      LessIrreflexive(a[1..]);
    }
  }

  lemma {:induction false} LessTransitive(a: seq<Byte>, b: seq<Byte>, c: seq<Byte>)
    requires Less(a, b) && Less(b, c)
    ensures Less(a, c)
    decreases |a|
  {
    if a != [] && a[0] == b[0] == c[0] {
      LessTransitive(a[1..], b[1..], c[1..]);
    }
  }

  lemma {:induction false} LessTotal(a: seq<Byte>, b: seq<Byte>)
    ensures Less(a, b) || Less(b, a) || a == b
    decreases |a|
  {
    if a != [] && b != [] && a[0] == b[0] {
      LessTotal(a[1..], b[1..]);
      assert a == [a[0]] + a[1..] && b == [b[0]] + b[1..];
    }
  }

  /** A shared front does not matter. */
  lemma {:induction false} LessCancel(p: seq<Byte>, a: seq<Byte>, b: seq<Byte>)
    ensures Less(p + a, p + b) <==> Less(a, b)
    decreases |p|
  {
    if p == [] {
      assert p + a == a && p + b == b;
    } else {
      LessCancel(p[1..], a, b);
      assert (p + a)[1..] == p[1..] + a && (p + b)[1..] == p[1..] + b;
    }
  }

  /** Different fronts of the same length decide. */
  lemma {:induction false} LessFront(p: seq<Byte>, a: seq<Byte>, q: seq<Byte>, b: seq<Byte>)
    requires |p| == |q| && p != q
    ensures Less(p + a, q + b) <==> Less(p, q)
    decreases |p|
  {
    if p[0] == q[0] {
      assert p == [p[0]] + p[1..] && q == [q[0]] + q[1..];
      LessFront(p[1..], a, q[1..], b);
      assert (p + a)[1..] == p[1..] + a && (q + b)[1..] == q[1..] + b;
    }
  }

  // ------------------------------------------------------------ big-endian numbers

  function Value(s: seq<Byte>): nat {
    if s == [] then 0 else 256 * Value(s[..|s| - 1]) + s[|s| - 1]
  }

  function Pow256(n: nat): nat { if n == 0 then 1 else 256 * Pow256(n - 1) }

  function Encode(x: nat, n: nat): (s: seq<Byte>)
    ensures |s| == n
  {
    if n == 0 then [] else Encode(x / 256, n - 1) + [x % 256]
  }

  lemma {:induction false} ValueBound(s: seq<Byte>)
    ensures Value(s) < Pow256(|s|)
    decreases |s|
  {
    if s != [] {
      ValueBound(s[..|s| - 1]);
    }
  }

  lemma {:induction false} DecodeEncode(x: nat, n: nat)
    requires x < Pow256(n)
    ensures Value(Encode(x, n)) == x
  {
    if n > 0 {
      DecodeEncode(x / 256, n - 1);
      assert Encode(x, n)[..n - 1] == Encode(x / 256, n - 1);
    }
  }

  lemma {:induction false} EncodeDecode(s: seq<Byte>)
    ensures Encode(Value(s), |s|) == s
    decreases |s|
  {
    if s != [] {
      EncodeDecode(s[..|s| - 1]);
      assert Value(s) / 256 == Value(s[..|s| - 1]);
    }
  }

  /** Strings of one length compare as the numbers they spell. */
  lemma {:induction false} ValueOrder(a: seq<Byte>, b: seq<Byte>)
    requires |a| == |b|
    ensures Less(a, b) <==> Value(a) < Value(b)
    decreases |a|
  {
    if a != [] {
      var n := |a| - 1;
      assert a == a[..n] + [a[n]] && b == b[..n] + [b[n]];
      ValueOrder(a[..n], b[..n]);
      ValueOrder(b[..n], a[..n]);
      if a[..n] == b[..n] {
        LessCancel(a[..n], [a[n]], [b[n]]);
      } else {
        LessFront(a[..n], [a[n]], b[..n], [b[n]]);
        LessTotal(a[..n], b[..n]);
      }
    }
  }

  lemma EncodeOrder(x: nat, y: nat, n: nat)
    requires x < Pow256(n) && y < Pow256(n)
    ensures Less(Encode(x, n), Encode(y, n)) <==> x < y
    ensures Encode(x, n) == Encode(y, n) <==> x == y
  {
    DecodeEncode(x, n);
    DecodeEncode(y, n);
    ValueOrder(Encode(x, n), Encode(y, n));
  }

  // ------------------------------------------------------------ byte swap

  function Reversed(s: seq<Byte>): (r: seq<Byte>)
    ensures |r| == |s|
  {
    if s == [] then [] else Reversed(s[1..]) + [s[0]]
  }

  lemma {:induction false} ReversedAt(s: seq<Byte>, i: nat)
    requires i < |s|
    ensures Reversed(s)[i] == s[|s| - 1 - i]
  {
    if i < |s| - 1 {
      ReversedAt(s[1..], i);
    }
  }

  lemma ReversedTwice(s: seq<Byte>)
    ensures Reversed(Reversed(s)) == s
  {
    forall i | 0 <= i < |s|
      ensures Reversed(Reversed(s))[i] == s[i]
    {
      ReversedAt(Reversed(s), i);
      ReversedAt(s, |s| - 1 - i);
    }
  }

  /** How a little-endian machine lays out an n-byte word. */
  function Stored(x: nat, n: nat): seq<Byte> { Reversed(Encode(x, n)) }

  function Bswap(x: nat, n: nat): nat { Value(Stored(x, n)) }

  /** A swapped word lies in memory in big-endian order. */
  lemma SwappedIsBigEndian(x: nat, n: nat)
    ensures Stored(Bswap(x, n), n) == Encode(x, n)
  {
    EncodeDecode(Stored(x, n));
    ReversedTwice(Encode(x, n));
  }

  lemma BswapTwice(x: nat, n: nat)
    requires x < Pow256(n)
    ensures Bswap(Bswap(x, n), n) == x
  {
    SwappedIsBigEndian(x, n);
    DecodeEncode(x, n);
  }

  // ------------------------------------------------------------ keys of several words

  /** A byte-swapped word in memory. */
  function Word(x: nat, n: nat): (r: seq<Byte>)
    ensures |r| == n
  {
    Stored(Bswap(x, n), n)
  }

  lemma WordOrder(x: nat, y: nat, n: nat)
    requires x < Pow256(n) && y < Pow256(n)
    ensures Less(Word(x, n), Word(y, n)) <==> x < y
    ensures Word(x, n) == Word(y, n) <==> x == y
  {
    SwappedIsBigEndian(x, n);
    SwappedIsBigEndian(y, n);
    EncodeOrder(x, y, n);
  }

  /** A key: words of the given widths, each byte-swapped, laid out one after the other. */
  function KeyBytes(fields: seq<nat>, widths: seq<nat>): seq<Byte>
    requires |fields| == |widths|
    decreases |fields|
  {
    if fields == [] then [] else Word(fields[0], widths[0]) + KeyBytes(fields[1..], widths[1..])
  }

  predicate Fits(fields: seq<nat>, widths: seq<nat>)
    decreases |fields|
  {
    && |fields| == |widths|
    && (fields == [] || (fields[0] < Pow256(widths[0]) && Fits(fields[1..], widths[1..])))
  }

  predicate TupleLess(a: seq<nat>, b: seq<nat>)
    requires |a| == |b|
    decreases |a|
  {
    a != [] && (a[0] < b[0] || (a[0] == b[0] && TupleLess(a[1..], b[1..])))
  }

  lemma PairOrder(p: seq<Byte>, s: seq<Byte>, q: seq<Byte>, t: seq<Byte>)
    requires |p| == |q|
    ensures Less(p + s, q + t) <==> Less(p, q) || (p == q && Less(s, t))
    ensures p + s == q + t <==> p == q && s == t
  {
    if p == q {
      LessCancel(p, s, t);
      LessIrreflexive(p);
      assert (p + s)[|p|..] == s && (q + t)[|p|..] == t;
    } else {
      LessFront(p, s, q, t);
      assert (p + s)[..|p|] == p && (q + t)[..|p|] == q;
    }
  }

  lemma FirstWord(x: nat, s: seq<Byte>, y: nat, t: seq<Byte>, n: nat)
    requires x < Pow256(n) && y < Pow256(n)
    ensures Less(Word(x, n) + s, Word(y, n) + t) <==> x < y || (x == y && Less(s, t))
    ensures Word(x, n) + s == Word(y, n) + t <==> x == y && s == t
  {
    WordOrder(x, y, n);
    PairOrder(Word(x, n), s, Word(y, n), t);
  }

  /** Byte order of keys is the order of their tuples, and keys are equal only when the tuples are. */
  lemma {:induction false} KeyOrder(a: seq<nat>, b: seq<nat>, widths: seq<nat>)
    requires Fits(a, widths) && Fits(b, widths)
    ensures Less(KeyBytes(a, widths), KeyBytes(b, widths)) <==> TupleLess(a, b)
    ensures KeyBytes(a, widths) == KeyBytes(b, widths) <==> a == b
    decreases |a|
  {
    if a != [] {
      KeyOrder(a[1..], b[1..], widths[1..]);
      FirstWord(a[0], KeyBytes(a[1..], widths[1..]), b[0], KeyBytes(b[1..], widths[1..]), widths[0]);
      assert a == [a[0]] + a[1..] && b == [b[0]] + b[1..];
    }
  }
}
