/** The 64-bit keys the scheduler hashes for TPC-C rows. Integer widths are explicit. */
module NicKeys {
  import opened Division

  const W32: nat := 0x1_0000_0000
  const W64: nat := 0x1_0000_0000_0000_0000

  function U32(x: nat): nat { x % W32 }
  function U64(x: nat): nat { x % W64 }

  /** A 32-bit shift and a bitwise or with a value below 2^32 is this sum. */
  function Joined(upper: nat, lower: nat): nat { U64(upper * W32 + lower) }

  function DistrictKey(w: nat, d: nat): nat { U32(d + U32(w * 10)) }
  function CustomerKey(w: nat, d: nat, c: nat): nat { Joined(U32(U32(w * 10) + d), c) }
  function OrderKey(w: nat, d: nat, o: nat): nat { Joined(U32(U32(w * 10) + d), o) }
  function OrderIndexKey(w: nat, d: nat, c: nat, o: nat): nat { Joined(U32(U32(U32(U32(w * 10) + d) * 3000) + c), o) }
  function OrderLineKey(w: nat, d: nat, o: nat, n: nat): nat {
    U64(U64(U64(U64(U32(U32(w * 10) + d) * 10000000) + o) * 15) + n)
  }
  function StockKey(w: nat, i: nat): nat { U32(U64(i + U64(w * 100000))) }

  predicate WarehouseOk(w: nat) { 1 <= w <= 64 }
  predicate DistrictOk(d: nat) { 1 <= d <= 10 }
  predicate CustomerOk(c: nat) { 1 <= c <= 3000 }
  predicate OrderIdOk(o: nat) { o < 10000000 }
  predicate LineOk(n: nat) { 1 <= n <= 15 }
  predicate ItemOk(i: nat) { 1 <= i <= 100000 }

  lemma Fit32(x: nat)
    requires x < W32
    ensures U32(x) == x
  {
  }

  lemma Fit64(x: nat)
    requires x < W64
    ensures U64(x) == x
  {
  }

  /** Over the declared ranges no intermediate result wraps. */
  lemma DistrictFits(w: nat, d: nat)
    requires WarehouseOk(w) && DistrictOk(d)
    ensures DistrictKey(w, d) == U32(U32(w * 10) + d) == 10 * w + d <= 650
  {
    Fit32(w * 10);
    Fit32(10 * w + d);
  }

  lemma CustomerFits(w: nat, d: nat, c: nat)
    requires WarehouseOk(w) && DistrictOk(d) && CustomerOk(c)
    ensures CustomerKey(w, d, c) == (10 * w + d) * W32 + c
  {
    DistrictFits(w, d);
    Fit64((10 * w + d) * W32 + c);
  }

  lemma OrderFits(w: nat, d: nat, o: nat)
    requires WarehouseOk(w) && DistrictOk(d) && OrderIdOk(o)
    ensures OrderKey(w, d, o) == (10 * w + d) * W32 + o
  {
    DistrictFits(w, d);
    Fit64((10 * w + d) * W32 + o);
  }

  lemma OrderIndexFits(w: nat, d: nat, c: nat, o: nat)
    requires WarehouseOk(w) && DistrictOk(d) && CustomerOk(c) && OrderIdOk(o)
    ensures OrderIndexKey(w, d, c, o) == ((10 * w + d) * 3000 + c) * W32 + o
  {
    DistrictFits(w, d);
    Fit32((10 * w + d) * 3000);
    Fit32((10 * w + d) * 3000 + c);
    Fit64(((10 * w + d) * 3000 + c) * W32 + o);
  }

  lemma OrderLineFits(w: nat, d: nat, o: nat, n: nat)
    requires WarehouseOk(w) && DistrictOk(d) && OrderIdOk(o) && LineOk(n)
    ensures OrderLineKey(w, d, o, n) == ((10 * w + d) * 10000000 + o) * 15 + n
  {
    DistrictFits(w, d);
    Fit64((10 * w + d) * 10000000);
    Fit64((10 * w + d) * 10000000 + o);
    Fit64(((10 * w + d) * 10000000 + o) * 15);
    Fit64(((10 * w + d) * 10000000 + o) * 15 + n);
  }

  lemma StockFits(w: nat, i: nat)
    requires WarehouseOk(w) && ItemOk(i)
    ensures StockKey(w, i) == 100000 * w + i
  {
    Fit64(w * 100000);
    Fit64(100000 * w + i);
    Fit32(100000 * w + i);
  }

  lemma DistrictKeysDiffer(w: nat, d: nat, v: nat, e: nat)
    requires WarehouseOk(w) && DistrictOk(d) && WarehouseOk(v) && DistrictOk(e)
    ensures DistrictKey(w, d) == DistrictKey(v, e) ==> w == v && d == e
  {
    if DistrictKey(w, d) == DistrictKey(v, e) {
      DistrictFits(w, d);
      DistrictFits(v, e);
      DigitsUnique(w, d - 1, v, e - 1, 10);
    }
  }

  lemma CustomerKeysDiffer(w: nat, d: nat, c: nat, v: nat, e: nat, b: nat)
    requires WarehouseOk(w) && DistrictOk(d) && CustomerOk(c) && WarehouseOk(v) && DistrictOk(e) && CustomerOk(b)
    ensures CustomerKey(w, d, c) == CustomerKey(v, e, b) ==> w == v && d == e && c == b
  {
    if CustomerKey(w, d, c) == CustomerKey(v, e, b) {
      CustomerFits(w, d, c);
      CustomerFits(v, e, b);
      DigitsUnique(10 * w + d, c, 10 * v + e, b, W32);
      DistrictFits(w, d);
      DistrictFits(v, e);
      DistrictKeysDiffer(w, d, v, e);
    }
  }

  lemma OrderKeysDiffer(w: nat, d: nat, o: nat, v: nat, e: nat, p: nat)
    requires WarehouseOk(w) && DistrictOk(d) && OrderIdOk(o) && WarehouseOk(v) && DistrictOk(e) && OrderIdOk(p)
    ensures OrderKey(w, d, o) == OrderKey(v, e, p) ==> w == v && d == e && o == p
  {
    if OrderKey(w, d, o) == OrderKey(v, e, p) {
      OrderFits(w, d, o);
      OrderFits(v, e, p);
      DigitsUnique(10 * w + d, o, 10 * v + e, p, W32);
      DistrictFits(w, d);
      DistrictFits(v, e);
      DistrictKeysDiffer(w, d, v, e);
    }
  }

  lemma OrderIndexKeysDiffer(w: nat, d: nat, c: nat, o: nat, v: nat, e: nat, b: nat, p: nat)
    requires WarehouseOk(w) && DistrictOk(d) && CustomerOk(c) && OrderIdOk(o)
    requires WarehouseOk(v) && DistrictOk(e) && CustomerOk(b) && OrderIdOk(p)
    ensures OrderIndexKey(w, d, c, o) == OrderIndexKey(v, e, b, p) ==> w == v && d == e && c == b && o == p
  {
    if OrderIndexKey(w, d, c, o) == OrderIndexKey(v, e, b, p) {
      OrderIndexFits(w, d, c, o);
      OrderIndexFits(v, e, b, p);
      DigitsUnique((10 * w + d) * 3000 + c, o, (10 * v + e) * 3000 + b, p, W32);
      DigitsUnique(10 * w + d, c - 1, 10 * v + e, b - 1, 3000);
      DistrictFits(w, d);
      DistrictFits(v, e);
      DistrictKeysDiffer(w, d, v, e);
    }
  }

  lemma OrderLineKeysDiffer(w: nat, d: nat, o: nat, n: nat, v: nat, e: nat, p: nat, m: nat)
    requires WarehouseOk(w) && DistrictOk(d) && OrderIdOk(o) && LineOk(n)
    requires WarehouseOk(v) && DistrictOk(e) && OrderIdOk(p) && LineOk(m)
    ensures OrderLineKey(w, d, o, n) == OrderLineKey(v, e, p, m) ==> w == v && d == e && o == p && n == m
  {
    if OrderLineKey(w, d, o, n) == OrderLineKey(v, e, p, m) {
      OrderLineFits(w, d, o, n);
      OrderLineFits(v, e, p, m);
      DigitsUnique((10 * w + d) * 10000000 + o, n - 1, (10 * v + e) * 10000000 + p, m - 1, 15);
      DigitsUnique(10 * w + d, o, 10 * v + e, p, 10000000);
      DistrictFits(w, d);
      DistrictFits(v, e);
      DistrictKeysDiffer(w, d, v, e);
    }
  }

  lemma StockKeysDiffer(w: nat, i: nat, v: nat, j: nat)
    requires WarehouseOk(w) && ItemOk(i) && WarehouseOk(v) && ItemOk(j)
    ensures StockKey(w, i) == StockKey(v, j) ==> w == v && i == j
  {
    if StockKey(w, i) == StockKey(v, j) {
      StockFits(w, i);
      StockFits(v, j);
      DigitsUnique(w, i - 1, v, j - 1, 100000);
    }
  }
}
