/**
  The table of merged feature weights: for each group of eight features, the
  summed weight of every subset of its first seven, filled in by one Gray-code
  walk that adds or subtracts a single weight per step.
 */
module Weights {
  type Mask = bv8

  function Gray(g: Mask): Mask { g ^ (g >> 1) }

  /** Prefix-xor, the inverse of Gray. */
  function Ungray(m: Mask): Mask {
    var a := m ^ (m >> 1);
    var b := a ^ (a >> 2);
    b ^ (b >> 4)
  }

  lemma GrayInverse(x: Mask)
    ensures Ungray(Gray(x)) == x && Gray(Ungray(x)) == x
    ensures x < 128 ==> Gray(x) < 128 && Ungray(x) < 128
  {
  }

  /** The codes 1..127 visit every mask 1..127 exactly once. */
  lemma EachMaskOnce(m: Mask)
    requires 0 < m < 128
    ensures 0 < Ungray(m) < 128 && Gray(Ungray(m)) == m
    ensures forall g: Mask :: 0 < g < 128 && Gray(g) == m ==> g == Ungray(m)
  {
    GrayInverse(m);
    forall g: Mask | Gray(g) == m
      ensures g == Ungray(m)
    {
      GrayInverse(g);
    }
  }

  function Unit(b: nat): Mask
    requires b < 8
  {
    match b
    case 0 => 1
    case 1 => 2
    case 2 => 4
    case 3 => 8
    case 4 => 16
    case 5 => 32
    case 6 => 64
    case _ => 128
  }

  /** The switch on the changed bit. */
  function UnitIndex(d: Mask): (b: nat)
    ensures b < 8
  {
    match d
    case 1 => 0
    case 2 => 1
    case 4 => 2
    case 8 => 3
    case 16 => 4
    case 32 => 5
    case 64 => 6
    case 128 => 7
    case _ => 0
  }

  predicate Has(m: Mask, b: nat)
    requires b < 8
  {
    m & Unit(b) != 0
  }

  /** Consecutive Gray codes differ in exactly one of the low seven bits. */
  lemma GraySteps(g: Mask)
    requires 0 < g < 128
    ensures var d := Gray(g) ^ Gray(g - 1);
            UnitIndex(d) < 7 && d == Unit(UnitIndex(d))
  {
  }

  /** Summed weight of the first k features of the group that m selects. */
  function SumOf(w: seq<nat>, m: Mask, k: nat): nat
    requires |w| == 8 && k <= 8
  {
    if k == 0 then 0 else SumOf(w, m, k - 1) + if Has(m, k - 1) then w[k - 1] else 0
  }

  function DirectSum(w: seq<nat>, m: Mask): nat
    requires |w| == 8
  {
    SumOf(w, m, 8)
  }

  lemma FlipOther(m: Mask, b: nat, c: nat)
    requires b < 8 && c < 8
    ensures Has(m ^ Unit(b), c) == if b == c then !Has(m, c) else Has(m, c)
  {
    UnitsDisjoint(m, Unit(b), Unit(c));
  }

  lemma UnitsDisjoint(m: Mask, u: Mask, v: Mask)
    ensures u & v == 0 ==> (m ^ u) & v == m & v
    ensures u & (u - 1) == 0 ==> (m ^ u) & u == u & !m && (m & u == 0 || m & u == u)
  {
  }

  lemma FlipOrder(m: Mask, b: nat)
    requires b < 8
    ensures m ^ Unit(b) > m <==> !Has(m, b)
  {
  }

  lemma {:induction false} FlipChangesSum(w: seq<nat>, m: Mask, b: nat, k: nat)
    requires |w| == 8 && b < 8 && k <= 8
    ensures SumOf(w, m ^ Unit(b), k) ==
            if k <= b then SumOf(w, m, k) else if Has(m, b) then SumOf(w, m, k) - w[b] else SumOf(w, m, k) + w[b]
    decreases k
  {
    if k > 0 {
      FlipChangesSum(w, m, b, k - 1);
      FlipOther(m, b, k - 1);
    }
  }

  lemma {:induction false} EmptyMask(w: seq<nat>, k: nat)
    requires |w| == 8 && k <= 8
    ensures SumOf(w, 0, k) == 0
    decreases k
  {
    if k > 0 {
      EmptyMask(w, k - 1);
    }
  }

  const GROUPS: nat := 64

  type Weights8 = w: seq<nat> | |w| == 8 && forall b :: 0 <= b < 8 ==> w[b] < 256
    witness [0, 0, 0, 0, 0, 0, 0, 0]

  /** One row of the table: an entry for every 8-bit mask. */
  type Row = r: seq<nat> | |r| == 256
    witness seq(256, _ => 0)

  function At(row: Row, m: Mask): nat {
    row[m as nat]
  }

  function Put(row: Row, m: Mask, v: nat): Row {
    row[m as nat := v]
  }

  lemma Wrap8(x: nat, d: nat)
    requires d < 256
    ensures (x % 256 + d) % 256 == (x + d) % 256
    ensures d <= x ==> (x % 256 + 256 - d) % 256 == (x - d) % 256
  {
  }

  lemma FlipSum(w: Weights8, prior: Mask, now: Mask, b: nat)
    requires b < 8 && now == prior ^ Unit(b)
    ensures now > prior ==> DirectSum(w, now) == DirectSum(w, prior) + w[b]
    ensures now <= prior ==> DirectSum(w, now) == DirectSum(w, prior) - w[b]
  {
    FlipOrder(prior, b);
    FlipChangesSum(w, prior, b, 8);
  }

  /** The step of the walk: 8-bit addition or subtraction of the weight whose bit it flips. */
  function Stepped(last: nat, d: nat, up: bool): nat
    requires d < 256
  {
    if up then (last + d) % 256 else (last + 256 - d) % 256
  }

  lemma StepValue(w: Weights8, g: Mask)
    requires 0 < g < 128
    ensures var now, last := Gray(g), Gray(g - 1);
            DirectSum(w, now) % 256 == Stepped(DirectSum(w, last) % 256, w[UnitIndex(now ^ last)], now > last)
  {
    var now, last := Gray(g), Gray(g - 1);
    var b := UnitIndex(now ^ last);
    GraySteps(g);
    assert now == last ^ Unit(b);
    FlipSum(w, last, now, b);
    Wrap8(DirectSum(w, last), w[b]);
  }

  /** The row holds the direct sum, modulo 256, for every mask among the first `reached` Gray codes. */
  ghost predicate Filled(w: Weights8, row: Row, reached: Mask) {
    forall m: Mask :: m < 128 && Ungray(m) < reached ==> At(row, m) == DirectSum(w, m) % 256
  }

  lemma FilledStep(w: Weights8, row: Row, g: Mask)
    requires 0 < g < 128 && Filled(w, row, g)
    ensures Filled(w, Put(row, Gray(g), DirectSum(w, Gray(g)) % 256), g + 1)
  {
    forall m: Mask | m < 128 && Ungray(m) < g + 1 && m != Gray(g)
      ensures Ungray(m) < g
    {
      GrayInverse(m);
    }
  }

  lemma FilledFirst(w: Weights8, row: Row)
    requires At(row, 0) == 0
    ensures Filled(w, row, 1) && DirectSum(w, Gray(0)) == 0
  {
    EmptyMask(w, 8);
    forall m: Mask | m < 128 && Ungray(m) < 1
      ensures m == 0
    {
      GrayInverse(m);
    }
  }

  /** What the walk makes of one row: seven-bit masks get their sums, the rest is left alone. */
  ghost predicate Merged(w: Weights8, before: Row, row: Row) {
    forall m: Mask :: At(row, m) == if m < 128 then DirectSum(w, m) % 256 else At(before, m)
  }

  ghost predicate UpperKept(before: Row, row: Row) {
    forall m: Mask :: 128 <= m ==> At(row, m) == At(before, m)
  }

  lemma FilledAll(w: Weights8, before: Row, row: Row)
    requires Filled(w, row, 128) && UpperKept(before, row)
    ensures Merged(w, before, row)
  {
    forall m: Mask | m < 128
      ensures At(row, m) == DirectSum(w, m) % 256
    {
      GrayInverse(m);
    }
  }

  /** One step of the walk over all rows. */
  method WalkStep(weights: seq<Weights8>, merge: array<Row>, lastValue: array<nat>, gray: Mask, ghost before: seq<Row>)
    requires |weights| == merge.Length == lastValue.Length == |before| == GROUPS
    requires 0 < gray < 128
    requires forall j :: 0 <= j < GROUPS ==> UpperKept(before[j], merge[j])
    requires forall j :: 0 <= j < GROUPS ==> Filled(weights[j], merge[j], gray)
    requires forall j :: 0 <= j < GROUPS ==> lastValue[j] == DirectSum(weights[j], Gray(gray - 1)) % 256
    modifies merge, lastValue
    ensures forall j :: 0 <= j < GROUPS ==> UpperKept(before[j], merge[j])
    ensures forall j {:trigger weights[j]} :: 0 <= j < GROUPS ==> Filled(weights[j], merge[j], gray + 1)
    ensures forall j :: 0 <= j < GROUPS ==> lastValue[j] == DirectSum(weights[j], Gray(gray)) % 256
  {
    var now, last, next := Gray(gray), Gray(gray - 1), gray + 1;
    var delta := UnitIndex(now ^ last);
    GrayInverse(gray);
    for i := 0 to GROUPS
      invariant forall j :: 0 <= j < GROUPS ==> UpperKept(before[j], merge[j])
      invariant forall j :: 0 <= j < GROUPS ==> Filled(weights[j], merge[j], if j < i then next else gray)
      invariant forall j :: 0 <= j < GROUPS ==> lastValue[j] == DirectSum(weights[j], if j < i then now else last) % 256
    {
      StepValue(weights[i], gray);
      lastValue[i] := Stepped(lastValue[i], weights[i][delta], now > last);
      FilledStep(weights[i], merge[i], gray);
      merge[i] := Put(merge[i], now, lastValue[i]);
    }
  }

  method InitWeight(weights: seq<Weights8>, merge: array<Row>)
    requires |weights| == merge.Length == GROUPS
    modifies merge
    ensures forall i :: 0 <= i < GROUPS ==> Merged(weights[i], old(merge[i]), merge[i])
  {
    ghost var before := merge[..];
    var lastValue := new nat[GROUPS](_ => 0);
    for i := 0 to GROUPS
      invariant forall j :: 0 <= j < GROUPS ==> UpperKept(before[j], merge[j])
      invariant forall j :: 0 <= j < GROUPS ==> lastValue[j] == 0
      invariant forall j :: 0 <= j < i ==> Filled(weights[j], merge[j], 1) && DirectSum(weights[j], Gray(0)) == 0
    {
      merge[i] := Put(merge[i], 0, 0);
      FilledFirst(weights[i], merge[i]);
    }
    var gray: Mask := 1;
    assert gray - 1 == 0;
    while gray < 128
      invariant 0 < gray <= 128
      invariant forall j :: 0 <= j < GROUPS ==> UpperKept(before[j], merge[j])
      invariant forall j :: 0 <= j < GROUPS ==> Filled(weights[j], merge[j], gray)
      invariant forall j :: 0 <= j < GROUPS ==> lastValue[j] == DirectSum(weights[j], Gray(gray - 1)) % 256
      decreases 128 - gray
    {
      WalkStep(weights, merge, lastValue, gray, before);
      gray := gray + 1;
    }
    forall i | 0 <= i < GROUPS
      ensures Merged(weights[i], before[i], merge[i])
    {
      FilledAll(weights[i], before[i], merge[i]);
    }
  }
}
