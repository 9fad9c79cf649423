/**
  The stock row update of a new order, in its three forms: the commutator on a
  whole row, the commutator on the frequently updated half of a split row, and
  the read-modify-write of the transaction. All are one rotation of the numbers
  10..100, so they commute.
 */
module Stock {
  const LOW: int := 10
  const HIGH: int := 100
  const SPAN: int := 91

  /** Frequently updated columns. */
  datatype Counters = Counters(quantity: int, ytd: int, orderCnt: int, remoteCnt: int)

  datatype Row<Info> = Row(info: Info, counters: Counters)

  datatype Sale = Sale(qty: int, remote: bool) {
    predicate Valid() { 1 <= qty <= 10 }
  }

  function Quantity(q: int, qty: int): int {
    if q - 10 >= qty then q - qty else q + (91 - qty)
  }

  function Sell(c: Counters, sale: Sale): Counters {
    Counters(Quantity(c.quantity, sale.qty), c.ytd + sale.qty, c.orderCnt + 1,
             if sale.remote then c.remoteCnt + 1 else c.remoteCnt)
  }

  function SellAll(c: Counters, sales: seq<Sale>): Counters {
    if sales == [] then c else Sell(SellAll(c, sales[..|sales| - 1]), sales[|sales| - 1])
  }

  function Total(sales: seq<Sale>): int {
    if sales == [] then 0 else Total(sales[..|sales| - 1]) + sales[|sales| - 1].qty
  }

  function Remotes(sales: seq<Sale>): int {
    if sales == [] then 0 else Remotes(sales[..|sales| - 1]) + if sales[|sales| - 1].remote then 1 else 0
  }

  predicate InRange(q: int) { LOW <= q <= HIGH }

  /** One update is a rotation: the distance from 10 goes down by qty modulo 91. */
  lemma OneSale(q: int, qty: int)
    requires InRange(q) && 1 <= qty <= 10
    ensures InRange(Quantity(q, qty)) && Quantity(q, qty) == LOW + (q - LOW - qty) % SPAN
  {
  }

  lemma Rotate(a: int, total: int, qty: int)
    ensures ((a - total) % SPAN - qty) % SPAN == (a - (total + qty)) % SPAN
  {
  }

  /** Any sequence of updates ends where its total says, whatever the order. */
  lemma {:induction false} SalesInClosedForm(c: Counters, sales: seq<Sale>)
    requires InRange(c.quantity) && forall i :: 0 <= i < |sales| ==> sales[i].Valid()
    ensures SellAll(c, sales) == Counters(LOW + (c.quantity - LOW - Total(sales)) % SPAN, c.ytd + Total(sales),
                                          c.orderCnt + |sales|, c.remoteCnt + Remotes(sales))
    ensures InRange(SellAll(c, sales).quantity)
  {
    if sales != [] {
      var before, last := sales[..|sales| - 1], sales[|sales| - 1];
      SalesInClosedForm(c, before);
      OneSale(SellAll(c, before).quantity, last.qty);
      Rotate(c.quantity - LOW, Total(before), last.qty);
    }
  }

  lemma {:induction false} TotalOfMultiset(a: seq<Sale>, b: seq<Sale>)
    requires multiset(a) == multiset(b)
    ensures Total(a) == Total(b) && Remotes(a) == Remotes(b) && |a| == |b|
    decreases |a|
  {
    if a == [] {
      assert |multiset(b)| == 0;
    } else {
      var last := a[|a| - 1];
      Removed(a, |a| - 1);
      assert a[..|a| - 1] + a[|a|..] == a[..|a| - 1];
      assert last in multiset(b);
      var i :| 0 <= i < |b| && b[i] == last;
      Removed(b, i);
      TotalOfMultiset(a[..|a| - 1], b[..i] + b[i + 1..]);
      TotalWithout(b, i);
    }
  }

  lemma Removed(b: seq<Sale>, i: nat)
    requires i < |b|
    ensures multiset(b[..i] + b[i + 1..]) == multiset(b) - multiset{b[i]}
  {
    assert b == b[..i] + [b[i]] + b[i + 1..];
    assert multiset(b) == multiset(b[..i] + b[i + 1..]) + multiset{b[i]};
  }

  lemma {:induction false} TotalWithout(b: seq<Sale>, i: nat)
    requires i < |b|
    ensures Total(b) == Total(b[..i] + b[i + 1..]) + b[i].qty
    ensures Remotes(b) == Remotes(b[..i] + b[i + 1..]) + if b[i].remote then 1 else 0
    decreases |b|
  {
    var rest := b[..i] + b[i + 1..];
    if i == |b| - 1 {
      assert rest == b[..i];
    } else {
      var before := b[..|b| - 1];
      TotalWithout(before, i);
      assert rest[..|rest| - 1] == before[..i] + before[i + 1..];
    }
  }

  /** Every permutation of the same updates leaves the same row. */
  lemma SalesCommute(c: Counters, a: seq<Sale>, b: seq<Sale>)
    requires InRange(c.quantity) && multiset(a) == multiset(b)
    requires forall i :: 0 <= i < |a| ==> a[i].Valid()
    ensures SellAll(c, a) == SellAll(c, b)
  {
    forall i | 0 <= i < |b|
      ensures b[i].Valid()
    {
      assert b[i] in multiset(a);
    }
    TotalOfMultiset(a, b);
    SalesInClosedForm(c, a);
    SalesInClosedForm(c, b);
  }

  // ------------------------------------------------------------ the three forms, in place

  /** The frequently updated half of a split row; the other half has an empty operation. */
  class StockHalf {
    var quantity: int
    var ytd: int
    var orderCnt: int
    var remoteCnt: int

    ghost function View(): Counters
      reads this
    {
      Counters(quantity, ytd, orderCnt, remoteCnt)
    }

    method Operate(sale: Sale)
      modifies this
      ensures View() == Sell(old(View()), sale)
    {
      if quantity - 10 >= sale.qty {
        quantity := quantity - sale.qty;
      } else {
        quantity := quantity + (91 - sale.qty);
      }
      ytd := ytd + sale.qty;
      orderCnt := orderCnt + 1;
      if sale.remote {
        remoteCnt := remoteCnt + 1;
      }
    }
  }

  class StockRow<Info> {
    var info: Info
    var quantity: int
    var ytd: int
    var orderCnt: int
    var remoteCnt: int

    ghost function View(): Row<Info>
      reads this
    {
      Row(info, Counters(quantity, ytd, orderCnt, remoteCnt))
    }

    constructor (info: Info, c: Counters)
      ensures View() == Row(info, c)
    {
      this.info, quantity, ytd, orderCnt, remoteCnt := info, c.quantity, c.ytd, c.orderCnt, c.remoteCnt;
    }

    /** The commutator applied to the row itself. */
    method Operate(sale: Sale)
      modifies this
      ensures View() == old(View()).(counters := Sell(old(View()).counters, sale))
    {
      if quantity - 10 >= sale.qty {
        quantity := quantity - sale.qty;
      } else {
        quantity := quantity + (91 - sale.qty);
      }
      ytd := ytd + sale.qty;
      orderCnt := orderCnt + 1;
      if sale.remote {
        remoteCnt := remoteCnt + 1;
      }
    }

    /** The transaction's own form: copy the row, change the copy, install it. */
    method ReadModifyWrite(sale: Sale)
      modifies this
      ensures View() == old(View()).(counters := Sell(old(View()).counters, sale))
    {
      var observed := quantity;
      var copy := new StockRow(info, Counters(quantity, ytd, orderCnt, remoteCnt));
      if observed - 10 >= sale.qty {
        copy.quantity := copy.quantity - sale.qty;
      } else {
        copy.quantity := copy.quantity + (91 - sale.qty);
      }
      copy.ytd := copy.ytd + sale.qty;
      copy.orderCnt := copy.orderCnt + 1;
      if sale.remote {
        copy.remoteCnt := copy.remoteCnt + 1;
      }
      info, quantity, ytd, orderCnt, remoteCnt := copy.info, copy.quantity, copy.ytd, copy.orderCnt, copy.remoteCnt;
    }
  }
}
