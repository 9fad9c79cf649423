/**
  Orders stay coherent: clauses 3.3.2.5 to 3.3.2.7 of the TPC-C specification,
  the order-customer index, and order ids that are never reused. Each condition
  names just the tables it speaks of.
 */
module TpccOrders {
  import opened Tpcc
  import Stock

  /** Largest amount a line can carry. */
  const MAX_AMOUNT: int := 999999
  const MAX_PRICE: nat := 10000
  const MAX_LINES: nat := 15
  /** Orders below this id were loaded as already delivered. */
  const FIRST_OPEN: nat := 2101

  function CustomerOf(k: OKey, order: Order): CKey { CKey(k.w, k.d, order.cid) }

  function LineKey(k: OKey, n: nat): LKey { LKey(k.w, k.d, k.o, n) }

  ghost predicate OrderOk(k: OKey, order: Order, newOrders: set<OKey>, customers: map<CKey, Customer>,
                          gen: map<(nat, nat), nat>) {
    && CustomerOf(k, order) in customers && 0 < k.o < NextOid(gen, k.w, k.d)
    && order.olCnt <= MAX_LINES && (order.carrier == 0 <==> k in newOrders)
  }

  ghost predicate OrdersOk(customers: map<CKey, Customer>, orders: map<OKey, Order>, newOrders: set<OKey>,
                           gen: map<(nat, nat), nat>) {
    && (forall k {:trigger OrderOk(k, orders[k], newOrders, customers, gen)} ::
          k in orders ==> OrderOk(k, orders[k], newOrders, customers, gen))
    && (forall k :: k in newOrders ==> k in orders && FIRST_OPEN <= k.o)
    && (forall g :: g in gen ==> FIRST_OID <= gen[g])
  }

  ghost predicate LineOk(orders: map<OKey, Order>, l: LKey, line: Line) {
    && OrderOf(l) in orders && 1 <= l.n <= orders[OrderOf(l)].olCnt
    && 0 <= line.amount <= MAX_AMOUNT && (line.delivered == 0 <==> orders[OrderOf(l)].carrier == 0)
  }

  ghost predicate LinesOk(orders: map<OKey, Order>, lines: map<LKey, Line>) {
    && (forall l {:trigger LineOk(orders, l, lines[l])} :: l in lines ==> LineOk(orders, l, lines[l]))
    && (forall k, n :: k in orders && 1 <= n <= orders[k].olCnt ==> LineKey(k, n) in lines)
  }

  ghost predicate IndexOk(orders: map<OKey, Order>, index: set<IKey>) {
    forall i :: i in index <==> OKey(i.w, i.d, i.o) in orders && orders[OKey(i.w, i.d, i.o)].cid == i.c
  }

  ghost predicate GoodsOk(items: map<nat, Item>, stocks: map<SKey, Stock.Counters>) {
    && (forall i :: i in items ==> items[i].price <= MAX_PRICE)
    && (forall s :: s in stocks ==> Stock.InRange(stocks[s].quantity))
  }

  ghost predicate Coherent(db: Db) {
    && OrdersOk(db.customers, db.orders, db.newOrders, db.oidGen)
    && LinesOk(db.orders, db.lines)
    && IndexOk(db.orders, db.customerOrders)
    && GoodsOk(db.items, db.stocks)
  }

  lemma CoherentIsDeliverable(db: Db)
    requires Coherent(db)
    ensures Deliverable(db)
  {
    forall k | k in db.orders
      ensures CanDeliver(db, k)
    {
      assert OrderOk(k, db.orders[k], db.newOrders, db.customers, db.oidGen);
      forall n | 1 <= n <= db.orders[k].olCnt
        ensures LKey(k.w, k.d, k.o, n) in db.lines
      {
        assert LineKey(k, n) in db.lines;
      }
    }
  }

  // ------------------------------------------------------------ new order

  /** What the line inserts leave: the old lines and, for each item asked for, one undelivered line. */
  lemma {:induction false} LinesAdded(lines: map<LKey, Line>, items: map<nat, Item>, key: OKey, wanted: seq<Wanted>,
                                      k: nat)
    requires k <= |wanted| && forall i :: 0 <= i < |wanted| ==> wanted[i].item in items
    requires forall l :: l in lines ==> OrderOf(l) != key
    ensures var r := WithLines(lines, items, key, wanted, k);
            && (forall l :: l in r <==> l in lines || (OrderOf(l) == key && 1 <= l.n <= k))
            && (forall l :: l in lines ==> r[l] == lines[l])
            && (forall l :: OrderOf(l) == key && 1 <= l.n <= k ==> r[l] == NewLine(items, wanted[l.n - 1]))
  {
    if k > 0 {
      LinesAdded(lines, items, key, wanted, k - 1);
    }
  }

  lemma NoLinesYet(orders: map<OKey, Order>, lines: map<LKey, Line>, key: OKey)
    requires LinesOk(orders, lines) && key !in orders
    ensures forall l :: l in lines ==> OrderOf(l) != key
  {
    forall l | l in lines
      ensures OrderOf(l) in orders
    {
      assert LineOk(orders, l, lines[l]);
    }
  }

  lemma LinesOfOrder(orders: map<OKey, Order>, lines: map<LKey, Line>, k: OKey)
    requires LinesOk(orders, lines) && k in orders
    ensures forall i: nat :: LineKey(k, i) in lines <==> 1 <= i <= orders[k].olCnt
    ensures forall i: nat :: LineKey(k, i) in lines ==>
              (lines[LineKey(k, i)].delivered == 0 <==> orders[k].carrier == 0)
  {
    forall i: nat | LineKey(k, i) in lines
      ensures 1 <= i <= orders[k].olCnt && (lines[LineKey(k, i)].delivered == 0 <==> orders[k].carrier == 0)
    {
      assert LineOk(orders, LineKey(k, i), lines[LineKey(k, i)]);
    }
  }

  lemma AmountBound(qty: nat, price: nat)
    requires qty <= 10 && price <= MAX_PRICE
    ensures Amount(qty, price) <= MAX_AMOUNT
  {
    assert qty * price <= 10 * MAX_PRICE;
  }

  lemma {:induction false} SalesStayInRange(stocks: map<SKey, Stock.Counters>, w: nat, wanted: seq<Wanted>, k: nat)
    requires k <= |wanted|
    requires forall i :: 0 <= i < |wanted| ==> StockKey(wanted[i]) in stocks && 1 <= wanted[i].qty <= 10
    requires forall s :: s in stocks ==> Stock.InRange(stocks[s].quantity)
    ensures var r := WithSales(stocks, w, wanted, k);
            r.Keys == stocks.Keys && forall s :: s in r ==> Stock.InRange(r[s].quantity)
  {
    if k > 0 {
      SalesStayInRange(stocks, w, wanted, k - 1);
      Stock.OneSale(stocks[StockKey(wanted[k - 1])].quantity, wanted[k - 1].qty);
    }
  }

  lemma DrawKeeps(customers: map<CKey, Customer>, orders: map<OKey, Order>, newOrders: set<OKey>,
                  gen: map<(nat, nat), nat>, w: nat, d: nat)
    requires OrdersOk(customers, orders, newOrders, gen)
    ensures OrdersOk(customers, orders, newOrders, Drawn(gen, w, d))
    ensures OKey(w, d, NextOid(gen, w, d)) !in orders
  {
    forall k | k in orders
      ensures OrderOk(k, orders[k], newOrders, customers, Drawn(gen, w, d)) && k.o < NextOid(gen, k.w, k.d)
    {
      assert OrderOk(k, orders[k], newOrders, customers, gen);
    }
  }

  /** Adding the order with the drawn id. */
  lemma AddOrderKeeps(customers: map<CKey, Customer>, orders: map<OKey, Order>, newOrders: set<OKey>,
                      gen: map<(nat, nat), nat>, key: OKey, order: Order)
    requires OrdersOk(customers, orders, newOrders, gen)
    requires key !in orders && FIRST_OPEN <= key.o < NextOid(gen, key.w, key.d) && CustomerOf(key, order) in customers
    requires order.carrier == 0 && order.olCnt <= MAX_LINES
    ensures OrdersOk(customers, orders[key := order], newOrders + {key}, gen)
  {
    var orders', newOrders' := orders[key := order], newOrders + {key};
    forall k | k in orders'
      ensures OrderOk(k, orders'[k], newOrders', customers, gen)
    {
      assert k in orders ==> OrderOk(k, orders[k], newOrders, customers, gen);
    }
  }

  lemma AddLinesKeeps(orders: map<OKey, Order>, lines: map<LKey, Line>, items: map<nat, Item>,
                      key: OKey, order: Order, wanted: seq<Wanted>)
    requires LinesOk(orders, lines) && key !in orders && order.carrier == 0 && order.olCnt == |wanted|
    requires forall i :: 0 <= i < |wanted| ==>
               wanted[i].item in items && wanted[i].qty <= 10 && items[wanted[i].item].price <= MAX_PRICE
    ensures LinesOk(orders[key := order], WithLines(lines, items, key, wanted, |wanted|))
  {
    var orders', lines' := orders[key := order], WithLines(lines, items, key, wanted, |wanted|);
    NoLinesYet(orders, lines, key);
    LinesAdded(lines, items, key, wanted, |wanted|);
    forall l | l in lines'
      ensures LineOk(orders', l, lines'[l])
    {
      if OrderOf(l) == key {
        AmountBound(wanted[l.n - 1].qty, items[wanted[l.n - 1].item].price);
      } else {
        assert LineOk(orders, l, lines[l]);
      }
    }
  }

  lemma AddIndexKeeps(orders: map<OKey, Order>, index: set<IKey>, key: OKey, order: Order)
    requires IndexOk(orders, index) && key !in orders
    ensures IndexOk(orders[key := order], index + {IKey(key.w, key.d, order.cid, key.o)})
  {
  }

  lemma NewOrderKeeps(db: Db, w: nat, d: nat, c: nat, wanted: seq<Wanted>, date: nat)
    requires Coherent(db) && CanOrder(db, w, d, c, wanted)
    ensures Coherent(NewOrder(db, w, d, c, wanted, date))
  {
    var key := OKey(w, d, NextOid(db.oidGen, w, d));
    var order := Order(c, 0, |wanted|, AllLocal(w, wanted), date);
    DrawKeeps(db.customers, db.orders, db.newOrders, db.oidGen, w, d);
    AddOrderKeeps(db.customers, db.orders, db.newOrders, Drawn(db.oidGen, w, d), key, order);
    AddLinesKeeps(db.orders, db.lines, db.items, key, order, wanted);
    AddIndexKeeps(db.orders, db.customerOrders, key, order);
    SalesStayInRange(db.stocks, w, wanted, |wanted|);
  }

  // ------------------------------------------------------------ delivery

  lemma CarrierKeeps(customers: map<CKey, Customer>, orders: map<OKey, Order>, newOrders: set<OKey>,
                     gen: map<(nat, nat), nat>, k: OKey, carrier: nat, ck: CKey, x: Customer)
    requires OrdersOk(customers, orders, newOrders, gen) && k in orders && 0 < carrier
    ensures OrdersOk(customers[ck := x], orders[k := orders[k].(carrier := carrier)], newOrders - {k}, gen)
  {
    var orders' := orders[k := orders[k].(carrier := carrier)];
    forall j | j in orders'
      ensures OrderOk(j, orders'[j], newOrders - {k}, customers[ck := x], gen)
    {
      assert OrderOk(j, orders[j], newOrders, customers, gen);
    }
  }

  lemma DeliverOrderKeeps(db: Db, k: OKey, carrier: nat, date: nat)
    requires Coherent(db) && k in db.newOrders && 0 < carrier && 0 < date && CanDeliver(db, k)
    ensures Coherent(DeliverOrder(db, k, carrier, date))
  {
    var ck := CustomerOf(k, db.orders[k]);
    CarrierKeeps(db.customers, db.orders, db.newOrders, db.oidGen, k, carrier, ck,
                 Credited(db.customers[ck], LineSum(db.lines, k, db.orders[k].olCnt)));
    MarkKeeps(db.orders, db.lines, k, carrier, date);
  }

  lemma IsOpen(db: Db, k: OKey)
    requires Coherent(db) && k in db.newOrders
    ensures k in db.orders && db.orders[k].carrier == 0 && FIRST_OPEN <= k.o
  {
    assert OrderOk(k, db.orders[k], db.newOrders, db.customers, db.oidGen);
  }

  lemma LinesOfOpen(orders: map<OKey, Order>, lines: map<LKey, Line>, k: OKey)
    requires LinesOk(orders, lines) && k in orders && orders[k].carrier == 0
    ensures forall l :: l in lines && OrderOf(l) == k ==> lines[l].delivered == 0 && 1 <= l.n <= orders[k].olCnt
  {
    forall l | l in lines && OrderOf(l) == k
      ensures lines[l].delivered == 0 && 1 <= l.n <= orders[k].olCnt
    {
      assert LineOk(orders, l, lines[l]);
    }
  }

  lemma MarkKeeps(orders: map<OKey, Order>, lines: map<LKey, Line>, k: OKey, carrier: nat, date: nat)
    requires LinesOk(orders, lines) && k in orders && 0 < carrier && 0 < date
    requires forall i :: 1 <= i <= orders[k].olCnt ==> LKey(k.w, k.d, k.o, i) in lines
    ensures LinesOk(orders[k := orders[k].(carrier := carrier)], Marked(lines, k, orders[k].olCnt, date))
  {
    var orders', lines' := orders[k := orders[k].(carrier := carrier)], Marked(lines, k, orders[k].olCnt, date);
    forall l | l in lines'
      ensures LineOk(orders', l, lines'[l])
    {
      assert LineOk(orders, l, lines[l]);
    }
  }

  // ------------------------------------------------------------ 32-bit sum of a delivery

  /** The 32-bit accumulator of a delivery never leaves its range. */
  lemma {:induction false} DeliverySumFits(orders: map<OKey, Order>, lines: map<LKey, Line>, k: OKey, n: nat)
    requires LinesOk(orders, lines) && k in orders && orders[k].olCnt <= MAX_LINES && n <= orders[k].olCnt
    requires forall i :: 1 <= i <= n ==> LKey(k.w, k.d, k.o, i) in lines
    ensures 0 <= LineSum(lines, k, n) <= MAX_AMOUNT * n <= 0x7FFF_FFFF
  {
    if n > 0 {
      DeliverySumFits(orders, lines, k, n - 1);
      assert LineOk(orders, LKey(k.w, k.d, k.o, n), lines[LKey(k.w, k.d, k.o, n)]);
    }
  }
}
