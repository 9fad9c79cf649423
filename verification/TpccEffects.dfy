/** What each transaction does to the database, row by row. */
module TpccEffects {
  import opened Options
  import opened Sums
  import opened Tpcc
  import opened TpccOrders
  import opened TpccLedger
  import Stock

  // ------------------------------------------------------------ delivery

  /** The order that the scan of district d proposes. */
  function Proposed(w: nat, proposals: seq<nat>, d: nat): OKey
    requires 1 <= d <= |proposals|
  {
    OKey(w, d, proposals[d - 1])
  }

  /** k is the open order proposed for one of the first n districts. */
  predicate Picked(db: Db, w: nat, proposals: seq<nat>, n: nat, k: OKey)
    requires n <= |proposals|
  {
    k in db.newOrders && 1 <= k.d <= n && k == Proposed(w, proposals, k.d)
  }

  /** Sum of the amounts of all lines of order k. */
  ghost function OrderTotal(db: Db, k: OKey): int
    requires k in db.orders
  {
    Sum(LineKeys(k, db.orders[k].olCnt), AmountOf(db.lines))
  }

  ghost predicate OrdersDelivered(db: Db, r: Db, w: nat, proposals: seq<nat>, carrier: nat, n: nat)
    requires n <= |proposals|
  {
    && (forall k :: k in r.newOrders <==> k in db.newOrders && !Picked(db, w, proposals, n, k))
    && r.orders.Keys == db.orders.Keys
    && forall k :: k in db.orders ==>
         r.orders[k] == if Picked(db, w, proposals, n, k) then db.orders[k].(carrier := carrier) else db.orders[k]
  }

  ghost predicate LinesDelivered(db: Db, r: Db, w: nat, proposals: seq<nat>, date: nat, n: nat)
    requires n <= |proposals|
  {
    && r.lines.Keys == db.lines.Keys
    && forall l :: l in db.lines ==>
         r.lines[l] == if Picked(db, w, proposals, n, OrderOf(l)) then db.lines[l].(delivered := date) else db.lines[l]
  }

  /** The customer of a picked order is credited its total and one delivery; nobody else's row changes. */
  ghost predicate CustomersCredited(db: Db, r: Db, w: nat, proposals: seq<nat>, n: nat)
    requires n <= |proposals|
  {
    && r.customers.Keys == db.customers.Keys
    && (forall k :: k in db.orders && Picked(db, w, proposals, n, k) ==>
          var ck := CustomerOf(k, db.orders[k]);
          && ck in db.customers
          && r.customers[ck] == db.customers[ck].(balance := db.customers[ck].balance + OrderTotal(db, k),
                                                  deliveryCnt := db.customers[ck].deliveryCnt + 1))
    && (forall ck :: ck in db.customers && r.customers[ck] != db.customers[ck] ==>
          exists k :: k in db.orders && Picked(db, w, proposals, n, k) && CustomerOf(k, db.orders[k]) == ck)
  }

  ghost predicate DeliveredIn(db: Db, r: Db, w: nat, proposals: seq<nat>, carrier: nat, date: nat, n: nat)
    requires n <= |proposals|
  {
    && OrdersDelivered(db, r, w, proposals, carrier, n) && LinesDelivered(db, r, w, proposals, date, n)
    && CustomersCredited(db, r, w, proposals, n)
    && r == db.(newOrders := r.newOrders, orders := r.orders, lines := r.lines, customers := r.customers)
  }

  /** The proposal of district d names an order without a new-order row. */
  predicate StaleAt(db: Db, w: nat, proposals: seq<nat>, d: nat)
    requires 1 <= d <= |proposals|
  {
    proposals[d - 1] != 0 && Proposed(w, proposals, d) in db.orders && Proposed(w, proposals, d) !in db.newOrders
  }

  ghost predicate Stale(db: Db, w: nat, proposals: seq<nat>, n: nat)
    requires n <= |proposals|
  {
    exists d :: 1 <= d <= n && StaleAt(db, w, proposals, d)
  }

  // ------------------------------------------------------------ one more district

  /** The order of district n is still as it was after the districts before it. */
  lemma StillThere(db: Db, v: Db, w: nat, proposals: seq<nat>, carrier: nat, date: nat, n: nat)
    requires Coherent(db) && 1 <= n <= |proposals| && DeliveredIn(db, v, w, proposals, carrier, date, n - 1)
    ensures var k := Proposed(w, proposals, n);
            && (k in v.orders <==> k in db.orders) && (k in v.newOrders <==> k in db.newOrders)
            && (k in db.orders ==> v.orders[k] == db.orders[k])
            && forall l :: l in db.lines && OrderOf(l) == k ==> v.lines[l] == db.lines[l]
  {
  }

  lemma {:induction false} SameLineSum(lines: map<LKey, Line>, lines': map<LKey, Line>, k: OKey, n: nat)
    requires forall i :: 1 <= i <= n ==> LKey(k.w, k.d, k.o, i) in lines && LKey(k.w, k.d, k.o, i) in lines'
    requires forall i :: 1 <= i <= n ==> lines'[LKey(k.w, k.d, k.o, i)] == lines[LKey(k.w, k.d, k.o, i)]
    ensures LineSum(lines', k, n) == LineSum(lines, k, n)
  {
    if n > 0 {
      SameLineSum(lines, lines', k, n - 1);
    }
  }

  /** The one order a district delivers. */
  lemma PickedGrows(db: Db, w: nat, proposals: seq<nat>, n: nat, k: OKey)
    requires 1 <= n <= |proposals|
    ensures Picked(db, w, proposals, n, k) <==>
              Picked(db, w, proposals, n - 1, k) || (k == Proposed(w, proposals, n) && k in db.newOrders)
  {
  }

  lemma SkipDistrict(db: Db, v: Db, w: nat, proposals: seq<nat>, carrier: nat, date: nat, n: nat)
    requires 1 <= n <= |proposals| && DeliveredIn(db, v, w, proposals, carrier, date, n - 1)
    requires Proposed(w, proposals, n) !in db.newOrders
    ensures DeliveredIn(db, v, w, proposals, carrier, date, n)
  {
    forall k
      ensures Picked(db, w, proposals, n, k) <==> Picked(db, w, proposals, n - 1, k)
    {
      PickedGrows(db, w, proposals, n, k);
    }
  }

  lemma TotalIsLineSum(db: Db, v: Db, k: OKey)
    requires CanDeliver(db, k) && CanDeliver(v, k) && v.orders[k].olCnt == db.orders[k].olCnt
    requires forall l :: l in db.lines && OrderOf(l) == k ==> l in v.lines && v.lines[l] == db.lines[l]
    ensures LineSum(v.lines, k, db.orders[k].olCnt) == OrderTotal(db, k)
  {
    LineSumIsSum(db.lines, k, db.orders[k].olCnt);
    SameLineSum(db.lines, v.lines, k, db.orders[k].olCnt);
  }

  lemma DistrictOrders(db: Db, v: Db, w: nat, proposals: seq<nat>, carrier: nat, date: nat, n: nat)
    requires 1 <= n <= |proposals| && OrdersDelivered(db, v, w, proposals, carrier, n - 1)
    requires Proposed(w, proposals, n) in db.newOrders && Proposed(w, proposals, n) in db.orders
    requires CanDeliver(v, Proposed(w, proposals, n))
    ensures OrdersDelivered(db, DeliverOrder(v, Proposed(w, proposals, n), carrier, date), w, proposals, carrier, n)
  {
    forall k
      ensures Picked(db, w, proposals, n, k) <==>
                Picked(db, w, proposals, n - 1, k) || k == Proposed(w, proposals, n)
    {
      PickedGrows(db, w, proposals, n, k);
    }
  }

  lemma DistrictLines(db: Db, v: Db, w: nat, proposals: seq<nat>, carrier: nat, date: nat, n: nat)
    requires Coherent(db) && 1 <= n <= |proposals| && LinesDelivered(db, v, w, proposals, date, n - 1)
    requires Proposed(w, proposals, n) in db.newOrders && Proposed(w, proposals, n) in db.orders
    requires CanDeliver(v, Proposed(w, proposals, n))
    requires v.orders[Proposed(w, proposals, n)] == db.orders[Proposed(w, proposals, n)]
    ensures LinesDelivered(db, DeliverOrder(v, Proposed(w, proposals, n), carrier, date), w, proposals, date, n)
  {
    var key := Proposed(w, proposals, n);
    var r := DeliverOrder(v, key, carrier, date);
    forall l | l in db.lines
      ensures r.lines[l] ==
                if Picked(db, w, proposals, n, OrderOf(l)) then db.lines[l].(delivered := date) else db.lines[l]
    {
      PickedGrows(db, w, proposals, n, OrderOf(l));
      assert LineOk(db.orders, l, db.lines[l]);
    }
  }

  lemma DistrictCustomers(db: Db, v: Db, w: nat, proposals: seq<nat>, carrier: nat, date: nat, n: nat)
    requires 1 <= n <= |proposals| && CustomersCredited(db, v, w, proposals, n - 1)
    requires Proposed(w, proposals, n) in db.newOrders && CanDeliver(db, Proposed(w, proposals, n))
    requires CanDeliver(v, Proposed(w, proposals, n))
    requires v.orders[Proposed(w, proposals, n)] == db.orders[Proposed(w, proposals, n)]
    requires var key := Proposed(w, proposals, n); LineSum(v.lines, key, db.orders[key].olCnt) == OrderTotal(db, key)
    ensures CustomersCredited(db, DeliverOrder(v, Proposed(w, proposals, n), carrier, date), w, proposals, n)
  {
    var key := Proposed(w, proposals, n);
    var r, mine := DeliverOrder(v, key, carrier, date), CustomerOf(key, db.orders[key]);
    assert v.customers[mine] == db.customers[mine];
    forall k | k in db.orders && Picked(db, w, proposals, n, k)
      ensures var ck := CustomerOf(k, db.orders[k]);
              && ck in db.customers
              && r.customers[ck] == db.customers[ck].(balance := db.customers[ck].balance + OrderTotal(db, k),
                                                      deliveryCnt := db.customers[ck].deliveryCnt + 1)
    {
      PickedGrows(db, w, proposals, n, k);
    }
    forall ck | ck in db.customers && r.customers[ck] != db.customers[ck]
      ensures exists k :: k in db.orders && Picked(db, w, proposals, n, k) && CustomerOf(k, db.orders[k]) == ck
    {
      if ck == mine {
        PickedGrows(db, w, proposals, n, key);
      } else {
        var k :| k in db.orders && Picked(db, w, proposals, n - 1, k) && CustomerOf(k, db.orders[k]) == ck;
        PickedGrows(db, w, proposals, n, k);
      }
    }
  }

  lemma DistrictDelivers(db: Db, v: Db, w: nat, proposals: seq<nat>, carrier: nat, date: nat, n: nat)
    requires Coherent(db) && Deliverable(db) && Deliverable(v) && 1 <= n <= |proposals|
    requires DeliveredIn(db, v, w, proposals, carrier, date, n - 1) && Proposed(w, proposals, n) in db.newOrders
    requires Proposed(w, proposals, n) in v.orders
    ensures DeliveredIn(db, DeliverOrder(v, Proposed(w, proposals, n), carrier, date), w, proposals, carrier, date, n)
  {
    var key := Proposed(w, proposals, n);
    StillThere(db, v, w, proposals, carrier, date, n);
    assert CanDeliver(db, key) && CanDeliver(v, key);
    TotalIsLineSum(db, v, key);
    DistrictOrders(db, v, w, proposals, carrier, date, n);
    DistrictLines(db, v, w, proposals, carrier, date, n);
    DistrictCustomers(db, v, w, proposals, carrier, date, n);
  }

  lemma DistrictExactly(db: Db, v: Db, w: nat, proposals: seq<nat>, carrier: nat, date: nat, n: nat)
    requires Coherent(db) && Deliverable(db) && Deliverable(v) && 1 <= n <= |proposals|
    requires DeliveredIn(db, v, w, proposals, carrier, date, n - 1)
    ensures var r := DeliverIn(v, w, n, proposals[n - 1], carrier, date);
            && (r.None? <==> StaleAt(db, w, proposals, n))
            && (r.Some? ==> DeliveredIn(db, r.value, w, proposals, carrier, date, n))
  {
    var key := Proposed(w, proposals, n);
    StillThere(db, v, w, proposals, carrier, date, n);
    assert key in db.newOrders ==> key in db.orders && key.o != 0;
    if key in db.newOrders {
      DistrictDelivers(db, v, w, proposals, carrier, date, n);
    } else {
      SkipDistrict(db, v, w, proposals, carrier, date, n);
    }
  }

  lemma StaleGrows(db: Db, w: nat, proposals: seq<nat>, n: nat)
    requires 1 <= n <= |proposals|
    ensures Stale(db, w, proposals, n) <==> Stale(db, w, proposals, n - 1) || StaleAt(db, w, proposals, n)
  {
  }

  lemma NothingDelivered(db: Db, w: nat, proposals: seq<nat>, carrier: nat, date: nat)
    ensures DeliveredIn(db, db, w, proposals, carrier, date, 0)
  {
  }

  /**
    A delivery gives up exactly when a proposal is stale. Otherwise it removes the
    new-order row of every proposed open order, gives the order the carrier and all
    its lines the date, credits the customer the sum of the lines and one delivery,
    and changes nothing else.
   */
  lemma {:induction false} DeliverExactly(db: Db, w: nat, proposals: seq<nat>, carrier: nat, date: nat, n: nat)
    requires Coherent(db) && Deliverable(db) && n <= |proposals|
    ensures var r := Deliver(db, w, proposals, carrier, date, n);
            && (r.None? <==> Stale(db, w, proposals, n))
            && (r.Some? ==> DeliveredIn(db, r.value, w, proposals, carrier, date, n))
    decreases n
  {
    if n == 0 {
      NothingDelivered(db, w, proposals, carrier, date);
    } else {
      DeliverExactly(db, w, proposals, carrier, date, n - 1);
      StaleGrows(db, w, proposals, n);
      var before := Deliver(db, w, proposals, carrier, date, n - 1);
      if before.Some? {
        DistrictExactly(db, before.value, w, proposals, carrier, date, n);
      }
    }
  }

  /** The transaction as a whole: all ten districts, or nothing. */
  lemma DeliveryApplies(db: Db, w: nat, proposals: seq<nat>, carrier: nat, date: nat)
    requires Coherent(db) && Deliverable(db) && |proposals| == DISTRICTS && 1 <= carrier <= 10 && 0 < date
    ensures var r := Apply(db, DoDelivery(w, proposals, carrier, date));
            if Stale(db, w, proposals, DISTRICTS) then r == db
            else DeliveredIn(db, r, w, proposals, carrier, date, DISTRICTS)
  {
    DeliverExactly(db, w, proposals, carrier, date, |proposals|);
  }

  // ------------------------------------------------------------ payment

  /**
    A payment moves exactly its amount: onto the totals of warehouse and district,
    off the customer's balance, and into one history row under an unused key of the
    customer's warehouse.
   */
  lemma PaymentApplies(db: Db, w: nat, d: nat, ck: CKey, amount: int)
    requires Deliverable(db) && HistoryOk(db.history, db.historyGen)
    requires w in db.warehouses && DKey(w, d) in db.districts && ck in db.customers
    ensures var r := Apply(db, DoPayment(w, d, ck, amount));
            var district, x := db.districts[DKey(w, d)], db.customers[ck];
            && r.warehouses == db.warehouses[w := db.warehouses[w] + amount]
            && r.districts == db.districts[DKey(w, d) := District(district.ytd + amount, district.nextOid)]
            && r.customers == db.customers[ck := Customer(x.balance - amount, x.ytdPayment + amount, x.paymentCnt + 1,
                                                          x.deliveryCnt)]
            && (exists n :: var h := HKey(ck.w, w, d, ck.c, n);
                  h !in db.history && r.history == db.history[h := History(ck.w, ck.d, ck.c, w, d, amount)])
            && r == db.(warehouses := r.warehouses, districts := r.districts, customers := r.customers,
                        history := r.history, historyGen := r.historyGen)
  {
    var h := PaymentKey(db.historyGen, w, d, ck);
    assert h == HKey(ck.w, w, d, ck.c, h.h) && h !in db.history;
  }

  // ------------------------------------------------------------ new order

  /** The amount of a line in whole units: quantity times price in hundredths, rounded down. */
  predicate IsAmount(amount: int, qty: nat, price: nat) { 100 * amount <= qty * price < 100 * amount + 100 }

  predicate IsLine(line: Line, x: Wanted, items: map<nat, Item>)
    requires x.item in items
  {
    && line.item == x.item && line.supply == x.supply && line.qty == x.qty && line.delivered == 0
    && IsAmount(line.amount, x.qty, items[x.item].price)
  }

  /** The first k wanted items are lines 1..k of the order, and no other line is touched. */
  ghost predicate HasNewLines(lines: map<LKey, Line>, lines': map<LKey, Line>, items: map<nat, Item>, key: OKey,
                              wanted: seq<Wanted>, k: nat)
    requires k <= |wanted| && forall i :: 0 <= i < |wanted| ==> wanted[i].item in items
  {
    && (forall l :: l in lines' <==> l in lines || (OrderOf(l) == key && 1 <= l.n <= k))
    && (forall l :: l in lines' ==>
          if OrderOf(l) == key && 1 <= l.n <= k then IsLine(lines'[l], wanted[l.n - 1], items)
          else lines'[l] == lines[l])
  }

  lemma NewLineIsLine(items: map<nat, Item>, x: Wanted)
    requires x.item in items
    ensures IsLine(NewLine(items, x), x, items)
  {
  }

  lemma NewLines(lines: map<LKey, Line>, items: map<nat, Item>, key: OKey, wanted: seq<Wanted>)
    requires (forall i :: 0 <= i < |wanted| ==> wanted[i].item in items) && forall l :: l in lines ==> OrderOf(l) != key
    ensures HasNewLines(lines, WithLines(lines, items, key, wanted, |wanted|), items, key, wanted, |wanted|)
  {
    LinesAdded(lines, items, key, wanted, |wanted|);
    forall i | 0 <= i < |wanted|
      ensures IsLine(NewLine(items, wanted[i]), wanted[i], items)
    {
      NewLineIsLine(items, wanted[i]);
    }
  }

  predicate Names(x: Wanted, s: SKey) { x.supply == s.w && x.item == s.i }

  /** Line i is the last of the first k that names stock row s. */
  ghost predicate LastNaming(wanted: seq<Wanted>, k: nat, s: SKey, i: nat)
    requires k <= |wanted|
  {
    i < k && Names(wanted[i], s) && forall j :: i < j < k ==> !Names(wanted[j], s)
  }

  /** A stock row has the sale of the last line that names it, remote if it is another warehouse's; others stay. */
  ghost predicate StocksSold(stocks: map<SKey, Stock.Counters>, stocks': map<SKey, Stock.Counters>, w: nat,
                             wanted: seq<Wanted>, k: nat)
    requires k <= |wanted|
  {
    && stocks'.Keys == stocks.Keys
    && (forall s :: s in stocks && (forall i :: 0 <= i < k ==> !Names(wanted[i], s)) ==> stocks'[s] == stocks[s])
    && (forall s, i: nat {:trigger LastNaming(wanted, k, s, i)} :: s in stocks && LastNaming(wanted, k, s, i) ==>
          stocks'[s] == Stock.Sell(stocks[s], Stock.Sale(wanted[i].qty, wanted[i].supply != w)))
  }

  lemma {:induction false} NewSales(stocks: map<SKey, Stock.Counters>, w: nat, wanted: seq<Wanted>, k: nat)
    requires k <= |wanted| && forall i :: 0 <= i < |wanted| ==> StockKey(wanted[i]) in stocks
    ensures StocksSold(stocks, WithSales(stocks, w, wanted, k), w, wanted, k)
  {
    if k > 0 {
      NewSales(stocks, w, wanted, k - 1);
      var before, after := WithSales(stocks, w, wanted, k - 1), WithSales(stocks, w, wanted, k);
      forall s, i: nat | s in stocks && LastNaming(wanted, k, s, i)
        ensures after[s] == Stock.Sell(stocks[s], Stock.Sale(wanted[i].qty, wanted[i].supply != w))
      {
        if i < k - 1 {
          assert LastNaming(wanted, k - 1, s, i) && !Names(wanted[k - 1], s);
        }
      }
    }
  }

  /** What r holds if order o was placed in db. */
  ghost predicate Placed(db: Db, r: Db, w: nat, d: nat, c: nat, wanted: seq<Wanted>, date: nat, o: nat)
    requires DKey(w, d) in db.districts && forall i :: 0 <= i < |wanted| ==> wanted[i].item in db.items
  {
    var key, local := OKey(w, d, o), forall i :: 0 <= i < |wanted| ==> wanted[i].supply == w;
    && FIRST_OID <= o && key !in db.orders
    && r.orders == db.orders[key := Order(c, 0, |wanted|, local, date)]
    && r.newOrders == db.newOrders + {key} && r.customerOrders == db.customerOrders + {IKey(w, d, c, o)}
    && HasNewLines(db.lines, r.lines, db.items, key, wanted, |wanted|)
    && StocksSold(db.stocks, r.stocks, w, wanted, |wanted|)
    && r.districts == db.districts[DKey(w, d) := District(db.districts[DKey(w, d)].ytd, o)]
    && r == db.(orders := r.orders, newOrders := r.newOrders, customerOrders := r.customerOrders, lines := r.lines,
                stocks := r.stocks, districts := r.districts, oidGen := r.oidGen)
  }

  /**
    A new order whose rows all exist is placed under an unused id with one line per
    wanted item, unless an item has image id 0: then no row changes.
   */
  lemma NewOrderApplies(db: Db, w: nat, d: nat, c: nat, wanted: seq<Wanted>, date: nat)
    requires Coherent(db) && Deliverable(db)
    requires w in db.warehouses && DKey(w, d) in db.districts && CKey(w, d, c) in db.customers && |wanted| <= 15
    requires forall i :: 0 <= i < |wanted| ==>
               wanted[i].item in db.items && SKey(wanted[i].supply, wanted[i].item) in db.stocks
                 && 1 <= wanted[i].qty <= 10
    ensures var r := Apply(db, DoNewOrder(w, d, c, wanted, date));
            if exists i :: 0 <= i < |wanted| && db.items[wanted[i].item].imId == 0 then r == db.(oidGen := r.oidGen)
            else exists o :: Placed(db, r, w, d, c, wanted, date, o)
  {
    assert CanOrder(db, w, d, c, wanted);
    if !Unorderable(db, wanted) {
      PlacesOrder(db, w, d, c, wanted, date);
    }
  }

  lemma PlacesOrder(db: Db, w: nat, d: nat, c: nat, wanted: seq<Wanted>, date: nat)
    requires Coherent(db) && CanOrder(db, w, d, c, wanted)
    ensures Placed(db, NewOrder(db, w, d, c, wanted, date), w, d, c, wanted, date, NextOid(db.oidGen, w, d))
  {
    var key := OKey(w, d, NextOid(db.oidGen, w, d));
    assert key in db.orders ==> OrderOk(key, db.orders[key], db.newOrders, db.customers, db.oidGen);
    NoLinesYet(db.orders, db.lines, key);
    NewLines(db.lines, db.items, key, wanted);
    NewSales(db.stocks, w, wanted, |wanted|);
  }
}
