/** The loaded database, and that it satisfies every condition the transactions keep. */
module TpccLoad {
  import opened Sums
  import opened Tpcc
  import opened TpccOrders
  import opened TpccLedger
  import opened TpccYtd
  import opened TpccRuns
  import Stock

  const ITEMS: nat := 100000
  const FIRST_CUSTOMER: Customer := Customer(-1000, 1000, 1, 0)
  const FIRST_PAYMENT: int := 1000

  ghost predicate WarehousesLoaded(t: map<nat, int>, n: nat) {
    && (forall w :: w in t <==> 1 <= w <= n)
    && (forall w :: w in t ==> t[w] == WAREHOUSE_YTD)
  }

  ghost predicate DistrictsLoaded(t: map<DKey, District>, n: nat) {
    && (forall k :: k in t <==> 1 <= k.w <= n && 1 <= k.d <= DISTRICTS)
    && (forall k :: k in t ==> t[k] == District(DISTRICT_YTD, FIRST_OID))
  }

  ghost predicate CustomersLoaded(t: map<CKey, Customer>, n: nat) {
    && (forall k :: k in t <==> 1 <= k.w <= n && 1 <= k.d <= DISTRICTS && 1 <= k.c <= CUSTOMERS)
    && (forall k :: k in t ==> t[k] == FIRST_CUSTOMER)
  }

  /** History rows are numbered in loading order, one per customer. */
  function Numbered(d: nat, c: nat): int { (d - 1) * CUSTOMERS + c - 1 }

  ghost predicate RowLoaded(h: HKey, row: History) {
    row.cw == h.table && row.cd == h.d && row.c == h.c && row.amount == FIRST_PAYMENT
  }

  ghost predicate HistoryRows(t: map<HKey, History>, n: nat) {
    && (forall h :: h in t <==>
          1 <= h.table <= n && h.w == h.table && 1 <= h.d <= DISTRICTS && 1 <= h.c <= CUSTOMERS
            && h.h == Numbered(h.d, h.c))
    && (forall h :: h in t ==> RowLoaded(h, t[h]))
  }

  ghost predicate HistoryCounters(gen: map<nat, nat>, n: nat) {
    forall w :: 1 <= w <= n ==> NextHistory(gen, w) == LOADED_ROWS
  }

  /** Orders below 2101 are delivered, with lines of amount 0; the others are open. */
  ghost predicate OrderLoaded(k: OKey, order: Order) {
    && 1 <= order.cid <= CUSTOMERS && 5 <= order.olCnt <= MAX_LINES && order.allLocal && 0 < order.entryDate
    && (if k.o < FIRST_OPEN then 1 <= order.carrier <= 10 else order.carrier == 0)
  }

  ghost predicate OrdersLoaded(t: map<OKey, Order>, n: nat) {
    && (forall k :: k in t <==> 1 <= k.w <= n && 1 <= k.d <= DISTRICTS && 1 <= k.o <= CUSTOMERS)
    && (forall k :: k in t ==> OrderLoaded(k, t[k]))
  }

  ghost predicate LineLoaded(order: Order, l: LKey, line: Line) {
    && 1 <= line.item <= ITEMS && line.supply == l.w && line.qty == 5
    && (if l.o < FIRST_OPEN then line.delivered == order.entryDate && line.amount == 0
        else line.delivered == 0 && 1 <= line.amount <= MAX_AMOUNT)
  }

  ghost predicate LinesLoaded(orders: map<OKey, Order>, t: map<LKey, Line>) {
    && (forall l :: l in t <==> OrderOf(l) in orders && 1 <= l.n <= orders[OrderOf(l)].olCnt)
    && (forall l :: l in t ==> LineLoaded(orders[OrderOf(l)], l, t[l]))
  }

  ghost predicate NewOrdersLoaded(orders: map<OKey, Order>, t: set<OKey>) {
    forall k :: k in t <==> k in orders && FIRST_OPEN <= k.o
  }

  ghost predicate StocksLoaded(t: map<SKey, Stock.Counters>, n: nat) {
    && (forall s :: s in t <==> 1 <= s.w <= n && 1 <= s.i <= ITEMS)
    && (forall s :: s in t ==> Stock.InRange(t[s].quantity) && t[s].ytd == t[s].orderCnt == t[s].remoteCnt == 0)
  }

  ghost predicate ItemsLoaded(t: map<nat, Item>) {
    && (forall i :: i in t <==> 1 <= i <= ITEMS)
    && (forall i :: i in t ==> 1 <= t[i].imId <= 10000 && 100 <= t[i].price <= MAX_PRICE)
  }

  ghost predicate Loaded(db: Db, n: nat) {
    && ItemsLoaded(db.items) && WarehousesLoaded(db.warehouses, n)
    && StocksLoaded(db.stocks, n) && DistrictsLoaded(db.districts, n) && CustomersLoaded(db.customers, n)
    && HistoryRows(db.history, n) && HistoryCounters(db.historyGen, n)
    && OrdersLoaded(db.orders, n) && NewOrdersLoaded(db.orders, db.newOrders) && LinesLoaded(db.orders, db.lines)
    && IndexOk(db.orders, db.customerOrders)
    && db.oidGen == map[]
  }

  // ------------------------------------------------------------ the loaded database satisfies the invariant

  lemma LoadedOrdersOk(customers: map<CKey, Customer>, orders: map<OKey, Order>, newOrders: set<OKey>, n: nat)
    requires CustomersLoaded(customers, n) && OrdersLoaded(orders, n) && NewOrdersLoaded(orders, newOrders)
    ensures OrdersOk(customers, orders, newOrders, map[])
  {
    forall k | k in orders
      ensures OrderOk(k, orders[k], newOrders, customers, map[])
    {
      assert OrderLoaded(k, orders[k]);
      assert CustomerOf(k, orders[k]) in customers;
    }
  }

  lemma LoadedLinesOk(orders: map<OKey, Order>, lines: map<LKey, Line>, n: nat)
    requires OrdersLoaded(orders, n) && LinesLoaded(orders, lines)
    ensures LinesOk(orders, lines)
  {
    forall l | l in lines
      ensures LineOk(orders, l, lines[l])
    {
      assert OrderLoaded(OrderOf(l), orders[OrderOf(l)]);
    }
    forall k, i | k in orders && 1 <= i <= orders[k].olCnt
      ensures LineKey(k, i) in lines
    {
      assert OrderOf(LineKey(k, i)) == k;
    }
  }

  lemma LoadedDelivered(orders: map<OKey, Order>, lines: map<LKey, Line>, n: nat, ck: CKey)
    requires OrdersLoaded(orders, n) && LinesLoaded(orders, lines)
    ensures Delivered(orders, lines, ck) == 0 && Deliveries(orders, ck) == {}
  {
    forall l | l in DeliveredLines(orders, lines, ck)
      ensures AmountOf(lines)(l) == 0
    {
      assert LineLoaded(orders[OrderOf(l)], l, lines[l]);
    }
    SumZero(DeliveredLines(orders, lines, ck), AmountOf(lines));
    assert forall k :: k in orders ==> OrderLoaded(k, orders[k]);
  }

  lemma LoadedPaid(history: map<HKey, History>, n: nat, ck: CKey)
    requires HistoryRows(history, n) && 1 <= ck.w <= n && 1 <= ck.d <= DISTRICTS && 1 <= ck.c <= CUSTOMERS
    ensures Paid(history, ck) == FIRST_PAYMENT && |Payments(history, ck)| == 1
  {
    var h := HKey(ck.w, ck.w, ck.d, ck.c, Numbered(ck.d, ck.c));
    assert forall x :: x in history ==> RowLoaded(x, history[x]);
    assert Payments(history, ck) == {h};
    SumAdd({}, HistoryAmount(history), h);
    assert {} + {h} == {h};
  }

  lemma LoadedLedger(customers: map<CKey, Customer>, orders: map<OKey, Order>, lines: map<LKey, Line>,
                     history: map<HKey, History>, n: nat)
    requires CustomersLoaded(customers, n) && OrdersLoaded(orders, n) && LinesLoaded(orders, lines)
    requires HistoryRows(history, n)
    ensures Ledger(customers, orders, lines, history)
  {
    forall ck | ck in customers
      ensures AccountOk(customers[ck], ck, orders, lines, history)
    {
      LoadedDelivered(orders, lines, n, ck);
      LoadedPaid(history, n, ck);
    }
  }

  lemma {:induction false} LoadedDistrictSum(districts: map<DKey, District>, n: nat, w: nat, k: nat)
    requires DistrictsLoaded(districts, n) && 1 <= w <= n && k <= DISTRICTS
    ensures AllDistricts(districts, w, k) && DistrictSum(districts, w, k) == DISTRICT_YTD * k
  {
    if k > 0 {
      LoadedDistrictSum(districts, n, w, k - 1);
    }
  }

  lemma LoadedNumbers(history: map<HKey, History>, n: nat, h: HKey)
    requires HistoryRows(history, n) && h in history
    ensures h.h < LOADED_ROWS
  {
  }

  lemma LoadedYtd(warehouses: map<nat, int>, districts: map<DKey, District>, history: map<HKey, History>, n: nat)
    requires WarehousesLoaded(warehouses, n) && DistrictsLoaded(districts, n) && HistoryRows(history, n)
    ensures Ytd(warehouses, districts, history)
  {
    forall h | h in history
      ensures h.h < LOADED_ROWS
    {
      LoadedNumbers(history, n, h);
    }
    forall k | k in districts
      ensures DistrictOk(k, districts[k], history)
    {
      assert PostedAt(history, k.w, k.d) == {};
    }
    forall w | w in warehouses
      ensures WarehouseOk(w, warehouses[w], districts, history)
    {
      assert PostedTo(history, w) == {};
      LoadedDistrictSum(districts, n, w, DISTRICTS);
    }
  }

  lemma LoadedHistory(customers: map<CKey, Customer>, history: map<HKey, History>, gen: map<nat, nat>, n: nat)
    requires CustomersLoaded(customers, n) && HistoryRows(history, n) && HistoryCounters(gen, n)
    ensures HistoryOk(history, gen) && HistoryLoaded(customers, gen)
  {
    forall h | h in history
      ensures h.h < NextHistory(gen, h.table)
    {
      LoadedNumbers(history, n, h);
    }
  }

  lemma LoadedIsConsistent(db: Db, n: nat)
    requires Loaded(db, n)
    ensures Inv(db)
  {
    LoadedOrdersOk(db.customers, db.orders, db.newOrders, n);
    LoadedLinesOk(db.orders, db.lines, n);
    LoadedLedger(db.customers, db.orders, db.lines, db.history, n);
    LoadedYtd(db.warehouses, db.districts, db.history, n);
    LoadedHistory(db.customers, db.history, db.historyGen, n);
  }
}
