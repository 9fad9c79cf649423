/** The loading loops, table by table. Random fields are nondeterministic choices in their ranges. */
module TpccLoader {
  import opened Tpcc
  import opened TpccOrders
  import opened TpccLedger
  import opened TpccYtd
  import opened TpccLoad
  import Stock

  /** Keys loaded before row (w, d, i) when warehouses, districts and rows are filled in that order. */
  predicate Before(kw: nat, kd: nat, ki: nat, w: nat, d: nat, i: nat) {
    && 1 <= kw && 1 <= kd <= DISTRICTS && 1 <= ki <= CUSTOMERS
    && (kw < w || (kw == w && (kd < d || (kd == d && ki < i))))
  }

  /** One shuffle of the customer ids per district. */
  ghost predicate Shuffles(perms: seq<seq<nat>>) {
    && |perms| == DISTRICTS
    && (forall d :: 0 <= d < DISTRICTS ==> |perms[d]| == CUSTOMERS)
    && (forall d, i :: 0 <= d < DISTRICTS && 0 <= i < CUSTOMERS ==> 1 <= perms[d][i] <= CUSTOMERS)
    && (forall d, c :: 0 <= d < DISTRICTS && 1 <= c <= CUSTOMERS ==> c in perms[d])
    && (forall d, i, j :: 0 <= d < DISTRICTS && 0 <= i < j < CUSTOMERS ==> perms[d][i] != perms[d][j])
  }

  /** Its own shuffles for each of n warehouses. */
  ghost predicate AllShuffled(perms: seq<seq<seq<nat>>>, n: nat) {
    |perms| == n && forall w :: 0 <= w < n ==> Shuffles(perms[w])
  }

  /** The customer that the shuffles give order k. */
  function Shuffled(perms: seq<seq<seq<nat>>>, k: OKey): nat {
    if 1 <= k.w <= |perms| && 1 <= k.d <= |perms[k.w - 1]| && 1 <= k.o <= |perms[k.w - 1][k.d - 1]|
    then perms[k.w - 1][k.d - 1][k.o - 1] else 0
  }

  ghost predicate Assigned(orders: map<OKey, Order>, perms: seq<seq<seq<nat>>>) {
    forall k :: k in orders ==> orders[k].cid == Shuffled(perms, k)
  }

  /** The order is the customer's. */
  predicate Has(orders: map<OKey, Order>, ck: CKey, o: nat) {
    OKey(ck.w, ck.d, o) in orders && orders[OKey(ck.w, ck.d, o)].cid == ck.c
  }

  /** Every loaded customer has an order, and only one. */
  lemma OneOrderEach(orders: map<OKey, Order>, perms: seq<seq<seq<nat>>>, n: nat, ck: CKey)
    requires AllShuffled(perms, n) && OrdersLoaded(orders, n) && Assigned(orders, perms)
    requires 1 <= ck.w <= n && 1 <= ck.d <= DISTRICTS && 1 <= ck.c <= CUSTOMERS
    ensures exists o :: Has(orders, ck, o) && forall j :: Has(orders, ck, j) ==> j == o
  {
    var perm := perms[ck.w - 1][ck.d - 1];
    assert ck.c in perm;
    var i :| 0 <= i < |perm| && perm[i] == ck.c;
    assert Has(orders, ck, i + 1);
    forall j | Has(orders, ck, j)
      ensures j == i + 1
    {
      assert perm[j - 1] == ck.c;
    }
  }

  ghost predicate OrdersUpTo(orders: map<OKey, Order>, wid: nat, d: nat, o: nat) {
    && (forall k :: k in orders <==> Before(k.w, k.d, k.o, wid, d, o))
    && (forall k :: k in orders ==> OrderLoaded(k, orders[k]))
  }

  lemma OrderAdded(orders: map<OKey, Order>, order: Order, perms: seq<seq<seq<nat>>>, wid: nat, d: nat, o: nat)
    requires 1 <= wid && 1 <= d <= DISTRICTS && 1 <= o <= CUSTOMERS
    requires OrdersUpTo(orders, wid, d, o) && Assigned(orders, perms)
    requires OrderLoaded(OKey(wid, d, o), order) && order.cid == Shuffled(perms, OKey(wid, d, o))
    ensures var all := orders[OKey(wid, d, o) := order]; OrdersUpTo(all, wid, d, o + 1) && Assigned(all, perms)
  {
  }

  lemma DistrictFull(orders: map<OKey, Order>, wid: nat, d: nat)
    requires 1 <= d && OrdersUpTo(orders, wid, d, CUSTOMERS + 1)
    ensures OrdersUpTo(orders, wid, d + 1, 1)
  {
  }

  ghost predicate HistoryUpTo(history: map<HKey, History>, wid: nat, d: nat, c: nat) {
    && (forall h :: h in history <==>
          Before(h.table, h.d, h.c, wid, d, c) && h.w == h.table && h.h == Numbered(h.d, h.c))
    && (forall h :: h in history ==> RowLoaded(h, history[h]))
  }

  ghost predicate CountersLoaded(gen: map<nat, nat>, wid: nat) {
    && (forall w :: 1 <= w < wid ==> NextHistory(gen, w) == LOADED_ROWS)
    && (forall w :: wid <= w ==> w !in gen)
  }

  lemma RowAdded(history: map<HKey, History>, wid: nat, d: nat, c: nat, w: nat, e: nat)
    requires HistoryUpTo(history, wid, d, c) && 1 <= wid && 1 <= d <= DISTRICTS && 1 <= c <= CUSTOMERS
    ensures HistoryUpTo(history[HKey(wid, wid, d, c, Numbered(d, c)) := History(wid, d, c, w, e, FIRST_PAYMENT)],
                        wid, d, c + 1)
  {
  }

  lemma CountersMove(gen: map<nat, nat>, gen': map<nat, nat>, wid: nat)
    requires CountersLoaded(gen, wid) && gen' - {wid} == gen && NextHistory(gen', wid) == LOADED_ROWS
    ensures CountersLoaded(gen', wid + 1)
  {
    forall w | w != wid
      ensures (w in gen' <==> w in gen) && NextHistory(gen', w) == NextHistory(gen, w)
    {
      assert w in gen' <==> w in gen' - {wid};
      assert w in gen ==> (gen' - {wid})[w] == gen'[w];
    }
  }

  lemma AllLoaded(orders: map<OKey, Order>, gen: map<nat, nat>, n: nat)
    requires OrdersUpTo(orders, n + 1, 1, 1) && CountersLoaded(gen, n + 1)
    ensures OrdersLoaded(orders, n) && HistoryCounters(gen, n)
  {
  }

  class Prepopulator {
    var warehouses: map<nat, int>
    var districts: map<DKey, District>
    var customers: map<CKey, Customer>
    var orders: map<OKey, Order>
    var newOrders: set<OKey>
    var lines: map<LKey, Line>
    var customerOrders: set<IKey>
    var history: map<HKey, History>
    var stocks: map<SKey, Stock.Counters>
    var items: map<nat, Item>
    var oidGen: map<(nat, nat), nat>
    var historyGen: map<nat, nat>

    ghost function View(): Db
      reads this
    {
      Db(warehouses, districts, customers, orders, newOrders, lines, customerOrders, history, stocks, items, oidGen,
         historyGen)
    }

    constructor ()
      ensures View() == Db(map[], map[], map[], map[], {}, map[], {}, map[], map[], map[], map[], map[])
    {
      warehouses, districts, customers := map[], map[], map[];
      orders, newOrders, lines, customerOrders := map[], {}, map[], {};
      history, stocks, items, oidGen, historyGen := map[], map[], map[], map[], map[];
    }

    /** The phases are separated by barriers; within a phase each warehouse fills its own tables. */
    method Load(n: nat, perms: seq<seq<seq<nat>>>)
      requires View() == Db(map[], map[], map[], map[], {}, map[], {}, map[], map[], map[], map[], map[])
      requires AllShuffled(perms, n)
      modifies this
      ensures Loaded(View(), n) && Assigned(orders, perms)
    {
      LoadStatic(n);
      LoadActivity(n, perms);
    }

    method LoadStatic(n: nat)
      requires items == map[] && warehouses == map[] && stocks == map[] && districts == map[] && customers == map[]
      modifies this`items, this`warehouses, this`stocks, this`districts, this`customers
      ensures ItemsLoaded(items) && WarehousesLoaded(warehouses, n)
      ensures StocksLoaded(stocks, n) && DistrictsLoaded(districts, n) && CustomersLoaded(customers, n)
    {
      FillItems();
      FillWarehouses(n);
      ExpandWarehouses(n);
      ExpandDistricts(n);
    }

    method LoadActivity(n: nat, perms: seq<seq<seq<nat>>>)
      requires history == map[] && historyGen == map[]
      requires orders == map[] && newOrders == {} && lines == map[] && customerOrders == {} && AllShuffled(perms, n)
      modifies this`history, this`historyGen, this`orders, this`newOrders, this`lines, this`customerOrders
      ensures HistoryRows(history, n) && HistoryCounters(historyGen, n) && OrdersLoaded(orders, n) && OrderTablesOk()
      ensures Assigned(orders, perms)
    {
      LoadHistories(n);
      LoadAllOrders(n, perms);
      AllLoaded(orders, historyGen, n);
    }

    method ExpandWarehouses(n: nat)
      requires stocks == map[] && districts == map[]
      modifies this`stocks, this`districts
      ensures StocksLoaded(stocks, n) && DistrictsLoaded(districts, n)
    {
      var wid := 1;
      while wid <= n
        invariant 1 <= wid <= n + 1
        invariant StocksLoaded(stocks, wid - 1) && DistrictsLoaded(districts, wid - 1)
      {
        LoadStocks(wid);
        LoadDistricts(wid);
        wid := wid + 1;
      }
    }

    method ExpandDistricts(n: nat)
      requires customers == map[]
      modifies this`customers
      ensures CustomersLoaded(customers, n)
    {
      var wid := 1;
      while wid <= n
        invariant 1 <= wid <= n + 1
        invariant CustomersLoaded(customers, wid - 1)
      {
        LoadCustomers(wid);
        wid := wid + 1;
      }
    }

    method LoadHistories(n: nat)
      requires history == map[] && historyGen == map[]
      modifies this`history, this`historyGen
      ensures HistoryRows(history, n) && CountersLoaded(historyGen, n + 1)
    {
      var wid := 1;
      while wid <= n
        invariant 1 <= wid <= n + 1
        invariant HistoryRows(history, wid - 1) && CountersLoaded(historyGen, wid)
      {
        LoadHistory(wid);
        wid := wid + 1;
      }
    }

    method LoadAllOrders(n: nat, perms: seq<seq<seq<nat>>>)
      requires orders == map[] && newOrders == {} && lines == map[] && customerOrders == {} && AllShuffled(perms, n)
      modifies this`orders, this`newOrders, this`lines, this`customerOrders
      ensures OrdersUpTo(orders, n + 1, 1, 1) && OrderTablesOk() && Assigned(orders, perms)
    {
      var wid := 1;
      while wid <= n
        invariant 1 <= wid <= n + 1
        invariant OrdersUpTo(orders, wid, 1, 1) && OrderTablesOk() && Assigned(orders, perms)
      {
        LoadOrders(wid, perms);
        wid := wid + 1;
      }
    }

    method FillItems()
      requires items == map[]
      modifies this`items
      ensures ItemsLoaded(items)
    {
      var i := 1;
      while i <= ITEMS
        invariant 1 <= i <= ITEMS + 1
        invariant forall k :: k in items <==> 1 <= k < i
        invariant forall k :: k in items ==> 1 <= items[k].imId <= 10000 && 100 <= items[k].price <= MAX_PRICE
      {
        var imId: nat :| 1 <= imId <= 10000;
        var price: nat :| 100 <= price <= MAX_PRICE;
        items := items[i := Item(imId, price)];
        i := i + 1;
      }
    }

    method FillWarehouses(n: nat)
      requires warehouses == map[]
      modifies this`warehouses
      ensures WarehousesLoaded(warehouses, n)
    {
      var wid := 1;
      while wid <= n
        invariant 1 <= wid <= n + 1
        invariant WarehousesLoaded(warehouses, wid - 1)
      {
        warehouses := warehouses[wid := WAREHOUSE_YTD];
        wid := wid + 1;
      }
    }

    method LoadStocks(wid: nat)
      requires 1 <= wid && StocksLoaded(stocks, wid - 1)
      modifies this`stocks
      ensures StocksLoaded(stocks, wid)
    {
      var i := 1;
      while i <= ITEMS
        invariant 1 <= i <= ITEMS + 1
        invariant forall s :: s in stocks <==> 1 <= s.i <= ITEMS && (1 <= s.w < wid || (s.w == wid && s.i < i))
        invariant forall s :: s in stocks ==>
                    Stock.InRange(stocks[s].quantity) && stocks[s].ytd == stocks[s].orderCnt == stocks[s].remoteCnt == 0
      {
        var q: int :| 10 <= q <= 100;
        stocks := stocks[SKey(wid, i) := Stock.Counters(q, 0, 0, 0)];
        i := i + 1;
      }
    }

    method LoadDistricts(wid: nat)
      requires 1 <= wid && DistrictsLoaded(districts, wid - 1)
      modifies this`districts
      ensures DistrictsLoaded(districts, wid)
    {
      var d := 1;
      while d <= DISTRICTS
        invariant 1 <= d <= DISTRICTS + 1
        invariant forall k :: k in districts <==> 1 <= k.d <= DISTRICTS && (1 <= k.w < wid || (k.w == wid && k.d < d))
        invariant forall k :: k in districts ==> districts[k] == District(DISTRICT_YTD, FIRST_OID)
      {
        districts := districts[DKey(wid, d) := District(DISTRICT_YTD, FIRST_OID)];
        d := d + 1;
      }
    }

    method LoadCustomers(wid: nat)
      requires 1 <= wid && CustomersLoaded(customers, wid - 1)
      modifies this`customers
      ensures CustomersLoaded(customers, wid)
    {
      var d := 1;
      while d <= DISTRICTS
        invariant 1 <= d <= DISTRICTS + 1
        invariant forall k :: k in customers <==> Before(k.w, k.d, k.c, wid, d, 1)
        invariant forall k :: k in customers ==> customers[k] == FIRST_CUSTOMER
      {
        var c := 1;
        while c <= CUSTOMERS
          invariant 1 <= c <= CUSTOMERS + 1
          invariant forall k :: k in customers <==> Before(k.w, k.d, k.c, wid, d, c)
          invariant forall k :: k in customers ==> customers[k] == FIRST_CUSTOMER
        {
          customers := customers[CKey(wid, d, c) := FIRST_CUSTOMER];
          c := c + 1;
        }
        d := d + 1;
      }
    }

    /** The paying warehouse and district of a loaded row are never set. */
    method LoadHistory(wid: nat)
      requires 1 <= wid && HistoryRows(history, wid - 1) && CountersLoaded(historyGen, wid)
      modifies this`history, this`historyGen
      ensures HistoryRows(history, wid) && CountersLoaded(historyGen, wid + 1)
    {
      var d := 1;
      while d <= DISTRICTS
        invariant 1 <= d <= DISTRICTS + 1
        invariant HistoryUpTo(history, wid, d, 1)
        invariant NextHistory(historyGen, wid) == Numbered(d, 1) && historyGen - {wid} == old(historyGen)
      {
        var c := 1;
        while c <= CUSTOMERS
          invariant 1 <= c <= CUSTOMERS + 1
          invariant HistoryUpTo(history, wid, d, c)
          invariant NextHistory(historyGen, wid) == Numbered(d, c) && historyGen - {wid} == old(historyGen)
        {
          var w: nat, e: nat := *, *;
          RowAdded(history, wid, d, c, w, e);
          history := history[HKey(wid, wid, d, c, NextHistory(historyGen, wid)) :=
                             History(wid, d, c, w, e, FIRST_PAYMENT)];
          historyGen := HistoryDrawn(historyGen, wid);
          c := c + 1;
        }
        d := d + 1;
      }
      CountersMove(old(historyGen), historyGen, wid);
    }

    ghost predicate OrderTablesOk()
      reads this`orders, this`newOrders, this`lines, this`customerOrders
    {
      NewOrdersLoaded(orders, newOrders) && LinesLoaded(orders, lines) && IndexOk(orders, customerOrders)
    }

    method LoadOrders(wid: nat, perms: seq<seq<seq<nat>>>)
      requires 1 <= wid <= |perms| && OrdersUpTo(orders, wid, 1, 1) && OrderTablesOk() && Shuffles(perms[wid - 1])
      requires Assigned(orders, perms)
      modifies this`orders, this`newOrders, this`lines, this`customerOrders
      ensures OrdersUpTo(orders, wid + 1, 1, 1) && OrderTablesOk() && Assigned(orders, perms)
    {
      var d := 1;
      while d <= DISTRICTS
        invariant 1 <= d <= DISTRICTS + 1
        invariant OrdersUpTo(orders, wid, d, 1) && OrderTablesOk() && Assigned(orders, perms)
      {
        LoadDistrictOrders(wid, d, perms);
        d := d + 1;
      }
    }

    method LoadDistrictOrders(wid: nat, d: nat, perms: seq<seq<seq<nat>>>)
      requires 1 <= wid <= |perms| && 1 <= d <= DISTRICTS && Shuffles(perms[wid - 1])
      requires OrdersUpTo(orders, wid, d, 1) && OrderTablesOk() && Assigned(orders, perms)
      modifies this`orders, this`newOrders, this`lines, this`customerOrders
      ensures OrdersUpTo(orders, wid, d + 1, 1) && OrderTablesOk() && Assigned(orders, perms)
    {
      var o := 1;
      while o <= CUSTOMERS
        invariant 1 <= o <= CUSTOMERS + 1
        invariant OrdersUpTo(orders, wid, d, o) && OrderTablesOk() && Assigned(orders, perms)
      {
        var k, cid := OKey(wid, d, o), perms[wid - 1][d - 1][o - 1];
        assert cid == Shuffled(perms, k) && k !in orders;
        ghost var before := orders;
        LoadOrder(k, cid);
        OrderAdded(before, orders[k], perms, wid, d, o);
        o := o + 1;
      }
      DistrictFull(orders, wid, d);
    }

    method LoadOrder(k: OKey, cid: nat)
      requires k !in orders && 1 <= cid <= CUSTOMERS && OrderTablesOk()
      modifies this`orders, this`newOrders, this`lines, this`customerOrders
      ensures OrderTablesOk()
      ensures k in orders && OrderLoaded(k, orders[k]) && orders == old(orders)[k := orders[k]] && orders[k].cid == cid
    {
      var cnt: nat :| 5 <= cnt <= MAX_LINES;
      var date: nat :| 1 <= date <= 0xFFFF_FFFF;
      var carrier: nat := 0;
      if k.o < FIRST_OPEN {
        carrier :| 1 <= carrier <= 10;
      }
      orders := orders[k := Order(cid, carrier, cnt, true, date)];
      customerOrders := customerOrders + {IKey(k.w, k.d, cid, k.o)};
      LoadLines(k, cnt, date, old(orders));
      if FIRST_OPEN <= k.o {
        newOrders := newOrders + {k};
      }
    }

    method LoadLines(k: OKey, cnt: nat, date: nat, ghost before: map<OKey, Order>)
      requires k in orders && k !in before && orders == before[k := orders[k]] && orders[k].olCnt == cnt
      requires 0 < date == orders[k].entryDate
      requires LinesLoaded(before, lines)
      modifies this`lines
      ensures LinesLoaded(orders, lines)
    {
      var i := 1;
      while i <= cnt
        invariant 1 <= i <= cnt + 1
        invariant forall l :: l in lines <==>
                    (OrderOf(l) in before && 1 <= l.n <= before[OrderOf(l)].olCnt) || (OrderOf(l) == k && 1 <= l.n < i)
        invariant forall l :: l in lines ==> LineLoaded(orders[OrderOf(l)], l, lines[l])
      {
        var item: nat :| 1 <= item <= ITEMS;
        var amount := 0;
        if FIRST_OPEN <= k.o {
          amount :| 1 <= amount <= MAX_AMOUNT;
        }
        lines := lines[LKey(k.w, k.d, k.o, i) := Line(item, k.w, 5, amount, if k.o < FIRST_OPEN then date else 0)];
        i := i + 1;
      }
    }
  }
}
