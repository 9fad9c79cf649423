/** The TPC-C conditions in every state that any run of transactions reaches from the loaded database. */
module TpccTheorems {
  import opened Sums
  import opened Tpcc
  import opened TpccOrders
  import opened TpccLedger
  import opened TpccYtd
  import opened TpccRuns
  import opened TpccOnce
  import opened TpccLoad

  /** The database after loading n warehouses as db and running txns. */
  ghost function Reached(db: Db, n: nat, txns: seq<Txn>): (r: Db)
    requires Loaded(db, n)
    ensures Inv(r)
  {
    LoadedIsConsistent(db, n);
    Run(db, txns)
  }

  /** Clauses 3.3.2.10 and 3.3.2.12: balance, payments and deliveries of every customer agree. */
  lemma CustomerLedger(db: Db, n: nat, txns: seq<Txn>, ck: CKey)
    requires Loaded(db, n)
    ensures var r := Reached(db, n, txns);
            ck in r.customers ==>
              && r.customers[ck].balance == Delivered(r.orders, r.lines, ck) - Paid(r.history, ck)
              && r.customers[ck].balance + r.customers[ck].ytdPayment == Delivered(r.orders, r.lines, ck)
              && r.customers[ck].paymentCnt == |Payments(r.history, ck)|
              && r.customers[ck].deliveryCnt == |Deliveries(r.orders, ck)|
  {
    var r := Reached(db, n, txns);
    if ck in r.customers {
      assert AccountOk(r.customers[ck], ck, r.orders, r.lines, r.history);
    }
  }

  /** Clauses 3.3.2.5 to 3.3.2.7: an order, its new-order row and its lines agree. */
  lemma OrdersCoherent(db: Db, n: nat, txns: seq<Txn>, k: OKey)
    requires Loaded(db, n)
    ensures var r := Reached(db, n, txns);
            k in r.orders ==>
              && (r.orders[k].carrier == 0 <==> k in r.newOrders)
              && (forall i: nat :: LineKey(k, i) in r.lines <==> 1 <= i <= r.orders[k].olCnt)
              && (forall i: nat :: LineKey(k, i) in r.lines ==>
                    (r.lines[LineKey(k, i)].delivered == 0 <==> r.orders[k].carrier == 0))
  {
    var r := Reached(db, n, txns);
    if k in r.orders {
      assert OrderOk(k, r.orders[k], r.newOrders, r.customers, r.oidGen);
      LinesOfOrder(r.orders, r.lines, k);
    }
  }

  /** A new-order row or a line never stands without its order. */
  lemma NoOrphans(db: Db, n: nat, txns: seq<Txn>)
    requires Loaded(db, n)
    ensures var r := Reached(db, n, txns);
            && (forall k :: k in r.newOrders ==> k in r.orders)
            && (forall l :: l in r.lines ==> OrderOf(l) in r.orders)
  {
    var r := Reached(db, n, txns);
    forall l | l in r.lines
      ensures OrderOf(l) in r.orders
    {
      assert LineOk(r.orders, l, r.lines[l]);
    }
  }

  /** The order-customer index holds exactly the orders, under their customers. */
  lemma IndexExact(db: Db, n: nat, txns: seq<Txn>, i: IKey)
    requires Loaded(db, n)
    ensures var r := Reached(db, n, txns);
            && (i in r.customerOrders <==> OKey(i.w, i.d, i.o) in r.orders && r.orders[OKey(i.w, i.d, i.o)].cid == i.c)
            && (i in r.customerOrders ==> 0 < i.o && CKey(i.w, i.d, i.c) in r.customers)
  {
    var r, k := Reached(db, n, txns), OKey(i.w, i.d, i.o);
    if i in r.customerOrders {
      assert OrderOk(k, r.orders[k], r.newOrders, r.customers, r.oidGen);
    }
  }

  /** Clause 3.3.2.1, and what each total has grown by since loading. */
  lemma YtdBalances(db: Db, n: nat, txns: seq<Txn>, w: nat)
    requires Loaded(db, n)
    ensures var r := Reached(db, n, txns);
            w in r.warehouses ==>
              && AllDistricts(r.districts, w, DISTRICTS)
              && r.warehouses[w] == DistrictSum(r.districts, w, DISTRICTS)
              && r.warehouses[w] == WAREHOUSE_YTD + Sum(PostedTo(r.history, w), HistoryAmount(r.history))
              && forall d :: 1 <= d <= DISTRICTS ==>
                   r.districts[DKey(w, d)].ytd == DISTRICT_YTD + Sum(PostedAt(r.history, w, d),
                                                                     HistoryAmount(r.history))
  {
    var r := Reached(db, n, txns);
    if w in r.warehouses {
      assert WarehouseOk(w, r.warehouses[w], r.districts, r.history);
      forall d | 1 <= d <= DISTRICTS
        ensures r.districts[DKey(w, d)].ytd == DISTRICT_YTD + Sum(PostedAt(r.history, w, d), HistoryAmount(r.history))
      {
        assert DistrictOk(DKey(w, d), r.districts[DKey(w, d)], r.history);
      }
    }
  }

  /** An order is settled in two states: same row, same lines, and no new-order row in the later one. */
  ghost predicate Settled(r: Db, later: Db, k: OKey) {
    && k in r.orders && k in later.orders && later.orders[k] == r.orders[k] && k !in later.newOrders
    && forall i :: 1 <= i <= r.orders[k].olCnt ==>
         LineKey(k, i) in r.lines && LineKey(k, i) in later.lines
           && later.lines[LineKey(k, i)] == r.lines[LineKey(k, i)]
  }

  /**
    Whatever runs next and whatever the delivery scans propose, a delivered order
    is never delivered again: its row and its lines stay as they are and no
    new-order row comes back for it.
   */
  lemma DeliveredAtMostOnce(db: Db, n: nat, txns: seq<Txn>, more: seq<Txn>, k: OKey)
    requires Loaded(db, n)
    ensures var r := Reached(db, n, txns);
            k in r.orders && r.orders[k].carrier != 0 ==> Settled(r, Run(r, more), k)
  {
    var r := Reached(db, n, txns);
    if k in r.orders && r.orders[k].carrier != 0 {
      var later := Run(r, more);
      RunFollows(r, more);
      assert OrderOk(k, r.orders[k], r.newOrders, r.customers, r.oidGen);
      assert OrderStays(k, r.orders[k], k in r.newOrders, later.orders, later.newOrders);
      DeliveredLinesStay(r.orders, r.lines, later.lines, k);
    }
  }

  /** An order that appears later has an id above every id its district had handed out. */
  lemma IdsNeverReused(db: Db, n: nat, txns: seq<Txn>, more: seq<Txn>, k: OKey, j: OKey)
    requires Loaded(db, n)
    ensures var r := Reached(db, n, txns);
            k in r.orders && j in Run(r, more).orders && j !in r.orders && j.w == k.w && j.d == k.d ==> k.o < j.o
  {
    var r := Reached(db, n, txns);
    if k in r.orders && j in Run(r, more).orders && j !in r.orders {
      RunFollows(r, more);
      assert OrderOk(k, r.orders[k], r.newOrders, r.customers, r.oidGen);
      assert NotDrawn(j, r.oidGen);
    }
  }
}
