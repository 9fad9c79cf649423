/** Every run of the three transactions from the loaded database keeps all the conditions. */
module TpccRuns {
  import opened Options
  import opened Sums
  import opened Tpcc
  import opened TpccOrders
  import opened TpccLedger
  import opened TpccYtd

  ghost predicate Inv(db: Db) {
    && Coherent(db)
    && Ledger(db.customers, db.orders, db.lines, db.history)
    && HistoryOk(db.history, db.historyGen)
    && Ytd(db.warehouses, db.districts, db.history)
    && HistoryLoaded(db.customers, db.historyGen)
  }

  lemma NewOrderKeepsInv(db: Db, w: nat, d: nat, c: nat, wanted: seq<Wanted>, date: nat)
    requires Inv(db) && CanOrder(db, w, d, c, wanted)
    ensures Inv(NewOrder(db, w, d, c, wanted, date))
  {
    NewOrderKeeps(db, w, d, c, wanted, date);
    NewOrderKeepsLedger(db, w, d, c, wanted, date);
    OtherColumnKeeps(db.warehouses, db.districts, db.history, DKey(w, d), NextOid(db.oidGen, w, d));
  }

  lemma ChargeKeepsOrders(customers: map<CKey, Customer>, orders: map<OKey, Order>, newOrders: set<OKey>,
                          gen: map<(nat, nat), nat>, ck: CKey, x: Customer)
    requires OrdersOk(customers, orders, newOrders, gen)
    ensures OrdersOk(customers[ck := x], orders, newOrders, gen)
  {
    forall k | k in orders
      ensures OrderOk(k, orders[k], newOrders, customers[ck := x], gen)
    {
      assert OrderOk(k, orders[k], newOrders, customers, gen);
    }
  }

  lemma PaymentKeepsInv(db: Db, w: nat, d: nat, ck: CKey, amount: int)
    requires Inv(db) && CanPay(db, w, d, ck)
    ensures Inv(Payment(db, w, d, ck, amount))
  {
    var x := Charged(db.customers[ck], amount);
    ChargeKeepsOrders(db.customers, db.orders, db.newOrders, db.oidGen, ck, x);
    PaymentKeepsLedger(db, w, d, ck, amount);
    PaymentKeepsYtd(db, w, d, ck, amount);
    DrawKeepsHistory(db.history, db.historyGen, PaymentKey(db.historyGen, w, d, ck),
                     History(ck.w, ck.d, ck.c, w, d, amount));
    DrawKeepsLoaded(db.customers, db.historyGen, ck, x, ck.w);
  }

  lemma DeliverOrderKeepsInv(db: Db, k: OKey, carrier: nat, date: nat)
    requires Inv(db) && k in db.newOrders && 0 < carrier && 0 < date && CanDeliver(db, k)
    ensures Inv(DeliverOrder(db, k, carrier, date))
  {
    DeliverOrderKeeps(db, k, carrier, date);
    DeliverOrderKeepsLedger(db, k, carrier, date);
  }

  lemma {:induction false} DeliverKeepsInv(db: Db, w: nat, proposals: seq<nat>, carrier: nat, date: nat, d: nat)
    requires Inv(db) && Deliverable(db) && d <= |proposals| && 0 < carrier && 0 < date
    ensures var r := Deliver(db, w, proposals, carrier, date, d); r.Some? ==> Inv(r.value)
  {
    if d > 0 {
      DeliverKeepsInv(db, w, proposals, carrier, date, d - 1);
      var before := Deliver(db, w, proposals, carrier, date, d - 1);
      var k := OKey(w, d, proposals[d - 1]);
      if before.Some? && k in before.value.newOrders {
        assert k in before.value.orders;
        DeliverOrderKeepsInv(before.value, k, carrier, date);
      }
    }
  }

  lemma DrawsKeepInv(db: Db, w: nat, d: nat)
    requires Inv(db)
    ensures Inv(DrawOid(db, w, d)) && Inv(DrawHistoryKey(db, w))
  {
    DrawKeeps(db.customers, db.orders, db.newOrders, db.oidGen, w, d);
  }

  lemma ApplyKeepsInv(db: Db, t: Txn)
    requires Inv(db) && Deliverable(db)
    ensures Inv(Apply(db, t))
  {
    match t
    case DoNewOrder(w, d, c, wanted, date) =>
      DrawsKeepInv(db, w, d);
      if CanOrder(db, w, d, c, wanted) {
        NewOrderKeepsInv(db, w, d, c, wanted, date);
      }
    case AbortNewOrder(w, d) => DrawsKeepInv(db, w, d);
    case DoPayment(w, d, ck, amount) =>
      if CanPay(db, w, d, ck) {
        PaymentKeepsInv(db, w, d, ck, amount);
      }
    case AbortPayment(ck) => DrawsKeepInv(db, ck.w, 0);
    case DoDelivery(w, proposals, carrier, date) =>
      if |proposals| == DISTRICTS && 1 <= carrier <= 10 && 0 < date {
        DeliverKeepsInv(db, w, proposals, carrier, date, DISTRICTS);
      }
  }

  ghost function Run(db: Db, txns: seq<Txn>): (r: Db)
    requires Inv(db)
    ensures Inv(r)
    decreases |txns|
  {
    if txns == [] then db
    else
      var before := Run(db, txns[..|txns| - 1]);
      CoherentIsDeliverable(before);
      ApplyKeepsInv(before, txns[|txns| - 1]);
      Apply(before, txns[|txns| - 1])
  }
}
