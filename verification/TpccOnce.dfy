/** What a run never undoes: orders are delivered at most once and order ids are never reused. */
module TpccOnce {
  import opened Options
  import opened Tpcc
  import opened TpccOrders
  import opened TpccRuns

  /** The order stays; once it has a carrier it never changes, and its new-order row never comes back. */
  ghost predicate OrderStays(k: OKey, order: Order, isNew: bool, orders': map<OKey, Order>, newOrders': set<OKey>) {
    && k in orders' && orders'[k].(carrier := order.carrier) == order
    && (order.carrier != 0 ==> orders'[k].carrier == order.carrier)
    && (!isNew ==> k !in newOrders')
  }

  ghost predicate OrdersStay(orders: map<OKey, Order>, newOrders: set<OKey>, orders': map<OKey, Order>,
                             newOrders': set<OKey>) {
    forall k {:trigger OrderStays(k, orders[k], k in newOrders, orders', newOrders')} ::
      k in orders ==> OrderStays(k, orders[k], k in newOrders, orders', newOrders')
  }

  /** The line stays, and only the delivery date of an undelivered line changes. */
  ghost predicate LineStays(l: LKey, line: Line, lines': map<LKey, Line>) {
    && l in lines' && lines'[l].(delivered := line.delivered) == line
    && (line.delivered != 0 ==> lines'[l].delivered == line.delivered)
  }

  ghost predicate LinesStay(lines: map<LKey, Line>, lines': map<LKey, Line>) {
    forall l {:trigger LineStays(l, lines[l], lines')} :: l in lines ==> LineStays(l, lines[l], lines')
  }

  ghost predicate NotDrawn(k: OKey, gen: map<(nat, nat), nat>) {
    NextOid(gen, k.w, k.d) <= k.o
  }

  ghost predicate CounterGrows(w: nat, d: nat, gen: map<(nat, nat), nat>, gen': map<(nat, nat), nat>) {
    NextOid(gen, w, d) <= NextOid(gen', w, d)
  }

  /** Counters only grow, and an order that was not there has an id not drawn before. */
  ghost predicate IdsGrow(orders: map<OKey, Order>, gen: map<(nat, nat), nat>,
                          orders': map<OKey, Order>, gen': map<(nat, nat), nat>) {
    && (forall k {:trigger NotDrawn(k, gen)} :: k in orders' && k !in orders ==> NotDrawn(k, gen))
    && (forall w, d :: CounterGrows(w, d, gen, gen'))
  }

  ghost predicate Follows(db: Db, db': Db) {
    && OrdersStay(db.orders, db.newOrders, db'.orders, db'.newOrders)
    && LinesStay(db.lines, db'.lines)
    && IdsGrow(db.orders, db.oidGen, db'.orders, db'.oidGen)
  }

  lemma FollowsSelf(db: Db)
    ensures Follows(db, db)
  {
  }

  lemma IdsGrowTransitive(a: map<OKey, Order>, genA: map<(nat, nat), nat>, b: map<OKey, Order>,
                          genB: map<(nat, nat), nat>, c: map<OKey, Order>, genC: map<(nat, nat), nat>)
    requires IdsGrow(a, genA, b, genB) && IdsGrow(b, genB, c, genC)
    ensures IdsGrow(a, genA, c, genC)
  {
    forall k | k in c && k !in a
      ensures NotDrawn(k, genA)
    {
      assert k !in b ==> NotDrawn(k, genB);
      assert CounterGrows(k.w, k.d, genA, genB);
    }
    forall w, d
      ensures CounterGrows(w, d, genA, genC)
    {
      assert CounterGrows(w, d, genA, genB) && CounterGrows(w, d, genB, genC);
    }
  }

  lemma FollowsTransitive(a: Db, b: Db, c: Db)
    requires Follows(a, b) && Follows(b, c)
    ensures Follows(a, c)
  {
    forall k | k in a.orders
      ensures OrderStays(k, a.orders[k], k in a.newOrders, c.orders, c.newOrders)
    {
      assert OrderStays(k, a.orders[k], k in a.newOrders, b.orders, b.newOrders);
      assert OrderStays(k, b.orders[k], k in b.newOrders, c.orders, c.newOrders);
    }
    IdsGrowTransitive(a.orders, a.oidGen, b.orders, b.oidGen, c.orders, c.oidGen);
    forall l | l in a.lines
      ensures LineStays(l, a.lines[l], c.lines)
    {
      assert LineStays(l, a.lines[l], b.lines);
      assert LineStays(l, b.lines[l], c.lines);
    }
  }

  /** The lines of a delivered order never change. */
  lemma DeliveredLinesStay(orders: map<OKey, Order>, lines: map<LKey, Line>, lines': map<LKey, Line>, k: OKey)
    requires LinesOk(orders, lines) && LinesStay(lines, lines') && k in orders && orders[k].carrier != 0
    ensures forall i :: 1 <= i <= orders[k].olCnt ==>
              LineKey(k, i) in lines && LineKey(k, i) in lines' && lines'[LineKey(k, i)] == lines[LineKey(k, i)]
  {
    forall i | 1 <= i <= orders[k].olCnt
      ensures LineKey(k, i) in lines && LineKey(k, i) in lines' && lines'[LineKey(k, i)] == lines[LineKey(k, i)]
    {
      var l := LineKey(k, i);
      assert LineOk(orders, l, lines[l]);
      assert LineStays(l, lines[l], lines');
    }
  }

  lemma AddedOrderFollows(orders: map<OKey, Order>, newOrders: set<OKey>, key: OKey, order: Order)
    requires key !in orders
    ensures OrdersStay(orders, newOrders, orders[key := order], newOrders + {key})
  {
  }

  lemma AddedLinesFollow(lines: map<LKey, Line>, items: map<nat, Item>, key: OKey, wanted: seq<Wanted>)
    requires forall i :: 0 <= i < |wanted| ==> wanted[i].item in items
    requires forall l :: l in lines ==> OrderOf(l) != key
    ensures LinesStay(lines, WithLines(lines, items, key, wanted, |wanted|))
  {
    LinesAdded(lines, items, key, wanted, |wanted|);
  }

  lemma DrawnGrows(gen: map<(nat, nat), nat>, w: nat, d: nat)
    ensures forall v, e :: CounterGrows(v, e, gen, Drawn(gen, w, d))
  {
  }

  lemma NewOrderFollows(db: Db, w: nat, d: nat, c: nat, wanted: seq<Wanted>, date: nat)
    requires Coherent(db) && CanOrder(db, w, d, c, wanted)
    ensures Follows(db, NewOrder(db, w, d, c, wanted, date))
  {
    var key := OKey(w, d, NextOid(db.oidGen, w, d));
    DrawKeeps(db.customers, db.orders, db.newOrders, db.oidGen, w, d);
    DrawnGrows(db.oidGen, w, d);
    AddedOrderFollows(db.orders, db.newOrders, key, Order(c, 0, |wanted|, AllLocal(w, wanted), date));
    NoLinesYet(db.orders, db.lines, key);
    AddedLinesFollow(db.lines, db.items, key, wanted);
  }

  lemma MarkedFollows(lines: map<LKey, Line>, k: OKey, n: nat, date: nat)
    requires forall i :: 1 <= i <= n ==> LKey(k.w, k.d, k.o, i) in lines
    requires forall l :: l in lines && OrderOf(l) == k ==> lines[l].delivered == 0
    ensures LinesStay(lines, Marked(lines, k, n, date))
  {
    forall l | l in lines
      ensures LineStays(l, lines[l], Marked(lines, k, n, date))
    {
    }
  }

  lemma DeliverOrderFollows(db: Db, k: OKey, carrier: nat, date: nat)
    requires Coherent(db) && k in db.newOrders && CanDeliver(db, k)
    ensures Follows(db, DeliverOrder(db, k, carrier, date))
  {
    IsOpen(db, k);
    LinesOfOpen(db.orders, db.lines, k);
    MarkedFollows(db.lines, k, db.orders[k].olCnt, date);
  }

  /** An aborted or finished part of a delivery that started in a. */
  ghost predicate Sound(a: Db, r: Option<Db>) {
    r.Some? ==> Inv(r.value) && Deliverable(r.value) && Follows(a, r.value)
  }

  lemma DeliverInSound(a: Db, b: Db, w: nat, d: nat, proposal: nat, carrier: nat, date: nat)
    requires Sound(a, Some(b)) && Deliverable(b) && 0 < carrier && 0 < date
    ensures Sound(a, DeliverIn(b, w, d, proposal, carrier, date))
  {
    var k := OKey(w, d, proposal);
    if k in b.orders && k in b.newOrders {
      var r := DeliverOrder(b, k, carrier, date);
      DeliverOrderFollows(b, k, carrier, date);
      FollowsTransitive(a, b, r);
      DeliverOrderKeepsInv(b, k, carrier, date);
      CoherentIsDeliverable(r);
    }
  }

  lemma {:induction false} DeliverSound(db: Db, w: nat, proposals: seq<nat>, carrier: nat, date: nat, d: nat)
    requires Inv(db) && Deliverable(db) && d <= |proposals| && 0 < carrier && 0 < date
    ensures Sound(db, Deliver(db, w, proposals, carrier, date, d))
  {
    if d == 0 {
      FollowsSelf(db);
    } else {
      DeliverSound(db, w, proposals, carrier, date, d - 1);
      var before := Deliver(db, w, proposals, carrier, date, d - 1);
      if before.Some? {
        DeliverInSound(db, before.value, w, d, proposals[d - 1], carrier, date);
      }
    }
  }

  lemma ApplyFollows(db: Db, t: Txn)
    requires Inv(db) && Deliverable(db)
    ensures Follows(db, Apply(db, t))
  {
    FollowsSelf(db);
    match t
    case DoNewOrder(w, d, c, wanted, date) =>
      DrawnGrows(db.oidGen, w, d);
      if CanOrder(db, w, d, c, wanted) {
        NewOrderFollows(db, w, d, c, wanted, date);
      }
    case AbortNewOrder(w, d) => DrawnGrows(db.oidGen, w, d);
    case DoDelivery(w, proposals, carrier, date) =>
      if |proposals| == DISTRICTS && 1 <= carrier <= 10 && 0 < date {
        DeliverSound(db, w, proposals, carrier, date, DISTRICTS);
      }
    case _ =>
  }

  lemma {:induction false} RunFollows(db: Db, txns: seq<Txn>)
    requires Inv(db)
    ensures Follows(db, Run(db, txns))
    decreases |txns|
  {
    if txns == [] {
      FollowsSelf(db);
    } else {
      var before := Run(db, txns[..|txns| - 1]);
      RunFollows(db, txns[..|txns| - 1]);
      CoherentIsDeliverable(before);
      ApplyFollows(before, txns[|txns| - 1]);
      FollowsTransitive(db, before, Run(db, txns));
    }
  }
}
