/** The ids that attempts draw: consecutive numbers, used up also by the attempts that abort. */
module TpccDraws {
  import opened Options
  import opened Tpcc
  import opened TpccOrders
  import opened TpccRuns
  import opened TpccLoad
  import opened TpccTheorems

  /** The step draws an order id from the counter of district d of warehouse w. */
  predicate DrawsOid(db: Db, t: Txn, w: nat, d: nat) {
    match t
    case DoNewOrder(w', d', c, wanted, _) => CanOrder(db, w', d', c, wanted) && GenKey(w', d') == GenKey(w, d)
    case AbortNewOrder(w', d') => GenKey(w', d') == GenKey(w, d)
    case _ => false
  }

  /** The step draws a history key of warehouse w. */
  predicate DrawsKey(db: Db, t: Txn, w: nat) {
    match t
    case DoPayment(w', d', ck, _) => CanPay(db, w', d', ck) && ck.w == w
    case AbortPayment(ck) => ck.w == w
    case _ => false
  }

  lemma {:induction false} DeliveryDrawsNothing(db: Db, w: nat, proposals: seq<nat>, carrier: nat, date: nat, n: nat)
    requires Deliverable(db) && n <= |proposals|
    ensures var r := Deliver(db, w, proposals, carrier, date, n);
            r.Some? ==> r.value.oidGen == db.oidGen && r.value.historyGen == db.historyGen
    decreases n
  {
    if n > 0 {
      DeliveryDrawsNothing(db, w, proposals, carrier, date, n - 1);
    }
  }

  lemma DeliveryStepDrawsNothing(db: Db, w: nat, proposals: seq<nat>, carrier: nat, date: nat)
    requires Deliverable(db)
    ensures var r := Apply(db, DoDelivery(w, proposals, carrier, date));
            r.oidGen == db.oidGen && r.historyGen == db.historyGen
  {
    DeliveryDrawsNothing(db, w, proposals, carrier, date, |proposals|);
  }

  /** r's counters are those of db, moved on by one where t draws. */
  ghost predicate Drew(db: Db, r: Db, t: Txn, w: nat, d: nat) {
    && NextOid(r.oidGen, w, d) == NextOid(db.oidGen, w, d) + (if DrawsOid(db, t, w, d) then 1 else 0)
    && NextHistory(r.historyGen, w) == NextHistory(db.historyGen, w) + (if DrawsKey(db, t, w) then 1 else 0)
  }

  lemma DrawnMoves(gen: map<(nat, nat), nat>, w': nat, d': nat, w: nat, d: nat)
    ensures NextOid(Drawn(gen, w', d'), w, d) == NextOid(gen, w, d) + if GenKey(w', d') == GenKey(w, d) then 1 else 0
  {
  }

  lemma OrderStepDraws(db: Db, w': nat, d': nat, c: nat, wanted: seq<Wanted>, date: nat, w: nat, d: nat)
    requires Deliverable(db)
    ensures var t := DoNewOrder(w', d', c, wanted, date); Drew(db, Apply(db, t), t, w, d)
  {
    DrawnMoves(db.oidGen, w', d', w, d);
  }

  lemma AbortStepDraws(db: Db, w': nat, d': nat, w: nat, d: nat)
    requires Deliverable(db)
    ensures var t := AbortNewOrder(w', d'); Drew(db, Apply(db, t), t, w, d)
  {
    DrawnMoves(db.oidGen, w', d', w, d);
  }

  lemma PaymentStepDraws(db: Db, t: Txn, w: nat, d: nat)
    requires Deliverable(db) && (t.DoPayment? || t.AbortPayment?)
    ensures Drew(db, Apply(db, t), t, w, d)
  {
  }

  lemma DeliveryStepDraws(db: Db, w': nat, proposals: seq<nat>, carrier: nat, date: nat, w: nat, d: nat)
    requires Deliverable(db)
    ensures var t := DoDelivery(w', proposals, carrier, date); Drew(db, Apply(db, t), t, w, d)
  {
    DeliveryStepDrawsNothing(db, w', proposals, carrier, date);
  }

  /** A step moves a counter on by one if it draws from it, and else leaves it. */
  lemma StepDraws(db: Db, t: Txn, w: nat, d: nat)
    requires Deliverable(db)
    ensures Drew(db, Apply(db, t), t, w, d)
  {
    match t
    case DoNewOrder(w', d', c, wanted, date) => OrderStepDraws(db, w', d', c, wanted, date, w, d);
    case AbortNewOrder(w', d') => AbortStepDraws(db, w', d', w, d);
    case DoPayment(_, _, _, _) => PaymentStepDraws(db, t, w, d);
    case AbortPayment(_) => PaymentStepDraws(db, t, w, d);
    case DoDelivery(w', proposals, carrier, date) =>
      DeliveryStepDraws(db, w', proposals, carrier, date, w, d);
  }

  /** An attempt that aborts after its draw changes nothing else. */
  lemma AbortsOnlyDraw(db: Db, t: Txn)
    requires Deliverable(db) && (t.AbortNewOrder? || t.AbortPayment?)
    ensures var r := Apply(db, t); r == db.(oidGen := r.oidGen, historyGen := r.historyGen)
  {
  }

  ghost function OidsDrawn(db: Db, txns: seq<Txn>, w: nat, d: nat): nat
    requires Inv(db)
    decreases |txns|
  {
    if txns == [] then 0
    else
      var before, last := txns[..|txns| - 1], txns[|txns| - 1];
      OidsDrawn(db, before, w, d) + if DrawsOid(Run(db, before), last, w, d) then 1 else 0
  }

  ghost function KeysDrawn(db: Db, txns: seq<Txn>, w: nat): nat
    requires Inv(db)
    decreases |txns|
  {
    if txns == [] then 0
    else
      var before, last := txns[..|txns| - 1], txns[|txns| - 1];
      KeysDrawn(db, before, w) + if DrawsKey(Run(db, before), last, w) then 1 else 0
  }

  /** In every run the counters stand at where they began plus the number of draws. */
  lemma {:induction false} CountersCountDraws(db: Db, txns: seq<Txn>, w: nat, d: nat)
    requires Inv(db)
    ensures var r := Run(db, txns);
            && NextOid(r.oidGen, w, d) == NextOid(db.oidGen, w, d) + OidsDrawn(db, txns, w, d)
            && NextHistory(r.historyGen, w) == NextHistory(db.historyGen, w) + KeysDrawn(db, txns, w)
    decreases |txns|
  {
    if txns != [] {
      var before := txns[..|txns| - 1];
      CountersCountDraws(db, before, w, d);
      CoherentIsDeliverable(Run(db, before));
      StepDraws(Run(db, before), txns[|txns| - 1], w, d);
    }
  }

  ghost function DrawnSinceLoad(db: Db, n: nat, txns: seq<Txn>, w: nat, d: nat): nat
    requires Loaded(db, n)
  {
    LoadedIsConsistent(db, n);
    OidsDrawn(db, txns, w, d)
  }

  lemma NewOrderKeys(db: Db, w: nat, d: nat, c: nat, wanted: seq<Wanted>, date: nat)
    requires Deliverable(db) && CanOrder(db, w, d, c, wanted) && !Unorderable(db, wanted)
    ensures Apply(db, DoNewOrder(w, d, c, wanted, date)).orders.Keys ==
            db.orders.Keys + {OKey(w, d, NextOid(db.oidGen, w, d))}
  {
  }

  lemma OneMore(db: Db, txns: seq<Txn>, t: Txn)
    requires Inv(db)
    ensures Deliverable(Run(db, txns)) && Run(db, txns + [t]) == Apply(Run(db, txns), t)
  {
    CoherentIsDeliverable(Run(db, txns));
    assert (txns + [t])[..|txns|] == txns;
  }

  lemma RunOrderKeys(db: Db, txns: seq<Txn>, w: nat, d: nat, c: nat, wanted: seq<Wanted>, date: nat)
    requires Inv(db) && CanOrder(Run(db, txns), w, d, c, wanted) && !Unorderable(Run(db, txns), wanted)
    ensures Run(db, txns + [DoNewOrder(w, d, c, wanted, date)]).orders.Keys ==
            Run(db, txns).orders.Keys + {OKey(w, d, NextOid(Run(db, txns).oidGen, w, d))}
  {
    OneMore(db, txns, DoNewOrder(w, d, c, wanted, date));
    NewOrderKeys(Run(db, txns), w, d, c, wanted, date);
  }

  lemma LoadedCounter(db: Db, n: nat, txns: seq<Txn>, w: nat, d: nat)
    requires Loaded(db, n)
    ensures NextOid(Reached(db, n, txns).oidGen, w, d) == FIRST_OID + DrawnSinceLoad(db, n, txns, w, d)
  {
    LoadedIsConsistent(db, n);
    CountersCountDraws(db, txns, w, d);
  }

  /** In any run an order's id is the first free one plus the number of draws before it, aborted attempts included. */
  lemma OrderIdCountsDraws(db: Db, n: nat, txns: seq<Txn>, w: nat, d: nat, c: nat, wanted: seq<Wanted>, date: nat)
    requires Loaded(db, n)
    requires var r := Reached(db, n, txns); CanOrder(r, w, d, c, wanted) && !Unorderable(r, wanted)
    ensures Reached(db, n, txns + [DoNewOrder(w, d, c, wanted, date)]).orders.Keys ==
            Reached(db, n, txns).orders.Keys + {OKey(w, d, FIRST_OID + DrawnSinceLoad(db, n, txns, w, d))}
  {
    LoadedIsConsistent(db, n);
    LoadedCounter(db, n, txns, w, d);
    RunOrderKeys(db, txns, w, d, c, wanted, date);
  }
}
