/**
  The customer ledger: clauses 3.3.2.10 and 3.3.2.12 of the TPC-C specification.
  A customer's balance is what was delivered to them minus what they paid, and
  the counters count the payments and the deliveries.
 */
module TpccLedger {
  import opened Sums
  import opened Tpcc
  import opened TpccOrders

  ghost function AmountOf(lines: map<LKey, Line>): LKey -> int {
    l => if l in lines then lines[l].amount else 0
  }

  ghost function DeliveredLines(orders: map<OKey, Order>, lines: map<LKey, Line>, ck: CKey): set<LKey> {
    set l | l in lines && OrderOf(l) in orders && CustomerOf(OrderOf(l), orders[OrderOf(l)]) == ck
      && lines[l].delivered != 0
  }

  /** The sum of the amounts of a customer's delivered lines. */
  ghost function Delivered(orders: map<OKey, Order>, lines: map<LKey, Line>, ck: CKey): int {
    Sum(DeliveredLines(orders, lines, ck), AmountOf(lines))
  }

  ghost function Deliveries(orders: map<OKey, Order>, ck: CKey): set<OKey> {
    set k | k in orders && FIRST_OPEN <= k.o && orders[k].carrier != 0 && CustomerOf(k, orders[k]) == ck
  }

  ghost function HistoryAmount(history: map<HKey, History>): HKey -> int {
    h => if h in history then history[h].amount else 0
  }

  ghost function Payments(history: map<HKey, History>, ck: CKey): set<HKey> {
    set h | h in history && CKey(history[h].cw, history[h].cd, history[h].c) == ck
  }

  /** The sum of the amounts of a customer's history rows. */
  ghost function Paid(history: map<HKey, History>, ck: CKey): int {
    Sum(Payments(history, ck), HistoryAmount(history))
  }

  ghost predicate AccountOk(x: Customer, ck: CKey, orders: map<OKey, Order>, lines: map<LKey, Line>,
                            history: map<HKey, History>) {
    && x.balance == Delivered(orders, lines, ck) - Paid(history, ck)
    && x.ytdPayment == Paid(history, ck)
    && x.paymentCnt == |Payments(history, ck)|
    && x.deliveryCnt == |Deliveries(orders, ck)|
  }

  ghost predicate Ledger(customers: map<CKey, Customer>, orders: map<OKey, Order>, lines: map<LKey, Line>,
                         history: map<HKey, History>) {
    forall ck :: ck in customers ==> AccountOk(customers[ck], ck, orders, lines, history)
  }

  /** History keys are drawn from a counter, so the next one is new. */
  ghost predicate HistoryOk(history: map<HKey, History>, gen: map<nat, nat>) {
    forall h :: h in history ==> h.h < NextHistory(gen, h.table)
  }

  // ------------------------------------------------------------ new order

  /** New lines are undelivered: nothing delivered changes. */
  lemma AddLinesSame(orders: map<OKey, Order>, lines: map<LKey, Line>, items: map<nat, Item>,
                     key: OKey, order: Order, wanted: seq<Wanted>, ck: CKey)
    requires LinesOk(orders, lines) && key !in orders && order.carrier == 0
    requires forall i :: 0 <= i < |wanted| ==> wanted[i].item in items
    ensures var orders' := orders[key := order];
            var lines' := WithLines(lines, items, key, wanted, |wanted|);
            Delivered(orders', lines', ck) == Delivered(orders, lines, ck)
              && Deliveries(orders', ck) == Deliveries(orders, ck)
  {
    var orders', lines' := orders[key := order], WithLines(lines, items, key, wanted, |wanted|);
    NoLinesYet(orders, lines, key);
    LinesAdded(lines, items, key, wanted, |wanted|);
    assert DeliveredLines(orders', lines', ck) == DeliveredLines(orders, lines, ck);
    SumSame(DeliveredLines(orders, lines, ck), AmountOf(lines), AmountOf(lines'));
  }

  lemma NewOrderKeepsLedger(db: Db, w: nat, d: nat, c: nat, wanted: seq<Wanted>, date: nat)
    requires Coherent(db) && Ledger(db.customers, db.orders, db.lines, db.history) && CanOrder(db, w, d, c, wanted)
    ensures var db' := NewOrder(db, w, d, c, wanted, date); Ledger(db'.customers, db'.orders, db'.lines, db'.history)
  {
    var key := OKey(w, d, NextOid(db.oidGen, w, d));
    var order := Order(c, 0, |wanted|, AllLocal(w, wanted), date);
    DrawKeeps(db.customers, db.orders, db.newOrders, db.oidGen, w, d);
    forall ck | ck in db.customers
      ensures AccountOk(db.customers[ck], ck, db.orders[key := order],
                        WithLines(db.lines, db.items, key, wanted, |wanted|), db.history)
    {
      AddLinesSame(db.orders, db.lines, db.items, key, order, wanted, ck);
    }
  }

  // ------------------------------------------------------------ payment

  lemma PaymentsGrow(history: map<HKey, History>, h: HKey, row: History, ck: CKey)
    requires h !in history
    ensures Payments(history[h := row], ck)
            == Payments(history, ck) + if CKey(row.cw, row.cd, row.c) == ck then {h} else {}
    ensures h !in Payments(history, ck)
  {
  }

  /** A new history row adds its amount to every sum that counts it and leaves the others alone. */
  lemma HistorySumGrows(history: map<HKey, History>, h: HKey, row: History, s: set<HKey>)
    requires h !in history && s <= history.Keys
    ensures Sum(s, HistoryAmount(history[h := row])) == Sum(s, HistoryAmount(history))
    ensures Sum(s + {h}, HistoryAmount(history[h := row])) == Sum(s, HistoryAmount(history)) + row.amount
  {
    SumSame(s, HistoryAmount(history), HistoryAmount(history[h := row]));
    SumAdd(s, HistoryAmount(history[h := row]), h);
  }

  lemma PaidGrows(history: map<HKey, History>, h: HKey, row: History, ck: CKey)
    requires h !in history
    ensures Paid(history[h := row], ck) ==
            Paid(history, ck) + if CKey(row.cw, row.cd, row.c) == ck then row.amount else 0
  {
    PaymentsGrow(history, h, row, ck);
    HistorySumGrows(history, h, row, Payments(history, ck));
    assert Payments(history, ck) + {} == Payments(history, ck);
  }

  lemma ChargeKeeps(x: Customer, ck: CKey, orders: map<OKey, Order>, lines: map<LKey, Line>,
                    history: map<HKey, History>, h: HKey, row: History)
    requires AccountOk(x, ck, orders, lines, history) && h !in history
    ensures AccountOk(if CKey(row.cw, row.cd, row.c) == ck then Charged(x, row.amount) else x,
                      ck, orders, lines, history[h := row])
  {
    PaymentsGrow(history, h, row, ck);
    PaidGrows(history, h, row, ck);
  }

  lemma ChargeKeepsLedger(customers: map<CKey, Customer>, orders: map<OKey, Order>, lines: map<LKey, Line>,
                          history: map<HKey, History>, ck: CKey, h: HKey, row: History)
    requires Ledger(customers, orders, lines, history) && ck in customers && h !in history
    requires CKey(row.cw, row.cd, row.c) == ck
    ensures Ledger(customers[ck := Charged(customers[ck], row.amount)], orders, lines, history[h := row])
  {
    var customers' := customers[ck := Charged(customers[ck], row.amount)];
    forall x | x in customers'
      ensures AccountOk(customers'[x], x, orders, lines, history[h := row])
    {
      ChargeKeeps(customers[x], x, orders, lines, history, h, row);
    }
  }

  lemma DrawKeepsHistory(history: map<HKey, History>, gen: map<nat, nat>, h: HKey, row: History)
    requires HistoryOk(history, gen) && h.h == NextHistory(gen, h.table)
    ensures h !in history
    ensures HistoryOk(history, HistoryDrawn(gen, h.table)) && HistoryOk(history[h := row], HistoryDrawn(gen, h.table))
  {
  }

  lemma PaymentKeepsLedger(db: Db, w: nat, d: nat, ck: CKey, amount: int)
    requires Ledger(db.customers, db.orders, db.lines, db.history) && HistoryOk(db.history, db.historyGen)
    requires CanPay(db, w, d, ck)
    ensures var db' := Payment(db, w, d, ck, amount); Ledger(db'.customers, db'.orders, db'.lines, db'.history)
  {
    ChargeKeepsLedger(db.customers, db.orders, db.lines, db.history, ck,
                      PaymentKey(db.historyGen, w, d, ck), History(ck.w, ck.d, ck.c, w, d, amount));
  }

  // ------------------------------------------------------------ delivery

  ghost function LineKeys(k: OKey, n: nat): set<LKey> {
    if n == 0 then {} else LineKeys(k, n - 1) + {LineKey(k, n)}
  }

  lemma {:induction false} LineKeysAre(k: OKey, n: nat)
    ensures forall l :: l in LineKeys(k, n) <==> OrderOf(l) == k && 1 <= l.n <= n
  {
    if n > 0 {
      LineKeysAre(k, n - 1);
    }
  }

  /** The accumulator loop of a delivery computes the sum over the order's lines. */
  lemma {:induction false} LineSumIsSum(lines: map<LKey, Line>, k: OKey, n: nat)
    requires forall i :: 1 <= i <= n ==> LKey(k.w, k.d, k.o, i) in lines
    ensures LineSum(lines, k, n) == Sum(LineKeys(k, n), AmountOf(lines))
  {
    if n > 0 {
      LineSumIsSum(lines, k, n - 1);
      LineKeysAre(k, n - 1);
      SumAdd(LineKeys(k, n - 1), AmountOf(lines), LineKey(k, n));
    }
  }

  /** Marking an undelivered order adds exactly its lines to its customer's delivered amount. */
  lemma DeliveredGrows(orders: map<OKey, Order>, lines: map<LKey, Line>, k: OKey, carrier: nat, date: nat, ck: CKey)
    requires LinesOk(orders, lines) && k in orders && orders[k].carrier == 0 && 0 < carrier && 0 < date
    requires forall i :: 1 <= i <= orders[k].olCnt ==> LKey(k.w, k.d, k.o, i) in lines
    ensures var n := orders[k].olCnt;
            Delivered(orders[k := orders[k].(carrier := carrier)], Marked(lines, k, n, date), ck)
            == Delivered(orders, lines, ck) + if CustomerOf(k, orders[k]) == ck then LineSum(lines, k, n) else 0
  {
    var n := orders[k].olCnt;
    var orders', lines' := orders[k := orders[k].(carrier := carrier)], Marked(lines, k, n, date);
    var s, t := DeliveredLines(orders, lines, ck), LineKeys(k, n);
    LineKeysAre(k, n);
    LinesOfOpen(orders, lines, k);
    SumSame(DeliveredLines(orders', lines', ck), AmountOf(lines), AmountOf(lines'));
    if CustomerOf(k, orders[k]) == ck {
      assert DeliveredLines(orders', lines', ck) == s + t;
      SumUnion(s, t, AmountOf(lines));
      LineSumIsSum(lines, k, n);
    } else {
      assert DeliveredLines(orders', lines', ck) == s;
    }
  }

  lemma DeliveriesGrow(orders: map<OKey, Order>, k: OKey, carrier: nat, ck: CKey)
    requires k in orders && orders[k].carrier == 0 && 0 < carrier && FIRST_OPEN <= k.o
    ensures |Deliveries(orders[k := orders[k].(carrier := carrier)], ck)|
            == |Deliveries(orders, ck)| + if CustomerOf(k, orders[k]) == ck then 1 else 0
  {
    var orders' := orders[k := orders[k].(carrier := carrier)];
    if CustomerOf(k, orders[k]) == ck {
      assert Deliveries(orders', ck) == Deliveries(orders, ck) + {k};
    } else {
      assert Deliveries(orders', ck) == Deliveries(orders, ck);
    }
  }

  lemma CreditKeeps(x: Customer, ck: CKey, orders: map<OKey, Order>, lines: map<LKey, Line>,
                    history: map<HKey, History>, k: OKey, carrier: nat, date: nat)
    requires AccountOk(x, ck, orders, lines, history) && LinesOk(orders, lines)
    requires k in orders && orders[k].carrier == 0 && FIRST_OPEN <= k.o && 0 < carrier && 0 < date
    requires forall i :: 1 <= i <= orders[k].olCnt ==> LKey(k.w, k.d, k.o, i) in lines
    ensures var n := orders[k].olCnt;
            AccountOk(if CustomerOf(k, orders[k]) == ck then Credited(x, LineSum(lines, k, n)) else x, ck,
                      orders[k := orders[k].(carrier := carrier)], Marked(lines, k, n, date), history)
  {
    DeliveredGrows(orders, lines, k, carrier, date, ck);
    DeliveriesGrow(orders, k, carrier, ck);
  }

  lemma CreditKeepsLedger(customers: map<CKey, Customer>, orders: map<OKey, Order>, lines: map<LKey, Line>,
                          history: map<HKey, History>, k: OKey, carrier: nat, date: nat)
    requires Ledger(customers, orders, lines, history) && LinesOk(orders, lines)
    requires k in orders && orders[k].carrier == 0 && FIRST_OPEN <= k.o && 0 < carrier && 0 < date
    requires CustomerOf(k, orders[k]) in customers
    requires forall i :: 1 <= i <= orders[k].olCnt ==> LKey(k.w, k.d, k.o, i) in lines
    ensures var n, ck := orders[k].olCnt, CustomerOf(k, orders[k]);
            Ledger(customers[ck := Credited(customers[ck], LineSum(lines, k, n))],
                   orders[k := orders[k].(carrier := carrier)], Marked(lines, k, n, date), history)
  {
    var n, ck := orders[k].olCnt, CustomerOf(k, orders[k]);
    var customers' := customers[ck := Credited(customers[ck], LineSum(lines, k, n))];
    forall x | x in customers'
      ensures AccountOk(customers'[x], x, orders[k := orders[k].(carrier := carrier)], Marked(lines, k, n, date),
                        history)
    {
      CreditKeeps(customers[x], x, orders, lines, history, k, carrier, date);
    }
  }

  lemma DeliverOrderKeepsLedger(db: Db, k: OKey, carrier: nat, date: nat)
    requires Coherent(db) && Ledger(db.customers, db.orders, db.lines, db.history)
    requires k in db.newOrders && 0 < carrier && 0 < date && CanDeliver(db, k)
    ensures var db' := DeliverOrder(db, k, carrier, date); Ledger(db'.customers, db'.orders, db'.lines, db'.history)
  {
    IsOpen(db, k);
    CreditKeepsLedger(db.customers, db.orders, db.lines, db.history, k, carrier, date);
  }
}
