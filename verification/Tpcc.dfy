/**
  The TPC-C tables and the three writing transactions, each as one atomic step.
  Amounts are in cents and unbounded; dates are positive numbers, 0 meaning
  "not delivered"; carrier 0 means "not delivered" as well.
 */
module Tpcc {
  import opened Options
  import opened Sums
  import Stock

  const DISTRICTS: nat := 10
  const CUSTOMERS: nat := 3000
  const FIRST_OID: nat := 3001
  const MAX_WHS: nat := 64
  const MAX_DTS: nat := 16

  datatype DKey = DKey(w: nat, d: nat)
  datatype CKey = CKey(w: nat, d: nat, c: nat)
  datatype OKey = OKey(w: nat, d: nat, o: nat)
  datatype LKey = LKey(w: nat, d: nat, o: nat, n: nat)
  datatype IKey = IKey(w: nat, d: nat, c: nat, o: nat)
  datatype SKey = SKey(w: nat, i: nat)
  /** A history row: table is the warehouse whose table holds it, h the generated key. */
  datatype HKey = HKey(table: nat, w: nat, d: nat, c: nat, h: nat)

  datatype District = District(ytd: int, nextOid: nat)
  datatype Customer = Customer(balance: int, ytdPayment: int, paymentCnt: nat, deliveryCnt: nat)
  datatype Order = Order(cid: nat, carrier: nat, olCnt: nat, allLocal: bool, entryDate: nat)
  datatype Line = Line(item: nat, supply: nat, qty: nat, amount: int, delivered: nat)
  /** w and d are the paying warehouse and district, cw, cd and c the customer. */
  datatype History = History(cw: nat, cd: nat, c: nat, w: nat, d: nat, amount: int)
  datatype Item = Item(imId: nat, price: nat)

  datatype Db = Db(
    warehouses: map<nat, int>, districts: map<DKey, District>, customers: map<CKey, Customer>,
    orders: map<OKey, Order>, newOrders: set<OKey>, lines: map<LKey, Line>, customerOrders: set<IKey>,
    history: map<HKey, History>, stocks: map<SKey, Stock.Counters>, items: map<nat, Item>,
    oidGen: map<(nat, nat), nat>, historyGen: map<nat, nat>)

  function OrderOf(k: LKey): OKey { OKey(k.w, k.d, k.o) }

  // ------------------------------------------------------------ order ids

  /** Counters are shared by warehouses equal modulo 64 and districts equal modulo 16. */
  function GenKey(w: nat, d: nat): (nat, nat) { (w % MAX_WHS, d % MAX_DTS) }

  function NextOid(gen: map<(nat, nat), nat>, w: nat, d: nat): nat {
    if GenKey(w, d) in gen then gen[GenKey(w, d)] else FIRST_OID
  }

  function Drawn(gen: map<(nat, nat), nat>, w: nat, d: nat): map<(nat, nat), nat> {
    gen[GenKey(w, d) := NextOid(gen, w, d) + 1]
  }

  function DrawOid(db: Db, w: nat, d: nat): Db {
    db.(oidGen := Drawn(db.oidGen, w, d))
  }

  // ------------------------------------------------------------ new order

  datatype Wanted = Wanted(item: nat, supply: nat, qty: nat)

  /** Amount of one line: quantity times price in hundredths, truncated when stored as an integer. */
  function Amount(qty: nat, price: nat): nat { (qty * price) / 100 }

  predicate CanOrder(db: Db, w: nat, d: nat, c: nat, wanted: seq<Wanted>) {
    && w in db.warehouses && DKey(w, d) in db.districts && CKey(w, d, c) in db.customers
    && |wanted| <= 15 && InStock(db.items, db.stocks, wanted)
  }

  function NewLine(items: map<nat, Item>, x: Wanted): Line
    requires x.item in items
  {
    Line(x.item, x.supply, x.qty, Amount(x.qty, items[x.item].price), 0)
  }

  predicate InStock(items: map<nat, Item>, stocks: map<SKey, Stock.Counters>, wanted: seq<Wanted>) {
    forall i :: 0 <= i < |wanted| ==>
      && wanted[i].item in items && StockKey(wanted[i]) in stocks && 1 <= wanted[i].qty <= 10
  }

  /** Lines 1..k of order o. */
  function WithLines(lines: map<LKey, Line>, items: map<nat, Item>, key: OKey, wanted: seq<Wanted>,
                     k: nat): map<LKey, Line>
    requires k <= |wanted| && forall i :: 0 <= i < |wanted| ==> wanted[i].item in items
  {
    if k == 0 then lines
    else WithLines(lines, items, key, wanted, k - 1)[LKey(key.w, key.d, key.o, k) := NewLine(items, wanted[k - 1])]
  }

  function StockKey(x: Wanted): SKey { SKey(x.supply, x.item) }

  /** Buffered stock writes: each is computed from the committed row, a later one replaces an earlier one. */
  function WithSales(stocks: map<SKey, Stock.Counters>, w: nat, wanted: seq<Wanted>, k: nat): map<SKey, Stock.Counters>
    requires k <= |wanted| && forall i :: 0 <= i < |wanted| ==> StockKey(wanted[i]) in stocks
  {
    if k == 0 then stocks
    else
      var x := wanted[k - 1];
      WithSales(stocks, w, wanted, k - 1)[StockKey(x) := Stock.Sell(stocks[StockKey(x)], SaleOf(w, x))]
  }

  function SaleOf(w: nat, x: Wanted): Stock.Sale { Stock.Sale(x.qty, x.supply != w) }

  function AllLocal(w: nat, wanted: seq<Wanted>): bool {
    forall i :: 0 <= i < |wanted| ==> wanted[i].supply == w
  }

  function NewOrder(db: Db, w: nat, d: nat, c: nat, wanted: seq<Wanted>, date: nat): Db
    requires CanOrder(db, w, d, c, wanted)
  {
    var o := NextOid(db.oidGen, w, d);
    DrawOid(db, w, d).(
      districts := db.districts[DKey(w, d) := db.districts[DKey(w, d)].(nextOid := o)],
      orders := db.orders[OKey(w, d, o) := Order(c, 0, |wanted|, AllLocal(w, wanted), date)],
      newOrders := db.newOrders + {OKey(w, d, o)},
      customerOrders := db.customerOrders + {IKey(w, d, c, o)},
      lines := WithLines(db.lines, db.items, OKey(w, d, o), wanted, |wanted|),
      stocks := WithSales(db.stocks, w, wanted, |wanted|))
  }

  // ------------------------------------------------------------ payment

  function NextHistory(gen: map<nat, nat>, w: nat): nat { if w in gen then gen[w] else 0 }

  function HistoryDrawn(gen: map<nat, nat>, w: nat): map<nat, nat> { gen[w := NextHistory(gen, w) + 1] }

  function DrawHistoryKey(db: Db, w: nat): Db {
    db.(historyGen := HistoryDrawn(db.historyGen, w))
  }

  /** The row goes into the table of the customer's warehouse, under the paying warehouse and district. */
  function PaymentKey(gen: map<nat, nat>, w: nat, d: nat, ck: CKey): HKey {
    HKey(ck.w, w, d, ck.c, NextHistory(gen, ck.w))
  }

  function Collected(x: District, amount: int): District { x.(ytd := x.ytd + amount) }

  function Charged(x: Customer, amount: int): Customer {
    x.(balance := x.balance - amount, ytdPayment := x.ytdPayment + amount, paymentCnt := x.paymentCnt + 1)
  }

  predicate CanPay(db: Db, w: nat, d: nat, ck: CKey) {
    w in db.warehouses && DKey(w, d) in db.districts && ck in db.customers
  }

  function Payment(db: Db, w: nat, d: nat, ck: CKey, amount: int): Db
    requires CanPay(db, w, d, ck)
  {
    DrawHistoryKey(db, ck.w).(
      warehouses := db.warehouses[w := db.warehouses[w] + amount],
      districts := db.districts[DKey(w, d) := Collected(db.districts[DKey(w, d)], amount)],
      customers := db.customers[ck := Charged(db.customers[ck], amount)],
      history := db.history[PaymentKey(db.historyGen, w, d, ck) := History(ck.w, ck.d, ck.c, w, d, amount)])
  }

  // ------------------------------------------------------------ delivery

  predicate HasLines(db: Db, k: OKey, n: nat) {
    forall i :: 1 <= i <= n ==> LKey(k.w, k.d, k.o, i) in db.lines
  }

  /** Lines 1..n of order k marked delivered. */
  function Marked(lines: map<LKey, Line>, k: OKey, n: nat, date: nat): map<LKey, Line>
    requires forall i :: 1 <= i <= n ==> LKey(k.w, k.d, k.o, i) in lines
  {
    map l | l in lines :: if OrderOf(l) == k && 1 <= l.n <= n then lines[l].(delivered := date) else lines[l]
  }

  /** Sum of the amounts of lines 1..n of order k. */
  function LineSum(lines: map<LKey, Line>, k: OKey, n: nat): int
    requires forall i :: 1 <= i <= n ==> LKey(k.w, k.d, k.o, i) in lines
  {
    if n == 0 then 0 else LineSum(lines, k, n - 1) + lines[LKey(k.w, k.d, k.o, n)].amount
  }

  function Credited(x: Customer, amount: int): Customer {
    x.(balance := x.balance + amount, deliveryCnt := x.deliveryCnt + 1)
  }

  predicate CanDeliver(db: Db, k: OKey) {
    && k in db.orders && HasLines(db, k, db.orders[k].olCnt)
    && CKey(k.w, k.d, db.orders[k].cid) in db.customers
  }

  function DeliverOrder(db: Db, k: OKey, carrier: nat, date: nat): Db
    requires CanDeliver(db, k)
  {
    var order := db.orders[k];
    var ck := CKey(k.w, k.d, order.cid);
    db.(newOrders := db.newOrders - {k},
        orders := db.orders[k := order.(carrier := carrier)],
        lines := Marked(db.lines, k, order.olCnt, date),
        customers := db.customers[ck := Credited(db.customers[ck], LineSum(db.lines, k, order.olCnt))])
  }

  /**
    One district: the scan proposes an order id, which may be 0, stale or taken
    from another district. No order row: skip. An order row without a new-order
    row: the whole transaction aborts.
   */
  ghost predicate Deliverable(db: Db) {
    forall k :: k in db.orders ==> CanDeliver(db, k)
  }

  function DeliverIn(db: Db, w: nat, d: nat, proposal: nat, carrier: nat, date: nat): Option<Db>
    requires Deliverable(db)
  {
    var k := OKey(w, d, proposal);
    if proposal == 0 || k !in db.orders then Some(db)
    else if k !in db.newOrders then None
    else Some(DeliverOrder(db, k, carrier, date))
  }

  lemma DeliverKeepsDeliverable(db: Db, k: OKey, carrier: nat, date: nat)
    requires Deliverable(db) && k in db.orders
    ensures Deliverable(DeliverOrder(db, k, carrier, date))
  {
    var db' := DeliverOrder(db, k, carrier, date);
    forall j | j in db'.orders
      ensures CanDeliver(db', j)
    {
      assert CanDeliver(db, j);
    }
  }

  /** Districts 1..d in turn. */
  function Deliver(db: Db, w: nat, proposals: seq<nat>, carrier: nat, date: nat, d: nat): (r: Option<Db>)
    requires Deliverable(db) && d <= |proposals|
    ensures r.Some? ==> Deliverable(r.value)
    decreases d
  {
    if d == 0 then Some(db)
    else
      var before := Deliver(db, w, proposals, carrier, date, d - 1);
      if before.None? then None
      else
        var k := OKey(w, d, proposals[d - 1]);
        assert k in before.value.orders ==> Deliverable(DeliverOrder(before.value, k, carrier, date)) by {
          if k in before.value.orders { DeliverKeepsDeliverable(before.value, k, carrier, date); }
        }
        DeliverIn(before.value, w, d, proposals[d - 1], carrier, date)
  }

  // ------------------------------------------------------------ steps

  datatype Txn =
    | DoNewOrder(w: nat, d: nat, c: nat, wanted: seq<Wanted>, date: nat)
    | AbortNewOrder(w: nat, d: nat)
    | DoPayment(w: nat, d: nat, ck: CKey, amount: int)
    | AbortPayment(ck: CKey)
    | DoDelivery(w: nat, proposals: seq<nat>, carrier: nat, date: nat)

  /** Some requested item has image id 0, which makes the new order abort. */
  predicate Unorderable(db: Db, wanted: seq<Wanted>) {
    exists i :: 0 <= i < |wanted| && wanted[i].item in db.items && db.items[wanted[i].item].imId == 0
  }

  function Apply(db: Db, t: Txn): Db
    requires Deliverable(db)
  {
    match t
    case DoNewOrder(w, d, c, wanted, date) =>
      if CanOrder(db, w, d, c, wanted) then
        if Unorderable(db, wanted) then DrawOid(db, w, d) else NewOrder(db, w, d, c, wanted, date)
      else db
    case AbortNewOrder(w, d) => DrawOid(db, w, d)
    case DoPayment(w, d, ck, amount) => if CanPay(db, w, d, ck) then Payment(db, w, d, ck, amount) else db
    case AbortPayment(ck) => DrawHistoryKey(db, ck.w)
    case DoDelivery(w, proposals, carrier, date) =>
      if |proposals| == DISTRICTS && 1 <= carrier <= 10 && 0 < date then
        var r := Deliver(db, w, proposals, carrier, date, DISTRICTS);
        if r.Some? then r.value else db
      else db
  }
}
