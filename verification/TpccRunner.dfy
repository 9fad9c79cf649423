/**
  The transactions as they run: they read committed rows, buffer their writes and
  install them at commit. Any read or check may fail and abort the attempt; which
  ones fail is a parameter of the attempt.
 */
module TpccRunner {
  import opened Options
  import opened Tpcc
  import opened TpccOrders
  import opened TpccEffects
  import Stock

  lemma MergeUpdate<K, V>(base: map<K, V>, writes: map<K, V>, k: K, v: V)
    ensures base + writes[k := v] == (base + writes)[k := v]
  {
  }

  /** The buffered writes of a delivery. */
  datatype Staged = Staged(removed: set<OKey>, orders: map<OKey, Order>, lines: map<LKey, Line>,
                           customers: map<CKey, Customer>)

  function Installed(db: Db, s: Staged): Db {
    db.(newOrders := db.newOrders - s.removed, orders := db.orders + s.orders, lines := db.lines + s.lines,
        customers := db.customers + s.customers)
  }

  /** Only districts below d have been written: the rows of district d are read as committed. */
  ghost predicate Below(s: Staged, d: nat) {
    && (forall k :: k in s.removed ==> k.d < d)
    && (forall k :: k in s.orders ==> k.d < d)
    && (forall l :: l in s.lines ==> l.d < d)
    && (forall ck :: ck in s.customers ==> ck.d < d)
  }

  lemma {:induction false} LineSumSame(lines: map<LKey, Line>, writes: map<LKey, Line>, k: OKey, n: nat)
    requires forall i :: 1 <= i <= n ==> LKey(k.w, k.d, k.o, i) in lines
    requires forall l :: l in writes ==> OrderOf(l) != k
    ensures forall i :: 1 <= i <= n ==> LKey(k.w, k.d, k.o, i) in lines + writes
    ensures LineSum(lines + writes, k, n) == LineSum(lines, k, n)
  {
    if n > 0 {
      LineSumSame(lines, writes, k, n - 1);
      assert OrderOf(LKey(k.w, k.d, k.o, n)) == k;
    }
  }

  lemma MarkedMerge(lines: map<LKey, Line>, writes: map<LKey, Line>, k: OKey, n: nat, date: nat, more: map<LKey, Line>)
    requires forall i :: 1 <= i <= n ==> LKey(k.w, k.d, k.o, i) in lines
    requires forall l :: l in writes ==> OrderOf(l) != k
    requires forall l :: l in more ==> OrderOf(l) == k
    requires lines + more == Marked(lines, k, n, date)
    ensures forall i :: 1 <= i <= n ==> LKey(k.w, k.d, k.o, i) in lines + writes
    ensures Marked(lines + writes, k, n, date) == lines + (writes + more)
  {
    var all := lines + writes;
    assert forall l :: l in more ==> l in lines + more;
    forall l | l in all
      ensures l in lines + (writes + more) && Marked(all, k, n, date)[l] == (lines + (writes + more))[l]
    {
      if OrderOf(l) == k {
        assert l in lines && (lines + more)[l] == Marked(lines, k, n, date)[l];
      }
    }
  }

  /** Delivering one order of district d on top of the staged writes stages exactly its own writes. */
  lemma StageStep(db: Db, s: Staged, k: OKey, carrier: nat, date: nat, more: map<LKey, Line>)
    requires CanDeliver(db, k) && CanDeliver(Installed(db, s), k) && Below(s, k.d)
    requires db.lines + more == Marked(db.lines, k, db.orders[k].olCnt, date)
    requires forall l :: l in more ==> OrderOf(l) == k
    ensures var ck := CustomerOf(k, db.orders[k]);
            DeliverOrder(Installed(db, s), k, carrier, date)
            == Installed(db, Staged(s.removed + {k}, s.orders[k := db.orders[k].(carrier := carrier)], s.lines + more,
                                    s.customers[ck := Credited(db.customers[ck],
                                                               LineSum(db.lines, k, db.orders[k].olCnt))]))
  {
    var n, ck := db.orders[k].olCnt, CustomerOf(k, db.orders[k]);
    assert forall l :: l in s.lines ==> OrderOf(l) != k;
    LineSumSame(db.lines, s.lines, k, n);
    MarkedMerge(db.lines, s.lines, k, n, date, more);
    MergeUpdate(db.orders, s.orders, k, db.orders[k].(carrier := carrier));
    MergeUpdate(db.customers, s.customers, ck, Credited(db.customers[ck], LineSum(db.lines, k, n)));
    assert (db.orders + s.orders)[k] == db.orders[k];
    assert (db.customers + s.customers)[ck] == db.customers[ck];
    assert db.newOrders - s.removed - {k} == db.newOrders - (s.removed + {k});
  }

  /** A delivery that gives up in district d gives up as a whole. */
  lemma {:induction false} GivesUp(db: Db, w: nat, proposals: seq<nat>, carrier: nat, date: nat, d: nat, n: nat)
    requires Deliverable(db) && d <= n <= |proposals| && Deliver(db, w, proposals, carrier, date, d).None?
    ensures Deliver(db, w, proposals, carrier, date, n).None?
    decreases n
  {
    if d < n {
      GivesUp(db, w, proposals, carrier, date, d, n - 1);
    }
  }

  /** No district from 1 to n fails. */
  predicate NoneFails(failing: set<nat>, n: nat) { forall d :: 1 <= d <= n ==> d !in failing }

  lemma NothingStaged(db: Db)
    ensures Installed(db, Staged({}, map[], map[], map[])) == db
  {
  }

  /** District d decides what becomes of the districts before it. */
  lemma NextDistrict(db: Db, w: nat, proposals: seq<nat>, carrier: nat, date: nat, d: nat, failing: set<nat>)
    requires Deliverable(db) && 1 <= d <= |proposals| && Deliver(db, w, proposals, carrier, date, d - 1).Some?
    ensures var v := Deliver(db, w, proposals, carrier, date, d - 1).value;
            var r := DeliverIn(v, w, d, proposals[d - 1], carrier, date);
            && Deliver(db, w, proposals, carrier, date, d) == r
            && (r.None? ==> Deliver(db, w, proposals, carrier, date, |proposals|).None?)
    ensures NoneFails(failing, d) <==> NoneFails(failing, d - 1) && d !in failing
    ensures d in failing ==> !NoneFails(failing, |proposals|)
  {
    if Deliver(db, w, proposals, carrier, date, d).None? {
      GivesUp(db, w, proposals, carrier, date, d, |proposals|);
    }
  }

  class Runner {
    var db: Db

    /**
      One attempt, in which the reads before the order id is drawn fail (early), or
      a later read or the commit (late), or the reads for some of the items. An
      attempt that aborts after drawing its order id leaves the id unused.
     */
    method NewOrder(w: nat, d: nat, c: nat, wanted: seq<Wanted>, date: nat, early: bool, late: bool,
                    failing: set<nat>) returns (ok: bool)
      requires CanOrder(db, w, d, c, wanted)
      modifies this
      ensures ok <==>
                && !early && !late && !Unorderable(old(db), wanted)
                && forall i :: 0 <= i < |wanted| ==> i !in failing
      ensures db == if ok then Tpcc.NewOrder(old(db), w, d, c, wanted, date)
                    else if early then old(db) else DrawOid(old(db), w, d)
    {
      var allLocal := true;
      for i := 0 to |wanted|
        invariant allLocal == AllLocal(w, wanted[..i])
      {
        assert wanted[..i + 1] == wanted[..i] + [wanted[i]];
        if wanted[i].supply != w {
          allLocal := false;
        }
      }
      assert wanted[..|wanted|] == wanted;
      if early {
        return false;
      }
      var o := NextOid(db.oidGen, w, d);
      db := db.(oidGen := Drawn(db.oidGen, w, d));
      if late {
        return false;
      }
      var good, lineWrites, stockWrites := BufferLines(OKey(w, d, o), w, wanted, failing);
      if !good {
        return false;
      }
      db := db.(
        districts := db.districts[DKey(w, d) := db.districts[DKey(w, d)].(nextOid := o)],
        orders := db.orders[OKey(w, d, o) := Order(c, 0, |wanted|, allLocal, date)],
        newOrders := db.newOrders + {OKey(w, d, o)},
        customerOrders := db.customerOrders + {IKey(w, d, c, o)},
        lines := db.lines + lineWrites,
        stocks := db.stocks + stockWrites);
      ok := true;
    }

    /** The item loop: line inserts and stock writes are buffered, every stock row is read as committed. */
    method BufferLines(k: OKey, w: nat, wanted: seq<Wanted>, failing: set<nat>)
        returns (ok: bool, lineWrites: map<LKey, Line>, stockWrites: map<SKey, Stock.Counters>)
      requires InStock(db.items, db.stocks, wanted)
      ensures ok <==> forall i :: 0 <= i < |wanted| ==> db.items[wanted[i].item].imId != 0 && i !in failing
      ensures ok ==> db.lines + lineWrites == WithLines(db.lines, db.items, k, wanted, |wanted|)
      ensures ok ==> db.stocks + stockWrites == WithSales(db.stocks, w, wanted, |wanted|)
    {
      lineWrites, stockWrites := map[], map[];
      for i := 0 to |wanted|
        invariant forall j :: 0 <= j < i ==> db.items[wanted[j].item].imId != 0 && j !in failing
        invariant db.lines + lineWrites == WithLines(db.lines, db.items, k, wanted, i)
        invariant db.stocks + stockWrites == WithSales(db.stocks, w, wanted, i)
      {
        var x := wanted[i];
        if db.items[x.item].imId == 0 {
          return false, lineWrites, stockWrites;
        }
        if i in failing {
          return false, lineWrites, stockWrites;
        }
        var sold := Stock.Sell(db.stocks[StockKey(x)], SaleOf(w, x));
        MergeUpdate(db.stocks, stockWrites, StockKey(x), sold);
        stockWrites := stockWrites[StockKey(x) := sold];
        MergeUpdate(db.lines, lineWrites, LKey(k.w, k.d, k.o, i + 1), NewLine(db.items, x));
        lineWrites := lineWrites[LKey(k.w, k.d, k.o, i + 1) := NewLine(db.items, x)];
      }
      ok := true;
    }

    /** One attempt. An attempt that aborts after drawing its history key leaves the key unused. */
    method Payment(w: nat, d: nat, ck: CKey, amount: int, early: bool, late: bool) returns (ok: bool)
      requires CanPay(db, w, d, ck)
      modifies this
      ensures ok <==> !early && !late
      ensures db == if ok then Tpcc.Payment(old(db), w, d, ck, amount)
                    else if early then old(db) else DrawHistoryKey(old(db), ck.w)
    {
      if early {
        return false;
      }
      var ytd, district, x := db.warehouses[w] + amount, db.districts[DKey(w, d)], db.customers[ck];
      var newDistrict := district.(ytd := district.ytd + amount);
      var newCustomer := x.(balance := x.balance - amount, paymentCnt := x.paymentCnt + 1,
                            ytdPayment := x.ytdPayment + amount);
      var h := PaymentKey(db.historyGen, w, d, ck);
      db := db.(historyGen := HistoryDrawn(db.historyGen, ck.w));
      if late {
        return false;
      }
      db := db.(
        warehouses := db.warehouses[w := ytd],
        districts := db.districts[DKey(w, d) := newDistrict],
        customers := db.customers[ck := newCustomer],
        history := db.history[h := History(ck.w, ck.d, ck.c, w, d, amount)]);
      ok := true;
    }

    /** The line loop of one order: the 32-bit sum and the buffered delivery dates. */
    method DeliverLines(k: OKey, cnt: nat, date: nat) returns (sum: int, writes: map<LKey, Line>)
      requires LinesOk(db.orders, db.lines) && k in db.orders && db.orders[k].olCnt == cnt <= MAX_LINES
      ensures HasLines(db, k, cnt) && sum == LineSum(db.lines, k, cnt) && 0 <= sum <= 0x7FFF_FFFF
      ensures db.lines + writes == Marked(db.lines, k, cnt, date)
      ensures forall l :: l in writes ==> OrderOf(l) == k
    {
      forall i | 1 <= i <= cnt
        ensures LKey(k.w, k.d, k.o, i) in db.lines
      {
        assert LineKey(k, i) in db.lines;
      }
      sum, writes := 0, map[];
      var i := 1;
      while i <= cnt
        invariant 1 <= i <= cnt + 1
        invariant sum == LineSum(db.lines, k, i - 1) && 0 <= sum <= 0x7FFF_FFFF
        invariant forall l :: l in writes <==> OrderOf(l) == k && 1 <= l.n < i
        invariant forall l :: l in writes ==> l in db.lines && writes[l] == db.lines[l].(delivered := date)
      {
        var l := LKey(k.w, k.d, k.o, i);
        DeliverySumFits(db.orders, db.lines, k, i);
        sum := sum + db.lines[l].amount;
        writes := writes[l := db.lines[l].(delivered := date)];
        i := i + 1;
      }
    }

    /**
      One attempt: districts 1 to 10 in turn, each with the order id its scan
      proposes; the reads of some districts may fail, or the commit (late).
     */
    method Delivery(w: nat, proposals: seq<nat>, carrier: nat, date: nat, failing: set<nat>, late: bool)
        returns (ok: bool)
      requires Coherent(db) && Deliverable(db) && |proposals| == DISTRICTS && 1 <= carrier <= 10 && 0 < date
      modifies this
      ensures ok <==> !late && !Stale(old(db), w, proposals, DISTRICTS) && NoneFails(failing, DISTRICTS)
      ensures if ok then DeliveredIn(old(db), db, w, proposals, carrier, date, DISTRICTS) else db == old(db)
      ensures ok ==> Deliver(old(db), w, proposals, carrier, date, DISTRICTS) == Some(db)
    {
      var good, s := StageDistricts(w, proposals, carrier, date, failing);
      DeliverExactly(db, w, proposals, carrier, date, |proposals|);
      ok := good && !late;
      if ok {
        db := Installed(db, s);
      }
    }

    /** The loop over the districts buffers the writes of all of them, or gives up in one. */
    method StageDistricts(w: nat, proposals: seq<nat>, carrier: nat, date: nat, failing: set<nat>)
        returns (ok: bool, s: Staged)
      requires Coherent(db) && Deliverable(db)
      ensures ok <==> Deliver(db, w, proposals, carrier, date, |proposals|).Some? && NoneFails(failing, |proposals|)
      ensures ok ==> Deliver(db, w, proposals, carrier, date, |proposals|) == Some(Installed(db, s))
    {
      s := Staged({}, map[], map[], map[]);
      NothingStaged(db);
      var d := 1;
      while d <= |proposals|
        invariant 1 <= d <= |proposals| + 1 && Below(s, d) && NoneFails(failing, d - 1)
        invariant Deliver(db, w, proposals, carrier, date, d - 1) == Some(Installed(db, s))
      {
        NextDistrict(db, w, proposals, carrier, date, d, failing);
        ok, s := DeliverDistrict(s, OKey(w, d, proposals[d - 1]), carrier, date, d in failing);
        if !ok {
          return;
        }
        d := d + 1;
      }
      ok := true;
    }

    method DeliverDistrict(s: Staged, k: OKey, carrier: nat, date: nat, fails: bool) returns (ok: bool, s': Staged)
      requires Coherent(db) && Deliverable(db) && Deliverable(Installed(db, s)) && Below(s, k.d)
      ensures ok <==> !fails && DeliverIn(Installed(db, s), k.w, k.d, k.o, carrier, date).Some?
      ensures ok ==>
                DeliverIn(Installed(db, s), k.w, k.d, k.o, carrier, date) == Some(Installed(db, s'))
                && Below(s', k.d + 1)
    {
      s' := s;
      if fails {
        return false, s;
      }
      if k.o == 0 || k !in db.orders {
        return true, s;
      }
      if k !in db.newOrders {
        return false, s;
      }
      var order := db.orders[k];
      assert OrderOk(k, order, db.newOrders, db.customers, db.oidGen);
      var sum, writes := DeliverLines(k, order.olCnt, date);
      var ck := CKey(k.w, k.d, order.cid);
      s' := Staged(s.removed + {k}, s.orders[k := order.(carrier := carrier)], s.lines + writes,
                   s.customers[ck := Credited(db.customers[ck], sum)]);
      StageStep(db, s, k, carrier, date, writes);
      ok := true;
    }
  }
}
