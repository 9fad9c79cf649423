/**
  Year-to-date totals: clause 3.3.2.1 of the TPC-C specification, and the growth
  of each total since loading, payments by remote customers included.
 */
module TpccYtd {
  import opened Sums
  import opened Tpcc
  import opened TpccLedger

  const WAREHOUSE_YTD: int := 30000000
  const DISTRICT_YTD: int := 3000000
  /** Each warehouse's history table is loaded with one row per customer, numbered from 0. */
  const LOADED_ROWS: nat := 30000

  /** Rows that payments recorded against district (w, d). */
  ghost function PostedAt(history: map<HKey, History>, w: nat, d: nat): set<HKey> {
    set h | h in history && LOADED_ROWS <= h.h && history[h].w == w && history[h].d == d
  }

  /** Rows that payments recorded against warehouse w. */
  ghost function PostedTo(history: map<HKey, History>, w: nat): set<HKey> {
    set h | h in history && LOADED_ROWS <= h.h && history[h].w == w
  }

  ghost predicate AllDistricts(districts: map<DKey, District>, w: nat, n: nat) {
    forall d :: 1 <= d <= n ==> DKey(w, d) in districts
  }

  ghost function DistrictSum(districts: map<DKey, District>, w: nat, n: nat): int
    requires AllDistricts(districts, w, n)
  {
    if n == 0 then 0 else DistrictSum(districts, w, n - 1) + districts[DKey(w, n)].ytd
  }

  ghost predicate DistrictOk(k: DKey, x: District, history: map<HKey, History>) {
    1 <= k.d <= DISTRICTS && x.ytd == DISTRICT_YTD + Sum(PostedAt(history, k.w, k.d), HistoryAmount(history))
  }

  ghost predicate WarehouseOk(w: nat, ytd: int, districts: map<DKey, District>, history: map<HKey, History>) {
    && AllDistricts(districts, w, DISTRICTS)
    && ytd == DistrictSum(districts, w, DISTRICTS)
    && ytd == WAREHOUSE_YTD + Sum(PostedTo(history, w), HistoryAmount(history))
  }

  ghost predicate Ytd(warehouses: map<nat, int>, districts: map<DKey, District>, history: map<HKey, History>) {
    && (forall k {:trigger DistrictOk(k, districts[k], history)} :: k in districts ==>
        DistrictOk(k, districts[k], history))
    && (forall w {:trigger WarehouseOk(w, warehouses[w], districts, history)} ::
          w in warehouses ==> WarehouseOk(w, warehouses[w], districts, history))
  }

  /** The history table of every warehouse with customers has been loaded. */
  ghost predicate HistoryLoaded(customers: map<CKey, Customer>, gen: map<nat, nat>) {
    forall ck :: ck in customers ==> LOADED_ROWS <= NextHistory(gen, ck.w)
  }

  lemma DrawKeepsLoaded(customers: map<CKey, Customer>, gen: map<nat, nat>, ck: CKey, x: Customer, w: nat)
    requires HistoryLoaded(customers, gen) && ck in customers
    ensures HistoryLoaded(customers, HistoryDrawn(gen, w))
    ensures HistoryLoaded(customers[ck := x], HistoryDrawn(gen, w))
  {
  }

  lemma {:induction false} DistrictSumMoves(districts: map<DKey, District>, w: nat, d: nat, x: District, v: nat, n: nat)
    requires AllDistricts(districts, v, n) && DKey(w, d) in districts
    ensures AllDistricts(districts[DKey(w, d) := x], v, n)
    ensures DistrictSum(districts[DKey(w, d) := x], v, n)
            == DistrictSum(districts, v, n) + if v == w && 1 <= d <= n then x.ytd - districts[DKey(w, d)].ytd else 0
  {
    if n > 0 {
      DistrictSumMoves(districts, w, d, x, v, n - 1);
    }
  }

  lemma PostedGrows(history: map<HKey, History>, h: HKey, row: History, w: nat, d: nat)
    requires h !in history && LOADED_ROWS <= h.h
    ensures Sum(PostedAt(history[h := row], w, d), HistoryAmount(history[h := row]))
            == Sum(PostedAt(history, w, d), HistoryAmount(history)) + if row.w == w && row.d == d then row.amount else 0
    ensures Sum(PostedTo(history[h := row], w), HistoryAmount(history[h := row]))
            == Sum(PostedTo(history, w), HistoryAmount(history)) + if row.w == w then row.amount else 0
  {
    var history' := history[h := row];
    assert PostedAt(history', w, d) ==
           if row.w == w && row.d == d then PostedAt(history, w, d) + {h} else PostedAt(history, w, d);
    assert PostedTo(history', w) == if row.w == w then PostedTo(history, w) + {h} else PostedTo(history, w);
    HistorySumGrows(history, h, row, PostedAt(history, w, d));
    HistorySumGrows(history, h, row, PostedTo(history, w));
  }

  lemma PostKeepsDistricts(districts: map<DKey, District>, history: map<HKey, History>, w: nat, d: nat, h: HKey,
                           row: History)
    requires forall k :: k in districts ==> DistrictOk(k, districts[k], history)
    requires DKey(w, d) in districts && h !in history && LOADED_ROWS <= h.h && row.w == w && row.d == d
    ensures var districts' := districts[DKey(w, d) := Collected(districts[DKey(w, d)], row.amount)];
            forall k :: k in districts' ==> DistrictOk(k, districts'[k], history[h := row])
  {
    var districts' := districts[DKey(w, d) := Collected(districts[DKey(w, d)], row.amount)];
    forall k | k in districts'
      ensures DistrictOk(k, districts'[k], history[h := row])
    {
      assert DistrictOk(k, districts[k], history);
      PostedGrows(history, h, row, k.w, k.d);
    }
  }

  lemma PostKeepsWarehouse(v: nat, ytd: int, districts: map<DKey, District>, history: map<HKey, History>,
                           w: nat, d: nat, h: HKey, row: History)
    requires WarehouseOk(v, ytd, districts, history) && 1 <= d <= DISTRICTS
    requires DKey(w, d) in districts && h !in history && LOADED_ROWS <= h.h && row.w == w && row.d == d
    ensures WarehouseOk(v, if v == w then ytd + row.amount else ytd,
                        districts[DKey(w, d) := Collected(districts[DKey(w, d)], row.amount)], history[h := row])
  {
    DistrictSumMoves(districts, w, d, Collected(districts[DKey(w, d)], row.amount), v, DISTRICTS);
    PostedGrows(history, h, row, v, d);
  }

  lemma PostKeepsYtd(warehouses: map<nat, int>, districts: map<DKey, District>, history: map<HKey, History>,
                     w: nat, d: nat, h: HKey, row: History)
    requires Ytd(warehouses, districts, history) && w in warehouses
    requires DKey(w, d) in districts && h !in history && LOADED_ROWS <= h.h && row.w == w && row.d == d
    ensures Ytd(warehouses[w := warehouses[w] + row.amount],
                districts[DKey(w, d) := Collected(districts[DKey(w, d)], row.amount)], history[h := row])
  {
    assert DistrictOk(DKey(w, d), districts[DKey(w, d)], history);
    PostKeepsDistricts(districts, history, w, d, h, row);
    forall v | v in warehouses
      ensures WarehouseOk(v, warehouses[w := warehouses[w] + row.amount][v],
                          districts[DKey(w, d) := Collected(districts[DKey(w, d)], row.amount)], history[h := row])
    {
      PostKeepsWarehouse(v, warehouses[v], districts, history, w, d, h, row);
    }
  }

  lemma FreshPosting(customers: map<CKey, Customer>, history: map<HKey, History>, gen: map<nat, nat>, w: nat, d: nat,
                     ck: CKey)
    requires HistoryOk(history, gen) && HistoryLoaded(customers, gen) && ck in customers
    ensures PaymentKey(gen, w, d, ck) !in history && LOADED_ROWS <= PaymentKey(gen, w, d, ck).h
  {
  }

  lemma PaymentKeepsYtd(db: Db, w: nat, d: nat, ck: CKey, amount: int)
    requires Ytd(db.warehouses, db.districts, db.history) && HistoryLoaded(db.customers, db.historyGen)
    requires HistoryOk(db.history, db.historyGen) && CanPay(db, w, d, ck)
    ensures var db' := Payment(db, w, d, ck, amount); Ytd(db'.warehouses, db'.districts, db'.history)
  {
    FreshPosting(db.customers, db.history, db.historyGen, w, d, ck);
    PostKeepsYtd(db.warehouses, db.districts, db.history, w, d,
                 PaymentKey(db.historyGen, w, d, ck), History(ck.w, ck.d, ck.c, w, d, amount));
  }

  /** Only the next order id of a district changes: the totals do not see it. */
  lemma OtherColumnKeeps(warehouses: map<nat, int>, districts: map<DKey, District>, history: map<HKey, History>,
                         k: DKey, o: nat)
    requires Ytd(warehouses, districts, history) && k in districts
    ensures Ytd(warehouses, districts[k := districts[k].(nextOid := o)], history)
  {
    var districts' := districts[k := districts[k].(nextOid := o)];
    forall j | j in districts'
      ensures DistrictOk(j, districts'[j], history)
    {
      assert DistrictOk(j, districts[j], history);
    }
    forall w | w in warehouses
      ensures WarehouseOk(w, warehouses[w], districts', history)
    {
      assert WarehouseOk(w, warehouses[w], districts, history);
      DistrictSumMoves(districts, k.w, k.d, districts'[k], w, DISTRICTS);
    }
  }
}
