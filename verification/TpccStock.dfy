/**
  What a new order does to the stock rows. Each line computes its row from the
  committed one, and the write buffer keeps one write per row, so two lines of
  one order that name the same row leave only the later sale.
 */
module TpccStock {
  import opened Tpcc
  import Stock

  /** The sales that lines 1..k make from stock row s, in line order. */
  function Sold(w: nat, wanted: seq<Wanted>, k: nat, s: SKey): (r: seq<Stock.Sale>)
    requires k <= |wanted|
    ensures |r| <= k
  {
    if k == 0 then []
    else Sold(w, wanted, k - 1, s) + if StockKey(wanted[k - 1]) == s then [SaleOf(w, wanted[k - 1])] else []
  }

  /** The row after the order: untouched, or the committed row with the last sale alone. */
  lemma {:induction false} LastSaleWins(stocks: map<SKey, Stock.Counters>, w: nat, wanted: seq<Wanted>, k: nat, s: SKey)
    requires k <= |wanted| && s in stocks && forall i :: 0 <= i < |wanted| ==> StockKey(wanted[i]) in stocks
    ensures s in WithSales(stocks, w, wanted, k)
    ensures var sold := Sold(w, wanted, k, s);
            WithSales(stocks, w, wanted, k)[s] == if sold == [] then stocks[s]
              else Stock.Sell(stocks[s], sold[|sold| - 1])
  {
    if k > 0 {
      LastSaleWins(stocks, w, wanted, k - 1, s);
    }
  }

  lemma {:induction false} OrdersCounted(c: Stock.Counters, sales: seq<Stock.Sale>)
    ensures Stock.SellAll(c, sales).orderCnt == c.orderCnt + |sales|
  {
    if sales != [] {
      OrdersCounted(c, sales[..|sales| - 1]);
    }
  }

  /** The row carries every sale of the order exactly when at most one line names it. */
  lemma RowExact(stocks: map<SKey, Stock.Counters>, w: nat, wanted: seq<Wanted>, k: nat, s: SKey)
    requires k <= |wanted| && s in stocks && forall i :: 0 <= i < |wanted| ==> StockKey(wanted[i]) in stocks
    ensures s in WithSales(stocks, w, wanted, k)
    ensures WithSales(stocks, w, wanted, k)[s] == Stock.SellAll(stocks[s], Sold(w, wanted, k, s))
            <==> |Sold(w, wanted, k, s)| <= 1
  {
    var sold := Sold(w, wanted, k, s);
    LastSaleWins(stocks, w, wanted, k, s);
    OrdersCounted(stocks[s], sold);
    if |sold| == 1 {
      assert sold[..0] == [];
    }
  }

  predicate Distinct(wanted: seq<Wanted>, k: nat)
    requires k <= |wanted|
  {
    forall i, j :: 0 <= i < j < k ==> StockKey(wanted[i]) != StockKey(wanted[j])
  }

  lemma {:induction false} NamedIsSold(w: nat, wanted: seq<Wanted>, k: nat, i: nat)
    requires i < k <= |wanted|
    ensures Sold(w, wanted, k, StockKey(wanted[i])) != []
  {
    if i < k - 1 {
      NamedIsSold(w, wanted, k - 1, i);
    }
  }

  lemma {:induction false} SoldIsNamed(w: nat, wanted: seq<Wanted>, k: nat, s: SKey) returns (i: nat)
    requires k <= |wanted| && Sold(w, wanted, k, s) != []
    ensures i < k && StockKey(wanted[i]) == s
  {
    if StockKey(wanted[k - 1]) == s {
      i := k - 1;
    } else {
      i := SoldIsNamed(w, wanted, k - 1, s);
    }
  }

  lemma {:induction false} DistinctIsOnce(w: nat, wanted: seq<Wanted>, k: nat, s: SKey)
    requires k <= |wanted| && Distinct(wanted, k)
    ensures |Sold(w, wanted, k, s)| <= 1
  {
    if k > 0 {
      DistinctIsOnce(w, wanted, k - 1, s);
      if StockKey(wanted[k - 1]) == s && Sold(w, wanted, k - 1, s) != [] {
        var i := SoldIsNamed(w, wanted, k - 1, s);
        assert false;
      }
    }
  }

  lemma {:induction false} RepeatIsTwice(w: nat, wanted: seq<Wanted>, k: nat, i: nat, j: nat)
    requires i < j < k <= |wanted| && StockKey(wanted[i]) == StockKey(wanted[j])
    ensures |Sold(w, wanted, k, StockKey(wanted[i]))| >= 2
  {
    if j < k - 1 {
      RepeatIsTwice(w, wanted, k - 1, i, j);
    } else {
      NamedIsSold(w, wanted, k - 1, i);
    }
  }

  ghost predicate AllSold(stocks: map<SKey, Stock.Counters>, w: nat, wanted: seq<Wanted>,
                          after: map<SKey, Stock.Counters>) {
    forall s :: s in stocks ==> s in after && after[s] == Stock.SellAll(stocks[s], Sold(w, wanted, |wanted|, s))
  }

  /** A new order records every sale exactly when no two of its lines name the same stock row. */
  lemma SalesExact(stocks: map<SKey, Stock.Counters>, w: nat, wanted: seq<Wanted>)
    requires forall i :: 0 <= i < |wanted| ==> StockKey(wanted[i]) in stocks
    ensures AllSold(stocks, w, wanted, WithSales(stocks, w, wanted, |wanted|)) <==> Distinct(wanted, |wanted|)
  {
    var after := WithSales(stocks, w, wanted, |wanted|);
    if Distinct(wanted, |wanted|) {
      forall s | s in stocks
        ensures s in after && after[s] == Stock.SellAll(stocks[s], Sold(w, wanted, |wanted|, s))
      {
        DistinctIsOnce(w, wanted, |wanted|, s);
        RowExact(stocks, w, wanted, |wanted|, s);
      }
    } else {
      var i, j :| 0 <= i < j < |wanted| && StockKey(wanted[i]) == StockKey(wanted[j]);
      RepeatIsTwice(w, wanted, |wanted|, i, j);
      RowExact(stocks, w, wanted, |wanted|, StockKey(wanted[i]));
    }
  }

  /** Two lines of 3 and 4 of one item: the row ends as if only the 4 had been sold. */
  lemma RepeatLosesSale()
    ensures var s := SKey(1, 7);
            var stocks := map[s := Stock.Counters(50, 0, 0, 0)];
            WithSales(stocks, 1, [Wanted(7, 1, 3), Wanted(7, 1, 4)], 2)[s] == Stock.Counters(46, 4, 1, 0)
  {
    var s, wanted := SKey(1, 7), [Wanted(7, 1, 3), Wanted(7, 1, 4)];
    LastSaleWins(map[s := Stock.Counters(50, 0, 0, 0)], 1, wanted, 2, s);
    assert Sold(1, wanted, 2, s) == [Stock.Sale(3, false), Stock.Sale(4, false)];
  }
}
