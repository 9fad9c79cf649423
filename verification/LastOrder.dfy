/** The order-status lookup: the highest order id of a customer by one reverse scan of the order-customer index. */
module LastOrder {
  import opened Bytes
  import opened Scan
  import opened Tpcc
  import opened TpccOrders
  import TpccLoad
  import TpccTheorems

  const MAX64: nat := 0xFFFF_FFFF_FFFF_FFFF
  const WIDTHS: seq<nat> := [8, 8, 8, 8]

  predicate Fits64(i: IKey) { i.w <= MAX64 && i.d <= MAX64 && i.c <= MAX64 && i.o <= MAX64 }

  function Fields(i: IKey): seq<nat> { [i.w, i.d, i.c, i.o] }

  function IndexKey(i: IKey): Key { KeyBytes(Fields(i), WIDTHS) }

  lemma Pow256Of8()
    ensures Pow256(8) == MAX64 + 1
  {
    assert Pow256(4) == 0x1_0000_0000;
    assert Pow256(6) == 0x1_0000_0000_0000;
  }

  lemma FieldsFit(i: IKey)
    requires Fits64(i)
    ensures Fits(Fields(i), WIDTHS)
  {
    Pow256Of8();
    FitsCons(i.o, [], []);
    FitsCons(i.c, [i.o], [8]);
    FitsCons(i.d, [i.c, i.o], [8, 8]);
    FitsCons(i.w, [i.d, i.c, i.o], [8, 8, 8]);
  }

  lemma FitsCons(x: nat, fields: seq<nat>, widths: seq<nat>)
    requires Fits(fields, widths) && x < Pow256(8)
    ensures Fits([x] + fields, [8] + widths)
  {
    assert ([x] + fields)[1..] == fields && ([8] + widths)[1..] == widths;
  }

  predicate Below(a: IKey, b: IKey) {
    a.w < b.w || (a.w == b.w && (a.d < b.d || (a.d == b.d && (a.c < b.c || (a.c == b.c && a.o < b.o)))))
  }

  lemma TupleCons(x: nat, a: seq<nat>, y: nat, b: seq<nat>)
    requires |a| == |b|
    ensures TupleLess([x] + a, [y] + b) <==> x < y || (x == y && TupleLess(a, b))
  {
    assert ([x] + a)[1..] == a && ([y] + b)[1..] == b;
  }

  lemma TupleIsBelow(a: IKey, b: IKey)
    ensures TupleLess(Fields(a), Fields(b)) <==> Below(a, b)
  {
    TupleCons(a.o, [], b.o, []);
    TupleCons(a.c, [a.o], b.c, [b.o]);
    TupleCons(a.d, [a.c] + [a.o], b.d, [b.c] + [b.o]);
    TupleCons(a.w, [a.d] + ([a.c] + [a.o]), b.w, [b.d] + ([b.c] + [b.o]));
    assert [a.o] + [] == [a.o] && [b.o] + [] == [b.o];
    assert Fields(a) == [a.w] + ([a.d] + ([a.c] + [a.o])) && Fields(b) == [b.w] + ([b.d] + ([b.c] + [b.o]));
  }

  /** Index keys compare bytewise as their tuples do. */
  lemma IndexOrder(a: IKey, b: IKey)
    requires Fits64(a) && Fits64(b)
    ensures Less(IndexKey(a), IndexKey(b)) <==> Below(a, b)
    ensures IndexKey(a) == IndexKey(b) <==> a == b
  {
    FieldsFit(a);
    FieldsFit(b);
    KeyOrder(Fields(a), Fields(b), WIDTHS);
    TupleIsBelow(a, b);
    if Fields(a) == Fields(b) {
      assert Fields(a)[0] == Fields(b)[0] && Fields(a)[1] == Fields(b)[1];
      assert Fields(a)[2] == Fields(b)[2] && Fields(a)[3] == Fields(b)[3];
    }
  }

  /** The order id a callback reads back from the last word of a key. */
  function OrderIdOf(k: Key): nat
    requires |k| == 32
  {
    Value(k[24..])
  }

  lemma KeyCons(x: nat, fields: seq<nat>, widths: seq<nat>)
    requires |fields| == |widths|
    ensures KeyBytes([x] + fields, [8] + widths) == Word(x, 8) + KeyBytes(fields, widths)
  {
    assert ([x] + fields)[1..] == fields && ([8] + widths)[1..] == widths;
  }

  lemma KeyLayout(i: IKey)
    ensures IndexKey(i) == Word(i.w, 8) + (Word(i.d, 8) + (Word(i.c, 8) + Word(i.o, 8)))
  {
    KeyCons(i.o, [], []);
    KeyCons(i.c, [i.o] + [], [8] + []);
    KeyCons(i.d, [i.c] + ([i.o] + []), [8] + ([8] + []));
    KeyCons(i.w, [i.d] + ([i.c] + ([i.o] + [])), [8] + ([8] + ([8] + [])));
    assert Fields(i) == [i.w] + ([i.d] + ([i.c] + ([i.o] + []))) && WIDTHS == [8] + ([8] + ([8] + ([8] + [])));
    assert Word(i.o, 8) + KeyBytes([], []) == Word(i.o, 8);
  }

  lemma OrderIdRead(i: IKey)
    requires Fits64(i)
    ensures |IndexKey(i)| == 32 && OrderIdOf(IndexKey(i)) == i.o
  {
    KeyLayout(i);
    assert IndexKey(i)[24..] == Word(i.o, 8);
    SwappedIsBigEndian(i.o, 8);
    Pow256Of8();
    DecodeEncode(i.o, 8);
  }

  // ------------------------------------------------------------ the scan

  /** What a reverse scan from start meets: the committed index keys up to start. */
  ghost predicate Meets(index: set<IKey>, start: IKey, met: seq<IKey>) {
    && (forall j :: 0 <= j < |met| ==> met[j] in index && !Below(start, met[j]))
    && (forall i :: i in index && !Below(start, i) ==> i in met)
  }

  ghost predicate Spells(met: seq<IKey>, entries: seq<Entry>) {
    |entries| == |met| && forall j :: 0 <= j < |met| ==> entries[j] == Entry(IndexKey(met[j]), true)
  }

  ghost predicate Descending(met: seq<IKey>) {
    forall i, j :: 0 <= i < j < |met| ==> Below(met[j], met[i])
  }

  ghost predicate Small(index: set<IKey>) { forall i :: i in index ==> Fits64(i) && 0 < i.o }

  lemma BytesDescend(met: seq<IKey>, entries: seq<Entry>)
    requires Spells(met, entries) && Ordered(entries, true) && forall j :: 0 <= j < |met| ==> Fits64(met[j])
    ensures Descending(met)
  {
    forall i, j | 0 <= i < j < |met|
      ensures Below(met[j], met[i])
    {
      assert Less(entries[j].key, entries[i].key);
      IndexOrder(met[j], met[i]);
    }
  }

  /** With a limit of one, a reverse scan answers with its first entry or nothing. */
  lemma FirstInside(entries: seq<Entry>, boundary: Key)
    requires Ordered(entries, true) && forall j :: 0 <= j < |entries| ==> entries[j].valid
    ensures Limited(KeysInside(entries, boundary, true), 1)
            == if entries != [] && Inside(boundary, true, entries[0].key) then [entries[0].key] else []
  {
    if entries != [] {
      if Inside(boundary, true, entries[0].key) {
        assert KeysInside(entries, boundary, true)[0] == entries[0].key;
      } else {
        forall i | 0 <= i < |entries|
          ensures !Inside(boundary, true, entries[i].key)
        {
          if i > 0 {
            OutsideStays(entries, boundary, true, 0, i);
          }
        }
        NothingInside(entries, boundary, true);
      }
    }
  }

  ghost predicate Places(orders: map<OKey, Order>, w: nat, d: nat, c: nat, o: nat) {
    OKey(w, d, o) in orders && orders[OKey(w, d, o)].cid == c
  }

  predicate OfCustomer(i: IKey, w: nat, d: nat, c: nat) { i.w == w && i.d == d && i.c == c }

  /** Every order of the customer was met, so the first one met is the highest if it is the customer's. */
  lemma FirstIsHighest(orders: map<OKey, Order>, index: set<IKey>, w: nat, d: nat, c: nat, met: seq<IKey>)
    requires IndexOk(orders, index) && Small(index) && Meets(index, IKey(w, d, c, MAX64), met) && Descending(met)
    ensures forall o: nat :: Places(orders, w, d, c, o) ==> met != [] && OfCustomer(met[0], w, d, c) && o <= met[0].o
    ensures met != [] && OfCustomer(met[0], w, d, c) ==> Places(orders, w, d, c, met[0].o)
  {
    forall o: nat | Places(orders, w, d, c, o)
      ensures met != [] && OfCustomer(met[0], w, d, c) && o <= met[0].o
    {
      var i := IKey(w, d, c, o);
      assert i in index;
      var j :| 0 <= j < |met| && met[j] == i;
    }
  }

  /** Between the customer's lowest and highest possible key lie only the customer's keys. */
  lemma InsideIsCustomers(first: IKey, w: nat, d: nat, c: nat)
    requires Fits64(first) && 0 < first.o && Fits64(IKey(w, d, c, 0)) && !Below(IKey(w, d, c, MAX64), first)
    ensures Inside(IndexKey(IKey(w, d, c, 0)), true, IndexKey(first)) <==> OfCustomer(first, w, d, c)
  {
    IndexOrder(IKey(w, d, c, 0), first);
    OrderIdRead(IKey(w, d, c, 0));
  }

  ghost predicate IsHighest(orders: map<OKey, Order>, w: nat, d: nat, c: nat, found: seq<Key>) {
    && (found == [] ==> forall o: nat :: !Places(orders, w, d, c, o))
    && (found != [] ==>
          && |found| == 1 && |found[0]| == 32 && Places(orders, w, d, c, OrderIdOf(found[0]))
          && forall o: nat :: Places(orders, w, d, c, o) ==> o <= OrderIdOf(found[0]))
  }

  /** The one-row reverse scan answers with the customer's highest order id, and with nothing when there is none. */
  lemma HighestOrderFound(orders: map<OKey, Order>, index: set<IKey>, w: nat, d: nat, c: nat, met: seq<IKey>,
                          entries: seq<Entry>)
    requires IndexOk(orders, index) && Small(index) && Fits64(IKey(w, d, c, 0))
    requires Meets(index, IKey(w, d, c, MAX64), met) && Spells(met, entries) && Ordered(entries, true)
    ensures IsHighest(orders, w, d, c, Limited(KeysInside(entries, IndexKey(IKey(w, d, c, 0)), true), 1))
  {
    BytesDescend(met, entries);
    FirstInside(entries, IndexKey(IKey(w, d, c, 0)));
    FirstIsHighest(orders, index, w, d, c, met);
    if met != [] {
      InsideIsCustomers(met[0], w, d, c);
      OrderIdRead(met[0]);
    }
  }

  /** So it does in every state that transactions reach from the loaded database while ids fit 64 bits. */
  lemma HighestOrderInRuns(db: Db, n: nat, txns: seq<Txn>, r: Db, w: nat, d: nat, c: nat, met: seq<IKey>,
                           entries: seq<Entry>)
    requires TpccLoad.Loaded(db, n) && r == TpccTheorems.Reached(db, n, txns)
    requires (forall i :: i in r.customerOrders ==> Fits64(i)) && Fits64(IKey(w, d, c, 0))
    requires Meets(r.customerOrders, IKey(w, d, c, MAX64), met) && Spells(met, entries) && Ordered(entries, true)
    ensures IsHighest(r.orders, w, d, c, Limited(KeysInside(entries, IndexKey(IKey(w, d, c, 0)), true), 1))
  {
    forall i | i in r.customerOrders
      ensures 0 < i.o
    {
      TpccTheorems.IndexExact(db, n, txns, i);
    }
    HighestOrderFound(r.orders, r.customerOrders, w, d, c, met, entries);
  }

  /** The lookup itself; 0 stands for "no order". */
  method Lookup(ghost orders: map<OKey, Order>, ghost index: set<IKey>, ghost met: seq<IKey>,
                w: nat, d: nat, c: nat, leaves: seq<Leaf>)
      returns (o: nat)
    requires IndexOk(orders, index) && Small(index) && Fits64(IKey(w, d, c, 0))
    requires forall i :: 0 <= i < |leaves| ==> LeafOk(leaves[i])
    requires Meets(index, IKey(w, d, c, MAX64), met) && Spells(met, Entries(leaves)) && Ordered(Entries(leaves), true)
    ensures o == 0 <==> forall x: nat :: !Places(orders, w, d, c, x)
    ensures o != 0 ==> Places(orders, w, d, c, o) && forall x: nat :: Places(orders, w, d, c, x) ==> x <= o
  {
    var scanner := new RangeScanner(IndexKey(IKey(w, d, c, 0)), true, 1);
    scanner.Scan(leaves);
    HighestOrderFound(orders, index, w, d, c, met, Entries(leaves));
    if scanner.found == [] {
      o := 0;
    } else {
      o := OrderIdOf(scanner.found[0]);
      assert IKey(w, d, c, o) in index;
    }
  }
}
