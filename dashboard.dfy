// The dashboard (DashboardView.get_context_data in views.py): figures read
// from the instrument, maintenance-order and movement tables. Nothing here
// writes to the store.

module Dashboard {
  import opened Models

  /** How many best sellers the dashboard lists. */
  const TopLimit: nat := 10

  // ---------------------------------------------------------------------
  // Stock figures
  // ---------------------------------------------------------------------

  /** total_estoque: units on hand over all instruments (0 for an empty catalogue). */
  function TotalStock(items: seq<Instrument>): (r: nat)
    ensures r == 0 <==> forall k :: 0 <= k < |items| ==> items[k].quantity == 0
    ensures forall k :: 0 <= k < |items| ==> items[k].quantity <= r
  {
    if items == [] then 0 else items[0].quantity + TotalStock(items[1..])
  }

  /** valor_estoque: quantity times unit price summed over all instruments,
      in cents (0 for an empty catalogue). Prices carry no lower bound, so
      the value is non-negative only when the prices are. */
  function StockValue(items: seq<Instrument>): (r: int)
    ensures (forall k :: 0 <= k < |items| ==> items[k].priceCents >= 0) ==> r >= 0
    ensures (forall k :: 0 <= k < |items| ==> items[k].quantity == 0) ==> r == 0
  {
    if items == [] then 0 else items[0].quantity * items[0].priceCents + StockValue(items[1..])
  }

  /** When one instrument's quantity changes, total_estoque changes by
      exactly the same amount. */
  lemma {:induction false} TotalStockUpdate(items: seq<Instrument>, k: nat, n: nat)
    requires k < |items|
    ensures TotalStock(items[k := items[k].(quantity := n)]) == TotalStock(items) - items[k].quantity + n
  {
    var changed := items[k := items[k].(quantity := n)];
    if k == 0 {
      assert changed[1..] == items[1..];
    } else {
      TotalStockUpdate(items[1..], k - 1, n);
      assert changed[1..] == items[1..][k - 1 := items[k].(quantity := n)];
    }
  }

  /** When one instrument's quantity changes, valor_estoque changes by the
      change in quantity times that instrument's price. */
  lemma {:induction false} StockValueUpdate(items: seq<Instrument>, k: nat, n: nat)
    requires k < |items|
    ensures StockValue(items[k := items[k].(quantity := n)])
         == StockValue(items) + (n - items[k].quantity) * items[k].priceCents
  {
    var changed := items[k := items[k].(quantity := n)];
    if k == 0 {
      assert changed[1..] == items[1..];
      calc {
        n * items[0].priceCents - items[0].quantity * items[0].priceCents;
        (n - items[0].quantity) * items[0].priceCents;
      }
    } else {
      StockValueUpdate(items[1..], k - 1, n);
      assert changed[1..] == items[1..][k - 1 := items[k].(quantity := n)];
    }
  }

  // ---------------------------------------------------------------------
  // Maintenance figure
  // ---------------------------------------------------------------------

  /** A work order still waiting for or under repair. */
  predicate IsOpen(st: MaintenanceStatus) {
    st == Pendente || st == EmProgresso
  }

  /** manutencoes_pendentes: the number of orders that are pending or in progress. */
  function PendingMaintenance(orders: seq<MaintenanceOrder>): (r: nat)
    ensures r <= |orders|
    ensures r == 0 <==> forall k :: 0 <= k < |orders| ==> !IsOpen(orders[k].status)
    ensures r == |orders| <==> forall k :: 0 <= k < |orders| ==> IsOpen(orders[k].status)
  {
    if orders == [] then 0
    else (if IsOpen(orders[0].status) then 1 else 0) + PendingMaintenance(orders[1..])
  }

  /** The count is additive over any split of the order table; with the
      one-order case fixed by the contract above (1 exactly when that order
      is open), this pins manutencoes_pendentes to the number of open orders. */
  lemma {:induction false} PendingMaintenanceAppend(a: seq<MaintenanceOrder>, b: seq<MaintenanceOrder>)
    ensures PendingMaintenance(a + b) == PendingMaintenance(a) + PendingMaintenance(b)
  {
    if a != [] {
      PendingMaintenanceAppend(a[1..], b);
      assert (a + b)[1..] == a[1..] + b;
    } else {
      assert a + b == b;
    }
  }

  /** When one order's status changes, manutencoes_pendentes drops by one if
      it was open and rises by one if it is now open. */
  lemma {:induction false} PendingMaintenanceUpdate(orders: seq<MaintenanceOrder>, k: nat, st: MaintenanceStatus)
    requires k < |orders|
    ensures PendingMaintenance(orders[k := orders[k].(status := st)])
         == PendingMaintenance(orders) - (if IsOpen(orders[k].status) then 1 else 0) + (if IsOpen(st) then 1 else 0)
  {
    var changed := orders[k := orders[k].(status := st)];
    if k == 0 {
      assert changed[1..] == orders[1..];
    } else {
      PendingMaintenanceUpdate(orders[1..], k - 1, st);
      assert changed[1..] == orders[1..][k - 1 := orders[k].(status := st)];
    }
  }

  // ---------------------------------------------------------------------
  // Best sellers
  // ---------------------------------------------------------------------

  /** One line of the ranking: an instrument and its total outbound quantity. */
  datatype Sold = Sold(instrument: InstrumentId, total: nat)

  /** Whether some outbound movement names instrument i. */
  predicate HasSale(ms: seq<Movement>, i: InstrumentId) {
    exists m :: m in ms && m.kind == Saida && m.instrument == i
  }

  /** Sum of the quantities of the outbound movements of instrument i. */
  function SoldTotal(ms: seq<Movement>, i: InstrumentId): nat {
    if ms == [] then 0
    else (if ms[0].kind == Saida && ms[0].instrument == i then ms[0].quantity else 0) + SoldTotal(ms[1..], i)
  }

  /** An instrument without outbound movements has sold nothing. */
  lemma {:induction false} NoSaleNoTotal(ms: seq<Movement>, i: InstrumentId)
    requires !HasSale(ms, i)
    ensures SoldTotal(ms, i) == 0
  {
    if ms != [] {
      assert ms[0] in ms;
      assert forall m :: m in ms[1..] ==> m in ms;
      NoSaleNoTotal(ms[1..], i);
    }
  }

  /** Recording one more movement raises an instrument's outbound total by
      that movement's quantity when it is a sale of that instrument, and
      leaves it alone otherwise. */
  lemma {:induction false} SoldTotalSnoc(ms: seq<Movement>, m: Movement, i: InstrumentId)
    ensures SoldTotal(ms + [m], i)
         == SoldTotal(ms, i) + (if m.kind == Saida && m.instrument == i then m.quantity else 0)
  {
    if ms == [] {
      assert [] + [m] == [m];
      assert [m][1..] == [];
    } else {
      assert (ms + [m])[1..] == ms[1..] + [m];
      SoldTotalSnoc(ms[1..], m, i);
    }
  }

  predicate Distinct(ids: seq<InstrumentId>) {
    forall j, k :: 0 <= j < k < |ids| ==> ids[j] != ids[k]
  }

  /** The groups of the ranking: each instrument with an outbound movement, once. */
  function SaleIds(ms: seq<Movement>): (r: seq<InstrumentId>)
    ensures Distinct(r)
    ensures forall i :: i in r <==> HasSale(ms, i)
  {
    if ms == [] then []
    else
      var rest := SaleIds(ms[1..]);
      assert forall m :: m in ms <==> m == ms[0] || m in ms[1..];
      if ms[0].kind == Saida && ms[0].instrument !in rest then [ms[0].instrument] + rest else rest
  }

  /** Position, at lo or after, of an instrument in ids with the largest
      outbound total among those positions. */
  function BestFrom(ids: seq<InstrumentId>, ms: seq<Movement>, lo: nat): (b: nat)
    requires lo < |ids|
    ensures lo <= b < |ids|
    ensures forall j :: lo <= j < |ids| ==> SoldTotal(ms, ids[j]) <= SoldTotal(ms, ids[b])
    decreases |ids| - lo
  {
    if lo == |ids| - 1 then lo
    else
      var b := BestFrom(ids, ms, lo + 1);
      if SoldTotal(ms, ids[lo]) >= SoldTotal(ms, ids[b]) then lo else b
  }

  /** No instrument of ids sold more than the one BestFrom picks. */
  lemma BestIsMax(ids: seq<InstrumentId>, ms: seq<Movement>, x: InstrumentId)
    requires x in ids
    ensures SoldTotal(ms, x) <= SoldTotal(ms, ids[BestFrom(ids, ms, 0)])
  {
    var j :| 0 <= j < |ids| && ids[j] == x;
  }

  /** ids without its b-th entry. */
  function RemoveAt(ids: seq<InstrumentId>, b: nat): (r: seq<InstrumentId>)
    requires b < |ids|
    requires Distinct(ids)
    ensures Distinct(r)
    ensures |r| == |ids| - 1
    ensures forall i :: i in r <==> i in ids && i != ids[b]
  {
    var r := seq(|ids| - 1, j requires 0 <= j < |ids| - 1 => if j < b then ids[j] else ids[j + 1]);
    assert forall i :: i in ids && i != ids[b] ==> i in r by {
      forall i | i in ids && i != ids[b] ensures i in r {
        var j :| 0 <= j < |ids| && ids[j] == i;
        if j < b { assert r[j] == i; } else { assert r[j - 1] == i; }
      }
    }
    r
  }

  /** The instruments named by a ranking, in order. */
  function Ranked(r: seq<Sold>): (ids: seq<InstrumentId>)
    ensures |ids| == |r|
    ensures forall k :: 0 <= k < |r| ==> ids[k] == r[k].instrument
  {
    seq(|r|, k requires 0 <= k < |r| => r[k].instrument)
  }

  lemma RankedCons(head: Sold, rest: seq<Sold>)
    ensures Ranked([head] + rest) == [head.instrument] + Ranked(rest)
  {
    var r := [head] + rest;
    assert forall t :: 0 <= t < |rest| ==> r[t + 1] == rest[t];
  }

  /** An instrument missing from a ranking is missing from its head and its tail. */
  lemma LeftOutOfCons(head: Sold, rest: seq<Sold>, i: InstrumentId)
    requires i !in Ranked([head] + rest)
    ensures i != head.instrument && i !in Ranked(rest)
  {
    var r := [head] + rest;
    assert Ranked(r)[0] == head.instrument;
    forall t | 0 <= t < |rest| ensures Ranked(rest)[t] != i {
      assert Ranked(r)[t + 1] == Ranked(rest)[t];
    }
  }

  predicate NonIncreasing(r: seq<Sold>) {
    forall j, k :: 0 <= j < k < |r| ==> r[j].total >= r[k].total
  }

  /** The n best sellers among ids, best first, by repeatedly taking an
      instrument with the largest outbound total among those not yet taken. */
  function TopFrom(ids: seq<InstrumentId>, ms: seq<Movement>, n: nat): (r: seq<Sold>)
    requires Distinct(ids)
    ensures |r| == if n < |ids| then n else |ids|
    ensures forall i :: i in Ranked(r) ==> i in ids
    ensures forall k :: 0 <= k < |r| ==> r[k].total == SoldTotal(ms, r[k].instrument)
    decreases n
  {
    if n == 0 || ids == [] then []
    else
      var b := BestFrom(ids, ms, 0);
      [Sold(ids[b], SoldTotal(ms, ids[b]))] + TopFrom(RemoveAt(ids, b), ms, n - 1)
  }

  lemma DistinctCons(x: InstrumentId, s: seq<InstrumentId>)
    requires Distinct(s) && x !in s
    ensures Distinct([x] + s)
  {
    var t := [x] + s;
    forall j, k | 0 <= j < k < |t| ensures t[j] != t[k] {
      assert t[k] == s[k - 1];
      if j > 0 { assert t[j] == s[j - 1]; }
    }
  }

  lemma NonIncreasingCons(x: Sold, s: seq<Sold>)
    requires NonIncreasing(s)
    requires forall k :: 0 <= k < |s| ==> s[k].total <= x.total
    ensures NonIncreasing([x] + s)
  {
    var t := [x] + s;
    forall j, k | 0 <= j < k < |t| ensures t[j].total >= t[k].total {
      assert t[k] == s[k - 1];
      if j > 0 { assert t[j] == s[j - 1]; }
    }
  }

  /** Each instrument appears at most once in TopFrom. */
  lemma {:induction false} TopFromDistinct(ids: seq<InstrumentId>, ms: seq<Movement>, n: nat)
    requires Distinct(ids)
    ensures Distinct(Ranked(TopFrom(ids, ms, n)))
    decreases n
  {
    if n != 0 && ids != [] {
      var b := BestFrom(ids, ms, 0);
      var others := RemoveAt(ids, b);
      var rest := TopFrom(others, ms, n - 1);
      TopFromDistinct(others, ms, n - 1);
      var head := Sold(ids[b], SoldTotal(ms, ids[b]));
      assert TopFrom(ids, ms, n) == [head] + rest;
      RankedCons(head, rest);
      assert ids[b] !in Ranked(rest);
      DistinctCons(ids[b], Ranked(rest));
    }
  }

  /** TopFrom lists the best seller first. */
  lemma {:induction false} TopFromOrdered(ids: seq<InstrumentId>, ms: seq<Movement>, n: nat)
    requires Distinct(ids)
    ensures NonIncreasing(TopFrom(ids, ms, n))
    decreases n
  {
    if n != 0 && ids != [] {
      var b := BestFrom(ids, ms, 0);
      var others := RemoveAt(ids, b);
      var rest := TopFrom(others, ms, n - 1);
      TopFromOrdered(others, ms, n - 1);
      var head := Sold(ids[b], SoldTotal(ms, ids[b]));
      assert TopFrom(ids, ms, n) == [head] + rest;
      forall k | 0 <= k < |rest| ensures rest[k].total <= head.total {
        var x := rest[k].instrument;
        assert Ranked(rest)[k] == x;
        BestIsMax(ids, ms, x);
      }
      NonIncreasingCons(head, rest);
    }
  }

  /** No instrument of ids that TopFrom leaves out sold more than any it ranks. */
  lemma {:induction false} TopFromBeatsLeftOut(ids: seq<InstrumentId>, ms: seq<Movement>, n: nat, i: InstrumentId, k: nat)
    requires Distinct(ids)
    requires i in ids && i !in Ranked(TopFrom(ids, ms, n))
    requires k < |TopFrom(ids, ms, n)|
    ensures SoldTotal(ms, i) <= TopFrom(ids, ms, n)[k].total
    decreases n
  {
    var b := BestFrom(ids, ms, 0);
    var head := Sold(ids[b], SoldTotal(ms, ids[b]));
    var others := RemoveAt(ids, b);
    var rest := TopFrom(others, ms, n - 1);
    assert TopFrom(ids, ms, n) == [head] + rest;
    if k == 0 {
      BestIsMax(ids, ms, i);
    } else {
      LeftOutOfCons(head, rest, i);
      TopFromBeatsLeftOut(others, ms, n - 1, i, k - 1);
    }
  }

  /** When n leaves room for all of ids, TopFrom ranks every one of them. */
  lemma {:induction false} TopFromCovers(ids: seq<InstrumentId>, ms: seq<Movement>, n: nat, i: InstrumentId)
    requires Distinct(ids)
    requires n >= |ids| && i in ids
    ensures i in Ranked(TopFrom(ids, ms, n))
    decreases n
  {
    var b := BestFrom(ids, ms, 0);
    var head := Sold(ids[b], SoldTotal(ms, ids[b]));
    var others := RemoveAt(ids, b);
    var rest := TopFrom(others, ms, n - 1);
    assert TopFrom(ids, ms, n) == [head] + rest;
    if i != ids[b] {
      TopFromCovers(others, ms, n - 1, i);
    }
    RankedCons(head, rest);
  }

  /** top_vendidos: at most ten instruments, each once, with their outbound
      totals, in non-increasing order of total; an instrument with an
      outbound movement that is not listed sold no more than any listed
      one, and when fewer than ten are listed every such instrument is. */
  function TopSold(ms: seq<Movement>): (r: seq<Sold>)
    ensures |r| <= TopLimit
    ensures forall k :: 0 <= k < |r| ==> HasSale(ms, r[k].instrument) && r[k].total == SoldTotal(ms, r[k].instrument)
    ensures Distinct(Ranked(r))
    ensures NonIncreasing(r)
    ensures forall i, k :: HasSale(ms, i) && i !in Ranked(r) && 0 <= k < |r| ==> SoldTotal(ms, i) <= r[k].total
    ensures |r| < TopLimit ==> forall i :: HasSale(ms, i) ==> i in Ranked(r)
  {
    var ids := SaleIds(ms);
    var r := TopFrom(ids, ms, TopLimit);
    TopFromDistinct(ids, ms, TopLimit);
    TopFromOrdered(ids, ms, TopLimit);
    forall i, k | HasSale(ms, i) && i !in Ranked(r) && 0 <= k < |r| ensures SoldTotal(ms, i) <= r[k].total {
      TopFromBeatsLeftOut(ids, ms, TopLimit, i, k);
    }
    forall i | |r| < TopLimit && HasSale(ms, i) ensures i in Ranked(r) {
      TopFromCovers(ids, ms, TopLimit, i);
    }
    r
  }

  // ---------------------------------------------------------------------
  // The whole page
  // ---------------------------------------------------------------------

  datatype DashboardContext = DashboardContext(
    totalProducts: nat,
    totalStock: nat,
    stockValue: int,
    pendingMaintenance: nat,
    topSold: seq<Sold>)

  /** get_context_data: the five figures, computed afresh on every request. */
  function GetContextData(items: seq<Instrument>, orders: seq<MaintenanceOrder>, ms: seq<Movement>): (c: DashboardContext)
    ensures c.totalProducts == |items|
    ensures items == [] ==> c.totalStock == 0 && c.stockValue == 0
    ensures c.pendingMaintenance <= |orders|
    ensures |c.topSold| <= TopLimit
  {
    DashboardContext(|items|, TotalStock(items), StockValue(items), PendingMaintenance(orders), TopSold(ms))
  }
}
