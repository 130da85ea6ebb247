// The stock-movement ledger: the effect that saving a movement has on the
// quantity of its instrument (Movimentacao.save in models.py).
//
// The first half states the rule on plain maps from instrument id to
// quantity; the class Inventory then holds the two stored tables the save
// writes (instrument quantities and movement rows) and updates them in
// place, proved against that rule.

module Ledger {
  import opened Models

  /** Quantity on hand per instrument, by primary key. Arithmetic is on
      unbounded integers; the column itself refuses negative values. */
  type Stock = map<InstrumentId, int>

  predicate NonNegative(s: Stock) {
    forall i :: i in s ==> s[i] >= 0
  }

  /** Signed change that creating a movement makes to its instrument's quantity. */
  function Delta(kind: MovementType, q: nat): int {
    match kind
    case Entrada => q
    case Saida => -(q as int)
    case Manutencao => 0
  }

  /** Stock after a movement is created and its effect applied. A movement
      whose instrument does not exist is refused by the foreign key and
      changes nothing. */
  function ApplyCreate(s: Stock, m: Movement): (r: Stock)
    ensures r.Keys == s.Keys
    ensures forall i :: i in s && i != m.instrument ==> r[i] == s[i]
  {
    if m.instrument in s then s[m.instrument := s[m.instrument] + Delta(m.kind, m.quantity)] else s
  }

  /** Stock after applying the creation effects of ms, oldest first. */
  function Replay(s: Stock, ms: seq<Movement>): Stock {
    if ms == [] then s else ApplyCreate(Replay(s, ms[..|ms| - 1]), ms[|ms| - 1])
  }

  /** Replay unfolded at its last movement, for histories built by appending. */
  lemma ReplaySnoc(s: Stock, ms: seq<Movement>, m: Movement)
    ensures Replay(s, ms + [m]) == ApplyCreate(Replay(s, ms), m)
  {
    assert (ms + [m])[..|ms + [m]| - 1] == ms;
  }

  /** Total inbound minus total outbound quantity recorded in ms for instrument i. */
  function NetFlow(ms: seq<Movement>, i: InstrumentId): int {
    if ms == [] then 0
    else
      var last := ms[|ms| - 1];
      NetFlow(ms[..|ms| - 1], i) + (if last.instrument == i then Delta(last.kind, last.quantity) else 0)
  }

  /** Conservation: an instrument's quantity is its starting quantity plus
      everything that came in minus everything that went out. */
  lemma {:induction false} ReplayIsNetFlow(s: Stock, ms: seq<Movement>, i: InstrumentId)
    requires i in s
    ensures Replay(s, ms).Keys == s.Keys
    ensures Replay(s, ms)[i] == s[i] + NetFlow(ms, i)
  {
    if ms != [] {
      ReplayIsNetFlow(s, ms[..|ms| - 1], i);
    }
  }

  /** The effects are additive: replaying two histories one after the other
      is replaying their concatenation. */
  lemma {:induction false} ReplayAppend(s: Stock, xs: seq<Movement>, ys: seq<Movement>)
    ensures Replay(Replay(s, xs), ys) == Replay(s, xs + ys)
  {
    if ys != [] {
      var init := ys[..|ys| - 1];
      ReplayAppend(s, xs, init);
      assert (xs + ys)[..|xs + ys| - 1] == xs + init;
      assert (xs + ys)[|xs + ys| - 1] == ys[|ys| - 1];
    } else {
      assert xs + ys == xs;
    }
  }

  /** An outbound movement of the quantity an inbound one brought in restores
      the stock exactly. */
  lemma EntradaThenSaidaRestores(s: Stock, m: Movement)
    requires m.kind == Entrada
    ensures ApplyCreate(ApplyCreate(s, m), m.(kind := Saida)) == s
  {
    if m.instrument in s {
      var i := m.instrument;
      assert ApplyCreate(ApplyCreate(s, m), m.(kind := Saida))[i] == s[i];
    }
  }

  datatype SaveError =
    | UnknownInstrument
      // the database refuses to store a negative quantity in the instrument row
    | QuantityWouldBeNegative(instrument: InstrumentId, attempted: int)

  datatype SaveResult = Saved(pk: MovementId) | Failed(error: SaveError)

  /** The stored state the save reads and writes: instrument quantities and
      movement rows. */
  class Inventory {
    var stock: Stock
    var movements: map<MovementId, Movement>
    /** Next primary key the movement table hands out. */
    var nextId: MovementId

    /** Quantities when the inventory was opened, and every movement whose
        effect has been applied since, oldest first. */
    ghost const initial: Stock
    ghost var applied: seq<Movement>

    ghost predicate Valid()
      reads this
    {
      && NonNegative(stock)
      && stock == Replay(initial, applied)
      && (forall pk :: pk in movements ==> pk < nextId)
    }

    constructor (quantities: map<InstrumentId, nat>)
      ensures Valid()
      ensures stock == quantities && initial == quantities
      ensures movements == map[] && applied == []
    {
      stock := quantities;
      movements := map[];
      nextId := 1;
      initial := quantities;
      applied := [];
    }

    /** Movimentacao.save. `existing` is None when the row is being created
        and the movement's primary key when an existing row is saved again.
        The movement row is written first; only on creation is the
        instrument's quantity then adjusted and written. An update rewrites
        the row and leaves every quantity alone. */
    method Save(m: Movement, existing: Option<MovementId>) returns (r: SaveResult)
      requires Valid()
      modifies this
      ensures Valid()
      ensures stock.Keys == old(stock).Keys
      ensures forall i :: i in old(stock) && i != m.instrument ==> stock[i] == old(stock)[i]
      // unknown instrument: the foreign key refuses the movement row
      ensures m.instrument !in old(stock) ==>
        && r == Failed(UnknownInstrument)
        && stock == old(stock) && movements == old(movements)
        && nextId == old(nextId) && applied == old(applied)
      // update: the row is rewritten, no quantity changes
      ensures m.instrument in old(stock) && existing.Some? ==>
        && r == Saved(existing.value)
        && movements == old(movements)[existing.value := m]
        && nextId == (if existing.value >= old(nextId) then existing.value + 1 else old(nextId))
        && stock == old(stock) && applied == old(applied)
      // creation: a fresh row, then the quantity adjusted by the movement's kind
      ensures m.instrument in old(stock) && existing.None? ==>
        var pk := old(nextId);
        var n := old(stock)[m.instrument] + Delta(m.kind, m.quantity);
        && pk !in old(movements)
        && movements == old(movements)[pk := m] && nextId == pk + 1
        && (n < 0 ==>
              && r == Failed(QuantityWouldBeNegative(m.instrument, n))
              && stock == old(stock) && applied == old(applied))
        && (n >= 0 ==>
              && r == Saved(pk)
              && stock == ApplyCreate(old(stock), m) && applied == old(applied) + [m])
      ensures m.instrument in old(stock) && existing.None? && r.Saved? ==>
        && (m.kind == Entrada ==> stock[m.instrument] == old(stock)[m.instrument] + m.quantity)
        && (m.kind == Saida ==> stock[m.instrument] == old(stock)[m.instrument] - m.quantity)
        && (m.kind == Manutencao ==> stock == old(stock))
    {
      if m.instrument !in stock {
        return Failed(UnknownInstrument);
      }
      var isCreate := existing.None?;
      var pk: MovementId;
      if isCreate {
        pk := nextId;
        nextId := nextId + 1;
      } else {
        pk := existing.value;
        if pk >= nextId {
          nextId := pk + 1;
        }
      }
      movements := movements[pk := m];
      if isCreate {
        var n := stock[m.instrument] + Delta(m.kind, m.quantity);
        if n < 0 {
          return Failed(QuantityWouldBeNegative(m.instrument, n));
        }
        ReplaySnoc(initial, applied, m);
        stock := stock[m.instrument := n];
        applied := applied + [m];
      }
      r := Saved(pk);
    }
  }
}
