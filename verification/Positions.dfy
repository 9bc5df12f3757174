/**
  Position accounting: each fill moves one user's position in one symbol, at weighted-average cost
  when buying and realising profit when selling. Stored decimals are exact reals here.
 */
module Positions {
  import opened Wrappers
  import opened Text
  import opened Arithmetic

  datatype Position = Position(quantity: real, avgPrice: real, realizedPnl: real)

  datatype Side = Buy | Sell | OtherSide

  /** Sizes are absent when they are not decimals. */
  datatype Fill = Fill(side: Side, quantity: Option<real>, price: Option<real>)

  function SideOf(side: string): Side {
    if Upper(side) == "BUY" then Buy else if Upper(side) == "SELL" then Sell else OtherSide
  }

  predicate Effective(fill: Fill) {
    fill.quantity.Some? && fill.quantity.value > 0.0 && fill.price.Some? && fill.price.value > 0.0
  }

  function Notional(quantity: real, price: real): real {
    quantity * price
  }

  function Average(quantity: real, avgPrice: real, bought: real, price: real): real
    requires quantity + bought != 0.0
  {
    (Notional(quantity, avgPrice) + Notional(bought, price)) / (quantity + bought)
  }

  /** The average spreads what both parts cost over the sum of both. */
  lemma AverageMeans(quantity: real, avgPrice: real, bought: real, price: real)
    requires quantity + bought != 0.0
    ensures Notional(quantity, avgPrice) == quantity * avgPrice
    ensures Average(quantity, avgPrice, bought, price) * (quantity + bought) == quantity * avgPrice + bought * price
  {
  }

  function Bought(pos: Option<Position>, x: real, price: real): Position {
    var Position(q, avg, realized) := pos.GetOr(Position(0.0, 0.0, 0.0));
    Position(q + x, if q + x > 0.0 then Average(q, avg, x, price) else price, realized)
  }

  /** What a sale of x can take: no more than is held. */
  function SoldFrom(pos: Option<Position>, x: real): real {
    var held := pos.GetOr(Position(0.0, 0.0, 0.0)).quantity;
    if held < x then held else x
  }

  function Sold(pos: Option<Position>, x: real, price: real): Option<Position> {
    var Position(q, avg, realized) := pos.GetOr(Position(0.0, 0.0, 0.0));
    var sold := SoldFrom(pos, x);
    if q - sold <= 0.0 then None
    else Some(Position(q - sold, avg, realized + Notional(sold, price - avg)))
  }

  /** The stored row after a fill; a row that reaches zero is deleted. */
  function AfterFill(pos: Option<Position>, fill: Fill): Option<Position> {
    if !Effective(fill) then pos
    else
      match fill.side
      case Buy => Some(Bought(pos, fill.quantity.value, fill.price.value))
      case Sell => Sold(pos, fill.quantity.value, fill.price.value)
      case OtherSide => pos
  }

  function AfterFills(pos: Option<Position>, fills: seq<Fill>): Option<Position> {
    if fills == [] then pos else AfterFill(AfterFills(pos, fills[..|fills| - 1]), fills[|fills| - 1])
  }

  // ---------- the store ----------

  type Key = (string, string)

  function PositionAt(rows: map<Key, Position>, key: Key): Option<Position> {
    if key in rows then Some(rows[key]) else None
  }

  class PositionStore {
    var rows: map<Key, Position>

    /** `applyFillToPositions`; nothing happens while the table cannot be read. */
    method ApplyFill(available: bool, userId: string, symbol: string, side: string, quantity: Option<real>,
        price: Option<real>)
      modifies this
      ensures var key := (userId, Upper(symbol));
              && (available ==>
                    PositionAt(rows, key) == AfterFill(PositionAt(old(rows), key), Fill(SideOf(side), quantity, price)))
              && (!available ==> rows == old(rows))
              && forall other :: other != key ==> PositionAt(rows, other) == PositionAt(old(rows), other)
      ensures var (key, name) := ((userId, Upper(symbol)), Upper(side));
              var effective := available && quantity.Some? && quantity.value > 0.0 && price.Some? && price.value > 0.0;
              var held := PositionAt(old(rows), key).GetOr(Position(0.0, 0.0, 0.0));
              && (!effective || name !in {"BUY", "SELL"} ==> rows == old(rows))
              && (effective && name == "BUY" ==>
                    && key in rows && rows[key].quantity == held.quantity + quantity.value
                    && rows[key].realizedPnl == held.realizedPnl
                    && rows[key].avgPrice ==
                         (if held.quantity + quantity.value > 0.0
                          then Average(held.quantity, held.avgPrice, quantity.value, price.value) else price.value))
              && (effective && name == "SELL" ==>
                    var sold := if held.quantity < quantity.value then held.quantity else quantity.value;
                    if held.quantity - sold <= 0.0 then key !in rows
                    else
                      && key in rows && rows[key].quantity == held.quantity - sold
                      && rows[key].avgPrice == held.avgPrice
                      && rows[key].realizedPnl == held.realizedPnl + Notional(sold, price.value - held.avgPrice))
    {
      hide Notional, Average, Upper;
      if quantity.None? || quantity.value <= 0.0 || price.None? || price.value <= 0.0 {
        return;
      }
      var qty, at := quantity.value, price.value;
      var key := (userId, Upper(symbol));
      if !available {
        return;
      }
      var pos := PositionAt(rows, key);
      var current := pos.GetOr(Position(0.0, 0.0, 0.0));
      if SideOf(side) == Buy {
        var newQty := current.quantity + qty;
        var newAvg := if newQty > 0.0 then Average(current.quantity, current.avgPrice, qty, at) else at;
        if key in rows {
          rows := rows[key := rows[key].(quantity := newQty, avgPrice := newAvg)];
        } else {
          rows := rows[key := Position(newQty, newAvg, current.realizedPnl)];
        }
        return;
      }
      if SideOf(side) == Sell {
        var sold := if current.quantity < qty then current.quantity else qty;
        var newQty := current.quantity - sold;
        var newRealized := current.realizedPnl + Notional(sold, at - current.avgPrice);
        if newQty <= 0.0 {
          rows := rows - {key};
          return;
        }
        // The upsert never creates here: without a row nothing is held, so newQty is not positive.
        rows := rows[key := rows[key].(quantity := newQty, realizedPnl := newRealized)];
      }
    }
  }

  // ---------- the ledger of an open position ----------

  /** Since the row was created: notional bought, notional of what was actually sold, range of buy prices. */
  datatype Ledger = Ledger(bought: real, sold: real, lowest: real, highest: real)

  datatype Account = Closed | Open(position: Position, ledger: Ledger)

  function Row(account: Account): Option<Position> {
    if account.Closed? then None else Some(account.position)
  }

  function Post(account: Account, fill: Fill): Account {
    var after := AfterFill(Row(account), fill);
    if after.None? then Closed
    else if !Effective(fill) || fill.side.OtherSide? then account
    else
      var (x, p) := (fill.quantity.value, fill.price.value);
      if account.Closed? then Open(after.value, Ledger(Notional(x, p), 0.0, p, p))
      else
        var Ledger(bought, sold, lowest, highest) := account.ledger;
        Open(after.value,
             if fill.side.Buy? then
               Ledger(bought + Notional(x, p), sold, if p < lowest then p else lowest,
                   if p > highest then p else highest)
             else Ledger(bought, sold + Notional(SoldFrom(Row(account), x), p), lowest, highest))
  }

  function PostAll(fills: seq<Fill>): Account {
    if fills == [] then Closed else Post(PostAll(fills[..|fills| - 1]), fills[|fills| - 1])
  }

  /**
    Something is held, its cost is what was paid less what was taken out at cost, and its average
    is a mean of buy prices.
   */
  predicate Balanced(account: Account) {
    account.Open? ==>
      var (p, l) := (account.position, account.ledger);
      && p.quantity > 0.0
      && Notional(p.quantity, p.avgPrice) == l.bought - l.sold + p.realizedPnl
      && 0.0 < l.lowest <= p.avgPrice <= l.highest
  }

  lemma AverageTimesQuantity(q: real, avg: real, x: real, p: real)
    requires q + x > 0.0
    ensures Notional(q + x, Average(q, avg, x, p)) == Notional(q, avg) + Notional(x, p)
  {
    DivTimes(Notional(q, avg) + Notional(x, p), q + x);
  }

  lemma NotionalAdds(q: real, x: real, p: real)
    ensures Notional(q + x, p) == Notional(q, p) + Notional(x, p)
    ensures Notional(q - x, p) == Notional(q, p) - Notional(x, p)
  {
  }

  lemma NotionalOfDifference(q: real, p: real, r: real)
    ensures Notional(q, p - r) == Notional(q, p) - Notional(q, r)
  {
  }

  lemma NotionalMonotone(q: real, p: real, r: real)
    requires q >= 0.0 && p <= r
    ensures Notional(q, p) <= Notional(q, r)
  {
  }

  lemma NotionalOrder(q: real, p: real, r: real)
    requires q > 0.0 && Notional(q, p) <= Notional(q, r)
    ensures p <= r
  {
  }

  lemma AverageIsBetween(q: real, avg: real, x: real, p: real, low: real, high: real)
    requires q >= 0.0 && x > 0.0 && low <= avg <= high && low <= p <= high
    ensures low <= Average(q, avg, x, p) <= high
  {
    hide Notional, Average;
    var mean := Average(q, avg, x, p);
    AverageTimesQuantity(q, avg, x, p);
    NotionalAdds(q, x, low);
    NotionalAdds(q, x, high);
    NotionalMonotone(q, low, avg);
    NotionalMonotone(q, avg, high);
    NotionalMonotone(x, low, p);
    NotionalMonotone(x, p, high);
    NotionalOrder(q + x, low, mean);
    NotionalOrder(q + x, mean, high);
  }

  lemma AverageOfFirst(x: real, p: real)
    requires x > 0.0
    ensures Average(0.0, 0.0, x, p) == p
  {
    DivUnique(Notional(x, p), x, p);
  }

  lemma PostKeepsBalance(account: Account, fill: Fill)
    requires Balanced(account)
    ensures Balanced(Post(account, fill))
    ensures Row(Post(account, fill)) == AfterFill(Row(account), fill)
  {
    hide Notional, Average;
    if Effective(fill) && !fill.side.OtherSide? {
      var (x, p) := (fill.quantity.value, fill.price.value);
      if account.Closed? {
        AverageOfFirst(x, p);
      } else {
        var Position(q, avg, realized) := account.position;
        if fill.side.Buy? {
          AverageTimesQuantity(q, avg, x, p);
          AverageIsBetween(q, avg, x, p, if p < account.ledger.lowest then p else account.ledger.lowest,
                           if p > account.ledger.highest then p else account.ledger.highest);
        } else {
          var sold := SoldFrom(Some(account.position), x);
          NotionalAdds(q, sold, avg);
          NotionalOfDifference(sold, p, avg);
        }
      }
    }
  }

  /** For every run of fills the books balance, and the stored row is the one the ledger speaks of. */
  lemma {:induction false} BooksBalance(fills: seq<Fill>)
    ensures Balanced(PostAll(fills))
    ensures Row(PostAll(fills)) == AfterFills(None, fills)
  {
    if fills != [] {
      hide Balanced, Post, AfterFill;
      BooksBalance(fills[..|fills| - 1]);
      PostKeepsBalance(PostAll(fills[..|fills| - 1]), fills[|fills| - 1]);
    }
  }

  // ---------- splitting and reordering fills ----------

  predicate Held(pos: Option<Position>) {
    pos.Some? ==> pos.value.quantity > 0.0
  }

  lemma BuysMerge(pos: Option<Position>, x: real, y: real, p: real)
    requires Held(pos) && x > 0.0 && y > 0.0
    ensures Bought(Some(Bought(pos, x, p)), y, p) == Bought(pos, x + y, p)
  {
    hide Notional;
    var Position(q, avg, _) := pos.GetOr(Position(0.0, 0.0, 0.0));
    AverageTimesQuantity(q, avg, x, p);
    NotionalAdds(x, y, p);
    assert q + x + y == q + (x + y);
  }

  lemma BuysCommute(pos: Option<Position>, x: real, p: real, y: real, r: real)
    requires Held(pos) && x > 0.0 && y > 0.0
    ensures Bought(Some(Bought(pos, x, p)), y, r) == Bought(Some(Bought(pos, y, r)), x, p)
  {
    hide Notional;
    var Position(q, avg, _) := pos.GetOr(Position(0.0, 0.0, 0.0));
    AverageTimesQuantity(q, avg, x, p);
    AverageTimesQuantity(q, avg, y, r);
    assert q + x + y == q + y + x;
  }

  lemma SalesMerge(pos: Option<Position>, x: real, y: real, p: real)
    requires Held(pos) && x > 0.0 && y > 0.0
    ensures Sold(Sold(pos, x, p), y, p) == Sold(pos, x + y, p)
  {
    hide Notional;
    var Position(q, avg, realized) := pos.GetOr(Position(0.0, 0.0, 0.0));
    NotionalAdds(x, y, p - avg);
  }

  lemma {:induction false} FillsCompose(pos: Option<Position>, a: seq<Fill>, b: seq<Fill>)
    ensures AfterFills(pos, a + b) == AfterFills(AfterFills(pos, a), b)
  {
    if b == [] {
      assert a + b == a;
    } else {
      hide AfterFill;
      assert (a + b)[..|a + b| - 1] == a + b[..|b| - 1];
      FillsCompose(pos, a, b[..|b| - 1]);
    }
  }

  lemma {:induction false} FillsKeepHeld(pos: Option<Position>, fills: seq<Fill>)
    requires Held(pos)
    ensures Held(AfterFills(pos, fills))
  {
    if fills != [] {
      hide Notional, Average;
      FillsKeepHeld(pos, fills[..|fills| - 1]);
    }
  }

  lemma TwoFills(pos: Option<Position>, f: Fill, g: Fill)
    ensures AfterFills(pos, [f, g]) == AfterFill(AfterFill(pos, f), g)
    ensures AfterFills(pos, [f]) == AfterFill(pos, f)
  {
    hide AfterFill;
    assert [f][..0] == [];
    assert AfterFills(pos, [f]) == AfterFill(AfterFills(pos, []), f);
    assert [f, g][..1] == [f];
  }

  /** Anywhere in a run, two fills of one side at one price are worth the one fill of both sizes. */
  lemma SplitFillChangesNothing(before: seq<Fill>, after: seq<Fill>, side: Side, x: real, y: real, price: real)
    requires x > 0.0 && y > 0.0 && price > 0.0
    ensures AfterFills(None, before + [Fill(side, Some(x), Some(price)), Fill(side, Some(y), Some(price))] + after) ==
            AfterFills(None, before + [Fill(side, Some(x + y), Some(price))] + after)
  {
    var (f, g) := (Fill(side, Some(x), Some(price)), Fill(side, Some(y), Some(price)));
    var whole := Fill(side, Some(x + y), Some(price));
    var pos := AfterFills(None, before);
    FillsKeepHeld(None, before);
    TwoFills(pos, f, g);
    TwoFills(pos, whole, whole);
    FillsCompose(None, before, [f, g]);
    FillsCompose(None, before, [whole]);
    FillsCompose(None, before + [f, g], after);
    FillsCompose(None, before + [whole], after);
    hide Bought, Sold;
    match side {
      case Buy => BuysMerge(pos, x, y, price);
      case Sell => SalesMerge(pos, x, y, price);
      case OtherSide =>
    }
  }

  /** Anywhere in a run, two adjacent buys may be swapped. */
  lemma SwappedBuysChangeNothing(before: seq<Fill>, after: seq<Fill>, x: real, p: real, y: real, r: real)
    requires x > 0.0 && y > 0.0 && p > 0.0 && r > 0.0
    ensures AfterFills(None, before + [Fill(Buy, Some(x), Some(p)), Fill(Buy, Some(y), Some(r))] + after) ==
            AfterFills(None, before + [Fill(Buy, Some(y), Some(r)), Fill(Buy, Some(x), Some(p))] + after)
  {
    var (f, g) := (Fill(Buy, Some(x), Some(p)), Fill(Buy, Some(y), Some(r)));
    var pos := AfterFills(None, before);
    FillsKeepHeld(None, before);
    TwoFills(pos, f, g);
    TwoFills(pos, g, f);
    FillsCompose(None, before, [f, g]);
    FillsCompose(None, before, [g, f]);
    FillsCompose(None, before + [f, g], after);
    FillsCompose(None, before + [g, f], after);
    hide Bought;
    BuysCommute(pos, x, p, y, r);
  }
}
