/** The portfolio page: a list of lots kept in local storage, valued at live prices. */
module Portfolio {
  import opened Optional
  import opened Sums
  import opened Ascii
  import Storage

  /** One lot: `quantity` units of `coinId` bought at `buyPrice` dollars each. The same coin may
      appear in several lots. */
  datatype Holding = Holding(coinId: string, quantity: real, buyPrice: real)

  /** Live prices by coin id, as fetched. A map that is not loaded yet is the empty map. */
  type Prices = map<string, real>

  /** `prices?.[coinId] || 0`: a coin without a fetched price is worth 0. */
  function CurrentPrice(prices: Prices, coinId: string): real
  {
    if coinId in prices then prices[coinId] else 0.0
  }

  // ---------------------------------------------------------------------------------------
  // The price map

  /** The query's reduce: entry `acc[p[i].coinId] = fetched[i]` for every lot in order, where
      `fetched[i]` is the price fetched for lot i (one request per lot, joined by Promise.all). */
  function PriceMap(p: seq<Holding>, fetched: seq<real>): (m: Prices)
    requires |fetched| == |p|
    decreases |p|
  {
    if p == [] then map[]
    else PriceMap(p[..|p| - 1], fetched[..|p| - 1])[p[|p| - 1].coinId := fetched[|p| - 1]]
  }

  /** Every lot's coin is a key of the price map and nothing else is. */
  lemma {:induction false} PriceMapKeys(p: seq<Holding>, fetched: seq<real>)
    requires |fetched| == |p|
    ensures forall id :: id in PriceMap(p, fetched) <==> exists i :: 0 <= i < |p| && p[i].coinId == id
    decreases |p|
  {
    if p != [] {
      var n := |p| - 1;
      PriceMapKeys(p[..n], fetched[..n]);
      forall id | exists i :: 0 <= i < |p| && p[i].coinId == id
        ensures id in PriceMap(p, fetched)
      {
        var i :| 0 <= i < |p| && p[i].coinId == id;
        if i < n {
          assert p[..n][i].coinId == id;
        }
      }
      forall id | id in PriceMap(p, fetched)
        ensures exists i :: 0 <= i < |p| && p[i].coinId == id
      {
        if id != p[n].coinId {
          assert id in PriceMap(p[..n], fetched[..n]);
          var i :| 0 <= i < n && p[..n][i].coinId == id;
          assert p[i].coinId == id;
        }
      }
    }
  }

  /** Lots of one coin share a single entry, which holds the price fetched for the last of them. */
  lemma {:induction false} PriceMapLastLotWins(p: seq<Holding>, fetched: seq<real>, k: nat)
    requires |fetched| == |p| && k < |p|
    requires forall j :: k < j < |p| ==> p[j].coinId != p[k].coinId
    ensures p[k].coinId in PriceMap(p, fetched)
    ensures PriceMap(p, fetched)[p[k].coinId] == fetched[k]
    decreases |p|
  {
    var n := |p| - 1;
    if k < n {
      PriceMapLastLotWins(p[..n], fetched[..n], k);
    }
  }

  // ---------------------------------------------------------------------------------------
  // Valuation

  /** `cost > 0 ? ((value - cost) / cost) * 100 : 0`, used for the total and for every row. */
  function ProfitLossPercent(value: real, cost: real): (r: real)
    ensures cost <= 0.0 ==> r == 0.0
    ensures cost > 0.0 ==> value == cost + cost * r / 100.0
    ensures cost > 0.0 ==> (r > 0.0 <==> value > cost) && (r == 0.0 <==> value == cost)
  {
    if cost > 0.0 then
      var r := (value - cost) / cost * 100.0;
      assert cost * r / 100.0 == value - cost;
      r
    else 0.0
  }

  /** The cost basis of one lot: quantity × buy price. */
  function LotCost(h: Holding): real
  {
    h.quantity * h.buyPrice
  }

  /** The figures of one row of the holdings table. */
  datatype Row = Row(currentPrice: real, value: real, cost: real, profitLoss: real, profitLossPercent: real)

  /** The per-row valuation of the holdings table. */
  function RowOf(h: Holding, prices: Prices): Row
  {
    var currentPrice := CurrentPrice(prices, h.coinId);
    var value := h.quantity * currentPrice;
    var cost := LotCost(h);
    var profitLoss := value - cost;
    Row(currentPrice, value, cost, profitLoss, ProfitLossPercent(profitLoss + cost, cost))
  }

  /** The current value of every lot, in portfolio order. */
  function Values(p: seq<Holding>, prices: Prices): (vs: seq<real>)
    ensures |vs| == |p|
    ensures forall i :: 0 <= i < |p| ==> vs[i] == RowOf(p[i], prices).value
  {
    seq(|p|, i requires 0 <= i < |p| => RowOf(p[i], prices).value)
  }

  /** The cost basis of every lot, in portfolio order. */
  function Costs(p: seq<Holding>): (cs: seq<real>)
    ensures |cs| == |p|
    ensures forall i :: 0 <= i < |p| ==> cs[i] == LotCost(p[i])
  {
    seq(|p|, i requires 0 <= i < |p| => LotCost(p[i]))
  }

  /** The profit or loss of every row, in portfolio order. */
  function ProfitLosses(p: seq<Holding>, prices: Prices): (ds: seq<real>)
    ensures |ds| == |p|
    ensures forall i :: 0 <= i < |p| ==> ds[i] == RowOf(p[i], prices).profitLoss
  {
    seq(|p|, i requires 0 <= i < |p| => RowOf(p[i], prices).profitLoss)
  }

  /** `totalValue`: the reduce over the lots of quantity × current price. */
  function TotalValue(p: seq<Holding>, prices: Prices): (total: real)
    ensures total == Sum(Values(p, prices))
    ensures p == [] ==> total == 0.0
  {
    FoldAddIsSum(Values(p, prices), 0.0);
    FoldAdd(Values(p, prices), 0.0)
  }

  /** `totalCost`: the reduce over the lots of quantity × buy price. */
  function TotalCost(p: seq<Holding>): (total: real)
    ensures total == Sum(Costs(p))
    ensures p == [] ==> total == 0.0
  {
    FoldAddIsSum(Costs(p), 0.0);
    FoldAdd(Costs(p), 0.0)
  }

  /** `totalProfitLoss = totalValue - totalCost`. */
  function TotalProfitLoss(p: seq<Holding>, prices: Prices): real
  {
    TotalValue(p, prices) - TotalCost(p)
  }

  /** `totalProfitLossPercent`, guarded against a zero cost basis. */
  function TotalProfitLossPercent(p: seq<Holding>, prices: Prices): real
  {
    ProfitLossPercent(TotalValue(p, prices), TotalCost(p))
  }

  /** The headline profit/loss is the sum of the rows' profit/loss. */
  lemma TotalProfitLossIsSumOfRows(p: seq<Holding>, prices: Prices)
    ensures TotalProfitLoss(p, prices) == Sum(ProfitLosses(p, prices))
  {
    SumOfDifferences(Values(p, prices), Costs(p), ProfitLosses(p, prices));
  }

  /** With non-negative quantities and prices the totals are non-negative. */
  lemma TotalsNonNegative(p: seq<Holding>, prices: Prices)
    requires forall i :: 0 <= i < |p| ==> p[i].quantity >= 0.0 && p[i].buyPrice >= 0.0
    requires forall id :: id in prices ==> prices[id] >= 0.0
    ensures TotalValue(p, prices) >= 0.0 && TotalCost(p) >= 0.0
  {
    SumNonNegative(Values(p, prices));
    SumNonNegative(Costs(p));
  }

  /** The single-lot example: one bitcoin bought at 20000 and now priced at 25000. */
  lemma BitcoinExample()
    ensures var p := [Holding("bitcoin", 1.0, 20000.0)];
            var prices := map["bitcoin" := 25000.0];
            TotalValue(p, prices) == 25000.0 && TotalCost(p) == 20000.0
            && TotalProfitLoss(p, prices) == 5000.0 && TotalProfitLossPercent(p, prices) == 25.0
  {
    var p := [Holding("bitcoin", 1.0, 20000.0)];
    var prices := map["bitcoin" := 25000.0];
    assert Values(p, prices) == [25000.0];
    assert Costs(p) == [20000.0];
  }

  // ---------------------------------------------------------------------------------------
  // Editing the list

  /** `p.filter((_, i) => i !== index)`, element by element from the end. */
  function RemoveAt<T>(p: seq<T>, index: int): seq<T>
  {
    if p == [] then []
    else RemoveAt(p[..|p| - 1], index) + (if |p| - 1 == index then [] else [p[|p| - 1]])
  }

  /** Removing an index in range splices out exactly that element; any other index is a no-op. */
  lemma {:induction false} RemoveAtSplices<T>(p: seq<T>, index: int)
    ensures 0 <= index < |p| ==> RemoveAt(p, index) == p[..index] + p[index + 1..]
    ensures !(0 <= index < |p|) ==> RemoveAt(p, index) == p
  {
    if p != [] {
      var n := |p| - 1;
      RemoveAtSplices(p[..n], index);
      if index == n {
        assert p[..index] + p[index + 1..] == p[..n];
      } else if 0 <= index < n {
        assert p[..n][..index] == p[..index];
        assert p[..n][index + 1..] + [p[n]] == p[index + 1..];
      } else {
        assert p[..n] + [p[n]] == p;
      }
    }
  }

  /** The per-lot figures of a list with one more lot end with that lot's figures. */
  lemma FiguresAfterAppend(p: seq<Holding>, h: Holding, prices: Prices)
    ensures Values(p + [h], prices) == Values(p, prices) + [RowOf(h, prices).value]
    ensures Costs(p + [h]) == Costs(p) + [LotCost(h)]
  {
    var q := p + [h];
    assert forall i :: 0 <= i < |p| ==> q[i] == p[i];
    assert q[|p|] == h;
  }

  /** The per-lot figures of a spliced list are the spliced figures. */
  lemma FiguresAfterSplice(p: seq<Holding>, index: nat, prices: Prices)
    requires index < |p|
    ensures Values(p[..index] + p[index + 1..], prices) == Values(p, prices)[..index] + Values(p, prices)[index + 1..]
    ensures Costs(p[..index] + p[index + 1..]) == Costs(p)[..index] + Costs(p)[index + 1..]
  {
    var q := p[..index] + p[index + 1..];
    assert forall i :: 0 <= i < index ==> q[i] == p[i];
    assert forall i :: index <= i < |q| ==> q[i] == p[i + 1];
  }

  /** Adding a lot adds its value and its cost to the totals. */
  lemma TotalsAfterAppend(p: seq<Holding>, h: Holding, prices: Prices)
    ensures TotalValue(p + [h], prices) == TotalValue(p, prices) + RowOf(h, prices).value
    ensures TotalCost(p + [h]) == TotalCost(p) + LotCost(h)
  {
    FiguresAfterAppend(p, h, prices);
    SumAppend(Values(p, prices), [RowOf(h, prices).value]);
    SumAppend(Costs(p), [LotCost(h)]);
    assert [RowOf(h, prices).value][..0] == [];
    assert [LotCost(h)][..0] == [];
  }

  /** Removing the lot at a valid index (the splice `RemoveAtSplices` yields) takes its value and
      cost off the totals. */
  lemma TotalsAfterRemove(p: seq<Holding>, index: nat, prices: Prices)
    requires index < |p|
    ensures TotalValue(p[..index] + p[index + 1..], prices) == TotalValue(p, prices) - RowOf(p[index], prices).value
    ensures TotalCost(p[..index] + p[index + 1..]) == TotalCost(p) - LotCost(p[index])
  {
    FiguresAfterSplice(p, index, prices);
    SumRemoveAt(Values(p, prices), index);
    SumRemoveAt(Costs(p), index);
  }

  // ---------------------------------------------------------------------------------------
  // The page's state

  /** The text fields of the "Add to Portfolio" dialog. */
  datatype Draft = Draft(coinId: string, quantity: string, buyPrice: string)

  const EmptyDraft := Draft("", "", "")

  /** The portfolio page. `portfolio` is persisted under the key "portfolio" after every change. */
  class PortfolioPage {
    var portfolio: seq<Holding>
    var draft: Draft
    var dialogOpen: bool
    const store: Storage.Slot<seq<Holding>>

    /** The stored list equals the list on screen. */
    ghost predicate Persisted()
      reads this, store
    {
      store.saved == Some(portfolio)
    }

    /** Mount: load the saved list (an absent key gives the empty list), then the persisting
        effect writes it back. */
    constructor (store: Storage.Slot<seq<Holding>>)
      modifies store
      ensures this.store == store
      ensures portfolio == old(store.saved).GetOr([])
      ensures draft == EmptyDraft && !dialogOpen
      ensures Persisted()
    {
      var saved := store.Read();
      portfolio := saved.GetOr([]);
      draft := EmptyDraft;
      dialogOpen := false;
      this.store := store;
      new;
      store.Write(portfolio);
    }

    /** The dialog's input fields changing. */
    method EditDraft(d: Draft)
      modifies this
      ensures draft == d
      ensures portfolio == old(portfolio) && dialogOpen == old(dialogOpen)
    {
      draft := d;
    }

    /** The dialog opening or closing. */
    method SetDialogOpen(open: bool)
      modifies this
      ensures dialogOpen == open
      ensures portfolio == old(portfolio) && draft == old(draft)
    {
      dialogOpen := open;
    }

    /** `addToPortfolio`: with all three fields filled in, append one lot (coin id lower-cased,
        numbers read with `parse`), clear the form and close the dialog; otherwise do nothing. */
    method AddToPortfolio(parse: string -> real)
      requires Persisted()
      modifies this, store
      ensures Persisted()
      ensures var d := old(draft);
        if d.coinId != "" && d.quantity != "" && d.buyPrice != "" then
          && portfolio == old(portfolio) + [Holding(ToLower(d.coinId), parse(d.quantity), parse(d.buyPrice))]
          && draft == EmptyDraft && !dialogOpen
        else
          && portfolio == old(portfolio) && draft == old(draft) && dialogOpen == old(dialogOpen)
          && store.saved == old(store.saved)
    {
      if draft.coinId != "" && draft.quantity != "" && draft.buyPrice != "" {
        var lot := Holding(ToLower(draft.coinId), parse(draft.quantity), parse(draft.buyPrice));
        portfolio := portfolio + [lot];
        draft := EmptyDraft;
        dialogOpen := false;
        store.Write(portfolio);
      }
    }

    /** `removeFromPortfolio(index)`: drop the lot at `index`; an index out of range changes nothing. */
    method RemoveFromPortfolio(index: int)
      requires Persisted()
      modifies this, store
      ensures Persisted()
      ensures 0 <= index < |old(portfolio)| ==> portfolio == old(portfolio)[..index] + old(portfolio)[index + 1..]
      ensures !(0 <= index < |old(portfolio)|) ==> portfolio == old(portfolio)
      ensures draft == old(draft) && dialogOpen == old(dialogOpen)
    {
      RemoveAtSplices(portfolio, index);
      portfolio := RemoveAt(portfolio, index);
      store.Write(portfolio);
    }
  }
}
