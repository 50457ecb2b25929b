/**
 * The portfolio simulator: cash and per-asset holdings, bought and sold at the
 * prices of the current day, a day cursor pulled from a price history, and
 * the derived valuations (holdings' worth, portfolio value, profit).
 */
module Trading {
  import opened Wrappers
  import opened History

  /** The exceptions the simulator raises, and the end-of-data signal of its iterator. */
  datatype Error = NotEnoughCash | WrongAssetName | NotEnoughAsset | StopIteration

  /** What the menu does after a choice: carry on, or end the game (`StopGameException`). */
  datatype MenuSignal = Continue | StopGame

  /** A name that is not the name of a quotation field. */
  type OtherName = s: string | s != "LKOH" && s != "SBER" witness ""

  /** A name typed by the user: one of the quotation fields, or any other name. */
  datatype AssetName = Listed(asset: Asset) | Unknown(name: OtherName)

  /** The attribute name of a quotation field. */
  function FieldName(a: Asset): string
  {
    match a
    case LKOH => "LKOH"
    case SBER => "SBER"
  }

  /** The text of a name as the user typed it. */
  function NameText(n: AssetName): string
  {
    match n
    case Listed(a) => FieldName(a)
    case Unknown(s) => s
  }

  /**
   * Resolving a typed name as `getattr` on a quotation does: the two field
   * names resolve to their field, every other name to `Unknown`.
   */
  function ParseName(s: string): (n: AssetName)
    ensures n.Listed? <==> s == "LKOH" || s == "SBER"
    ensures NameText(n) == s
  {
    if s == "LKOH" then Listed(LKOH)
    else if s == "SBER" then Listed(SBER)
    else Unknown(s)
  }

  /** Every name is what its own text resolves to: no name is known under two spellings. */
  lemma {:induction false} ParseNameText(n: AssetName)
    ensures ParseName(NameText(n)) == n
  {
    match n
    case Listed(a) =>
      assert NameText(n) == FieldName(a);
    case Unknown(s) =>
      assert NameText(n) == s;
  }

  /** The holdings dictionary; an absent key reads as 0, as in a `defaultdict(int)`. */
  type Holdings = map<AssetName, int>

  /** `assets[name]` read without inserting. */
  function Quantity(assets: Holdings, name: AssetName): int
  {
    if name in assets then assets[name] else 0
  }

  /**
   * The holdings after reading `assets[field]` for each of `fields`: every one
   * of them becomes a key, a missing one with quantity 0, and nothing else changes.
   */
  function InsertKeys(fields: seq<Asset>, assets: Holdings): (r: Holdings)
    ensures forall a :: a in fields ==> Listed(a) in r
    ensures forall n :: n in r <==> n in assets || (n.Listed? && n.asset in fields)
    ensures forall n :: Quantity(r, n) == Quantity(assets, n)
    decreases |fields|
  {
    if fields == [] then assets
    else
      var key := Listed(fields[0]);
      InsertKeys(fields[1..], if key in assets then assets else assets[key := 0])
  }

  /** The holdings after a valuation has read every field of the quotation. */
  function WithFieldKeys(assets: Holdings): (r: Holdings)
    ensures HasFieldKeys(r)
    ensures forall n :: n in r <==> n in assets || n.Listed?
    ensures forall n :: Quantity(r, n) == Quantity(assets, n)
  {
    FieldsCoverAssets();
    InsertKeys(Fields, assets)
  }

  /** Every field is a key of the holdings. */
  ghost predicate HasFieldKeys(assets: Holdings)
  {
    forall a: Asset :: Listed(a) in assets
  }

  /** Reading the fields of holdings that already have them as keys changes nothing. */
  lemma {:induction false} InsertPresentKeys(fields: seq<Asset>, assets: Holdings)
    requires HasFieldKeys(assets)
    ensures InsertKeys(fields, assets) == assets
    decreases |fields|
  {
    if fields != [] {
      InsertPresentKeys(fields[1..], assets);
    }
  }

  // ---------------------------------------------------------------------------
  // Valuation

  /** One row of `asset_values`: the asset, how many are held, what they are worth today. */
  datatype AssetValue = AssetValue(asset: Asset, quantity: int, total: real)

  /** `price * amount`: what `amount` units cost at `price`. */
  function Cost(price: real, amount: int): (r: real)
    ensures price >= 0.0 && amount >= 0 ==> r >= 0.0
  {
    price * amount as real
  }

  /** Cost is additive in the amount, and a negative amount is a refund. */
  lemma CostLinear(price: real, x: int, y: int)
    ensures Cost(price, x + y) == Cost(price, x) + Cost(price, y)
    ensures Cost(price, -x) == -Cost(price, x)
  {
    assert (x + y) as real == x as real + y as real;
    assert (-x) as real == -(x as real);
  }

  /** Sum of the `total` column. */
  function Sum(vs: seq<AssetValue>): real
  {
    if vs == [] then 0.0 else vs[0].total + Sum(vs[1..])
  }

  /** Quantity × price summed over `fields`, counting the zero holdings too. */
  function Worth(fields: seq<Asset>, assets: Holdings, prices: AssetPrice): real
  {
    if fields == [] then 0.0
    else Cost(prices.Get(fields[0]), Quantity(assets, Listed(fields[0]))) + Worth(fields[1..], assets, prices)
  }

  /**
   * The rows of `asset_values` for `fields`: only assets held in a nonzero
   * quantity appear, each valued at quantity × today's price, and their totals
   * add up to what all of `fields` is worth.
   */
  function ValuesOver(fields: seq<Asset>, assets: Holdings, prices: AssetPrice): (vs: seq<AssetValue>)
    ensures |vs| <= |fields|
    ensures forall i :: 0 <= i < |vs| ==>
      && vs[i].asset in fields
      && vs[i].quantity == Quantity(assets, Listed(vs[i].asset)) != 0
      && vs[i].total == Cost(prices.Get(vs[i].asset), vs[i].quantity)
    ensures Sum(vs) == Worth(fields, assets, prices)
    decreases |fields|
  {
    if fields == [] then []
    else
      var a := fields[0];
      var q := Quantity(assets, Listed(a));
      var rest := ValuesOver(fields[1..], assets, prices);
      assert forall f :: f in fields[1..] ==> f in fields;
      if q != 0 then
        var vs := [AssetValue(a, q, Cost(prices.Get(a), q))] + rest;
        assert vs[1..] == rest;
        assert forall i :: 1 <= i < |vs| ==> vs[i] == rest[i - 1];
        vs
      else rest
  }

  /** `asset_values`: the rows for the quotation's fields, in field order. */
  function AssetValues(assets: Holdings, prices: AssetPrice): seq<AssetValue>
  {
    ValuesOver(Fields, assets, prices)
  }

  /** The row for one asset, if it is held in a nonzero quantity. */
  function RowFor(a: Asset, assets: Holdings, prices: AssetPrice): seq<AssetValue>
  {
    var q := Quantity(assets, Listed(a));
    if q != 0 then [AssetValue(a, q, Cost(prices.Get(a), q))] else []
  }

  /**
   * `asset_values` lists exactly the assets with nonzero quantity, LKOH before
   * SBER, each valued at quantity × today's price.
   */
  lemma AssetValuesInFieldOrder(assets: Holdings, prices: AssetPrice)
    ensures AssetValues(assets, prices) == RowFor(LKOH, assets, prices) + RowFor(SBER, assets, prices)
  {
    assert Fields[1..] == [SBER];
    assert Fields[1..][1..] == [];
  }

  /** `value`: cash plus the totals of `asset_values`. */
  function PortfolioValue(cash: real, assets: Holdings, prices: AssetPrice): real
  {
    cash + Sum(AssetValues(assets, prices))
  }

  /** The value is the cash plus quantity × price over every field, held or not. */
  lemma PortfolioValueClosedForm(cash: real, assets: Holdings, prices: AssetPrice)
    ensures PortfolioValue(cash, assets, prices)
         == cash + Cost(prices.lkoh, Quantity(assets, Listed(LKOH)))
                 + Cost(prices.sber, Quantity(assets, Listed(SBER)))
  {
    assert Fields[1..] == [SBER];
    assert Fields[1..][1..] == [];
  }

  /** Holdings that agree on every field's quantity are valued alike; other keys play no part. */
  lemma {:induction false} ValuesDependOnQuantities(fields: seq<Asset>, a1: Holdings, a2: Holdings, prices: AssetPrice)
    requires forall a: Asset :: Quantity(a1, Listed(a)) == Quantity(a2, Listed(a))
    ensures ValuesOver(fields, a1, prices) == ValuesOver(fields, a2, prices)
    decreases |fields|
  {
    if fields != [] {
      ValuesDependOnQuantities(fields[1..], a1, a2, prices);
    }
  }

  /**
   * Trading `amount` of an asset at today's price converts cash into holdings
   * (or back, for a negative amount) and leaves the portfolio value unchanged.
   */
  lemma TradeKeepsValue(cash: real, assets: Holdings, prices: AssetPrice, a: Asset, amount: int)
    ensures var q := Quantity(assets, Listed(a));
      PortfolioValue(cash - Cost(prices.Get(a), amount), assets[Listed(a) := q + amount], prices)
      == PortfolioValue(cash, assets, prices)
  {
    var q := Quantity(assets, Listed(a));
    var after := assets[Listed(a) := q + amount];
    PortfolioValueClosedForm(cash, assets, prices);
    PortfolioValueClosedForm(cash - Cost(prices.Get(a), amount), after, prices);
    CostLinear(prices.Get(a), q, amount);
    match a
    case LKOH =>
      assert Quantity(after, Listed(SBER)) == Quantity(assets, Listed(SBER));
    case SBER =>
      assert Quantity(after, Listed(LKOH)) == Quantity(assets, Listed(LKOH));
  }

  // ---------------------------------------------------------------------------
  // The simulator

  /** `PortfolioSimulator`: the portfolio, the day cursor and the value captured at the start. */
  class PortfolioSimulator {
    /** `self.days = iter(self.history)` */
    const days: DayIterator
    var cash: real
    var assets: Holdings
    var currentDate: Date
    var currentPrices: AssetPrice
    /** The value right after the first day was pulled; never recomputed. */
    const initialValue: real

    /** Once a valuation has run, every field is a key of the holdings. */
    ghost predicate Valid()
      reads this
    {
      HasFieldKeys(assets)
    }

    /** `self.value`, without its side effect on the holdings. */
    function ValueOf(): real
      reads this
    {
      PortfolioValue(cash, assets, currentPrices)
    }

    /** `self.profit`, without its side effect on the holdings. */
    function ProfitOf(): real
      reads this
    {
      ValueOf() - initialValue
    }

    /** The state `__post_init__` leaves behind once the first day has been pulled and valued. */
    constructor Init(days: DayIterator, cash: real, assets: Holdings, date: Date, prices: AssetPrice)
      requires cash >= 0.0
      ensures this.days == days && this.cash == cash && this.assets == WithFieldKeys(assets)
      ensures currentDate == date && currentPrices == prices
      ensures Valid() && initialValue == ValueOf()
    {
      this.days := days;
      this.cash := cash;
      this.assets := WithFieldKeys(assets);
      currentDate, currentPrices := date, prices;
      initialValue := PortfolioValue(cash, WithFieldKeys(assets), prices);
    }

    /**
     * `PortfolioSimulator(history, cash, assets)`: refuses a negative starting
     * cash; otherwise starts iterating the history, pulls the first day and
     * captures the value, so that the profit is zero.
     */
    static method Create(history: AssetPriceHistory, today: Date, cash: real, assets: Holdings)
      returns (r: Result<PortfolioSimulator, Error>)
      modifies history.Objects()
      ensures cash < 0.0 <==> r == Err(NotEnoughCash)
      ensures cash >= 0.0 ==> r.Ok?
      ensures r.Ok? ==>
        var sim := r.value;
        && fresh(sim) && fresh(sim.days)
        && sim.days.history == history && sim.days.today == today && sim.days.day == 1
        && Some(DatedPrice(sim.currentDate, sim.currentPrices)) == Entry(history.Spec(), today, 0, old(history.Drawn()))
        && sim.cash == cash && sim.assets == WithFieldKeys(assets)
        && sim.Valid() && sim.initialValue == sim.ValueOf() && sim.ProfitOf() == 0.0
      ensures history.Drawn() == old(history.Drawn())
    {
      if cash < 0.0 {
        return Err(NotEnoughCash);
      }
      var days := new DayIterator(history, today);
      var first := days.Next();
      if first.None? {
        return Err(StopIteration);
      }
      var sim := new PortfolioSimulator.Init(days, cash, assets, first.value.date, first.value.prices);
      r := Ok(sim);
    }

    /** The day cursor's next element, as `next(self.days)` would return it. */
    function Upcoming(): Option<DatedPrice>
      reads days, days.history.Objects()
    {
      Entry(days.history.Spec(), days.today, days.day, days.history.Drawn())
    }

    /**
     * `next_day`: the next day's date and prices replace the current ones; cash
     * and holdings stay. An exhausted history raises `StopIteration` and
     * leaves the current day in place.
     */
    method NextDay() returns (err: Option<Error>)
      modifies this`currentDate, this`currentPrices, days, days.history.Objects()
      ensures old(Upcoming()).None? ==>
        err == Some(StopIteration) && currentDate == old(currentDate) && currentPrices == old(currentPrices)
      ensures old(Upcoming()).Some? ==>
        err == None && DatedPrice(currentDate, currentPrices) == old(Upcoming()).value
      ensures days.day == NextDayIndex(days.history.Spec(), days.today, old(days.day), old(days.history.Drawn()))
      ensures days.history.Drawn() == old(days.history.Drawn()) + Draws(days.history.Spec(), old(days.day))
      ensures cash == old(cash) && assets == old(assets)
    {
      var e := days.Next();
      if e.None? {
        return Some(StopIteration);
      }
      currentDate, currentPrices := e.value.date, e.value.prices;
      err := None;
    }

    /** Menu choice "end the day": an exhausted history ends the game. */
    method EndDay() returns (signal: MenuSignal)
      modifies this`currentDate, this`currentPrices, days, days.history.Objects()
      ensures signal == StopGame <==> old(Upcoming()).None?
      ensures signal == Continue ==> DatedPrice(currentDate, currentPrices) == old(Upcoming()).value
      ensures signal == StopGame ==> currentDate == old(currentDate) && currentPrices == old(currentPrices)
      ensures days.day == NextDayIndex(days.history.Spec(), days.today, old(days.day), old(days.history.Drawn()))
      ensures days.history.Drawn() == old(days.history.Drawn()) + Draws(days.history.Spec(), old(days.day))
      ensures cash == old(cash) && assets == old(assets)
    {
      var err := NextDay();
      signal := if err == Some(StopIteration) then StopGame else Continue;
    }

    /**
     * `buy`: an unknown name raises `WrongAssetName`; a cost above the cash
     * raises `NotEnoughCash`; either way nothing changes. Otherwise the cost
     * moves from cash into the holding, cash stays non-negative and the value
     * is unchanged. The amount's sign is not checked.
     */
    method Buy(name: AssetName, amount: int) returns (err: Option<Error>)
      modifies this`cash, this`assets
      ensures name.Unknown? ==> err == Some(WrongAssetName)
      ensures name.Listed? && old(cash) < Cost(currentPrices.Get(name.asset), amount) ==>
        err == Some(NotEnoughCash)
      ensures name.Listed? && old(cash) >= Cost(currentPrices.Get(name.asset), amount) ==> err == None
      ensures err.Some? ==> cash == old(cash) && assets == old(assets)
      ensures currentDate == old(currentDate) && currentPrices == old(currentPrices)
      ensures err.None? ==>
        && cash == old(cash) - Cost(currentPrices.Get(name.asset), amount)
        && assets == old(assets)[name := Quantity(old(assets), name) + amount]
        && cash >= 0.0
        && ValueOf() == old(ValueOf())
      ensures old(Valid()) ==> Valid()
    {
      if name.Unknown? {
        return Some(WrongAssetName);
      }
      var price := currentPrices.Get(name.asset);
      var cost := Cost(price, amount);
      if cash < cost {
        return Some(NotEnoughCash);
      }
      TradeKeepsValue(cash, assets, currentPrices, name.asset, amount);
      cash := cash - cost;
      assets := assets[name := Quantity(assets, name) + amount];
      err := None;
    }

    /**
     * `sell`: a name that is not a key of the holdings raises
     * `WrongAssetName`; holding fewer than `amount` raises `NotEnoughAsset`;
     * a key that is no quotation field raises `WrongAssetName` when its price
     * is looked up; none of these changes anything. Otherwise the proceeds are
     * added to cash, the holding shrinks but stays non-negative, and the value
     * is unchanged.
     */
    method Sell(name: AssetName, amount: int) returns (err: Option<Error>)
      modifies this`cash, this`assets
      ensures name !in old(assets) ==> err == Some(WrongAssetName)
      ensures name in old(assets) && old(assets)[name] < amount ==> err == Some(NotEnoughAsset)
      ensures name in old(assets) && old(assets)[name] >= amount ==>
        err == if name.Unknown? then Some(WrongAssetName) else None
      ensures err.Some? ==> cash == old(cash) && assets == old(assets)
      ensures currentDate == old(currentDate) && currentPrices == old(currentPrices)
      ensures err.None? ==>
        && name.Listed? && name in old(assets)
        && cash == old(cash) + Cost(currentPrices.Get(name.asset), amount)
        && assets == old(assets)[name := old(assets)[name] - amount]
        && assets[name] >= 0
        && ValueOf() == old(ValueOf())
      ensures err.None? && amount >= 0 && currentPrices.Get(name.asset) >= 0.0 ==> cash >= old(cash)
      ensures old(Valid()) ==> Valid()
    {
      if name !in assets {
        return Some(WrongAssetName);
      }
      var held := assets[name];
      if held < amount {
        return Some(NotEnoughAsset);
      }
      if name.Unknown? {
        return Some(WrongAssetName);
      }
      TradeKeepsValue(cash, assets, currentPrices, name.asset, -amount);
      CostLinear(currentPrices.Get(name.asset), amount, 0);
      cash := cash + Cost(currentPrices.Get(name.asset), amount);
      assets := assets[name := held - amount];
      err := None;
    }

    /**
     * `asset_values`: the nonzero holdings valued at today's prices. Reading
     * the holdings makes every field a key, at zero if it was missing.
     */
    method AssetValueRows() returns (vs: seq<AssetValue>)
      modifies this`assets
      ensures vs == AssetValues(old(assets), currentPrices)
      ensures assets == WithFieldKeys(old(assets)) && Valid()
      ensures old(Valid()) ==> assets == old(assets)
      ensures ValueOf() == old(ValueOf())
    {
      vs := AssetValues(assets, currentPrices);
      if Valid() {
        InsertPresentKeys(Fields, assets);
      }
      ValuesDependOnQuantities(Fields, assets, WithFieldKeys(assets), currentPrices);
      assets := WithFieldKeys(assets);
    }

    /** `value`: cash plus quantity × today's price over the holdings. */
    method Value() returns (v: real)
      modifies this`assets
      ensures v == old(ValueOf())
      ensures v == cash + Cost(currentPrices.lkoh, Quantity(assets, Listed(LKOH)))
                        + Cost(currentPrices.sber, Quantity(assets, Listed(SBER)))
      ensures assets == WithFieldKeys(old(assets)) && Valid()
    {
      var vs := AssetValueRows();
      v := cash + Sum(vs);
      PortfolioValueClosedForm(cash, assets, currentPrices);
    }

    /** `profit`: the value now less the value captured at the start. */
    method Profit() returns (p: real)
      modifies this`assets
      ensures p == old(ProfitOf())
      ensures assets == WithFieldKeys(old(assets)) && Valid()
    {
      var v := Value();
      p := v - initialValue;
    }
  }

  /**
   * The worked example of a session on the stationary history: 100 SBER bought
   * and 50 sold at 250, an unaffordable purchase and an unknown name refused.
   */
  method SessionExample(today: Date)
  {
    var created := PortfolioSimulator.Create(Chill, today, 100000.0, map[]);
    var sim := created.value;
    assert sim.currentPrices == Default && Default.sber == 250.0;
    PortfolioValueClosedForm(sim.cash, sim.assets, sim.currentPrices);
    assert sim.ValueOf() == 100000.0;

    assert sim.cash == 100000.0 && sim.currentPrices.Get(SBER) == 250.0;
    assert Cost(250.0, 100) == 25000.0 && Cost(250.0, 50) == 12500.0;
    var err := sim.Buy(Listed(SBER), 100);
    assert err.None? && sim.cash == 75000.0 && Quantity(sim.assets, Listed(SBER)) == 100;
    assert sim.ValueOf() == 100000.0;

    err := sim.Sell(Listed(SBER), 50);
    assert err.None? && sim.cash == 87500.0 && Quantity(sim.assets, Listed(SBER)) == 50;
    assert sim.ValueOf() == 100000.0 && sim.ProfitOf() == 0.0;

    err := sim.Buy(Listed(SBER), 1000000);
    assert err == Some(NotEnoughCash) && sim.cash == 87500.0;

    err := sim.Sell(Unknown("UNKNOWN"), 1);
    assert err == Some(WrongAssetName) && sim.cash == 87500.0;

    // LKOH is a key since construction, so selling it unheld is short, not unknown.
    err := sim.Sell(Listed(LKOH), 1);
    assert err == Some(NotEnoughAsset);
  }

  /**
   * A game on the historical history: construction shows 2023-09-10, each of
   * the next seven day ends moves one day on, and the eighth ends the game.
   */
  method RealGame(today: Date) returns (dates: seq<Date>, last: MenuSignal)
    ensures |dates| == 8 && forall i :: 0 <= i < 8 ==> dates[i] == RealStart + i
    ensures last == StopGame
  {
    RealRun(today, 0, 0, 1, 0);
    var created := PortfolioSimulator.Create(Real, today, 100000.0, map[]);
    var sim := created.value;
    dates := [sim.currentDate];
    var n := 1;
    while n < 8
      invariant 1 <= n <= 8
      invariant fresh(sim) && fresh(sim.days)
      invariant sim.days.history == Real && sim.days.day == n
      invariant |dates| == n && forall i :: 0 <= i < n ==> dates[i] == RealStart + i
    {
      RealRun(today, n, Real.Drawn(), 1, 0);
      var signal := sim.EndDay();
      dates := dates + [sim.currentDate];
      n := n + 1;
    }
    last := sim.EndDay();
  }
}
