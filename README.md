# Trading simulator, modelled in Dafny

A model of the two components of a turn-by-turn portfolio trading simulator:

- **Price histories** (`history.dfy`, module `History`). `AssetPrice` is the
  quotation record with the fields `LKOH` and `SBER` and their default prices
  5896 and 250. Three histories yield dated quotations:
  - the *real* history replays an 8-day table from 2023-09-10 to 2023-09-17 and then ends;
  - the *chill* history repeats the default prices forever, dated from today;
  - the *chaos* history yields the default prices on day 0. On every later day
    each field is its default price times a multiplier drawn from a seeded random
    stream, or the default price when that multiplier is zero.

  The randomised history is a class whose generator state (how many values it
  has drawn) advances with every draw and is shared by every iteration of the
  instance. `DayIterator` is the generator object returned by `iter(history)`.
  `Entry`, `Run` and `After` say, as functions of the day index and the stream
  position, what the successive `next()` calls return.
- **The portfolio simulator** (`trading_simulation.dfy`, module `Trading`).
  `PortfolioSimulator` is a class holding cash, a holdings dictionary (an absent
  key reads as zero, like a `defaultdict(int)`), the current date and prices,
  the day iterator and the value captured at construction. `Buy`, `Sell` and
  `NextDay` change it in place. The valuations (`asset_values`, `value`,
  `profit`) are functions on the state. Their method forms also make every
  quotation field a key of the holdings, as indexing the `defaultdict` does.

`wrappers.dfy` holds `Option` and `Result`. A `None` from `next()` stands for
`StopIteration`; the simulator's exceptions are the `Error` datatype.

Representation choices:
- Dates are day ordinals as Python's `date.toordinal()` counts them (2023-09-10 is 738773).
- Decimal prices and cash are exact `real`s. Quantities are unbounded `int`s.
- Asset names typed by a user are `Listed(field)` or `Unknown(name)`. The type of
  `name` excludes the two field names, and `ParseName` resolves a typed string.
- The randomised history's generator is a parameter `random(seed, i)`: the
  i-th value `random()` returns after `seed(seed)`. A multiplier is then
  `lo + (hi - lo) * random(seed, i)`, which is how `uniform(lo, hi)` is defined.

Behaviour of the code worth knowing, all of which the model keeps:
- **Chaos prices do not accumulate.** Each randomised price is the default
  price times that day's multiplier (history.py:56). It is not the previous
  day's price times the multiplier, so the prices are not a random walk.
- **A zero multiplier resets the field.** A field whose multiplier is zero is
  left out of the keyword arguments (history.py:58). It takes its default
  price that day rather than keeping the previous day's price.
- **Amounts are not sign-checked.** Neither `buy` nor `sell` checks that the
  amount is positive. At a positive price, a negative buy adds cash and
  reduces the holding, and a negative sell passes the holding check and
  spends cash without a cash check, so cash can go below zero. The histories
  do not check their prices either: a randomised range below zero gives
  negative prices. The non-negativity results are stated under `amount >= 0`
  and a non-negative price where they need them.
- **Zero-holding sells are short, not unknown.** Construction values the
  portfolio, which inserts `LKOH` and `SBER` as keys. Selling either of them
  without holding it therefore fails with `NotEnoughAsset`, not
  `WrongAssetName`.
- **Errors.** Construction with negative cash raises `NotEnoughCash`. An
  exhausted history raises `StopIteration`, which menu choice 3 turns into
  the end of the game.

## Model

| member | source | states |
|---|---|---|
| `History.MakeAssetPrice` | history.py:10-14 | each field of `AssetPrice(**kwargs)` is the keyword value when passed and the field's default (LKOH 5896, SBER 250) otherwise |
| `History.Uniform` | history.py:58 | a multiplier drawn from `uniform(lo, hi)` lies in the range whenever the drawn unit value is in [0, 1] |
| `History.ChaosKwArgsAt` | history.py:55-59 | in the comprehension, the i-th field takes the (pos+i)-th draw; it is passed iff its multiplier is nonzero, and then as default × multiplier |
| `History.ChaosKwArgsOnly` | history.py:55-59 | the comprehension passes no keyword other than a quotation field |
| `History.ChaosFieldPrice` | history.py:55-58 | a randomised day's price of each field is the DEFAULT price times its own multiplier (LKOH drawn first, SBER second), or the default when that multiplier is zero; it does not involve the previous day |
| `History.ChaosZeroMultiplierKeepsDefault` | history.py:58 | a falsy (zero) multiplier drops the field, so it keeps its default price that day |
| `History.ChaosPriceBounds` | history.py:40-58 | with a positive range lo..hi every randomised price lies between lo and hi times the default; with the default range 0.5..1.5, between half and 1.5 times the default |
| `History.Entry` | history.py:47-100 | only the historical history ever ends, and it ends exactly from the ninth pull on |
| `History.Run` | history.py:24-29 | k pulls of an iterator give k results |
| `History.ChaosAfter` | history.py:47-61 | a randomised iteration never ends; after k pulls from day 0 it stands at day k and has drawn two values per day after day 0, 2 × (k − 1) in all (none for k = 0) |
| `History.RealRun` | history.py:90-100 | the historical iterator yields exactly 8 entries with consecutive dates 2023-09-10 … 2023-09-17 and the table's prices, and end-of-data after that, whatever the date or stream |
| `History.ChillRun` | history.py:72-77 | the stationary iterator never ends: day n is dated today + n with the default prices |
| `History.ChaosRun` | history.py:47-61 | the randomised iterator dates day n as today + n, yields the default prices on day 0, and on each later day the prices scaled by the next two values of the stream |
| `History.RestartedRunsAgree` | history.py:72-100 | a second iteration of the historical history yields what the first did; so does the stationary one on the same date; the random stream's position plays no part |
| `History.ChaosAssetPriceHistory.constructor` | history.py:43-45 | a new instance keeps its range and seed and has drawn nothing: the stream starts at its beginning |
| `History.ChaosAssetPriceHistory.DrawMultiplier` | history.py:58 | a draw returns the multiplier at the stream's position and advances the position by one |
| `History.ChaosAssetPriceHistory.DrawPrices` | history.py:55-59 | a randomised day's quotation is built with one draw per field, in field order, and equals the specified randomised prices |
| `History.ChaosAssetPriceHistory.Standard` | history.py:40-45 | an instance built with the declared defaults has the range 0.5..1.5 and seed 42, and has drawn nothing |
| `History.DayIterator.constructor` | history.py:47-50 | a new iterator of a history starts at day 0 |
| `History.DayIterator.Next` | history.py:47-100 | `next()` returns the specified entry for the day and stream position. It moves to the next day unless the history is exhausted, and consumes the day's draws |
| `History.DayIterator.Take` | history.py:110 | k pulls return exactly `Run` and leave the iterator and the stream where `After` says |
| `History.SameSeedSameDays` | history.py:43-58 | two fresh randomised instances with equal range and seed yield identical days |
| `History.IterateTwice` | history.py:43-58 | a second iteration of one randomised instance continues its stream rather than restarting it: it starts at the position after the first iteration's draws |
| `Trading.ParseName` | trading-simulation.py:61 | `getattr` on a quotation resolves exactly the names `LKOH` and `SBER` to fields, and the resolved name keeps the typed text |
| `Trading.ParseNameText` | trading-simulation.py:57-61 | every name is what its own text resolves to, so no field can also be passed as an unknown name |
| `Trading.InsertKeys` | trading-simulation.py:93 | indexing the holdings by each field makes it a key, with quantity 0 when missing; no quantity changes |
| `Trading.WithFieldKeys` | trading-simulation.py:90-94 | after a valuation every field is a key of the holdings, no other key is added, and no quantity changes |
| `Trading.InsertPresentKeys` | trading-simulation.py:93 | once every field is a key, a valuation leaves the holdings untouched |
| `Trading.Cost` | trading-simulation.py:64 | a non-negative price times a non-negative amount costs a non-negative sum |
| `Trading.ValuesOver` | trading-simulation.py:88-94 | every row has a nonzero quantity equal to the holding and a total of quantity × today's price; the totals add up to quantity × price over all fields |
| `Trading.AssetValuesInFieldOrder` | trading-simulation.py:88-94 | `asset_values` lists exactly the assets with nonzero quantity, LKOH before SBER, each valued at quantity × price |
| `Trading.PortfolioValueClosedForm` | trading-simulation.py:96-99 | `value` equals cash plus quantity × price summed over both fields |
| `Trading.ValuesDependOnQuantities` | trading-simulation.py:88-99 | the valuation depends only on the fields' quantities, so inserted zero keys and keys that are no field do not change it |
| `Trading.TradeKeepsValue` | trading-simulation.py:64-85 | moving price × amount from cash into a holding of amount units (either sign) leaves the portfolio value unchanged |
| `Trading.PortfolioSimulator.Init` | trading-simulation.py:44-50 | from a non-negative starting cash, the constructed state has every field as a key of the holdings and captures the initial value as the current value |
| `Trading.PortfolioSimulator.Create` | trading-simulation.py:44-50 | negative cash fails with `NotEnoughCash`. Otherwise the first day is pulled and the field keys are inserted, the initial value equals the value, and the profit is 0 |
| `Trading.PortfolioSimulator.NextDay` | trading-simulation.py:53-55 | the next entry replaces date and prices; an exhausted history fails with `StopIteration` and keeps the day; the day cursor moves to the next day index and the stream position advances by the day's draws; cash and holdings never change |
| `Trading.PortfolioSimulator.EndDay` | trading-simulation.py:177-181 | ending the day stops the game exactly when the history is exhausted, and then keeps the date and prices; otherwise the next entry becomes the current day; the day cursor advances as for `next_day` |
| `Trading.RealGame` | trading-simulation.py:44-55 | on the historical history a game starts at 2023-09-10, the next seven day ends show 2023-09-11 … 2023-09-17, and the eighth ends the game |
| `Trading.PortfolioSimulator.Buy` | trading-simulation.py:57-70 | an unknown name fails with `WrongAssetName` and a cost above cash with `NotEnoughCash`, changing nothing. Otherwise price × amount is taken from cash and only that holding changes, by amount. Cash stays ≥ 0, date and prices are kept, and the value is unchanged |
| `Trading.PortfolioSimulator.Sell` | trading-simulation.py:72-85 | `WrongAssetName` when the name is not a key, or is a key but no field; `NotEnoughAsset` when fewer are held; neither changes anything. Otherwise price × amount is added to cash and only that holding changes, by −amount, staying ≥ 0. The value is unchanged, and cash does not fall for a non-negative amount at a non-negative price |
| `Trading.PortfolioSimulator.AssetValueRows` | trading-simulation.py:87-94 | returns the specified rows, makes every field a key, and changes neither holdings already keyed nor the value |
| `Trading.PortfolioSimulator.Value` | trading-simulation.py:96-99 | returns cash plus quantity × price over both fields, the value before the call |
| `Trading.PortfolioSimulator.Profit` | trading-simulation.py:101-104 | returns the current value less the value captured at construction |

`SessionExample` in `trading_simulation.dfy` is a client of these contracts. It
replays a session on the stationary history: buy 100 SBER at 250 from 100 000,
sell 50, try an unaffordable buy, try an unknown name, and sell unheld LKOH.
The verifier checks every cash, holding, value and error value along the way.

## Left out

- Console interaction is not modelled: `input_int`, `run`, `user_action`'s menu
  text, `print_greeting`, `print_summary`, `print_result` and `sleep`. Only
  choice 3's mapping of `StopIteration` to the end of the game is modelled
  (`EndDay`).
- Reading `logo.txt` during construction is I/O and is not modelled.
- Argument parsing and the `inspect`-based discovery of the history classes
  are start-up glue. The command line's default history is the first
  discovered class in name order, the randomised one (trading-simulation.py:203-213).
  `Create` takes the history and the starting cash explicitly, so the
  dataclass's default history (the historical one) and its default cash of
  100 000 are not modelled as defaults either.
- The wall-clock `date.today()` is the parameter `today`.
- Dates are unbounded ints. Python's `date` ends at 9999-12-31 (ordinal
  3652059), and the pull past it raises `OverflowError` in the stationary and
  randomised histories (history.py:51, 76); that error is not `StopIteration`,
  so the menu does not turn it into the end of the game. "Never ends" holds
  within that range.
- The Mersenne Twister and the conversion of a float multiplier to `Decimal`
  are not modelled. The stream of unit values is the parameter `random`.
- `Decimal` context precision and rounding are not modelled: arithmetic is exact.
- Dynamic `getattr` lookup is not modelled. It would also accept attribute names
  such as `__class__`; the model knows the two quotation fields and treats
  every other name as unknown.
- `Trading.PortfolioSimulator.Create`: holdings are a value, copied into the
  simulator. The source stores and mutates the caller's dictionary, and a plain
  `dict` that lacks the key `LKOH` or `SBER` raises `KeyError` during
  construction (trading-simulation.py:42, 93). Neither aliasing nor that error
  is modelled.
- Quotation records are values. The source yields one shared, mutable
  `AssetPrice` instance per iteration for the stationary history and for day 0
  of the randomised one. Nothing mutates it, so sharing is not observable.
- `History.ChaosPriceBounds`: requires a positive lower bound and a unit value
  in [0, 1]. For a range reaching zero or below, a price can be zero, negative
  or reset to the default, which `History.ChaosFieldPrice` describes instead.
