/**
 * Price histories of the trading simulator: the quotation record `AssetPrice`
 * and the three sources of dated quotations (a fixed historical table, the
 * default prices repeated forever, and default prices scaled by seeded random
 * multipliers), together with the iterator the simulator pulls days from.
 *
 * Dates are day ordinals, as Python's `date.toordinal()` numbers them: the day
 * after `d` is `d + 1`.
 */
module History {
  import opened Wrappers

  type Date = int

  /** The fields of `AssetPrice`, one per tradable asset. */
  datatype Asset = LKOH | SBER

  /** The fields in declaration order, the order in which every loop over them runs. */
  const Fields: seq<Asset> := [LKOH, SBER]

  /** Position of a field in declaration order. */
  function FieldIndex(a: Asset): (i: nat)
    ensures i < |Fields| && Fields[i] == a
  {
    match a
    case LKOH => 0
    case SBER => 1
  }

  /** Every asset is one of the fields. */
  lemma FieldsCoverAssets()
    ensures forall a: Asset :: a in Fields
  {
    forall a: Asset ensures a in Fields {
      assert Fields[FieldIndex(a)] == a;
    }
  }

  /** The quotation record: one price per field. */
  datatype AssetPrice = AssetPrice(lkoh: real, sber: real) {
    /** `getattr(prices, field)` */
    function Get(a: Asset): real
    {
      match a
      case LKOH => lkoh
      case SBER => sber
    }
  }

  /** Default value of each field of `AssetPrice`. */
  function DefaultPrice(a: Asset): real
  {
    match a
    case LKOH => 5896.0
    case SBER => 250.0
  }

  /** `AssetPrice(**kwargs)`: every field passed takes its value, every other its default. */
  function MakeAssetPrice(kwargs: map<Asset, real>): (p: AssetPrice)
    ensures forall a: Asset :: p.Get(a) == if a in kwargs then kwargs[a] else DefaultPrice(a)
  {
    AssetPrice(
      if LKOH in kwargs then kwargs[LKOH] else DefaultPrice(LKOH),
      if SBER in kwargs then kwargs[SBER] else DefaultPrice(SBER))
  }

  /** `AssetPrice()`: the default quotation. */
  const Default: AssetPrice := MakeAssetPrice(map[])

  /** One element of a history: a date and the quotations of that day. */
  datatype DatedPrice = DatedPrice(date: Date, prices: AssetPrice)

  // ---------------------------------------------------------------------------
  // The historical table

  /** 2023-09-10, the first date of the historical table. */
  const RealStart: Date := 738773

  /** The eight historical quotations, 2023-09-10 through 2023-09-17. */
  const RealTable: seq<DatedPrice> := [
    DatedPrice(738773, AssetPrice(6669.0, 255.0)),  // 2023-09-10
    DatedPrice(738774, AssetPrice(6456.0, 256.0)),  // 2023-09-11
    DatedPrice(738775, AssetPrice(6729.0, 262.0)),  // 2023-09-12
    DatedPrice(738776, AssetPrice(6610.0, 258.0)),  // 2023-09-13
    DatedPrice(738777, AssetPrice(6519.0, 260.0)),  // 2023-09-14
    DatedPrice(738778, AssetPrice(6553.0, 260.0)),  // 2023-09-15
    DatedPrice(738779, AssetPrice(6527.0, 260.0)),  // 2023-09-16
    DatedPrice(738780, AssetPrice(6566.0, 263.0))   // 2023-09-17
  ]

  // ---------------------------------------------------------------------------
  // Random multipliers

  /**
   * What the randomised history depends on: the multiplier range and the seed,
   * and `random(s, i)`, the i-th value that `random()` returns after `seed(s)`
   * (the generator itself is not modelled).
   */
  datatype ChaosParams = ChaosParams(lo: real, hi: real, seed: int, random: (int, nat) -> real)

  /** The default multiplier range, 0.5 to 1.5. */
  const DefaultLo: real := 0.5
  const DefaultHi: real := 1.5
  /** The seed the randomised history uses when none is given. */
  const DefaultSeed: int := 42

  /**
   * `uniform(lo, hi)`, computed as `lo + (hi - lo) * u` from the unit value
   * `u` that `random()` drew: within the range whenever `u` is in [0, 1].
   */
  function Uniform(lo: real, hi: real, u: real): (m: real)
    ensures lo <= hi && 0.0 <= u <= 1.0 ==> lo <= m <= hi
  {
    var width := hi - lo;
    assert lo <= hi && 0.0 <= u <= 1.0 ==> 0.0 <= width * u <= width by {
      if lo <= hi && 0.0 <= u <= 1.0 {
        assert width * u <= width * 1.0;
      }
    }
    lo + width * u
  }

  /** True when the generator's value at `pos` lies in the unit interval, as `random()` guarantees. */
  predicate UnitAt(p: ChaosParams, pos: nat)
  {
    0.0 <= p.random(p.seed, pos) <= 1.0
  }

  /** The multiplier drawn as the `pos`-th value of the instance's random stream. */
  function Multiplier(p: ChaosParams, pos: nat): real
  {
    Uniform(p.lo, p.hi, p.random(p.seed, pos))
  }

  /**
   * The keyword arguments the comprehension over `fields` builds when its
   * first draw is the `pos`-th value of the stream: each field, in order,
   * draws one multiplier and is passed as default × multiplier unless that
   * multiplier is zero.
   */
  function ChaosKwArgs(fields: seq<Asset>, p: ChaosParams, pos: nat): map<Asset, real>
    decreases |fields|
  {
    if fields == [] then map[]
    else
      var last := |fields| - 1;
      var m := Multiplier(p, pos + last);
      var before := ChaosKwArgs(fields[..last], p, pos);
      if m != 0.0 then before[fields[last] := DefaultPrice(fields[last]) * m] else before
  }

  /** The quotation of a randomised day whose first draw is the `pos`-th value of the stream. */
  function ChaosPrices(p: ChaosParams, pos: nat): AssetPrice
  {
    MakeAssetPrice(ChaosKwArgs(Fields, p, pos))
  }

  /** No field occurs twice. */
  predicate Distinct(fields: seq<Asset>)
  {
    forall i, j :: 0 <= i < j < |fields| ==> fields[i] != fields[j]
  }

  /**
   * The i-th field draws the (pos + i)-th value, and is passed exactly when its
   * multiplier is nonzero, as default × multiplier; no other field is passed.
   */
  lemma {:induction false} ChaosKwArgsAt(fields: seq<Asset>, p: ChaosParams, pos: nat, i: nat)
    requires Distinct(fields) && i < |fields|
    ensures var kw := ChaosKwArgs(fields, p, pos); var m := Multiplier(p, pos + i);
      && (fields[i] in kw <==> m != 0.0)
      && (fields[i] in kw ==> kw[fields[i]] == DefaultPrice(fields[i]) * m)
    decreases |fields|
  {
    var last := |fields| - 1;
    var before := fields[..last];
    if i < last {
      ChaosKwArgsAt(before, p, pos, i);
      assert fields[i] == before[i] && fields[i] != fields[last];
    } else {
      ChaosKwArgsOnly(before, p, pos);
      assert fields[last] !in before by {
        forall j | 0 <= j < |before| ensures before[j] != fields[last] {
          assert before[j] == fields[j];
        }
      }
    }
  }

  /** Only fields of `fields` are ever passed. */
  lemma {:induction false} ChaosKwArgsOnly(fields: seq<Asset>, p: ChaosParams, pos: nat)
    ensures forall a :: a in ChaosKwArgs(fields, p, pos) ==> a in fields
    decreases |fields|
  {
    if fields != [] {
      var last := |fields| - 1;
      ChaosKwArgsOnly(fields[..last], p, pos);
      assert forall a :: a in fields[..last] ==> a in fields;
    }
  }

  /**
   * On a randomised day each price is the DEFAULT price times its own
   * multiplier (LKOH draws first, SBER second), or the default price itself
   * when that multiplier is zero; no earlier day's price takes part.
   */
  lemma ChaosFieldPrice(p: ChaosParams, pos: nat, a: Asset)
    ensures var m := Multiplier(p, pos + FieldIndex(a));
      ChaosPrices(p, pos).Get(a) == if m != 0.0 then DefaultPrice(a) * m else DefaultPrice(a)
  {
    ChaosKwArgsAt(Fields, p, pos, FieldIndex(a));
  }

  /** A zero multiplier leaves the field at its default price for that day. */
  lemma ChaosZeroMultiplierKeepsDefault(p: ChaosParams, pos: nat, a: Asset)
    requires Multiplier(p, pos + FieldIndex(a)) == 0.0
    ensures ChaosPrices(p, pos).Get(a) == DefaultPrice(a)
  {
    ChaosFieldPrice(p, pos, a);
  }

  /**
   * With a positive range lo..hi, a randomised price lies between lo and hi
   * times the default; with the default range, between half and one and a half
   * times the default.
   */
  lemma ChaosPriceBounds(p: ChaosParams, pos: nat, a: Asset)
    requires 0.0 < p.lo <= p.hi && UnitAt(p, pos + FieldIndex(a))
    ensures p.lo * DefaultPrice(a) <= ChaosPrices(p, pos).Get(a) <= p.hi * DefaultPrice(a)
    ensures p.lo == DefaultLo && p.hi == DefaultHi ==>
      DefaultPrice(a) / 2.0 <= ChaosPrices(p, pos).Get(a) <= DefaultPrice(a) * 3.0 / 2.0
  {
    var m := Multiplier(p, pos + FieldIndex(a));
    ChaosFieldPrice(p, pos, a);
    var d := DefaultPrice(a);
    assert d > 0.0;
    assert p.lo * d <= m * d <= p.hi * d;
  }

  // ---------------------------------------------------------------------------
  // The three histories, as functions of the day index

  /**
   * What a history yields, independent of its mutable state: the historical
   * table, the default prices forever, or randomised prices.
   */
  datatype SourceSpec = RealSpec | ChillSpec | ChaosSpec(params: ChaosParams)

  /**
   * The element an iterator yields on day `day` (counted from 0) when the
   * instance's random stream has produced `drawn` values; `None` when the
   * history is exhausted. `today` is the wall-clock date read when iteration
   * starts.
   */
  function Entry(s: SourceSpec, today: Date, day: nat, drawn: nat): (r: Option<DatedPrice>)
    ensures r.None? <==> s.RealSpec? && day >= 8
  {
    match s
    case RealSpec => if day < |RealTable| then Some(RealTable[day]) else None
    case ChillSpec => Some(DatedPrice(today + day, Default))
    case ChaosSpec(p) => Some(DatedPrice(today + day, ChaosDay(p, day, drawn)))
  }

  /**
   * The randomised quotation of day `day` when the stream has produced `pos`
   * values: the default prices on day 0, drawn prices on every later day.
   */
  function ChaosDay(p: ChaosParams, day: nat, pos: nat): AssetPrice
  {
    if day == 0 then Default else ChaosPrices(p, pos)
  }

  /**
   * How many random values producing day `day` consumes: one per field, so two,
   * on every randomised day after the first.
   */
  function Draws(s: SourceSpec, day: nat): nat
  {
    if s.ChaosSpec? && day > 0 then 2 else 0
  }

  /** The day index after pulling one element: it stays put once the history is exhausted. */
  function NextDayIndex(s: SourceSpec, today: Date, day: nat, drawn: nat): nat
  {
    if Entry(s, today, day, drawn).Some? then day + 1 else day
  }

  /** The next `k` results of `next()` on an iterator at day `day` whose stream has produced `drawn` values. */
  function Run(s: SourceSpec, today: Date, day: nat, drawn: nat, k: nat): (r: seq<Option<DatedPrice>>)
    ensures |r| == k
    decreases k
  {
    if k == 0 then []
    else [Entry(s, today, day, drawn)]
         + Run(s, today, NextDayIndex(s, today, day, drawn), drawn + Draws(s, day), k - 1)
  }

  /** Where an iterator at day `day`, whose stream has produced `drawn` values, stands after `k` pulls. */
  function After(s: SourceSpec, today: Date, day: nat, drawn: nat, k: nat): (nat, nat)
    decreases k
  {
    if k == 0 then (day, drawn)
    else After(s, today, NextDayIndex(s, today, day, drawn), drawn + Draws(s, day), k - 1)
  }

  /**
   * A randomised iteration never ends, and consumes two values of the
   * stream on every day it yields except day 0.
   */
  lemma {:induction false} ChaosAfter(p: ChaosParams, today: Date, day: nat, drawn: nat, k: nat)
    ensures After(ChaosSpec(p), today, day, drawn, k)
         == (day + k, drawn + 2 * (if day == 0 && k > 0 then k - 1 else k))
    decreases k
  {
    if k > 0 {
      var s := ChaosSpec(p);
      ChaosAfter(p, today, day + 1, drawn + Draws(s, day), k - 1);
    }
  }

  /** A run starts with the day's entry and goes on with the run from the next position. */
  lemma RunStep(s: SourceSpec, today: Date, day: nat, drawn: nat, k: nat, i: nat)
    requires i < k
    ensures Run(s, today, day, drawn, k)[i] ==
      if i == 0 then Entry(s, today, day, drawn)
      else Run(s, today, NextDayIndex(s, today, day, drawn), drawn + Draws(s, day), k - 1)[i - 1]
  {
  }

  /**
   * The historical history yields the table's entries, dated 2023-09-10
   * onwards one day apart, and after the eighth only end-of-data, whatever
   * the date or the stream.
   */
  lemma {:induction false} RealRun(today: Date, day: nat, drawn: nat, k: nat, i: nat)
    requires day <= |RealTable| && i < k
    ensures |RealTable| == 8
    ensures Run(RealSpec, today, day, drawn, k)[i] ==
      if day + i < 8 then Some(DatedPrice(RealStart + day + i, RealTable[day + i].prices)) else None
    decreases k
  {
    RunStep(RealSpec, today, day, drawn, k, i);
    if i > 0 {
      RealRun(today, NextDayIndex(RealSpec, today, day, drawn), drawn, k - 1, i - 1);
    }
  }

  /** The stationary history yields the default prices on every day, dated `today + n` on day n. */
  lemma {:induction false} ChillRun(today: Date, day: nat, drawn: nat, k: nat, i: nat)
    requires i < k
    ensures Run(ChillSpec, today, day, drawn, k)[i] == Some(DatedPrice(today + day + i, Default))
    decreases k
  {
    RunStep(ChillSpec, today, day, drawn, k, i);
    if i > 0 {
      ChillRun(today, day + 1, drawn, k - 1, i - 1);
    }
  }

  /**
   * Where the randomised day `day + i` takes its multipliers from when the
   * iterator is at day `day` and its stream has produced `drawn` values.
   */
  function ChaosDrawPos(day: nat, drawn: nat, i: nat): nat
  {
    drawn + 2 * (if day == 0 && i > 0 then i - 1 else i)
  }

  /**
   * The randomised history dates day n as `today + n`, yields the default
   * prices on day 0, and on each later day the prices scaled by the next
   * two values of the stream; it never ends.
   */
  lemma {:induction false} ChaosRun(p: ChaosParams, today: Date, day: nat, drawn: nat, k: nat, i: nat)
    requires i < k
    ensures Run(ChaosSpec(p), today, day, drawn, k)[i] ==
      Some(DatedPrice(today + day + i, ChaosDay(p, day + i, ChaosDrawPos(day, drawn, i))))
    decreases k
  {
    var s := ChaosSpec(p);
    RunStep(s, today, day, drawn, k, i);
    if i == 0 {
      assert ChaosDrawPos(day, drawn, 0) == drawn;
    } else {
      assert NextDayIndex(s, today, day, drawn) == day + 1;
      var drawn' := drawn + Draws(s, day);
      var pos := ChaosDrawPos(day, drawn, i);
      assert ChaosDrawPos(day + 1, drawn', i - 1) == pos;
      ChaosRun(p, today, day + 1, drawn', k - 1, i - 1);
    }
  }

  /**
   * A new iteration of the historical or the stationary history starts afresh:
   * it yields what the previous one yielded, whatever the random stream did in
   * between (for the stationary one, provided the wall-clock date is the same).
   */
  lemma RestartedRunsAgree(s: SourceSpec, today1: Date, today2: Date, drawn1: nat, drawn2: nat, k: nat)
    requires s.RealSpec? || (s.ChillSpec? && today1 == today2)
    ensures Run(s, today1, 0, drawn1, k) == Run(s, today2, 0, drawn2, k)
  {
    forall i | 0 <= i < k
      ensures Run(s, today1, 0, drawn1, k)[i] == Run(s, today2, 0, drawn2, k)[i]
    {
      if s.RealSpec? {
        RealRun(today1, 0, drawn1, k, i);
        RealRun(today2, 0, drawn2, k, i);
      } else {
        ChillRun(today1, 0, drawn1, k, i);
        ChillRun(today2, 0, drawn2, k, i);
      }
    }
  }

  // ---------------------------------------------------------------------------
  // Histories as objects, and their iterators

  /** `ChaosAssetPriceHistory`: its `Random`, seeded once at construction, advances with every draw. */
  class ChaosAssetPriceHistory {
    const lo: real
    const hi: real
    const seed: int
    /** random(s, i): the i-th value `random()` returns after `seed(s)`. */
    const random: (int, nat) -> real
    /** How many values this instance's `Random` has produced so far. */
    var drawn: nat

    function Params(): ChaosParams
    {
      ChaosParams(lo, hi, seed, random)
    }

    /** A fresh instance, its generator seeded with `seed` and nothing drawn yet. */
    constructor (lo: real, hi: real, seed: int, random: (int, nat) -> real)
      ensures Params() == ChaosParams(lo, hi, seed, random)
      ensures drawn == 0
    {
      this.lo, this.hi, this.seed, this.random := lo, hi, seed, random;
      drawn := 0;
    }

    /** An instance with the declared defaults: the range 0.5..1.5 and seed 42. */
    constructor Standard(random: (int, nat) -> real)
      ensures Params() == ChaosParams(DefaultLo, DefaultHi, DefaultSeed, random)
      ensures drawn == 0
    {
      lo, hi, seed, this.random := DefaultLo, DefaultHi, DefaultSeed, random;
      drawn := 0;
    }

    /** `Decimal(self.random.uniform(lo, hi))`: the next multiplier of the stream. */
    method DrawMultiplier() returns (m: real)
      modifies this
      ensures m == Multiplier(Params(), old(drawn))
      ensures drawn == old(drawn) + 1
    {
      m := Uniform(lo, hi, random(seed, drawn));
      drawn := drawn + 1;
    }

    /** The quotation of a randomised day after the first: one draw per field, in field order. */
    method DrawPrices() returns (prices: AssetPrice)
      modifies this
      ensures prices == ChaosPrices(Params(), old(drawn))
      ensures drawn == old(drawn) + |Fields|
    {
      var kwargs: map<Asset, real> := map[];
      for i := 0 to |Fields|
        invariant drawn == old(drawn) + i
        invariant kwargs == ChaosKwArgs(Fields[..i], Params(), old(drawn))
      {
        var field := Fields[i];
        var m := DrawMultiplier();
        if m != 0.0 {
          kwargs := kwargs[field := DefaultPrice(field) * m];
        }
        assert Fields[..i + 1][..i] == Fields[..i];
      }
      assert Fields[..|Fields|] == Fields;
      prices := MakeAssetPrice(kwargs);
    }
  }

  /** A price history: the historical table, the stationary one, or a randomised instance. */
  datatype AssetPriceHistory = Real | Chill | Chaos(source: ChaosAssetPriceHistory) {
    /** What this history yields, apart from its stream position. */
    function Spec(): SourceSpec
    {
      match this
      case Real => RealSpec
      case Chill => ChillSpec
      case Chaos(c) => ChaosSpec(c.Params())
    }

    /** The objects iterating this history may change: the randomised instance's generator. */
    function Objects(): set<object>
    {
      if Chaos? then {source} else {}
    }

    /** How many values the history's generator has produced so far (none for the deterministic ones). */
    function Drawn(): nat
      reads Objects()
    {
      if Chaos? then source.drawn else 0
    }
  }

  /**
   * The generator object `iter(history)`: it remembers the day it is at, and
   * for the randomised history shares the instance's generator with every
   * other iterator of that instance.
   */
  class DayIterator {
    const history: AssetPriceHistory
    /** `date.today()`, read when iteration starts; the historical table ignores it. */
    const today: Date
    var day: nat

    constructor (history: AssetPriceHistory, today: Date)
      ensures this.history == history && this.today == today && day == 0
    {
      this.history, this.today := history, today;
      day := 0;
    }

    /** `next(iterator)`; `None` stands for `StopIteration`. */
    method Next() returns (r: Option<DatedPrice>)
      modifies this, history.Objects()
      ensures r == Entry(history.Spec(), today, old(day), old(history.Drawn()))
      ensures day == NextDayIndex(history.Spec(), today, old(day), old(history.Drawn()))
      ensures history.Drawn() == old(history.Drawn()) + Draws(history.Spec(), old(day))
    {
      match history
      case Real =>
        if day < |RealTable| {
          r := Some(RealTable[day]);
          day := day + 1;
        } else {
          r := None;
        }
      case Chill =>
        r := Some(DatedPrice(today + day, Default));
        day := day + 1;
      case Chaos(c) =>
        var prices := Default;
        if day > 0 {
          prices := c.DrawPrices();
        }
        r := Some(DatedPrice(today + day, prices));
        day := day + 1;
    }

    /** Pulls `k` elements, collecting what each `next()` returned. */
    method Take(k: nat) returns (out: seq<Option<DatedPrice>>)
      modifies this, history.Objects()
      ensures out == Run(history.Spec(), today, old(day), old(history.Drawn()), k)
      ensures (day, history.Drawn()) == After(history.Spec(), today, old(day), old(history.Drawn()), k)
    {
      var s := history.Spec();
      out := [];
      for i := 0 to k
        invariant out + Run(s, today, day, history.Drawn(), k - i)
               == Run(s, today, old(day), old(history.Drawn()), k)
        invariant After(s, today, day, history.Drawn(), k - i)
               == After(s, today, old(day), old(history.Drawn()), k)
      {
        ghost var rest := Run(s, today, day, history.Drawn(), k - i);
        var e := Next();
        out := out + [e];
        assert rest == [e] + Run(s, today, day, history.Drawn(), k - i - 1);
      }
    }
  }

  /**
   * Two fresh randomised instances with the same range, seed and generator
   * yield the same days, because the stream is seeded per instance.
   */
  method SameSeedSameDays(lo: real, hi: real, seed: int, random: (int, nat) -> real, today: Date, k: nat)
    returns (first: seq<Option<DatedPrice>>, second: seq<Option<DatedPrice>>)
    ensures first == second
    ensures first == Run(ChaosSpec(ChaosParams(lo, hi, seed, random)), today, 0, 0, k)
  {
    var a := new ChaosAssetPriceHistory(lo, hi, seed, random);
    var b := new ChaosAssetPriceHistory(lo, hi, seed, random);
    var ia := new DayIterator(Chaos(a), today);
    var ib := new DayIterator(Chaos(b), today);
    first := ia.Take(k);
    second := ib.Take(k);
  }

  /**
   * Iterating one randomised instance a second time does not restart its
   * stream: the second iteration's days are scaled by the values after those
   * the first one used.
   */
  method IterateTwice(h: ChaosAssetPriceHistory, today: Date, k1: nat, k2: nat)
    returns (first: seq<Option<DatedPrice>>, second: seq<Option<DatedPrice>>)
    modifies h
    ensures first == Run(ChaosSpec(h.Params()), today, 0, old(h.drawn), k1)
    ensures second == Run(ChaosSpec(h.Params()), today, 0,
                          old(h.drawn) + (if k1 == 0 then 0 else 2 * (k1 - 1)), k2)
  {
    var it1 := new DayIterator(Chaos(h), today);
    first := it1.Take(k1);
    ChaosAfter(h.Params(), today, 0, old(h.drawn), k1);
    assert h.drawn == old(h.drawn) + (if k1 == 0 then 0 else 2 * (k1 - 1)) by {
      assert Chaos(h).Drawn() == h.drawn && Chaos(h).Spec() == ChaosSpec(h.Params());
    }
    var it2 := new DayIterator(Chaos(h), today);
    second := it2.Take(k2);
  }
}
