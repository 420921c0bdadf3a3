/** Entry search, first-touch exit and equity curve of vectorized-backtester.js, with transaction-cost-model.js. */
module Backtest {
  import opened Prelude
  import opened Statistics
  import opened Rounding
  import opened Drawdown

  // ----- entry -----

  ghost predicate StrictlyIncreasing(ts: seq<real>) { forall i, j :: 0 <= i < j < |ts| ==> ts[i] < ts[j] }

  /** r is the first index whose time is not before the target, or -1 when there is none. */
  ghost predicate FirstAtOrAfter(ts: seq<real>, target: real, r: int) {
    if r == -1 then forall k :: 0 <= k < |ts| ==> ts[k] < target
    else 0 <= r < |ts| && ts[r] >= target && forall k :: 0 <= k < r ==> ts[k] < target
  }

  function Shifted(r: int, offset: int, n: nat): int {
    if r == -1 then -1 else if r + offset < n then r + offset else -1
  }

  method FindEntryIndex(ts: seq<real>, target: real, offset: int) returns (index: int)
    ensures Ascending(ts) ==> exists r :: FirstAtOrAfter(ts, target, r) && index == Shifted(r, offset, |ts|)
    ensures index < |ts| && (offset >= 0 ==> -1 <= index)
  {
    var left, right, result := 0, |ts| - 1, -1;
    while left <= right
      invariant 0 <= left <= right + 1 <= |ts|
      invariant if result == -1 then right == |ts| - 1 else result == right + 1 < |ts| && ts[result] >= target
      invariant Ascending(ts) ==> forall k :: 0 <= k < left ==> ts[k] < target
    {
      var mid := (left + right) / 2;
      if ts[mid] >= target {
        result := mid;
        right := mid - 1;
      } else {
        left := mid + 1;
      }
    }
    assert Ascending(ts) ==> FirstAtOrAfter(ts, target, result);
    index := Shifted(result, offset, |ts|);
  }

  /**
   * With distinct times and the default offset the trade enters on a bar strictly after its signal, skipping at most
   * one bar.
   */
  lemma EntryIsAfterSignal(ts: seq<real>, target: real, r: int)
    requires StrictlyIncreasing(ts) && FirstAtOrAfter(ts, target, r)
    ensures var e := Shifted(r, 1, |ts|);
      if e == -1 then forall k :: 0 <= k < |ts| - 1 ==> ts[k] < target
      else 0 < e < |ts| && ts[e] > target && forall k :: 0 <= k < e - 1 ==> ts[k] < target
  {
  }

  // ----- bars and exit prices -----

  datatype Direction = Long | Short

  function Opposite(d: Direction): Direction { if d == Long then Short else Long }

  /** A bar with whatever finite fields it carries; `Gap` stands for an absent bar. */
  datatype Bar =
    | Gap
    | Bar(open: Option<real>, high: Option<real>, low: Option<real>, close: Option<real>, price: Option<real>)

  datatype Reason = TakeProfit | StopLoss | Timeout | NoData
  datatype Exit = Exit(price: real, reason: Reason)

  /** `pipPrecisionForPair` gives a positive constant. */
  type Pip = p: real | p > 0.0 witness 0.0001

  datatype Levels = Levels(takeProfit: Option<real>, stopLoss: Option<real>, pip: Pip)

  /** The price a bar stands for: its open, else its close, else its price field. */
  function PriceOf(b: Bar): Option<real> {
    if b.Gap? then None
    else if b.open.Some? then b.open
    else if b.close.Some? then b.close
    else b.price
  }

  function TakeProfitPrice(d: Direction, entry: real, l: Levels): real
    requires l.takeProfit.Some?
  {
    entry + (if d == Long then l.takeProfit.value else -l.takeProfit.value) * l.pip
  }

  function StopLossPrice(d: Direction, entry: real, l: Levels): real
    requires l.stopLoss.Some?
  {
    entry - (if d == Long then l.stopLoss.value else -l.stopLoss.value) * l.pip
  }

  predicate TouchesProfit(d: Direction, entry: real, b: Bar, l: Levels) {
    b.Bar? && l.takeProfit.Some? &&
    if d == Long then Or(b.high, entry) >= TakeProfitPrice(d, entry, l)
    else Or(b.low, entry) <= TakeProfitPrice(d, entry, l)
  }

  predicate TouchesStop(d: Direction, entry: real, b: Bar, l: Levels) {
    b.Bar? && l.stopLoss.Some? &&
    if d == Long then Or(b.low, entry) <= StopLossPrice(d, entry, l)
    else Or(b.high, entry) >= StopLossPrice(d, entry, l)
  }

  predicate Touches(d: Direction, entry: real, b: Bar, l: Levels) {
    TouchesProfit(d, entry, b, l) || TouchesStop(d, entry, b, l)
  }

  function DetermineExit(d: Direction, entry: real, b: Bar, l: Levels): Exit {
    if b.Gap? then Exit(entry, NoData)
    else if TouchesProfit(d, entry, b, l) then Exit(TakeProfitPrice(d, entry, l), TakeProfit)
    else if TouchesStop(d, entry, b, l) then Exit(StopLossPrice(d, entry, l), StopLoss)
    else Exit(Or(PriceOf(b), entry), Timeout)
  }

  // ----- the exit in raw prices -----

  /** How far the bar moves in the trade's favour from the entry; a missing extreme is no move. */
  function Gain(d: Direction, entry: real, b: Bar): real
    requires b.Bar?
  {
    match (d, if d == Long then b.high else b.low)
    case (_, None) => 0.0
    case (Long, Some(high)) => high - entry
    case (Short, Some(low)) => entry - low
  }

  /** How far it moves against the trade. */
  function Loss(d: Direction, entry: real, b: Bar): real
    requires b.Bar?
  {
    match (d, if d == Long then b.low else b.high)
    case (_, None) => 0.0
    case (Long, Some(low)) => entry - low
    case (Short, Some(high)) => high - entry
  }

  function InPrice(pips: real, pip: Pip): real { pips * pip }

  ghost predicate ReachesProfit(d: Direction, entry: real, b: Bar, l: Levels) {
    b.Bar? && l.takeProfit.Some? && Gain(d, entry, b) >= InPrice(l.takeProfit.value, l.pip)
  }

  ghost predicate ReachesStop(d: Direction, entry: real, b: Bar, l: Levels) {
    b.Bar? && l.stopLoss.Some? && Loss(d, entry, b) >= InPrice(l.stopLoss.value, l.pip)
  }

  ghost predicate Reaches(d: Direction, entry: real, b: Bar, l: Levels) {
    ReachesProfit(d, entry, b, l) || ReachesStop(d, entry, b, l)
  }

  /** `move` against a long is a gain of a short. */
  function Away(d: Direction, entry: real, move: real): real { if d == Long then entry + move else entry - move }

  /**
   * What the bar that decides makes of the trade: it takes the profit if it reaches that price, whatever else it
   * reaches; is stopped if it reaches the stop and not the profit; and else leaves at the open, the close or the price
   * of the bar, whichever comes first, or at the entry.
   */
  ghost predicate EndsAs(d: Direction, entry: real, b: Bar, l: Levels, x: Exit) {
    && (x.reason == NoData <==> b.Gap?)
    && (x.reason == TakeProfit <==> ReachesProfit(d, entry, b, l))
    && (x.reason == StopLoss <==> ReachesStop(d, entry, b, l) && !ReachesProfit(d, entry, b, l))
    && (x.reason == NoData ==> x.price == entry)
    && (x.reason == TakeProfit ==> x.price == Away(d, entry, InPrice(l.takeProfit.value, l.pip)))
    && (x.reason == StopLoss ==> x.price == Away(d, entry, -InPrice(l.stopLoss.value, l.pip)))
    && (x.reason == Timeout ==> b.Bar? && x.price == Or(b.open, Or(b.close, Or(b.price, entry))))
  }

  lemma Negated(t: real, pip: Pip)
    ensures (-t) * pip == -InPrice(t, pip)
  {
  }

  lemma LevelsInPrices(d: Direction, entry: real, l: Levels)
    ensures l.takeProfit.Some? ==> TakeProfitPrice(d, entry, l) == Away(d, entry, InPrice(l.takeProfit.value, l.pip))
    ensures l.stopLoss.Some? ==> StopLossPrice(d, entry, l) == Away(d, entry, -InPrice(l.stopLoss.value, l.pip))
  {
    if l.takeProfit.Some? {
      Negated(l.takeProfit.value, l.pip);
    }
    if l.stopLoss.Some? {
      Negated(l.stopLoss.value, l.pip);
    }
  }

  lemma TouchesInPrices(d: Direction, entry: real, b: Bar, l: Levels)
    ensures TouchesProfit(d, entry, b, l) <==> ReachesProfit(d, entry, b, l)
    ensures TouchesStop(d, entry, b, l) <==> ReachesStop(d, entry, b, l)
    ensures Touches(d, entry, b, l) <==> Reaches(d, entry, b, l)
  {
    LevelsInPrices(d, entry, l);
    hide InPrice, TakeProfitPrice, StopLossPrice;
  }

  /** `determineExit` ends the trade as the raw prices say, and nothing else would. */
  lemma DetermineExitIsExact(d: Direction, entry: real, b: Bar, l: Levels, x: Exit)
    ensures EndsAs(d, entry, b, l, x) <==> x == DetermineExit(d, entry, b, l)
  {
    var y := DetermineExit(d, entry, b, l);
    DeterminedExitEnds(d, entry, b, l);
    hide DetermineExit;
    if EndsAs(d, entry, b, l, x) {
      EndIsUnique(d, entry, b, l, x, y);
    }
  }

  lemma DeterminedExitEnds(d: Direction, entry: real, b: Bar, l: Levels)
    ensures EndsAs(d, entry, b, l, DetermineExit(d, entry, b, l))
  {
    TouchesInPrices(d, entry, b, l);
    LevelsInPrices(d, entry, l);
    hide Gain, Loss, InPrice, TakeProfitPrice, StopLossPrice, Away;
  }

  lemma EndIsUnique(d: Direction, entry: real, b: Bar, l: Levels, x: Exit, y: Exit)
    requires EndsAs(d, entry, b, l, x) && EndsAs(d, entry, b, l, y)
    ensures x == y
  {
    hide ReachesProfit, ReachesStop, Away;
    assert x.reason == y.reason;
  }

  // ----- costs -----

  /** Spread, slippage and commission per trade; `override` is the pip precision forced on the cost model. */
  datatype Costs = Costs(
    spreadPips: real, slippagePips: real, commissionPerLot: real, lotSize: real, override: Option<real>)

  /** A quotient as JavaScript leaves it: a number, an infinity of either sign, or not a number. */
  datatype Quotient = Number(value: real) | Infinite | Undefined

  /** `options.pipPrecision || null`: an override of zero is none. */
  function CostPip(c: Costs, pip: Pip): (p: real)
    ensures p != 0.0
  {
    if c.override.Some? && c.override.value != 0.0 then c.override.value else pip
  }

  function PipWorth(c: Costs, pip: Pip, entry: real, units: real): real
    requires entry != 0.0
  {
    CostPip(c, pip) / entry * units
  }

  /** `(pipPrecision / entryPrice) * units`. */
  function PipValue(c: Costs, pip: Pip, entry: real, units: real): Quotient {
    if entry != 0.0 then Number(PipWorth(c, pip, entry, units))
    else if units == 0.0 then Undefined
    else Infinite
  }

  function CostSum(c: Costs, v: real, units: real): real
    requires c.lotSize != 0.0
  {
    c.spreadPips * v + c.slippagePips * v + c.commissionPerLot / c.lotSize * units
  }

  /**
   * The rounded total, or the `null` that rounding makes of a total that is not finite: any pip value or commission
   * that is not spoils it.
   */
  function TotalCost(c: Costs, pip: Pip, entry: real, units: real): Option<real> {
    if entry == 0.0 || c.lotSize == 0.0 then None
    else
      var v := PipWorth(c, pip, entry, units);
      Some(ToFixed(CostSum(c, v, units), 8))
  }

  /** `totalCost / pipValue`, in which a null total counts as zero; None when the quotient is not finite. */
  function CostInPips(total: Option<real>, pipValue: Quotient): Option<real> {
    match pipValue
    case Number(v) => if v == 0.0 then None else Some(Or(total, 0.0) / v)
    case Infinite => Some(0.0)
    case Undefined => None
  }

  // ----- one trade -----

  datatype Order = Order(direction: Direction, entryIndex: int, holdBars: int, levels: Levels, units: real)

  /** Figures before rounding: what the trade made; None where the figure is not finite. */
  datatype Outcome = Outcome(
    entryPrice: real, exit: Exit, grossPips: real, netPips: Option<real>, returnPct: Option<real>)

  datatype Trade = Trade(
    direction: Direction, entryIndex: int, exitIndex: int, entryPrice: real, exitPrice: real, reason: Reason,
    grossPips: real, netPips: Option<real>, returnPct: Option<real>)

  function FinalIndex(bars: seq<Bar>, o: Order): int { Min(|bars| - 1, o.entryIndex + Max(1, o.holdBars)) }

  function EntryPrice(bars: seq<Bar>, o: Order): Option<real> {
    if 0 <= o.entryIndex < |bars| then PriceOf(bars[o.entryIndex]) else None
  }

  function OutcomeAt(entry: real, x: Exit, o: Order, c: Costs): Outcome {
    var gross := Gross(o.direction, entry, x, o.levels.pip);
    var cost := CostInPips(TotalCost(c, o.levels.pip, entry, o.units), PipValue(c, o.levels.pip, entry, o.units));
    var net := if cost.Some? then Some(gross - cost.value) else None;
    Outcome(entry, x, gross, net, ReturnOf(net, o.levels.pip, entry))
  }

  /** `(netPips * pipPrecision) / entryPrice`. */
  function ReturnOf(net: Option<real>, pip: Pip, entry: real): Option<real> {
    if net.Some? && entry != 0.0 then Some(net.value * pip / entry) else None
  }

  function Gross(d: Direction, entry: real, x: Exit, pip: Pip): real {
    (if d == Long then x.price - entry else entry - x.price) / pip
  }

  /**
   * Where the costs divide by zero: without a lot size or at a zero price they silently vanish from the net pips, and
   * the return is lost exactly when the price or the position is zero.
   */
  lemma WhenFiguresAreLost(entry: real, x: Exit, o: Order, c: Costs)
    ensures var r := OutcomeAt(entry, x, o, c);
      && (r.netPips == None <==> o.units == 0.0)
      && (r.returnPct == None <==> o.units == 0.0 || entry == 0.0)
      && (o.units != 0.0 && (entry == 0.0 || c.lotSize == 0.0) ==> r.netPips == Some(r.grossPips))
  {
    if entry != 0.0 {
      ProductIsZeroIff(CostPip(c, o.levels.pip), entry, o.units);
    }
  }

  lemma ProductIsZeroIff(p: real, entry: real, units: real)
    requires p != 0.0 && entry != 0.0
    ensures p / entry * units == 0.0 <==> units == 0.0
  {
    var q := p / entry;
    assert q * entry == p;
    assert q != 0.0;
  }

  /** `toFixedNumber` of a figure that may not be finite. */
  function Figure(x: Option<real>, d: nat): Option<real> { if x.Some? then Some(ToFixed(x.value, d)) else None }

  function TradeOf(o: Order, finalIndex: int, r: Outcome): Trade {
    Trade(o.direction, o.entryIndex, finalIndex, ToFixed(r.entryPrice, 6), ToFixed(r.exit.price, 6), r.exit.reason,
          ToFixed(r.grossPips, 3), Figure(r.netPips, 3), Figure(r.returnPct, 6))
  }

  /** x is the exit the holding window prescribes: the first touching bar decides, else the last bar of the window. */
  ghost predicate FirstTouchExit(bars: seq<Bar>, o: Order, entry: real, x: Exit) {
    var last := FinalIndex(bars, o);
    if last <= o.entryIndex then x == Exit(entry, Timeout)
    else exists k ::
      o.entryIndex < k <= last && FirstStop(bars, o, entry, k) && EndsAs(o.direction, entry, bars[k], o.levels, x)
  }

  /** Bar k is the first of the window that touches a level, or the last bar when none does. */
  ghost predicate FirstStop(bars: seq<Bar>, o: Order, entry: real, k: int) {
    0 <= o.entryIndex < k < |bars|
    && (Reaches(o.direction, entry, bars[k], o.levels) || k == FinalIndex(bars, o))
    && forall j :: o.entryIndex < j < k ==> !Reaches(o.direction, entry, bars[j], o.levels)
  }

  lemma FirstStopUnique(bars: seq<Bar>, o: Order, entry: real, j: int, k: int)
    requires FirstStop(bars, o, entry, j) && FirstStop(bars, o, entry, k)
    requires j <= FinalIndex(bars, o) && k <= FinalIndex(bars, o)
    ensures j == k
  {
  }

  /** The window decides the exit: no two exits satisfy the prescription. */
  lemma ExitIsUnique(bars: seq<Bar>, o: Order, entry: real, x: Exit, y: Exit)
    requires FirstTouchExit(bars, o, entry, x) && FirstTouchExit(bars, o, entry, y)
    ensures x == y
  {
    hide EndsAs, Reaches;
    var last := FinalIndex(bars, o);
    if last > o.entryIndex {
      var j :| o.entryIndex < j <= last && FirstStop(bars, o, entry, j)
        && EndsAs(o.direction, entry, bars[j], o.levels, x);
      var k :| o.entryIndex < k <= last && FirstStop(bars, o, entry, k)
        && EndsAs(o.direction, entry, bars[k], o.levels, y);
      FirstStopUnique(bars, o, entry, j, k);
      DetermineExitIsExact(o.direction, entry, bars[k], o.levels, x);
      DetermineExitIsExact(o.direction, entry, bars[k], o.levels, y);
    }
  }

  method EvaluateTrade(bars: seq<Bar>, o: Order, c: Costs) returns (trade: Option<Trade>, ghost x: Exit)
    ensures trade.Some? <==> EntryPrice(bars, o).Some?
    ensures trade.Some? ==>
      var entry := EntryPrice(bars, o).value;
      FirstTouchExit(bars, o, entry, x) && trade.value == TradeOf(o, FinalIndex(bars, o), OutcomeAt(entry, x, o, c))
      && trade.value.reason == x.reason && trade.value.exitPrice == ToFixed(x.price, 6)
  {
    hide DetermineExit, ReachesProfit, ReachesStop, CostInPips, TotalCost, ReturnOf, ToFixed;
    x := Exit(0.0, NoData);
    if o.entryIndex < 0 || o.entryIndex >= |bars| {
      return None, x;
    }
    var resolved := PriceOf(bars[o.entryIndex]);
    if resolved == None {
      return None, x;
    }
    var entry := resolved.value;
    var finalIndex := Min(|bars| - 1, o.entryIndex + Max(1, o.holdBars));
    var exitPrice, exitReason := entry, Timeout;
    var idx := o.entryIndex + 1;
    while idx <= finalIndex
      invariant o.entryIndex < idx <= Max(finalIndex, o.entryIndex) + 1
      invariant idx == o.entryIndex + 1 ==> exitPrice == entry && exitReason == Timeout
      invariant forall j :: o.entryIndex < j < idx ==> !Reaches(o.direction, entry, bars[j], o.levels)
      invariant idx <= finalIndex || idx == o.entryIndex + 1
    {
      var step := DetermineExit(o.direction, entry, bars[idx], o.levels);
      exitPrice, exitReason := step.price, step.reason;
      DetermineExitIsExact(o.direction, entry, bars[idx], o.levels, step);
      if step.reason == TakeProfit || step.reason == StopLoss || idx == finalIndex {
        break;
      }
      idx := idx + 1;
    }
    var done := Exit(exitPrice, exitReason);
    x := done;
    if o.entryIndex < finalIndex {
      assert FirstStop(bars, o, entry, idx);
    }
    trade := Some(TradeOf(o, finalIndex, OutcomeAt(entry, done, o, c)));
  }

  /** The bar's extreme in the trade's favour is at or beyond the profit price. */
  ghost predicate AtProfitPrice(d: Direction, entry: real, b: Bar, l: Levels) {
    b.Bar? && l.takeProfit.Some? &&
    if d == Long then Or(b.high, entry) >= entry + l.takeProfit.value * l.pip
    else Or(b.low, entry) <= entry - l.takeProfit.value * l.pip
  }

  /** Its other extreme is at or beyond the stop price. */
  ghost predicate AtStopPrice(d: Direction, entry: real, b: Bar, l: Levels) {
    b.Bar? && l.stopLoss.Some? &&
    if d == Long then Or(b.low, entry) <= entry - l.stopLoss.value * l.pip
    else Or(b.high, entry) >= entry + l.stopLoss.value * l.pip
  }

  lemma ReachesInPrices(d: Direction, entry: real, b: Bar, l: Levels)
    ensures ReachesProfit(d, entry, b, l) <==> AtProfitPrice(d, entry, b, l)
    ensures ReachesStop(d, entry, b, l) <==> AtStopPrice(d, entry, b, l)
  {
  }

  /**
   * What ends a trade, in raw prices: on the first bar of the window that reaches either level, or on the last, the
   * profit is taken exactly when that bar reaches the profit price, the stop exactly when it reaches the stop price but
   * not the profit price, and otherwise the trade times out at the bar's open, else close, else price, else entry.
   */
  lemma EndsInRawPrices(bars: seq<Bar>, o: Order, entry: real, x: Exit) returns (k: int)
    requires 0 <= o.entryIndex < Min(|bars| - 1, o.entryIndex + Max(1, o.holdBars))
    requires FirstTouchExit(bars, o, entry, x)
    ensures o.entryIndex < k <= Min(|bars| - 1, o.entryIndex + Max(1, o.holdBars)) && k < |bars|
    ensures forall j :: o.entryIndex < j < k ==>
      !AtProfitPrice(o.direction, entry, bars[j], o.levels) && !AtStopPrice(o.direction, entry, bars[j], o.levels)
    ensures var up, down := AtProfitPrice(o.direction, entry, bars[k], o.levels),
                            AtStopPrice(o.direction, entry, bars[k], o.levels);
      && (k < Min(|bars| - 1, o.entryIndex + Max(1, o.holdBars)) ==> up || down)
      && (x.reason == TakeProfit <==> up) && (x.reason == StopLoss <==> down && !up)
      && (x.reason == Timeout <==> bars[k].Bar? && !up && !down)
      && (x.reason == Timeout ==> x.price == Or(bars[k].open, Or(bars[k].close, Or(bars[k].price, entry))))
  {
    hide ReachesProfit, ReachesStop, AtProfitPrice, AtStopPrice;
    k :| o.entryIndex < k <= FinalIndex(bars, o) && FirstStop(bars, o, entry, k)
      && EndsAs(o.direction, entry, bars[k], o.levels, x);
    forall j | o.entryIndex < j <= k
      ensures Reaches(o.direction, entry, bars[j], o.levels) <==>
        AtProfitPrice(o.direction, entry, bars[j], o.levels) || AtStopPrice(o.direction, entry, bars[j], o.levels)
    {
      ReachesInPrices(o.direction, entry, bars[j], o.levels);
    }
    ReachesInPrices(o.direction, entry, bars[k], o.levels);
    assert x.reason == Timeout ==> bars[k].Bar?;
  }

  // ----- what a trade costs -----

  function Product(a: real, b: real): real { a * b }

  lemma QuotientBack(a: real, b: real)
    requires b != 0.0
    ensures Product(a / b, b) == a
  {
  }

  /** Spread and slippage cost their pips, commission is per lot. */
  lemma CostsAddUp(c: Costs, v: real, units: real)
    requires c.lotSize != 0.0
    ensures CostSum(c, v, units) ==
      Product(c.spreadPips, v) + Product(c.slippagePips, v) + Product(c.commissionPerLot / c.lotSize, units)
  {
  }

  /**
   * Wherever nothing divides by zero: gross pips are the signed move; net pips fall short of them by the rounded costs,
   * once pips are turned into currency; the return is the net move over the entry price.
   */
  lemma NetIsGrossLessCosts(entry: real, x: Exit, o: Order, c: Costs)
    requires entry != 0.0 && c.lotSize != 0.0 && o.units != 0.0
    ensures var r := OutcomeAt(entry, x, o, c);
      && Product(r.grossPips, o.levels.pip) == (if o.direction == Long then x.price - entry else entry - x.price)
      && r.netPips.Some? && r.returnPct.Some?
      && Product(r.grossPips - r.netPips.value, PipWorth(c, o.levels.pip, entry, o.units))
        == ToFixed(CostSum(c, PipWorth(c, o.levels.pip, entry, o.units), o.units), 8)
      && Product(r.returnPct.value, entry) == Product(r.netPips.value, o.levels.pip)
    ensures PipWorth(c, o.levels.pip, entry, o.units) ==
      (if c.override == None || c.override.value == 0.0 then o.levels.pip else c.override.value) / entry * o.units
  {
    var pip := o.levels.pip;
    var v := PipWorth(c, pip, entry, o.units);
    var total := ToFixed(CostSum(c, v, o.units), 8);
    assert PipValue(c, pip, entry, o.units) == Number(v);
    ProductIsZeroIff(CostPip(c, pip), entry, o.units);
    assert TotalCost(c, pip, entry, o.units) == Some(total);
    hide TotalCost, PipValue, CostSum, ToFixed;
    assert CostInPips(Some(total), Number(v)) == Some(total / v);
    QuotientBack(total, v);
    QuotientBack(if o.direction == Long then x.price - entry else entry - x.price, pip);
    NetReturn(OutcomeAt(entry, x, o, c).netPips.value, pip, entry);
    hide CostInPips, Product, ReturnOf;
  }

  lemma NetReturn(net: real, pip: Pip, entry: real)
    requires entry != 0.0
    ensures ReturnOf(Some(net), pip, entry).Some?
    ensures Product(ReturnOf(Some(net), pip, entry).value, entry) == Product(net, pip)
  {
    QuotientBack(net * pip, entry);
  }

  /** The published figures are the exact ones rounded to their digits, six for prices and returns, three for pips. */
  lemma PublishedFigures(o: Order, finalIndex: int, r: Outcome)
    ensures var t := TradeOf(o, finalIndex, r);
      && t.exitIndex == finalIndex && t.entryIndex == o.entryIndex && t.direction == o.direction
      && t.reason == r.exit.reason
      && Close(t.entryPrice, r.entryPrice, 6) && Close(t.exitPrice, r.exit.price, 6)
      && Close(t.grossPips, r.grossPips, 3)
      && (t.netPips.Some? <==> r.netPips.Some?)
      && (t.netPips.Some? ==> Close(t.netPips.value, r.netPips.value, 3))
      && (t.returnPct.Some? <==> r.returnPct.Some?)
      && (t.returnPct.Some? ==> Close(t.returnPct.value, r.returnPct.value, 6))
  {
    hide ToFixed, Close;
    ToFixedIsClose(r.entryPrice, 6);
    ToFixedIsClose(r.exit.price, 6);
    ToFixedIsClose(r.grossPips, 3);
    if r.netPips.Some? {
      ToFixedIsClose(r.netPips.value, 3);
    }
    if r.returnPct.Some? {
      ToFixedIsClose(r.returnPct.value, 6);
    }
  }

  /** On the grid of d digits, at most half a unit away. */
  ghost predicate Close(g: real, x: real, d: nat) { OnGrid(g, d) && -1.0 < 2.0 * (Scaled(g, d) - Scaled(x, d)) <= 1.0 }

  lemma ToFixedIsClose(x: real, d: nat)
    ensures Close(ToFixed(x, d), x, d)
  {
    ToFixedWithin(x, d);
    GridOfRounded(x, d);
  }

  // ----- what a trade can make -----

  /** Low <= open, close, price <= high wherever the fields are present; missing extremes read as the entry price. */
  ghost predicate WellFormed(b: Bar, entry: real) {
    b.Bar? && PriceOf(b).Some? ==> Or(b.low, entry) <= PriceOf(b).value <= Or(b.high, entry)
  }

  ghost predicate WellFormedBars(bars: seq<Bar>, entry: real) {
    forall i :: 0 <= i < |bars| ==> WellFormed(bars[i], entry)
  }

  lemma PipsWithin(move: real, pip: real, lo: real, hi: real)
    requires pip > 0.0
    ensures lo * pip <= move <==> lo <= move / pip
    ensures move <= hi * pip <==> move / pip <= hi
  {
    var q := move / pip;
    assert q * pip == move;
  }

  /** Gross pips never leave [-stop, take], and reach an end exactly when that level closed the trade... */
  lemma GrossPipsWithinLevels(bars: seq<Bar>, o: Order, entry: real, x: Exit)
    requires WellFormedBars(bars, entry) && FirstTouchExit(bars, o, entry, x)
    requires 0 <= o.entryIndex
    requires o.levels.takeProfit.Some? ==> o.levels.takeProfit.value >= 0.0
    requires o.levels.stopLoss.Some? ==> o.levels.stopLoss.value >= 0.0
    ensures o.levels.takeProfit.Some? ==> Gross(o.direction, entry, x, o.levels.pip) <= o.levels.takeProfit.value
    ensures o.levels.stopLoss.Some? ==> -o.levels.stopLoss.value <= Gross(o.direction, entry, x, o.levels.pip)
    ensures x.reason == TakeProfit ==> o.levels.takeProfit == Some(Gross(o.direction, entry, x, o.levels.pip))
    ensures x.reason == StopLoss ==> o.levels.stopLoss == Some(-Gross(o.direction, entry, x, o.levels.pip))
  {
    hide TakeProfitPrice, StopLossPrice, Gross;
    var last := FinalIndex(bars, o);
    if last <= o.entryIndex {
      GrossOfExit(o.direction, entry, x, o.levels);
    } else {
      var k :| o.entryIndex < k <= last && FirstStop(bars, o, entry, k)
        && EndsAs(o.direction, entry, bars[k], o.levels, x);
      assert WellFormed(bars[k], entry);
      DetermineExitIsExact(o.direction, entry, bars[k], o.levels, x);
      hide EndsAs;
      GrossOfExit(o.direction, entry, x, o.levels);
    }
  }

  /** Comparing pips with the take-profit level is comparing prices with its level price. */
  lemma GrossAgainstProfit(d: Direction, entry: real, x: Exit, l: Levels)
    requires l.takeProfit.Some?
    ensures Gross(d, entry, x, l.pip) <= l.takeProfit.value <==>
      if d == Long then x.price <= TakeProfitPrice(d, entry, l) else x.price >= TakeProfitPrice(d, entry, l)
    ensures x.price == TakeProfitPrice(d, entry, l) ==> Gross(d, entry, x, l.pip) == l.takeProfit.value
  {
    var move, t := if d == Long then x.price - entry else entry - x.price, l.takeProfit.value;
    PipsWithin(move, l.pip, t, t);
    SignedLevel(t, l.pip);
  }

  lemma GrossAgainstStop(d: Direction, entry: real, x: Exit, l: Levels)
    requires l.stopLoss.Some?
    ensures -l.stopLoss.value <= Gross(d, entry, x, l.pip) <==>
      if d == Long then x.price >= StopLossPrice(d, entry, l) else x.price <= StopLossPrice(d, entry, l)
    ensures x.price == StopLossPrice(d, entry, l) ==> Gross(d, entry, x, l.pip) == -l.stopLoss.value
  {
    var move, t := if d == Long then x.price - entry else entry - x.price, l.stopLoss.value;
    PipsWithin(move, l.pip, -t, -t);
    SignedLevel(t, l.pip);
  }

  lemma GrossOfExit(d: Direction, entry: real, x: Exit, l: Levels)
    ensures l.takeProfit.Some? ==> (Gross(d, entry, x, l.pip) <= l.takeProfit.value <==>
      if d == Long then x.price <= TakeProfitPrice(d, entry, l) else x.price >= TakeProfitPrice(d, entry, l))
    ensures l.stopLoss.Some? ==> (-l.stopLoss.value <= Gross(d, entry, x, l.pip) <==>
      if d == Long then x.price >= StopLossPrice(d, entry, l) else x.price <= StopLossPrice(d, entry, l))
    ensures l.takeProfit.Some? && x.price == TakeProfitPrice(d, entry, l) ==>
      Gross(d, entry, x, l.pip) == l.takeProfit.value
    ensures l.stopLoss.Some? && x.price == StopLossPrice(d, entry, l) ==> Gross(d, entry, x, l.pip) == -l.stopLoss.value
    ensures x.price == entry ==> Gross(d, entry, x, l.pip) == 0.0
  {
    if x.price == entry {
      assert Gross(d, entry, x, l.pip) == 0.0;
    }
    hide Gross, TakeProfitPrice, StopLossPrice;
    if l.takeProfit.Some? {
      GrossAgainstProfit(d, entry, x, l);
    }
    if l.stopLoss.Some? {
      GrossAgainstStop(d, entry, x, l);
    }
  }

  lemma SignedLevel(t: real, pip: real)
    ensures (-t) * pip == -(t * pip)
  {
  }

  // ----- mirror image -----

  function MirrorPrice(e: real, p: Option<real>): Option<real> {
    if p.Some? then Some(e + e - p.value) else None
  }

  /** Prices reflected about e; the reflected high is the old low. */
  function MirrorBar(e: real, b: Bar): Bar {
    if b.Gap? then Gap
    else Bar(MirrorPrice(e, b.open), MirrorPrice(e, b.low),
      MirrorPrice(e, b.high), MirrorPrice(e, b.close), MirrorPrice(e, b.price))
  }

  function MirrorBars(e: real, bars: seq<Bar>): seq<Bar> {
    seq(|bars|, i requires 0 <= i < |bars| => MirrorBar(e, bars[i]))
  }

  function MirrorOrder(o: Order): Order { o.(direction := Opposite(o.direction)) }
  function MirrorExit(e: real, x: Exit): Exit { x.(price := e + e - x.price) }

  lemma MirrorLevels(d: Direction, e: real, l: Levels)
    ensures l.takeProfit.Some? ==> TakeProfitPrice(Opposite(d), e, l) == e + e - TakeProfitPrice(d, e, l)
    ensures l.stopLoss.Some? ==> StopLossPrice(Opposite(d), e, l) == e + e - StopLossPrice(d, e, l)
  {
    if l.takeProfit.Some? {
      var t := l.takeProfit.value;
      assert (-t) * l.pip == -(t * l.pip);
    }
    if l.stopLoss.Some? {
      var t := l.stopLoss.value;
      assert (-t) * l.pip == -(t * l.pip);
    }
  }

  lemma MirrorStep(d: Direction, e: real, b: Bar, l: Levels)
    ensures Touches(d, e, b, l) <==> Touches(Opposite(d), e, MirrorBar(e, b), l)
    ensures DetermineExit(Opposite(d), e, MirrorBar(e, b), l) == MirrorExit(e, DetermineExit(d, e, b, l))
  {
    hide TakeProfitPrice, StopLossPrice;
    MirrorLevels(d, e, l);
  }

  lemma MirrorKeepsExit(bars: seq<Bar>, o: Order, e: real, x: Exit)
    requires 0 <= o.entryIndex && FirstTouchExit(bars, o, e, x)
    ensures FirstTouchExit(MirrorBars(e, bars), MirrorOrder(o), e, MirrorExit(e, x))
  {
    hide Touches, DetermineExit, MirrorBar, Reaches, EndsAs;
    var bars', o', last := MirrorBars(e, bars), MirrorOrder(o), FinalIndex(bars, o);
    if o.entryIndex < last {
      var k :| o.entryIndex < k <= last && FirstStop(bars, o, e, k)
        && EndsAs(o.direction, e, bars[k], o.levels, x);
      forall j | 0 <= j < |bars|
        ensures Reaches(o.direction, e, bars[j], o.levels) <==> Reaches(o'.direction, e, bars'[j], o.levels)
      {
        MirrorStep(o.direction, e, bars[j], o.levels);
        TouchesInPrices(o.direction, e, bars[j], o.levels);
        TouchesInPrices(o'.direction, e, bars'[j], o.levels);
      }
      MirrorStep(o.direction, e, bars[k], o.levels);
      DetermineExitIsExact(o.direction, e, bars[k], o.levels, x);
      DetermineExitIsExact(o'.direction, e, bars'[k], o.levels, MirrorExit(e, x));
      assert FirstStop(bars', o', e, k);
    }
  }

  /** A short on the reflected market earns what the long earned: same gross, same costs, same net, same return. */
  lemma MirrorTradeEarnsTheSame(bars: seq<Bar>, o: Order, c: Costs, x: Exit)
    requires EntryPrice(bars, o).Some?
    requires FirstTouchExit(bars, o, EntryPrice(bars, o).value, x)
    ensures var e := EntryPrice(bars, o).value;
      var bars', o', x' := MirrorBars(e, bars), MirrorOrder(o), MirrorExit(e, x);
      && EntryPrice(bars', o') == Some(e)
      && FirstTouchExit(bars', o', e, x')
      && OutcomeAt(e, x', o', c) == OutcomeAt(e, x, o, c).(exit := x')
  {
    hide TotalCost, PipValue, FirstTouchExit;
    var e := EntryPrice(bars, o).value;
    MirrorKeepsExit(bars, o, e, x);
    MirrorEarns(e, x, o, c);
  }

  lemma MirrorEarns(e: real, x: Exit, o: Order, c: Costs)
    ensures OutcomeAt(e, MirrorExit(e, x), MirrorOrder(o), c) == OutcomeAt(e, x, o, c).(exit := MirrorExit(e, x))
  {
    hide TotalCost, PipValue, CostInPips, ReturnOf;
    var long, short := MirrorExit(e, x).price - e, e - MirrorExit(e, x).price;
    assert long == e - x.price && short == x.price - e;
    assert Gross(Opposite(o.direction), e, MirrorExit(e, x), o.levels.pip) == Gross(o.direction, e, x, o.levels.pip);
  }

  // ----- a whole run -----

  ghost predicate ReturnsOnGrid(trades: seq<Trade>) {
    forall i :: 0 <= i < |trades| ==> OnGrid(Or(trades[i].returnPct, 0.0), 6)
  }

  /** `trade.returnPct ?? 0`. */
  function Returns(trades: seq<Trade>): seq<real> {
    seq(|trades|, i requires 0 <= i < |trades| => Or(trades[i].returnPct, 0.0))
  }

  lemma ZeroOnGrid(d: nat)
    ensures OnGrid(0.0, d)
  {
    assert GridPoint(0, d) == 0.0;
  }

  lemma {:induction false} TotalOnGrid(v: seq<real>, d: nat)
    requires forall i :: 0 <= i < |v| ==> OnGrid(v[i], d)
    ensures OnGrid(Total(v), d)
  {
    if v == [] {
      ZeroOnGrid(d);
    } else {
      hide OnGrid;
      TotalOnGrid(v[..|v| - 1], d);
      GridClosedUnderSum(Total(v[..|v| - 1]), v[|v| - 1], d);
    }
  }

  /** A signal after its fields were read; `direction` is None for anything but LONG and SHORT. */
  datatype Signal = Signal(
    direction: Option<Direction>, time: real, holdBars: Option<int>, takeProfit: Option<real>, stopLoss: Option<real>,
    units: Option<real>)

  datatype Settings = Settings(
    entryOffset: int, holdBars: int, takeProfit: Option<real>,
    stopLoss: Option<real>, units: real, pip: Pip, costs: Costs)

  function OrderFor(s: Signal, cfg: Settings, entryIndex: int): Order
    requires s.direction.Some?
  {
    Order(s.direction.value, entryIndex,
          if s.holdBars.Some? then Max(s.holdBars.value, 1) else cfg.holdBars,
          Levels(if s.takeProfit.Some? then s.takeProfit else cfg.takeProfit,
                 if s.stopLoss.Some? then s.stopLoss else cfg.stopLoss, cfg.pip),
          Or(s.units, cfg.units))
  }

  /** What a signal leaves open the settings decide; a holding time of its own is at least one bar. */
  lemma SignalGoesFirst(s: Signal, cfg: Settings, e: int)
    requires s.direction.Some?
    ensures var o := OrderFor(s, cfg, e);
      && Some(o.direction) == s.direction && o.entryIndex == e && o.levels.pip == cfg.pip
      && (s.takeProfit.Some? ==> o.levels.takeProfit == s.takeProfit)
      && (s.takeProfit.None? ==> o.levels.takeProfit == cfg.takeProfit)
      && (s.stopLoss.Some? ==> o.levels.stopLoss == s.stopLoss)
      && (s.stopLoss.None? ==> o.levels.stopLoss == cfg.stopLoss)
      && (s.units.Some? ==> Some(o.units) == s.units) && (s.units.None? ==> o.units == cfg.units)
      && (s.holdBars.None? ==> o.holdBars == cfg.holdBars)
      && (s.holdBars.Some? ==>
        o.holdBars >= 1 && (o.holdBars == s.holdBars.value || s.holdBars.value < o.holdBars == 1))
  {
  }

  /** e is what the entry search may answer for this signal; fully determined once the bar times are in order. */
  ghost predicate EntryFor(times: seq<real>, s: Signal, cfg: Settings, e: int) {
    Ascending(times) ==> exists r :: FirstAtOrAfter(times, s.time, r) && e == Shifted(r, cfg.entryOffset, |times|)
  }

  /** Signal s yields no trade, or exactly the trade its first-touch exit prescribes. */
  ghost predicate Yields(bars: seq<Bar>, times: seq<real>, cfg: Settings, s: Signal, t: Option<Trade>) {
    if s.direction == None then t == None
    else exists e, x :: EntryFor(times, s, cfg, e) && YieldsAt(bars, cfg, s, e, x, t)
  }

  ghost predicate YieldsAt(bars: seq<Bar>, cfg: Settings, s: Signal, e: int, x: Exit, t: Option<Trade>) {
    s.direction.Some? &&
    var o := OrderFor(s, cfg, e);
    if e == -1 || EntryPrice(bars, o) == None then t == None
    else
      var entry := EntryPrice(bars, o).value;
      FirstTouchExit(bars, o, entry, x) && t == Some(TradeOf(o, FinalIndex(bars, o), OutcomeAt(entry, x, o, cfg.costs)))
  }

  function Kept(ts: seq<Option<Trade>>): seq<Trade> {
    if ts == [] then []
    else Kept(ts[..|ts| - 1]) + (if ts[|ts| - 1].Some? then [ts[|ts| - 1].value] else [])
  }

  /** The trade of signal i stands behind exactly the trades of the signals before it. */
  lemma {:induction false} KeptInOrder(each: seq<Option<Trade>>, i: nat)
    requires i < |each| && each[i].Some?
    ensures |Kept(each[..i])| < |Kept(each)| && Kept(each)[|Kept(each[..i])|] == each[i].value
    ensures |Kept(each)| == |set k | 0 <= k < |each| && each[k].Some?|
  {
    KeptCounts(each);
    if i == |each| - 1 {
    } else {
      KeptInOrder(each[..|each| - 1], i);
      assert each[..|each| - 1][..i] == each[..i];
    }
  }

  lemma {:induction false} KeptCounts(each: seq<Option<Trade>>)
    ensures |Kept(each)| == |set k | 0 <= k < |each| && each[k].Some?|
  {
    var ks := set k | 0 <= k < |each| && each[k].Some?;
    if each == [] {
      assert ks == {};
    } else {
      var rest := each[..|each| - 1];
      KeptCounts(rest);
      assert ks == (set k | 0 <= k < |rest| && rest[k].Some?) + if each[|rest|].Some? then {|rest|} else {};
    }
  }

  /**
   * Trades come out in signal order, one at most per signal. The curve is published from an independently
   * kept and rounded running sum, yet is the exact cumulative sum of the trades' returns, so the drawdown of
   * the summary is measured on the very curve that is published.
   */
  method Run(bars: seq<Bar>, times: seq<real>, signals: seq<Signal>, cfg: Settings)
    returns (trades: seq<Trade>, equityCurve: seq<real>, maxDrawdownPct: real, ghost each: seq<Option<Trade>>)
    requires |times| == |bars|
    ensures bars == [] || signals == [] ==> trades == [] && equityCurve == []
    ensures bars != [] ==> |each| == |signals| && trades == Kept(each)
    ensures bars != [] ==> forall i :: 0 <= i < |signals| ==> Yields(bars, times, cfg, signals[i], each[i])
    ensures ReturnsOnGrid(trades) && IsCurveOf(equityCurve, Returns(trades))
    ensures maxDrawdownPct == ToFixed(AbsReal(WorstFall(equityCurve, |equityCurve|)) * 100.0, 3)
  {
    trades, equityCurve, each := [], [], [];
    hide Yields, OnGrid, ToFixed, ReturnsOnGrid, IsCurveOf, FirstTouchExit, WorstFall, Kept, Returns, Total;
    NoTrades();
    if |bars| == 0 || |signals| == 0 {
      maxDrawdownPct := 0.0;
      FlatSummary();
      return;
    }
    var cumulative := 0.0;
    for i := 0 to |signals|
      invariant |each| == i && trades == Kept(each)
      invariant forall k :: 0 <= k < i ==> Yields(bars, times, cfg, signals[k], each[k])
      invariant ReturnsOnGrid(trades) && IsCurveOf(equityCurve, Returns(trades))
      invariant cumulative == Total(Returns(trades))
    {
      var t: Option<Trade>;
      t := Execute(bars, times, signals[i], cfg);
      KeepOneMore(each, t);
      each := each + [t];
      if t.Some? {
        OneTradeMore(trades, equityCurve, t.value);
        trades := trades + [t.value];
        cumulative := cumulative + Or(t.value.returnPct, 0.0);
        equityCurve := equityCurve + [ToFixed(cumulative, 6)];
      }
    }
    var summed := CumulativeSum(Returns(trades));
    CurveIsUnique(summed, equityCurve, Returns(trades));
    var dd, peak, trough := MaxDrawdown(summed);
    maxDrawdownPct := ToFixed(AbsReal(dd) * 100.0, 3);
  }

  lemma NoTrades()
    ensures Kept([]) == []
    ensures ReturnsOnGrid([]) && IsCurveOf([], Returns([])) && Total(Returns([])) == 0.0
  {
    assert Returns([]) == [];
  }

  lemma KeepOneMore(each: seq<Option<Trade>>, t: Option<Trade>)
    ensures Kept(each + [t]) == Kept(each) + (if t.Some? then [t.value] else [])
  {
    assert (each + [t])[..|each|] == each;
  }

  lemma CurveIsUnique(a: seq<real>, b: seq<real>, v: seq<real>)
    requires IsCurveOf(a, v) && IsCurveOf(b, v)
    ensures a == b
  {
  }

  /** One trade more: its rounded running total is the exact total, which the curve goes on with. */
  lemma OneTradeMore(trades: seq<Trade>, curve: seq<real>, t: Trade)
    requires ReturnsOnGrid(trades) && IsCurveOf(curve, Returns(trades)) && OnGrid(Or(t.returnPct, 0.0), 6)
    ensures var total := Total(Returns(trades)) + Or(t.returnPct, 0.0);
      && ReturnsOnGrid(trades + [t]) && Total(Returns(trades + [t])) == total
      && IsCurveOf(curve + [ToFixed(total, 6)], Returns(trades + [t]))
  {
    hide OnGrid, ToFixed, IsCurveOf;
    var more, x := trades + [t], Or(t.returnPct, 0.0);
    assert Returns(more)[..|trades|] == Returns(trades) && Returns(more) == Returns(trades) + [x];
    TotalOnGrid(Returns(more), 6);
    FixedPointsAreGrid(Total(Returns(more)), 6);
    CurveExtends(curve, Returns(trades), x, Returns(more), curve + [Total(Returns(more))]);
  }

  lemma FlatSummary()
    ensures ToFixed(AbsReal(WorstFall([], 0)) * 100.0, 3) == 0.0
  {
    ZeroOnGrid(3);
    FixedPointsAreGrid(0.0, 3);
  }

  lemma CurveExtends(curve: seq<real>, v: seq<real>, x: real, v': seq<real>, curve': seq<real>)
    requires IsCurveOf(curve, v) && v' == v + [x] && curve' == curve + [Total(v')]
    ensures IsCurveOf(curve', v')
  {
    forall k | 0 <= k < |v'| ensures curve'[k] == Total(v'[..k + 1]) {
      if k < |v| {
        assert v'[..k + 1] == v[..k + 1];
      } else {
        assert v'[..k + 1] == v';
      }
    }
  }

  /** The body of the per-signal callback. */
  method Execute(bars: seq<Bar>, times: seq<real>, s: Signal, cfg: Settings) returns (t: Option<Trade>)
    requires |times| == |bars|
    ensures Yields(bars, times, cfg, s, t)
    ensures t.Some? ==> OnGrid(Or(t.value.returnPct, 0.0), 6)
  {
    if s.direction == None {
      return None;
    }
    var e := FindEntryIndex(times, s.time, cfg.entryOffset);
    if e == -1 {
      assert YieldsAt(bars, cfg, s, e, Exit(0.0, NoData), None);
      return None;
    }
    var hold := if s.holdBars.Some? then Max(s.holdBars.value, 1) else cfg.holdBars;
    var take := if s.takeProfit.Some? then s.takeProfit else cfg.takeProfit;
    var stop := if s.stopLoss.Some? then s.stopLoss else cfg.stopLoss;
    var units := if s.units.Some? then s.units.value else cfg.units;
    var o := Order(s.direction.value, e, hold, Levels(take, stop, cfg.pip), units);
    ghost var x;
    t, x := EvaluateTrade(bars, o, cfg.costs);
    assert YieldsAt(bars, cfg, s, e, x, t);
    if t.Some? {
      var r := OutcomeAt(EntryPrice(bars, o).value, x, o, cfg.costs).returnPct;
      if r.Some? {
        GridOfRounded(r.value, 6);
      } else {
        ZeroOnGrid(6);
      }
    }
  }

  lemma GridOfRounded(x: real, d: nat)
    ensures OnGrid(ToFixed(x, d), d)
  {
    assert ToFixed(x, d) == GridPoint(GridIndex(x, d), d);
  }
}
