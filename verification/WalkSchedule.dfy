/** The order walk's price ladder (`domain/order_walk.py`): ticks, rounding, and the prices a
    job walks from its start price to its worst price.

    Prices are integers in the smallest price unit. An unrounded ladder price is the exact
    fraction `num / den` with `den > 0`, so `p <= num / den` reads `p * den <= num`. */
module WalkSchedule {
  import opened Optionals
  import opened Arithmetic

  datatype Side = SellToOpen | BuyToClose

  datatype TickSchedule = TickSchedule(aboveTick: nat, belowTick: nat, cutoff: nat) {
    predicate Valid() { aboveTick > 0 && belowTick > 0 }

    /** `tick_at` for the fraction `num / den`. */
    function TickAt(num: int, den: int): nat {
      if num >= cutoff * den then aboveTick else belowTick
    }

    /** A positive price on the tick that applies at it. */
    predicate OnTick(price: int)
      requires Valid()
    {
      price > 0 && price % TickAt(price, 1) == 0
    }

    /** The cutoff lies on both ticks, as on every captured chain. */
    predicate Aligned()
      requires Valid()
    {
      cutoff % aboveTick == 0 && cutoff % belowTick == 0
    }
  }

  function FloorTick(num: int, den: int, tick: int): (r: int)
    requires den > 0 && tick > 0
  {
    assert den * tick > 0 by { MulPositive(den, tick); }
    (num / (den * tick)) * tick
  }

  function CeilTick(num: int, den: int, tick: int): (r: int)
    requires den > 0 && tick > 0
  {
    -FloorTick(-num, den, tick)
  }

  function RoundOn(num: int, den: int, tick: int, up: bool): int
    requires den > 0 && tick > 0
  {
    if up then CeilTick(num, den, tick) else FloorTick(num, den, tick)
  }

  /** `round_to_tick`: None is the source's ValueError. */
  function RoundToTick(num: int, den: int, ticks: TickSchedule, side: Side): Option<int>
    requires den > 0 && ticks.Valid()
  {
    var up := side.SellToOpen?;
    var first := RoundOn(num, den, ticks.TickAt(num, den), up);
    var rounded := if ticks.OnTick(first) then first
                   else RoundOn(num, den, ticks.TickAt(first, 1), up);
    if ticks.OnTick(rounded) then Some(rounded) else None
  }

  // ---- Arithmetic of one tick ------------------------------------------------------------

  lemma MulPositive(a: int, b: int)
    requires a > 0 && b > 0
    ensures a * b > 0
  { }

  lemma MulCancel(a: int, b: int, c: int)
    requires a * c < b * c && c > 0
    ensures a < b
  {
    if a >= b { MulMonotone(b, a, c); }
  }

  /** Division with remainder is unique. */
  lemma DivisionUnique(a: int, d: int, q: int, r: int)
    requires d > 0 && a == q * d + r && 0 <= r < d
    ensures a / d == q && a % d == r
  {
    var q', r' := a / d, a % d;
    assert a == d * q' + r';
    assert (q - q') * d == r' - r && (q' - q) * d == r - r';
    if q > q' { MulMonotone(1, q - q', d); }
    if q < q' { MulMonotone(1, q' - q, d); }
  }

  lemma Multiple(k: int, tick: int)
    requires tick > 0
    ensures (k * tick) % tick == 0
  {
    DivisionUnique(k * tick, tick, k, 0);
  }

  /** `FloorTick` is the greatest multiple of the tick not above `num / den`. */
  lemma FloorTickIs(num: int, den: int, tick: int)
    requires den > 0 && tick > 0
    ensures FloorTick(num, den, tick) % tick == 0
    ensures FloorTick(num, den, tick) * den <= num < (FloorTick(num, den, tick) + tick) * den
  {
    MulPositive(den, tick);
    var d := den * tick;
    var q := num / d;
    assert num == d * q + num % d;
    Multiple(q, tick);
    assert (q * tick) * den == d * q;
    assert (q * tick + tick) * den == d * q + d;
  }

  lemma FloorTickGreatest(num: int, den: int, tick: int, p: int)
    requires den > 0 && tick > 0 && p % tick == 0 && p * den <= num
    ensures p <= FloorTick(num, den, tick)
  {
    var f := FloorTick(num, den, tick);
    FloorTickIs(num, den, tick);
    MulCancel(p, f + tick, den);
    MultiplesApart(f, p, tick);
  }

  /** Two multiples of a tick less than one tick apart are not in order. */
  lemma MultiplesApart(f: int, p: int, tick: int)
    requires tick > 0 && f % tick == 0 && p % tick == 0 && p < f + tick
    ensures p <= f
  {
    var a, b := f / tick, p / tick;
    assert f == a * tick && p == b * tick;
    assert (a + 1) * tick == a * tick + tick;
    MulCancel(b, a + 1, tick);
    MulMonotone(b, a, tick);
  }

  lemma NegMultiple(p: int, tick: int)
    requires tick > 0
    ensures (-p) % tick == 0 <==> p % tick == 0
  {
    if p % tick == 0 { NegIsMultiple(p, tick); }
    if (-p) % tick == 0 { NegIsMultiple(-p, tick); }
  }

  lemma NegIsMultiple(p: int, tick: int)
    requires tick > 0 && p % tick == 0
    ensures (-p) % tick == 0
  {
    var k := p / tick;
    assert p == k * tick;
    assert -p == (-k) * tick;
    Multiple(-k, tick);
  }

  lemma CeilTickIs(num: int, den: int, tick: int)
    requires den > 0 && tick > 0
    ensures CeilTick(num, den, tick) % tick == 0
    ensures (CeilTick(num, den, tick) - tick) * den < num <= CeilTick(num, den, tick) * den
  {
    FloorTickIs(-num, den, tick);
    NegMultiple(FloorTick(-num, den, tick), tick);
  }

  lemma CeilTickLeast(num: int, den: int, tick: int, p: int)
    requires den > 0 && tick > 0 && p % tick == 0 && num <= p * den
    ensures CeilTick(num, den, tick) <= p
  {
    NegMultiple(p, tick);
    FloorTickGreatest(-num, den, tick, -p);
  }

  // ---- Rounding in the trader's favour ---------------------------------------------------

  /** Whatever the ticks, a rounded price is on a valid tick and never worse for the trader
      than the price it rounds: a buy rounds down and a sale rounds up. */
  lemma RoundToTickFavorsTrader(num: int, den: int, ticks: TickSchedule, side: Side)
    requires den > 0 && ticks.Valid()
    requires RoundToTick(num, den, ticks, side).Some?
    ensures var p := RoundToTick(num, den, ticks, side).value;
            ticks.OnTick(p) && (if side.BuyToClose? then p * den <= num else num <= p * den)
  {
    var first := RoundOn(num, den, ticks.TickAt(num, den), side.SellToOpen?);
    FloorTickIs(num, den, ticks.TickAt(num, den));
    CeilTickIs(num, den, ticks.TickAt(num, den));
    FloorTickIs(num, den, ticks.TickAt(first, 1));
    CeilTickIs(num, den, ticks.TickAt(first, 1));
  }

  lemma FloorNearest(num: int, den: int, ticks: TickSchedule, p: int)
    requires den > 0 && ticks.Valid() && ticks.Aligned() && ticks.OnTick(p) && p * den <= num
    ensures var r := FloorTick(num, den, ticks.TickAt(num, den)); p <= r && ticks.OnTick(r)
  {
    var tick := ticks.TickAt(num, den);
    FloorTickIs(num, den, tick);
    if num >= ticks.cutoff * den {
      FloorTickGreatest(num, den, tick, ticks.cutoff);
      if p >= ticks.cutoff { FloorTickGreatest(num, den, tick, p); }
    } else {
      MulCancel(p, ticks.cutoff, den);
      FloorTickGreatest(num, den, tick, p);
      MulCancel(FloorTick(num, den, tick), ticks.cutoff, den);
    }
  }

  lemma CeilNearestAbove(num: int, den: int, ticks: TickSchedule, p: int)
    requires den > 0 && ticks.Valid() && ticks.Aligned() && ticks.OnTick(p) && 0 < num <= p * den
    requires num >= ticks.cutoff * den
    ensures var r := CeilTick(num, den, ticks.aboveTick); r <= p && ticks.OnTick(r)
  {
    var c := CeilTick(num, den, ticks.aboveTick);
    CeilTickIs(num, den, ticks.aboveTick);
    MulCancel(0, c, den);
    NotBelow(ticks.cutoff, num, p, den);
    NotBelow(ticks.cutoff, num, c, den);
    CeilTickLeast(num, den, ticks.aboveTick, p);
  }

  lemma NotBelow(a: int, num: int, b: int, den: int)
    requires den > 0 && a * den <= num <= b * den
    ensures a <= b
  {
    assert (b + 1) * den == b * den + den;
    if b < a { MulMonotone(b + 1, a, den); }
  }

  lemma CeilNearestBelow(num: int, den: int, ticks: TickSchedule, p: int)
    requires den > 0 && ticks.Valid() && ticks.Aligned() && ticks.OnTick(p) && 0 < num <= p * den
    requires num < ticks.cutoff * den
    ensures var r := CeilTick(num, den, ticks.belowTick); r <= p && ticks.OnTick(r)
  {
    var c := CeilTick(num, den, ticks.belowTick);
    CeilTickIs(num, den, ticks.belowTick);
    MulCancel(0, c, den);
    CeilTickLeast(num, den, ticks.belowTick, ticks.cutoff);
    if p < ticks.cutoff { CeilTickLeast(num, den, ticks.belowTick, p); }
  }

  /** With aligned ticks, rounding a price at or beyond some valid price of the same side
      always succeeds, and gives the valid price nearest to it on the trader's side. */
  lemma RoundToTickNearest(num: int, den: int, ticks: TickSchedule, side: Side, p: int)
    requires den > 0 && ticks.Valid() && ticks.Aligned() && ticks.OnTick(p)
    requires if side.BuyToClose? then p * den <= num else 0 < num <= p * den
    ensures RoundToTick(num, den, ticks, side).Some?
    ensures var r := RoundToTick(num, den, ticks, side).value;
            if side.BuyToClose? then p <= r else r <= p
  {
    if side.BuyToClose? { FloorNearest(num, den, ticks, p); }
    else if num >= ticks.cutoff * den { CeilNearestAbove(num, den, ticks, p); }
    else { CeilNearestBelow(num, den, ticks, p); }
  }

  // ---- The ladder --------------------------------------------------------------------------

  /** The two endpoints a request may walk between. */
  predicate GoodEndpoints(start: int, worst: int, side: Side, ticks: TickSchedule)
    requires ticks.Valid()
  {
    && ticks.OnTick(start) && ticks.OnTick(worst)
    && (if side.SellToOpen? then worst <= start else start <= worst)
  }

  /** `p` is strictly further from the start than `q`, in the walk's direction. */
  predicate Further(p: int, q: int, side: Side) {
    if side.SellToOpen? then p < q else p > q
  }

  /** `p` lies between the start price and the worst price. */
  predicate Between(p: int, start: int, worst: int, side: Side) {
    if side.SellToOpen? then worst <= p <= start else start <= p <= worst
  }

  /** What a job may walk: distinct tick-valid prices from the start toward the worst. */
  predicate Ladder(prices: seq<int>, start: int, worst: int, side: Side, ticks: TickSchedule)
    requires ticks.Valid()
  {
    && prices != [] && prices[0] == start
    && (forall i :: 0 <= i < |prices| ==> ticks.OnTick(prices[i]) && Between(prices[i], start, worst, side))
    && (forall i, j :: 0 <= i < j < |prices| ==> Further(prices[j], prices[i], side))
  }

  /** The k-th unrounded ladder price lies between the endpoints. */
  lemma RawBetween(start: int, worst: int, k: nat, den: nat)
    requires k <= den && den > 0
    ensures var num := start * den + (worst - start) * k;
            if start <= worst then start * den <= num <= worst * den else worst * den <= num <= start * den
    ensures k == 0 ==> start * den + (worst - start) * k == start * den
  {
    if start <= worst {
      MulMonotone(k, den, worst - start);
      assert (worst - start) * den == worst * den - start * den;
    } else {
      MulMonotone(k, den, start - worst);
      assert (start - worst) * den == start * den - worst * den;
      assert (worst - start) * k == -((start - worst) * k);
    }
  }

  /** A tick-valid whole price rounds to itself. */
  lemma RoundOfValid(p: int, den: int, ticks: TickSchedule, side: Side)
    requires den > 0 && ticks.Valid() && ticks.OnTick(p)
    ensures RoundToTick(p * den, den, ticks, side) == Some(p)
  {
    if p >= ticks.cutoff { MulMonotone(ticks.cutoff, p, den); } else { MulMonotone(p + 1, ticks.cutoff, den); }
    var tick := ticks.TickAt(p * den, den);
    FloorOfMultiple(p, den, tick);
    NegMultiple(p, tick);
    FloorOfMultiple(-p, den, tick);
    assert -(p * den) == -p * den;
  }

  lemma FloorOfMultiple(p: int, den: int, tick: int)
    requires den > 0 && tick > 0 && p % tick == 0
    ensures FloorTick(p * den, den, tick) == p
  {
    MulPositive(den, tick);
    var k := p / tick;
    assert p == k * tick;
    assert p * den == k * (den * tick);
    DivisionUnique(p * den, den * tick, k, 0);
  }

  /** The price of the k-th of `den + 1` steps: on the line from start to worst, rounded in the
      trader's favor, not past the worst price, and the last one the worst price itself. */
  function StepPrice(start: nat, worst: nat, den: nat, k: nat, side: Side, ticks: TickSchedule): Option<nat>
    requires den > 0 && ticks.Valid()
  {
    if k == den then Some(worst)
    else
      var rounded := RoundToTick(start * den + (worst - start) * k, den, ticks, side);
      if rounded.None? then None else Some(NotPast(rounded.value, worst, side))
  }

  function NotPast(price: int, worst: nat, side: Side): nat {
    if Further(price, worst, side) || price < 0 then worst else price
  }

  /** `p` is the k-th step's price, and further than every earlier step's. */
  predicate IsStep(p: nat, start: nat, worst: nat, den: nat, k: nat, side: Side, ticks: TickSchedule)
    requires den > 0 && ticks.Valid()
  {
    && StepPrice(start, worst, den, k, side, ticks) == Some(p)
    && forall i :: 0 <= i < k ==>
         StepPrice(start, worst, den, i, side, ticks).Some?
         && Further(p, StepPrice(start, worst, den, i, side, ticks).value, side)
  }

  /** These are the first k steps' prices, without those that repeat or step back. */
  ghost predicate StepsOf(prices: seq<nat>, start: nat, worst: nat, den: nat, k: nat, side: Side, ticks: TickSchedule)
    requires den > 0 && ticks.Valid()
  {
    && (forall i :: 0 <= i < k ==> StepPrice(start, worst, den, i, side, ticks).Some?)
    && (forall p :: p in prices <==> exists i :: 0 <= i < k && IsStep(p, start, worst, den, i, side, ticks))
  }

  /** The last price so far is the furthest step's. */
  ghost predicate LastIsFurthest(
    prices: seq<nat>, start: nat, worst: nat, den: nat, k: nat, side: Side, ticks: TickSchedule)
    requires den > 0 && ticks.Valid()
  {
    && (prices == [] <==> k == 0)
    && forall i :: 0 <= i < k && StepPrice(start, worst, den, i, side, ticks).Some? && prices != [] ==>
         !Further(StepPrice(start, worst, den, i, side, ticks).value, prices[|prices| - 1], side)
  }

  /** `step_prices`; None is its ValueError. The prices are the steps' in order, each once, without
      those that would repeat or step back; the last is the worst price, except that a one-step walk
      stops at its start. */
  method StepPrices(start: int, worst: int, maxSteps: int, side: Side, ticks: TickSchedule)
    returns (prices: Option<seq<nat>>)
    requires ticks.Valid()
    ensures prices.Some? ==>
              && maxSteps >= 1 && GoodEndpoints(start, worst, side, ticks)
              && Ladder(prices.value, start, worst, side, ticks)
              && |prices.value| <= maxSteps
    ensures prices.Some? ==>
              (prices.value[|prices.value| - 1] == worst <==> maxSteps > 1 || start == worst)
    ensures prices.Some? && maxSteps > 1 && start != worst ==>
              StepsOf(prices.value, start, worst, maxSteps - 1, maxSteps, side, ticks)
    ensures prices.None? <==> !Plannable(start, worst, maxSteps, side, ticks)
    ensures maxSteps >= 1 && GoodEndpoints(start, worst, side, ticks) && ticks.Aligned() ==> prices.Some?
  {
    if maxSteps < 1 || !ticks.OnTick(start) || !ticks.OnTick(worst) {
      return None;
    }
    var selling := side.SellToOpen?;
    if (selling && worst > start) || (!selling && worst < start) {
      return None;
    }
    if maxSteps == 1 || start == worst {
      return Some([start]);
    }
    prices := WalkDown(start, worst, maxSteps - 1, side, ticks);
    AlignedIsPlannable(start, worst, maxSteps - 1, side, ticks);
  }

  /** A walk can be planned: good endpoints, and a valid price for every step. */
  ghost predicate Plannable(start: int, worst: int, maxSteps: int, side: Side, ticks: TickSchedule)
    requires ticks.Valid()
  {
    && maxSteps >= 1 && GoodEndpoints(start, worst, side, ticks)
    && (maxSteps == 1 || start == worst || EveryStepHasAPrice(start, worst, maxSteps - 1, side, ticks))
  }

  predicate EveryStepHasAPrice(start: nat, worst: nat, den: nat, side: Side, ticks: TickSchedule)
    requires den > 0 && ticks.Valid()
  {
    forall k :: 0 <= k <= den ==> StepPrice(start, worst, den, k, side, ticks).Some?
  }

  /** The loop of `step_prices`. */
  method WalkDown(start: nat, worst: nat, den: nat, side: Side, ticks: TickSchedule) returns (prices: Option<seq<nat>>)
    requires ticks.Valid() && den > 0 && GoodEndpoints(start, worst, side, ticks)
    ensures prices.Some? ==>
              && Ladder(prices.value, start, worst, side, ticks) && |prices.value| <= den + 1
              && prices.value[|prices.value| - 1] == worst
              && StepsOf(prices.value, start, worst, den, den + 1, side, ticks)
    ensures prices.None? <==> !EveryStepHasAPrice(start, worst, den, side, ticks)
  {
    var ladder: seq<nat> := [];
    for k := 0 to den + 1
      invariant SoFar(ladder, start, worst, den, k, side, ticks)
    {
      var price := PriceOfStep(start, worst, den, k, side, ticks);
      if price.None? {
        return None;
      }
      NextRung(ladder, start, worst, den, k, side, ticks, price.value);
      if ladder == [] || Further(price.value, ladder[|ladder| - 1], side) {
        ladder := ladder + [price.value];
      }
    }
    return Some(ladder);
  }

  /** The prices of the first k steps. */
  ghost predicate SoFar(prices: seq<nat>, start: nat, worst: nat, den: nat, k: nat, side: Side, ticks: TickSchedule)
    requires den > 0 && ticks.Valid()
  {
    && |prices| <= k && (k > 0 ==> Ladder(prices, start, worst, side, ticks))
    && StepsOf(prices, start, worst, den, k, side, ticks) && LastIsFurthest(prices, start, worst, den, k, side, ticks)
    && (k == den + 1 ==> prices != [] && prices[|prices| - 1] == worst)
  }

  lemma NextRung(
    prices: seq<nat>, start: nat, worst: nat, den: nat, k: nat, side: Side, ticks: TickSchedule, price: nat)
    requires ticks.Valid() && k <= den && den > 0 && GoodEndpoints(start, worst, side, ticks)
    requires StepPrice(start, worst, den, k, side, ticks) == Some(price) && SoFar(prices, start, worst, den, k, side, ticks)
    ensures var next := if prices == [] || Further(price, prices[|prices| - 1], side) then prices + [price] else prices;
            SoFar(next, start, worst, den, k + 1, side, ticks)
  {
    StepNext(prices, start, worst, den, k, side, ticks, price);
    LadderNext(prices, start, worst, den, k, side, ticks, price);
  }

  /** One step's price. */
  method PriceOfStep(start: nat, worst: nat, den: nat, k: nat, side: Side, ticks: TickSchedule) returns (price: Option<nat>)
    requires ticks.Valid() && k <= den && den > 0 && GoodEndpoints(start, worst, side, ticks)
    ensures price == StepPrice(start, worst, den, k, side, ticks)
  {
    var selling := side.SellToOpen?;
    var rounded := if k == den then Some(worst) else RoundToTick(start * den + (worst - start) * k, den, ticks, side);
    if rounded.None? {
      return None;
    }
    price := Some(if selling then (if rounded.value < worst then worst else rounded.value)
                  else if rounded.value > worst then worst else rounded.value) by {
      StepPriceFits(start, worst, den, k, side, ticks);
    }
  }

  /** A price on the line rounds to a valid price, and the start to itself. */
  lemma RoundedFits(line: int, start: nat, worst: nat, den: nat, side: Side, ticks: TickSchedule)
    requires ticks.Valid() && den > 0 && ticks.OnTick(start) && ticks.OnTick(worst)
    ensures var r := RoundToTick(line, den, ticks, side);
            r.Some? ==> r.value > 0 && ticks.OnTick(NotPast(r.value, worst, side))
    ensures line == start * den ==> RoundToTick(line, den, ticks, side) == Some(start)
  {
    if RoundToTick(line, den, ticks, side).Some? { RoundToTickFavorsTrader(line, den, ticks, side); }
    RoundOfValid(start, den, ticks, side);
  }

  /** A step's price is valid and not past the worst: the start first, the worst price last. */
  lemma StepPriceFits(start: nat, worst: nat, den: nat, k: nat, side: Side, ticks: TickSchedule)
    requires ticks.Valid() && k <= den && den > 0 && GoodEndpoints(start, worst, side, ticks)
    ensures var price := StepPrice(start, worst, den, k, side, ticks);
            && (price.Some? ==> ticks.OnTick(price.value) && !Further(price.value, worst, side))
            && (k == 0 ==> price == Some(start)) && (k == den ==> price == Some(worst))
  {
    RoundedFits(start * den + (worst - start) * k, start, worst, den, side, ticks);
  }

  /** With aligned ticks a price on the line has a nearest valid price on the trader's side, and it
      is not past the worst. */
  lemma RoundedIsNearest(line: int, start: nat, worst: nat, den: nat, side: Side, ticks: TickSchedule, p: int)
    requires ticks.Valid() && ticks.Aligned() && den > 0 && GoodEndpoints(start, worst, side, ticks) && ticks.OnTick(p)
    requires if side.SellToOpen? then 0 < worst * den <= line <= start * den else start * den <= line <= worst * den
    ensures var r := RoundToTick(line, den, ticks, side);
            r.Some? && OnTraderSide(r.value, line, den, side) && NotPast(r.value, worst, side) == r.value
            && (OnTraderSide(p, line, den, side) ==> if side.BuyToClose? then p <= r.value else p >= r.value)
  {
    RoundToTickNearest(line, den, ticks, side, start);
    RoundToTickFavorsTrader(line, den, ticks, side);
    var r := RoundToTick(line, den, ticks, side).value;
    NoLess(r, worst, den);
    NoLess(worst, r, den);
    if OnTraderSide(p, line, den, side) { RoundToTickNearest(line, den, ticks, side, p); }
  }

  lemma NoLess(a: int, b: int, den: nat)
    requires den > 0
    ensures a * den <= b * den <==> a <= b
  {
    if a > b { MulPositive(a - b, den); assert (a - b) * den == a * den - b * den; } else { MulMonotone(0, b - a, den); }
  }

  predicate OnTraderSide(p: int, line: int, den: nat, side: Side) {
    if side.BuyToClose? then p * den <= line else p * den >= line
  }

  /** With aligned ticks every step has a price: of the valid prices on the trader's side of the line
      between the ends, the nearest to it. */
  lemma StepPriceIsNearest(start: nat, worst: nat, den: nat, k: nat, side: Side, ticks: TickSchedule, p: int)
    requires ticks.Valid() && ticks.Aligned() && k < den && GoodEndpoints(start, worst, side, ticks) && ticks.OnTick(p)
    ensures StepPrice(start, worst, den, k, side, ticks).Some?
    ensures var price, line := StepPrice(start, worst, den, k, side, ticks).value, start * den + (worst - start) * k;
            && ticks.OnTick(price) && OnTraderSide(price, line, den, side)
            && (OnTraderSide(p, line, den, side) ==> if side.BuyToClose? then p <= price else p >= price)
  {
    var line := start * den + (worst - start) * k;
    RawBetween(start, worst, k, den);
    MulPositive(worst, den);
    RoundedIsNearest(line, start, worst, den, side, ticks, p);
    StepPriceFits(start, worst, den, k, side, ticks);
  }

  lemma AlignedIsPlannable(start: nat, worst: nat, den: nat, side: Side, ticks: TickSchedule)
    requires ticks.Valid() && den > 0 && GoodEndpoints(start, worst, side, ticks)
    ensures ticks.Aligned() ==> EveryStepHasAPrice(start, worst, den, side, ticks)
  {
    if ticks.Aligned() {
      forall k | 0 <= k <= den ensures StepPrice(start, worst, den, k, side, ticks).Some? {
        if k < den { StepPriceIsNearest(start, worst, den, k, side, ticks, start); }
      }
    }
  }

  lemma LadderNext(
    prices: seq<nat>, start: nat, worst: nat, den: nat, k: nat, side: Side, ticks: TickSchedule, price: nat)
    requires ticks.Valid() && k <= den && den > 0 && GoodEndpoints(start, worst, side, ticks)
    requires StepPrice(start, worst, den, k, side, ticks) == Some(price) && (k == 0 <==> prices == [])
    requires k > 0 ==> Ladder(prices, start, worst, side, ticks)
    ensures var next := if prices == [] || Further(price, prices[|prices| - 1], side) then prices + [price] else prices;
            Ladder(next, start, worst, side, ticks) && (k == den ==> next[|next| - 1] == worst)
  {
    StepPriceFits(start, worst, den, k, side, ticks);
  }

  /** One more step: its price is new exactly when it is further than the last. */
  lemma StepNext(
    prices: seq<nat>, start: nat, worst: nat, den: nat, k: nat, side: Side, ticks: TickSchedule, price: nat)
    requires den > 0 && ticks.Valid() && StepPrice(start, worst, den, k, side, ticks) == Some(price)
    requires StepsOf(prices, start, worst, den, k, side, ticks) && LastIsFurthest(prices, start, worst, den, k, side, ticks)
    ensures var next := if prices == [] || Further(price, prices[|prices| - 1], side) then prices + [price] else prices;
            && StepsOf(next, start, worst, den, k + 1, side, ticks)
            && LastIsFurthest(next, start, worst, den, k + 1, side, ticks)
  {
    if prices != [] {
      var last := prices[|prices| - 1];
      assert last in prices;
      var i :| 0 <= i < k && IsStep(last, start, worst, den, i, side, ticks);
    }
    assert IsStep(price, start, worst, den, k, side, ticks) <==> prices == [] || Further(price, prices[|prices| - 1], side);
  }

  /** The module text says the last step is exactly on the worst price. A one-step walk
      between two different endpoints is the counterexample: no ladder of one price from
      80 to 95 ends on 95. `StepPrices` gives the exact condition. */
  lemma OneStepStopsAtStart(prices: seq<int>, ticks: TickSchedule)
    requires ticks == TickSchedule(5, 1, 300)
    requires Ladder(prices, 80, 95, BuyToClose, ticks) && |prices| <= 1
    ensures GoodEndpoints(80, 95, BuyToClose, ticks) && ticks.Aligned()
    ensures prices[|prices| - 1] != 95
  { }
}
