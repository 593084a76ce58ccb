/** Prices, sizes and profits in 18-decimal fixed point, with the machine widths written out. */
module FixedPoint {

  const PRICE_ONE: nat := 1_000_000_000_000_000_000
  const BPS_DENOM: nat := 10_000
  const U64: nat := 0x1_0000_0000_0000_0000
  const U128: nat := 0x1_0000_0000_0000_0000_0000_0000_0000_0000
  const I128: int := 0x8000_0000_0000_0000_0000_0000_0000_0000

  datatype Error = InvalidPriceRange | PriceNotTickAligned | DivisionByZero | ArithmeticOverflow
    | InvalidContractCount | IntentExpired | InvalidOutcome | IntentNotFound | NotOppositeSides | NoRangeOverlap
    | InsufficientReserved | InvalidSide | InsufficientFree | BookLimit
  datatype Checked<T> = Ok(value: T) | Err(error: Error)

  function ValidatePriceTicked(price: nat, tick: nat): Checked<()> {
    if price == 0 || price >= PRICE_ONE then Err(InvalidPriceRange)
    else if tick == 0 || price % tick != 0 then Err(PriceNotTickAligned)
    else Ok(())
  }

  function PriceMidpoint(a: nat, b: nat): (mid: nat) {
    a / 2 + b / 2 + (a % 2) * (b % 2)
  }

  function NotionalAtoms(bucket: nat, leverageBps: nat): Checked<nat> {
    if bucket * leverageBps >= U128 then Err(ArithmeticOverflow) else Ok(bucket * leverageBps / BPS_DENOM)
  }

  function PositionSizeFp(notional: nat, entry: nat): Checked<nat> {
    if entry == 0 then Err(DivisionByZero)
    else if notional * PRICE_ONE >= U128 then Err(ArithmeticOverflow)
    else Ok(notional * PRICE_ONE / entry)
  }

  /** A 128-bit unsigned value read as signed. */
  function AsI128(x: nat): int
    requires x < U128
  {
    if x < I128 then x else x - U128
  }

  /** Division rounding towards zero. */
  function Trunc(a: int, b: nat): int
    requires b > 0
  {
    if a >= 0 then a / b else -(-a / b)
  }

  function PnlLongAtoms(entry: nat, mark: nat, size: nat): Checked<int>
    requires size < U128
  {
    var product := (mark - entry) * AsI128(size);
    if product < -I128 || product >= I128 then Err(ArithmeticOverflow) else Ok(Trunc(product, PRICE_ONE))
  }

  function Saturated(x: int): int {
    if x < -I128 then -I128 else if x >= I128 then I128 - 1 else x
  }

  /** Long equity, clamped to [0, 2c]; the cast back to 64 bits drops the high bits. */
  function BoundedEquity(collateral: nat, pnl: int): nat {
    var equity, max := Saturated(collateral + pnl), Saturated(2 * collateral);
    (if equity < 0 then 0 else if equity > max then max else equity) % U64
  }

  // ----- midpoint ------------------------------------------------------------------------------------

  /** The midpoint is the floor of the mean, so it lies between the two prices. */
  lemma MidpointIsFloorMean(a: nat, b: nat)
    ensures PriceMidpoint(a, b) == (a + b) / 2 && PriceMidpoint(a, b) == PriceMidpoint(b, a)
    ensures a <= b ==> a <= PriceMidpoint(a, b) <= b
  {
    var (ra, rb) := (a % 2, b % 2);
    assert ra * rb == if ra == 1 && rb == 1 then 1 else 0;
    assert rb * ra == ra * rb;
  }

  // ----- rounding --------------------------------------------------------------------------------------

  /** The profit when nothing overflows. */
  function Pnl(entry: nat, mark: nat, size: int): int {
    Trunc((mark - entry) * size, PRICE_ONE)
  }

  lemma MulMono(a: int, b: int, c: nat)
    requires a <= b
    ensures a * c <= b * c
  {
  }

  lemma DivBounds(a: nat, b: nat)
    requires b > 0
    ensures (a / b) * b <= a < (a / b + 1) * b
  {
  }

  /** From p·one <= d·size and size·entry <= n·one. */
  lemma RoundingBelow(p: nat, d: nat, size: nat, entry: nat, n: nat, one: nat)
    requires one > 0 && p * one <= d * size && size * entry <= n * one
    ensures p * entry <= n * d
  {
    MulMono(p * one, d * size, entry);
    MulMono(size * entry, n * one, d);
    assert (p * entry) * one == (p * one) * entry;
    assert (d * size) * entry == (size * entry) * d;
    assert (n * one) * d == (n * d) * one;
    if p * entry > n * d { MulMono(n * d + 1, p * entry, one); }
  }

  /** From d·size < (p + 1)·one, n·one < (size + 1)·entry and d <= one. */
  lemma RoundingAbove(p: nat, d: nat, size: nat, entry: nat, n: nat, one: nat)
    requires one >= d && entry > 0 && d * size < (p + 1) * one && n * one < (size + 1) * entry
    ensures n * d < (p + 2) * entry
  {
    MulMono(n * one, (size + 1) * entry, d);
    assert (n * one) * d == (n * d) * one;
    assert ((size + 1) * entry) * d == (d * size + d) * entry;
    MulMono(d * size + d + 1, (p + 2) * one, entry);
    assert (d * size + d + 1) * entry == (d * size + d) * entry + entry;
    assert ((p + 2) * one) * entry == ((p + 2) * entry) * one;
    assert (n * d) * one < ((p + 2) * entry) * one;
    if n * d >= (p + 2) * entry { MulMono((p + 2) * entry, n * d, one); }
  }

  lemma QuotientAtMost(a: nat, n: nat)
    requires n > 0
    ensures 0 <= a / n <= a
  {
    var q := a / n;
    DivBounds(a, n);
    if q > a {
      MulMono(a + 1, q, n);
      MulMono(1, n, a + 1);
    }
  }

  /** Two truncating divisions lose less than two atoms of profit. */
  lemma PnlRounding(notional: nat, entry: nat, mark: nat, size: nat)
    requires 0 < entry <= PRICE_ONE && mark <= PRICE_ONE && size == notional * PRICE_ONE / entry
    ensures var (p, d) := (Abs(Pnl(entry, mark, size)), Abs(mark - entry));
            p * entry <= notional * d < (p + 2) * entry
  {
    var d: nat := Abs(mark - entry);
    var p: nat := d * size / PRICE_ONE;
    AbsTrunc(mark - entry, size);
    DivBounds(d * size, PRICE_ONE);
    DivBounds(notional * PRICE_ONE, entry);
    RoundingBelow(p, d, size, entry, notional, PRICE_ONE);
    RoundingAbove(p, d, size, entry, notional, PRICE_ONE);
  }

  function Abs(x: int): nat { if x >= 0 then x else -x }

  lemma AbsTrunc(delta: int, size: nat)
    ensures Abs(Trunc(delta * size, PRICE_ONE)) == Abs(delta) * size / PRICE_ONE
    ensures Trunc(-delta * size, PRICE_ONE) == -Trunc(delta * size, PRICE_ONE)
  {
    assert (-delta) * size == -(delta * size);
    if delta >= 0 { assert delta * size >= 0; } else { assert (-delta) * size >= 0; }
  }

  lemma TruncMono(a: int, b: int)
    requires a <= b
    ensures Trunc(a, PRICE_ONE) <= Trunc(b, PRICE_ONE)
  {
  }

  /** A higher mark never lowers the long profit, and swapping entry and mark negates it. */
  lemma PnlShape(entry: nat, mark: nat, mark': nat, size: nat)
    ensures mark <= mark' ==> Pnl(entry, mark, size) <= Pnl(entry, mark', size)
    ensures Pnl(entry, mark, size) == -Pnl(mark, entry, size)
  {
    AbsTrunc(mark - entry, size);
    assert -(mark - entry) == entry - mark;
    if mark <= mark' {
      MulMono(mark - entry, mark' - entry, size);
      TruncMono((mark - entry) * size, (mark' - entry) * size);
    }
  }

  // ----- profit by legs ----------------------------------------------------------------------------------

  lemma TruncSplit(a: int, b: int)
    ensures -1 <= Trunc(a, PRICE_ONE) + Trunc(b, PRICE_ONE) - Trunc(a + b, PRICE_ONE) <= 1
  {
  }

  /** The profit to a second mark is the profit to a first one and the leg between them, to within one
      atom. */
  lemma PnlLeg(entry: nat, first: nat, second: nat, size: int)
    ensures -1 <= Pnl(entry, second, size) - Pnl(entry, first, size) - Pnl(first, second, size) <= 1
  {
    TruncSplit((first - entry) * size, (second - first) * size);
    assert (first - entry) * size + (second - first) * size == (second - entry) * size;
  }

  // ----- no overflow -----------------------------------------------------------------------------------

  /** For a well-sized instrument every position that tick-aligned crossing limits can open has a size that
      fits a signed 128-bit value, and a profit that does not overflow at any mark up to `top`. */
  lemma WellSized(notional: nat, tick: nat, bid: nat, ask: nat, mark: nat, top: nat)
    requires PRICE_ONE <= top && notional * PRICE_ONE * top < tick * I128
    requires ValidatePriceTicked(bid, tick).Ok? && ValidatePriceTicked(ask, tick).Ok? && ask <= bid && mark <= top
    ensures var entry := PriceMidpoint(bid, ask);
      && tick <= entry < PRICE_ONE
      && PositionSizeFp(notional, entry) == Ok(notional * PRICE_ONE / entry)
      && notional * PRICE_ONE / entry < I128
      && PnlLongAtoms(entry, mark, notional * PRICE_ONE / entry) == Ok(Pnl(entry, mark, notional * PRICE_ONE / entry))
  {
    hide PriceMidpoint, PnlLongAtoms, Pnl, PositionSizeFp;
    EntryInRange(bid, ask, tick);
    SizedProfit(notional, tick, PriceMidpoint(bid, ask), mark, top);
  }

  lemma SizedProfit(notional: nat, tick: nat, entry: nat, mark: nat, top: nat)
    requires PRICE_ONE <= top && notional * PRICE_ONE * top < tick * I128 && tick <= entry < PRICE_ONE && mark <= top
    requires tick > 0
    ensures PositionSizeFp(notional, entry) == Ok(notional * PRICE_ONE / entry)
    ensures notional * PRICE_ONE / entry < I128
    ensures PnlLongAtoms(entry, mark, notional * PRICE_ONE / entry)
         == Ok(Pnl(entry, mark, notional * PRICE_ONE / entry))
  {
    var size := notional * PRICE_ONE / entry;
    DivBounds(notional * PRICE_ONE, entry);
    SizeBound(size, notional, entry, tick, PRICE_ONE, top, I128);
    NotionalFits(notional, tick, top);
    ProfitInRange(entry, mark, size, top);
  }

  lemma ProfitInRange(entry: nat, mark: nat, size: nat, top: nat)
    requires 0 < top && size * top < I128 && entry <= top && mark <= top
    ensures size < I128 && PnlLongAtoms(entry, mark, size) == Ok(Pnl(entry, mark, size))
  {
    ProductBound(mark - entry, size, top);
    MulMono(1, top, size);
  }

  lemma EntryInRange(bid: nat, ask: nat, tick: nat)
    requires ValidatePriceTicked(bid, tick).Ok? && ValidatePriceTicked(ask, tick).Ok? && ask <= bid
    ensures tick <= PriceMidpoint(bid, ask) < PRICE_ONE
  {
    MidpointIsFloorMean(ask, bid);
    AtLeastTick(ask, tick);
  }

  /** size·tick <= size·entry <= notional·one, so size·top stays below the bound. */
  lemma SizeBound(size: nat, notional: nat, entry: nat, tick: nat, one: nat, top: nat, bound: nat)
    requires size * entry <= notional * one && 0 < tick <= entry && notional * one * top < tick * bound
    ensures size * top < bound
  {
    MulMono(tick, entry, size);
    assert size * tick <= notional * one;
    MulMono(size * tick, notional * one, top);
    assert (size * tick) * top == (size * top) * tick;
    Cancel(size * top, bound, tick);
  }

  lemma ProductBound(d: int, size: nat, one: int)
    requires 0 - one <= d <= one
    ensures 0 - size * one <= d * size <= size * one
  {
    MulMono(d, one, size);
    MulMono(0 - one, d, size);
  }

  lemma AtLeastTick(price: nat, tick: nat)
    requires price > 0 && tick > 0 && price % tick == 0
    ensures price >= tick
  {
  }

  lemma Cancel(a: nat, b: nat, c: nat)
    requires c > 0 && a * c < b * c
    ensures a < b
  {
    if a >= b { MulMono(b, a, c); }
  }

  lemma NotionalFits(notional: nat, tick: nat, top: nat)
    requires notional * PRICE_ONE * top < tick * I128 && tick < PRICE_ONE <= top
    ensures notional * PRICE_ONE < U128
  {
    MulMono(tick, top, I128);
    assert (notional * PRICE_ONE) * top < I128 * top;
    Cancel(notional * PRICE_ONE, I128, top);
  }

  // ----- equity ------------------------------------------------------------------------------------------

  /** When the pot 2c fits 64 bits, equity is the plain clamp: nothing saturates and the cast is
      exact. */
  lemma EquityExact(collateral: nat, pnl: int)
    requires 2 * collateral < U64 && -I128 <= pnl < I128
    ensures BoundedEquity(collateral, pnl) <= 2 * collateral
    ensures BoundedEquity(collateral, pnl) ==
            if collateral + pnl < 0 then 0 else if pnl > collateral then 2 * collateral else collateral + pnl
  {
  }
}
