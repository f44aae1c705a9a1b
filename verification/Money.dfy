/** Exact money: unit prices scaled by 10^8 per million tokens, amounts in atoms of 10^-14 USD,
    both 128-bit integers with checked arithmetic. */
module Money {
  import opened Wrappers

  const I128_MAX: int := 170_141_183_460_469_231_731_687_303_715_884_105_727
  const I128_MIN: int := -I128_MAX - 1

  /** A scaled unit price. */
  type UnitPrice = int

  predicate IsI128(x: int) { I128_MIN <= x <= I128_MAX }

  /** The value when 128 bits hold it. */
  function Checked(x: int): (r: Option<int>) {
    if IsI128(x) then Some(x) else None
  }

  /** The exact cost in atoms of `quantity` tokens at `price`. */
  function ComponentCost(quantity: nat, price: UnitPrice): (r: Option<int>) {
    Checked(quantity * price)
  }

  /** One value per billable component, each optional. */
  datatype Rates<+T> = Rates(
    input: Option<T>, output: Option<T>, cacheRead: Option<T>, cacheWrite: Option<T>,
    reasoning: Option<T>, inputAudio: Option<T>, outputAudio: Option<T>)

  type ComponentPrices = Rates<UnitPrice>

  predicate NonNegative(p: Option<UnitPrice>) { p.Some? ==> 0 <= p.value <= I128_MAX }

  /** Every present price is a non-negative 128-bit value. */
  predicate InRange(p: ComponentPrices) {
    && NonNegative(p.input) && NonNegative(p.output) && NonNegative(p.cacheRead) && NonNegative(p.cacheWrite)
    && NonNegative(p.reasoning) && NonNegative(p.inputAudio) && NonNegative(p.outputAudio)
  }
}
