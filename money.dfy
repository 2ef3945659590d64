/** Money amounts. Every price and total of the system is a
    DecimalField(max_digits=10, decimal_places=2); an amount is modelled as a
    whole number of cents, so two decimal places are exact. */
module Money {
  /** At most 10 digits with 2 after the point: |amount| < 10^8 units, 10^10 cents. */
  const Limit: int := 10_000_000_000

  predicate FitsDecimal(cents: int) {
    -Limit < cents < Limit
  }
}
