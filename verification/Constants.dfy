/** The integer constants shared by both contracts and the simulator. */
module Constants {
  const BASIS_POINTS: nat := 10_000
  const BASE_DECAY_BP: nat := 100
  const DECAY_GROWTH_NUM: nat := 101
  const DECAY_GROWTH_DEN: nat := 100
  const VOLUNTEER_BONUS_NUM: nat := 101_342
  const VOLUNTEER_BONUS_DEN: nat := 100_000
  const VOLUNTEER_CAPITAL_MIN: nat := 100
  const VOLUNTEER_CAPITAL_PCT: nat := 100
  const SECONDS_PER_DAY: nat := 86_400
  const MAX_DECAY_DAYS_PER_CALL: nat := 90
  const DEFAULT_SABBATH_OFFSET: nat := 6
  const INITIAL_CAPITAL_HONOR: nat := 1
  const LABOR_WEIGHT: nat := 5
  const VERIFICATION_WEIGHT: nat := 5

  // The largest values of the integer types in which the two contracts
  // compute; both abort a transaction whose arithmetic leaves the range.
  const U128_MAX: nat := 0xFFFF_FFFF_FFFF_FFFF_FFFF_FFFF_FFFF_FFFF
  const U256_MAX: nat :=
    0xFFFF_FFFF_FFFF_FFFF_FFFF_FFFF_FFFF_FFFF_FFFF_FFFF_FFFF_FFFF_FFFF_FFFF_FFFF_FFFF
}
