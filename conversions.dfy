/** Unit conversions used by the GM parameter table (common/conversions.py). */
module Conversions {

  /** Miles per hour to metres per second: 1.609344 km per mile, 3.6 km/h per m/s. */
  const MphToMs: real := 1.609344 / 3.6
}
