/**
 * The declarations of the AQI engine (main/aqi.h): the pollutant and
 * algorithm tags, breakpoints and concentration readings.
 *
 * Concentrations and breakpoints are C++ `float`s in the source; here they
 * are exact `real`s.
 */
module AqiTypes {

  /** A measured species. `None` is a sentinel that no breakpoint table lists. */
  datatype Pollutant = None | PM10 | PM25

  /** The breakpoint standard in force. `None` is a sentinel without a table. */
  datatype Algorithm = None | EPA | MEP

  /** An ordered (low, high) pair: a closed interval of concentrations or of index values. */
  datatype Breakpoint = Breakpoint(lo: real, hi: real)

  /** The bins of one pollutant, in table order. */
  type Breakpoints = seq<Breakpoint>

  /** The bins of every pollutant one algorithm knows. */
  type BreakpointsMap = map<Pollutant, Breakpoints>

  /** One reading: a pollutant and its concentration. */
  datatype Concentration = Concentration(pollutant: Pollutant, value: real)

  /** The readings of one evaluation, in the caller's order. */
  type Concentrations = seq<Concentration>
}
