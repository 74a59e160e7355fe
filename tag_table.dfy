/**
 * The mixer's tag table: the 24 named process variables of one mixing tank.
 *
 * `Tags` is a point-in-time snapshot of the table (a value); `TagStore` is the
 * shared mutable table itself, which the simulator updates one tag at a time.
 * Analogue quantities are `real`; commands, positions and limit switches are
 * `int`, because the table stores them as the numbers 0 and 1 and the engine
 * tests them both for truth (non-zero) and for equality with 1.
 */
module TagTable {

  /** One snapshot of every tag, named after the tag it holds. */
  datatype Tags = Tags(
    temperaturePV: real,
    levelPV: real,
    pump1PV: real,
    pump1CMD: int,
    pump1SpeedSP: real,
    pump2PV: real,
    pump2CMD: int,
    pump2SpeedSP: real,
    inlet1Position: int,
    inlet1CMD: int,
    inlet2Position: int,
    inlet2CMD: int,
    inlet1CLS: int,
    inlet1OLS: int,
    inlet2CLS: int,
    inlet2OLS: int,
    outletCLS: int,
    outletOLS: int,
    agitatorSpeedPV: real,
    agitatorCMD: int,
    agitatorPV: real,
    mixingTimePV: real,
    outletPosition: int,
    outletCMD: int)

  // Rate and threshold constants of the process rules.
  const SupplySwitchLevel: real := 600.0
  const FullLevel: real := 1000.0
  const DrainRate: real := 23.06
  const HeatRate: real := 14.6
  const HeatLimit: real := 301.0
  const HeatReset: real := 300.0
  const CoolRate: real := 5.2
  const BaseTemperature: real := 71.816
  const NoiseBand: real := 100.0

  /** The table as the process starts: empty tank at base temperature, supply 1 on. */
  const Initial: Tags := Tags(
    temperaturePV := 71.816,
    levelPV := 0.0,
    pump1PV := 10.0,
    pump1CMD := 1,
    pump1SpeedSP := 16.37,
    pump2PV := 0.0,
    pump2CMD := 0,
    pump2SpeedSP := 11.24,
    inlet1Position := 1,
    inlet1CMD := 1,
    inlet2Position := 0,
    inlet2CMD := 0,
    inlet1CLS := 0,
    inlet1OLS := 1,
    inlet2CLS := 1,
    inlet2OLS := 0,
    outletCLS := 0,
    outletOLS := 0,
    agitatorSpeedPV := 3000.0,
    agitatorCMD := 0,
    agitatorPV := 0.0,
    mixingTimePV := 50.0,
    outletPosition := 0,
    outletCMD := 0)

  predicate Binary(x: int) { x == 0 || x == 1 }

  /** Every command, position and limit-switch tag holds 0 or 1. */
  predicate AllBinary(t: Tags)
  {
    Binary(t.pump1CMD) && Binary(t.pump2CMD) &&
    Binary(t.inlet1Position) && Binary(t.inlet1CMD) && Binary(t.inlet1CLS) && Binary(t.inlet1OLS) &&
    Binary(t.inlet2Position) && Binary(t.inlet2CMD) && Binary(t.inlet2CLS) && Binary(t.inlet2OLS) &&
    Binary(t.outletPosition) && Binary(t.outletCMD) && Binary(t.outletCLS) && Binary(t.outletOLS) &&
    Binary(t.agitatorCMD)
  }

  /**
   * An inlet valve's position and limit switches agree with its command:
   * commanded open (1) reads open, anything else reads closed.
   */
  predicate ValveFollows(cmd: int, position: int, ols: int, cls: int)
  {
    if cmd == 1 then position == 1 && ols == 1 && cls == 0
    else position == 0 && ols == 0 && cls == 1
  }

  predicate InletsFollowCommands(t: Tags)
  {
    ValveFollows(t.inlet1CMD, t.inlet1Position, t.inlet1OLS, t.inlet1CLS) &&
    ValveFollows(t.inlet2CMD, t.inlet2Position, t.inlet2OLS, t.inlet2CLS)
  }

  /** The range of the agitator's speed noise around its nominal speed. */
  predicate InBand(x: real, speed: real)
  {
    speed - NoiseBand <= x <= speed + NoiseBand
  }

  /**
   * The tags no simulation step ever writes: the two pump setpoints, the
   * agitator's nominal speed, the mixing duration and the outlet's limit switches.
   */
  predicate SameConfiguration(a: Tags, b: Tags)
  {
    a.pump1SpeedSP == b.pump1SpeedSP && a.pump2SpeedSP == b.pump2SpeedSP &&
    a.agitatorSpeedPV == b.agitatorSpeedPV && a.mixingTimePV == b.mixingTimePV &&
    a.outletCLS == b.outletCLS && a.outletOLS == b.outletOLS
  }

  /** The six inlet position and limit-switch tags are equal in `a` and `b`. */
  predicate SameInletSwitches(a: Tags, b: Tags)
  {
    a.inlet1Position == b.inlet1Position && a.inlet1OLS == b.inlet1OLS && a.inlet1CLS == b.inlet1CLS &&
    a.inlet2Position == b.inlet2Position && a.inlet2OLS == b.inlet2OLS && a.inlet2CLS == b.inlet2CLS
  }

  /**
   * The shared, mutable tag table. The simulator assigns its entries in place,
   * one key at a time; `tags` is the whole table at any moment.
   */
  class TagStore {
    var tags: Tags

    /** The table with the values it holds when the program starts. */
    constructor ()
      ensures tags == Initial
    {
      tags := Initial;
    }
  }
}
