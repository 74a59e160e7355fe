/**
 * The mixing-tank simulation engine as pure step functions on a value of the
 * whole plant (tag table plus phase flags and mix counter).
 *
 * Each function follows its method of the Python `Simulator` statement by
 * statement: a later rule sees the tags an earlier rule of the same call has
 * already changed. The imperative `Simulation.Simulator` is proved to do
 * exactly what these functions say; the properties of the process are proved
 * about them here and in module `Properties`.
 */
module Engine {
  import opened TagTable

  /** The simulator's own state: the three phase flags and the mix counter. */
  datatype Status = Status(filling: bool, mixing: bool, draining: bool, mixIter: int)

  /** Everything one tick reads and writes. */
  datatype Plant = Plant(tags: Tags, status: Status)

  /** The status as the simulator is constructed: filling, counter at zero. */
  const InitialStatus: Status := Status(filling := true, mixing := false, draining := false, mixIter := 0)

  const InitialPlant: Plant := Plant(Initial, InitialStatus)

  predicate ExactlyOnePhase(s: Status)
  {
    (s.filling && !s.mixing && !s.draining) ||
    (!s.filling && s.mixing && !s.draining) ||
    (!s.filling && !s.mixing && s.draining)
  }

  /** A mixing duration the counter can reach: a whole number of ticks, at least one. */
  predicate IsTickCount(x: real)
  {
    x >= 1.0 && x.Floor as real == x
  }

  /** Supply 1 (inlet 1 and pump 1) is on and supply 2 is off. */
  predicate SupplyOne(t: Tags)
  {
    t.inlet1CMD == 1 && t.pump1CMD == 1 && t.inlet2CMD == 0 && t.pump2CMD == 0
  }

  /** Supply 2 (inlet 2 and pump 2) is on, supply 1 is off and pump 1 reads 0. */
  predicate SupplyTwo(t: Tags)
  {
    t.inlet1CMD == 0 && t.pump1CMD == 0 && t.pump1PV == 0.0 && t.inlet2CMD == 1 && t.pump2CMD == 1
  }

  /** Both supplies are off and neither pump runs. */
  predicate SuppliesOff(t: Tags)
  {
    t.inlet1CMD == 0 && t.pump1CMD == 0 && t.pump1PV == 0.0 &&
    t.inlet2CMD == 0 && t.pump2CMD == 0 && t.pump2PV == 0.0
  }

  /**
   * The invariant of the running process, given setpoints that keep the level
   * in range (pump 1 adds at most 400 so it cannot overshoot 1000 from below
   * 600, and neither pump removes liquid).
   */
  predicate Valid(p: Plant)
  {
    var t, s := p.tags, p.status;
    // configuration the bounds rely on
    0.0 <= t.pump1SpeedSP <= 400.0 && 0.0 <= t.pump2SpeedSP &&
    IsTickCount(t.mixingTimePV) &&
    // one phase at a time, every switch-like tag 0 or 1
    ExactlyOnePhase(s) && AllBinary(t) &&
    // level and temperature bounds
    0.0 <= t.levelPV <= FullLevel &&
    BaseTemperature <= t.temperaturePV <= HeatLimit &&
    // the mix counter
    0 <= s.mixIter && (s.mixing ==> (s.mixIter as real) < t.mixingTimePV) &&
    (!s.mixing ==> s.mixIter == 0) &&
    // agitator and outlet follow the phase
    t.agitatorCMD == (if s.mixing then 1 else 0) &&
    (if s.mixing then InBand(t.agitatorPV, t.agitatorSpeedPV) else t.agitatorPV == 0.0) &&
    t.outletCMD == (if s.draining then 1 else 0) &&
    t.outletPosition == t.outletCMD &&
    // the supplies follow the phase and the level
    (s.filling ==> t.levelPV < FullLevel &&
                   if t.levelPV <= SupplySwitchLevel then SupplyOne(t) else SupplyTwo(t)) &&
    (!s.filling ==> SuppliesOff(t) && InletsFollowCommands(t)) &&
    (s.mixing ==> t.levelPV == FullLevel)
  }

  // ---------------------------------------------------------------------------
  // Filling (fillTank)
  // ---------------------------------------------------------------------------

  /** Pump 1 fills while the level is below 600 and supply 1 is commanded on. */
  function PumpOneStep(t: Tags): Tags
  {
    if 0.0 <= t.levelPV < SupplySwitchLevel && t.inlet1CMD != 0 && t.pump1CMD != 0
    then t.(pump1PV := t.pump1SpeedSP, levelPV := t.levelPV + t.pump1SpeedSP)
    else t
  }

  /** Above 600 the supply switches from inlet 1 / pump 1 to inlet 2 / pump 2. */
  function SupplySwitch(t: Tags): Tags
  {
    if t.levelPV > SupplySwitchLevel
    then t.(inlet1CMD := 0, pump1CMD := 0, pump1PV := 0.0, inlet2CMD := 1, pump2CMD := 1)
    else t
  }

  /** Pump 2 fills from 600 up to 1000 while supply 2 is commanded on, capped at 1000. */
  function PumpTwoStep(t: Tags): Tags
  {
    if SupplySwitchLevel <= t.levelPV < FullLevel && t.inlet2CMD != 0 && t.pump2CMD != 0
    then
      var l := t.levelPV + t.pump2SpeedSP;
      t.(pump2PV := t.pump2SpeedSP, levelPV := if l > FullLevel then FullLevel else l)
    else t
  }

  /** A full tank closes supply 2 and starts the agitator. */
  function FullStop(t: Tags): Tags
  {
    if t.levelPV >= FullLevel
    then t.(inlet2CMD := 0, agitatorCMD := 1, pump2CMD := 0, pump2PV := 0.0)
    else t
  }

  /** Each inlet's position and limit switches are recomputed from its command. */
  function RefreshInlets(t: Tags): (r: Tags)
    ensures InletsFollowCommands(r)
    ensures r == t <==> InletsFollowCommands(t)
    // only the six switch tags are written; the commands they follow are the incoming ones
    ensures r == t.(inlet1Position := r.inlet1Position, inlet1OLS := r.inlet1OLS, inlet1CLS := r.inlet1CLS,
                    inlet2Position := r.inlet2Position, inlet2OLS := r.inlet2OLS, inlet2CLS := r.inlet2CLS)
  {
    var open1 := t.inlet1CMD == 1;
    var open2 := t.inlet2CMD == 1;
    t.(inlet1Position := if open1 then 1 else 0,
       inlet1OLS := if open1 then 1 else 0,
       inlet1CLS := if open1 then 0 else 1,
       inlet2Position := if open2 then 1 else 0,
       inlet2OLS := if open2 then 1 else 0,
       inlet2CLS := if open2 then 0 else 1)
  }

  /**
   * One call of fillTank: the steps PumpOneStep, SupplySwitch, PumpTwoStep and
   * FullStop in that order, then RefreshInlets.
   */
  function Fill(p: Plant): (r: Plant)
    // the inlet switches agree with the commands afterwards
    ensures InletsFollowCommands(r.tags)
    // fillTank writes no temperature, agitator speed, outlet or configuration tag
    ensures SameConfiguration(p.tags, r.tags)
    ensures r.tags.temperaturePV == p.tags.temperaturePV && r.tags.agitatorPV == p.tags.agitatorPV
    ensures r.tags.outletCMD == p.tags.outletCMD && r.tags.outletPosition == p.tags.outletPosition
    // the phase moves on to mixing exactly when the tank ends the call full
    ensures r.tags.levelPV >= FullLevel ==>
              r.status == p.status.(filling := false, mixing := true) &&
              r.tags.agitatorCMD == 1 && r.tags.inlet2CMD == 0 && r.tags.pump2CMD == 0 && r.tags.pump2PV == 0.0
    ensures r.tags.levelPV < FullLevel ==>
              r.status == p.status && r.tags.agitatorCMD == p.tags.agitatorCMD
    // with non-negative setpoints filling never lowers the level
    ensures 0.0 <= p.tags.pump1SpeedSP && 0.0 <= p.tags.pump2SpeedSP ==> p.tags.levelPV <= r.tags.levelPV
    // below 600 with supply 1 on, pump 1 adds its setpoint (when that stays at most 600
    // and supply 2 cannot take over at exactly 600)
    ensures 0.0 <= p.tags.levelPV && p.tags.levelPV + p.tags.pump1SpeedSP <= SupplySwitchLevel &&
            p.tags.levelPV < SupplySwitchLevel && p.tags.inlet1CMD != 0 && p.tags.pump1CMD != 0 &&
            (p.tags.inlet2CMD == 0 || p.tags.pump2CMD == 0) ==>
              r.tags.levelPV == p.tags.levelPV + p.tags.pump1SpeedSP &&
              r.tags.pump1PV == p.tags.pump1SpeedSP && r.status == p.status
    // above 600 supply 2 takes over and pump 2 adds its setpoint, capped at 1000
    ensures SupplySwitchLevel < p.tags.levelPV < FullLevel ==>
              var l := p.tags.levelPV + p.tags.pump2SpeedSP;
              r.tags.levelPV == (if l > FullLevel then FullLevel else l) &&
              r.tags.inlet1CMD == 0 && r.tags.pump1CMD == 0 && r.tags.pump1PV == 0.0 &&
              (r.tags.levelPV < FullLevel ==>
                 r.tags.inlet2CMD == 1 && r.tags.pump2CMD == 1 && r.tags.pump2PV == p.tags.pump2SpeedSP)
    // a call that ends above 600, unless pump 1 stopped at exactly 600, has switched off supply 1
    ensures r.tags.levelPV > SupplySwitchLevel && PumpOneStep(p.tags).levelPV != SupplySwitchLevel ==>
              r.tags.inlet1CMD == 0 && r.tags.pump1CMD == 0 && r.tags.pump1PV == 0.0
  {
    var t := FullStop(PumpTwoStep(SupplySwitch(PumpOneStep(p.tags))));
    var s := if t.levelPV >= FullLevel then p.status.(filling := false, mixing := true) else p.status;
    Plant(RefreshInlets(t), s)
  }

  // ---------------------------------------------------------------------------
  // Mixing (mixTank)
  // ---------------------------------------------------------------------------

  /**
   * Heating while the agitator runs: +14.6 below 301, and a result above 301
   * is reset to 300. The reset can therefore lower a temperature that was
   * between 300 and 301, and a result of exactly 301 stays.
   */
  function Heat(temperature: real): (r: real)
    ensures temperature + HeatRate <= HeatLimit ==> r == temperature + HeatRate
    ensures temperature < HeatLimit < temperature + HeatRate ==> r == HeatReset
    ensures temperature <= HeatLimit ==> r <= HeatLimit
    ensures temperature < HeatReset ==> temperature < r
    ensures r < temperature ==> r == HeatReset
    ensures HeatLimit <= temperature ==> r == temperature
  {
    if temperature < HeatLimit then
      var h := temperature + HeatRate;
      if h > HeatLimit then HeatReset else h
    else temperature
  }

  /** One call of mixTank, where `noise` is the agitator reading drawn for this call. */
  function Mix(p: Plant, noise: real): (r: Plant)
    // mixTank writes only the temperature, the agitator and the outlet command
    ensures SameConfiguration(p.tags, r.tags) && SameInletSwitches(p.tags, r.tags)
    ensures r.tags.levelPV == p.tags.levelPV && r.tags.outletPosition == p.tags.outletPosition
    ensures r.tags.inlet1CMD == p.tags.inlet1CMD && r.tags.inlet2CMD == p.tags.inlet2CMD
    ensures r.tags.pump1CMD == p.tags.pump1CMD && r.tags.pump2CMD == p.tags.pump2CMD
    ensures r.tags.pump1PV == p.tags.pump1PV && r.tags.pump2PV == p.tags.pump2PV
    // the temperature never passes 301 from at most 301; it falls only by the reset to 300
    ensures p.tags.temperaturePV <= HeatLimit ==> r.tags.temperaturePV <= HeatLimit
    ensures r.tags.temperaturePV < p.tags.temperaturePV ==> r.tags.temperaturePV == HeatReset
    // the agitator heats only while it runs in the mixing phase
    ensures r.tags.temperaturePV ==
              if p.status.mixing && p.tags.agitatorCMD != 0 then Heat(p.tags.temperaturePV) else p.tags.temperaturePV
    // the counter advances on every call; reaching the mixing time ends mixing
    ensures (p.status.mixIter + 1) as real == p.tags.mixingTimePV ==>
              r.status == p.status.(mixIter := 0, mixing := false, draining := true) &&
              r.tags.agitatorCMD == 0 && r.tags.agitatorPV == 0.0 && r.tags.outletCMD == 1
    ensures (p.status.mixIter + 1) as real != p.tags.mixingTimePV ==>
              r.status == p.status.(mixIter := p.status.mixIter + 1) &&
              r.tags.agitatorCMD == p.tags.agitatorCMD && r.tags.outletCMD == p.tags.outletCMD
    // a running agitator reads a value drawn from its noise band
    ensures p.status.mixing && p.tags.agitatorCMD != 0 && (p.status.mixIter + 1) as real != p.tags.mixingTimePV
            ==> r.tags.agitatorPV == noise
    ensures !(p.status.mixing && p.tags.agitatorCMD != 0) && (p.status.mixIter + 1) as real != p.tags.mixingTimePV
            ==> r.tags.agitatorPV == p.tags.agitatorPV
  {
    var t0 := p.tags;
    var t1 := if p.status.mixing && t0.agitatorCMD != 0
              then t0.(agitatorPV := noise, temperaturePV := Heat(t0.temperaturePV))
              else t0;
    var k := p.status.mixIter + 1;
    if k as real == t1.mixingTimePV then
      Plant(t1.(agitatorCMD := 0, agitatorPV := 0.0, outletCMD := 1),
            p.status.(mixIter := 0, mixing := false, draining := true))
    else
      Plant(t1, p.status.(mixIter := k))
  }

  // ---------------------------------------------------------------------------
  // Draining (drainTank)
  // ---------------------------------------------------------------------------

  /** Cooling while draining: -5.2 above the base temperature, floored at it. */
  function Cool(temperature: real): (r: real)
    ensures temperature > BaseTemperature ==>
              r == (if temperature - CoolRate < BaseTemperature then BaseTemperature else temperature - CoolRate)
    ensures temperature <= BaseTemperature ==> r == temperature
    ensures r <= temperature
    ensures BaseTemperature <= temperature ==> BaseTemperature <= r
  {
    if temperature > BaseTemperature then
      var c := temperature - CoolRate;
      if c < BaseTemperature then BaseTemperature else c
    else temperature
  }

  /** One call of drainTank. */
  function Drain(p: Plant): (r: Plant)
    // drainTank writes only level, temperature, the outlet and supply 1's commands
    ensures SameConfiguration(p.tags, r.tags) && SameInletSwitches(p.tags, r.tags)
    ensures r.tags.agitatorCMD == p.tags.agitatorCMD && r.tags.agitatorPV == p.tags.agitatorPV
    ensures r.tags.pump1PV == p.tags.pump1PV && r.tags.pump2PV == p.tags.pump2PV
    ensures r.tags.inlet2CMD == p.tags.inlet2CMD && r.tags.pump2CMD == p.tags.pump2CMD
    // the level falls by 23.06 per call, never below 0, and only with the outlet commanded
    ensures p.tags.levelPV > 0.0 && p.tags.outletCMD != 0 ==>
              r.tags.levelPV == (if p.tags.levelPV > DrainRate then p.tags.levelPV - DrainRate else 0.0)
    ensures !(p.tags.levelPV > 0.0 && p.tags.outletCMD != 0) ==> r.tags.levelPV == p.tags.levelPV
    // the tank cools exactly on the calls that drain it
    ensures r.tags.temperaturePV ==
              if p.tags.levelPV > 0.0 && p.tags.outletCMD != 0 then Cool(p.tags.temperaturePV) else p.tags.temperaturePV
    ensures r.tags.temperaturePV <= p.tags.temperaturePV
    ensures BaseTemperature <= p.tags.temperaturePV ==> BaseTemperature <= r.tags.temperaturePV
    // an empty tank closes the outlet and re-arms filling on supply 1
    ensures r.tags.levelPV == 0.0 ==>
              r.status == p.status.(draining := false, filling := true) &&
              r.tags.outletCMD == 0 && r.tags.inlet1CMD == 1 && r.tags.pump1CMD == 1
    ensures r.tags.levelPV != 0.0 ==>
              r.status == p.status && r.tags.outletCMD == p.tags.outletCMD &&
              r.tags.inlet1CMD == p.tags.inlet1CMD && r.tags.pump1CMD == p.tags.pump1CMD
    // the outlet position mirrors the outlet command
    ensures r.tags.outletPosition == (if r.tags.outletCMD == 1 then 1 else 0)
  {
    var t0 := p.tags;
    var t1 := if t0.levelPV > 0.0 && t0.outletCMD != 0 then
                var l := t0.levelPV - DrainRate;
                t0.(levelPV := if l < 0.0 then 0.0 else l, temperaturePV := Cool(t0.temperaturePV))
              else t0;
    var empty := t1.levelPV == 0.0;
    var t2 := if empty then t1.(outletCMD := 0, inlet1CMD := 1, pump1CMD := 1) else t1;
    var s := if empty then p.status.(draining := false, filling := true) else p.status;
    Plant(t2.(outletPosition := if t2.outletCMD == 1 then 1 else 0), s)
  }

  // ---------------------------------------------------------------------------
  // One tick (run) and a run of ticks
  // ---------------------------------------------------------------------------

  /**
   * One call of run: three independent tests, so a phase that ends hands over
   * to the next one within the same tick.
   */
  function Tick(p: Plant, noise: real): (r: Plant)
    ensures SameConfiguration(p.tags, r.tags)
    // the inlet switches are written only when the tick starts in the filling phase
    ensures !p.status.filling ==> SameInletSwitches(p.tags, r.tags)
  {
    var p1 := if p.status.filling then Fill(p) else p;
    var p2 := if !p1.status.filling && !p1.status.draining then Mix(p1, noise) else p1;
    if p2.status.draining then Drain(p2) else p2
  }

  /** Every noise value lies within the agitator's band around `speed`. */
  predicate AllInBand(noises: seq<real>, speed: real)
  {
    forall i :: 0 <= i < |noises| ==> InBand(noises[i], speed)
  }

  /** `|noises|` consecutive ticks, the i-th drawing agitator noise `noises[i]`. */
  function RunTicks(p: Plant, noises: seq<real>): (r: Plant)
    ensures SameConfiguration(p.tags, r.tags)
    decreases |noises|
  {
    if noises == [] then p else RunTicks(Tick(p, noises[0]), noises[1..])
  }
}
