# Mixing-tank simulator engine in Dafny

This project models the simulation engine of an OPC UA SCADA data simulator.
The engine simulates one industrial mixing tank as a cyclic state machine with
three phases. Filling runs pump 1 up to 600, then pump 2 up to 1000. Mixing runs
the agitator and heats the tank for `MixingTime.PV` ticks. Draining empties the
tank and cools it, and then filling starts again. Every tick (`run()`) updates a
shared table of 24 numeric tags in place.

Files:

- `tag_table.dfy` (module `TagTable`) holds the tag table. `Tags` is a value with
  one field per tag. `Initial` is the table at program start. `TagStore` is the
  shared mutable table. The module also defines the rate and threshold constants
  and predicates over tags: limit switches following commands, the agitator's
  noise band, and the tags no step ever writes.
- `engine.dfy` (module `Engine`) holds the engine as pure step functions on a
  `Plant`, which is the tag table plus the phase flags and the mix counter.
  `Fill`, `Mix` and `Drain` model `fillTank`, `mixTank` and `drainTank`. `Tick`
  models `run()`, including its cascade of three independent tests. `RunTicks`
  is a run of consecutive ticks. `Valid` is the invariant of the running process.
- `simulator.dfy` (module `Simulation`) holds the class `Simulator`. Its flags and
  counter are mutable fields. `FillTank`, `MixTank`, `DrainTank` and `Run` update
  the shared `TagStore` statement by statement, in the code's order. Each method
  is proved to produce exactly the state its `Engine` function computes.
- `temperature.dfy` (module `TemperatureSchedule`) holds the temperatures the
  process reaches from its initial table. It proves that they never exceed 300
  and that every filling phase runs at the base temperature.
- `properties.dfy` (module `Properties`) holds the lemmas. They cover: phase
  exclusivity and phase order; bounds on level and temperature; the supply
  switch at 600; the level gained while filling on supply 1; the start of mixing at 1000; the mix counter and the duration
  of mixing; the duration of draining; the first tick from the initial table;
  and the two quirks of the code (the stall at exactly 600 and the heating
  clamp).

Modelling choices:

- Analogue tags are `real`, with exact arithmetic.
- Command, position and limit-switch tags are `int`. The code tests them in two
  ways, for truth (non-zero) and for `== 1`, and the model keeps both tests.
- `MixingTime.PV` is a `real`. The code compares the integer counter with it, so
  `Valid` requires it to be a whole number of at least 1.
- The phase flags are `bool`.
- The random agitator reading `uniform(Speed.PV - 100, Speed.PV + 100)` becomes
  a parameter `noise`. `MixTank` and `Run` require it to lie in that band.
- `TagStore` holds the table as one record. Each method copies the record to a
  local variable, applies the code's assignments to it one key at a time, and
  writes it back at the end of the method. No reader runs during a tick, so
  nothing can tell this apart from updating the dictionary in place.

Points of the code's behaviour that a reader might not expect:

- The heating clamp tests `> 301` but writes 300. From a temperature of 286.4 a
  mixing tick therefore writes 301, and from a temperature between 300 and 301
  it lowers the temperature to 300 (`HeatClampQuirk`). The bound `Valid` keeps
  for every state is therefore 301. From the initial table, neither case
  occurs: mixing heats 71.816 by 14.6 per tick until the clamp holds it at
  300, and every drain from a full tank cools it back to 71.816. So every state
  reached from the initial table stays at or below 300, and every filling tick
  runs at 71.816 (`ReachableTemperature`).
- Each phase test in `run()` is a separate `if`, so one tick can run more than
  one phase. A filling tick that fills the tank also runs the first mixing
  step, and the mixing tick that ends mixing also drains once
  (`FullTankStartsMixing`, `MixingEnds`). A filling tick goes on into draining
  only with a mixing time of 1, and with a mixing time of 1 no filling tick ends
  in mixing (`PhaseOrder`).
- The counter is not reset when mixing starts, only when it ends. It is
  nevertheless always 0 outside mixing (`Valid`).
- The table has 24 tags.

## Model

| member | source | states |
|---|---|---|
| `TagTable.TagStore.constructor` | OPCUAScadaSimulator_v102.py:7-37 | The shared table starts with the initial values of all 24 tags. |
| `Simulation.Simulator.constructor` | OPCUAScadaSimulator_v102.py:43-52 | A new simulator works on the given table, starts in the filling phase (only `filling` set) and has the mix counter at 0. |
| `Simulation.Simulator.Run` | OPCUAScadaSimulator_v102.py:54-63 | One tick leaves the plant exactly as `Engine.Tick` says, with the cascade of three independent tests. It keeps the invariant `Valid`. |
| `Simulation.Simulator.FillTank` | OPCUAScadaSimulator_v102.py:67-109 | The in-place updates of fillTank, in the code's order, produce exactly `Engine.Fill` of the previous state. |
| `Simulation.Simulator.MixTank` | OPCUAScadaSimulator_v102.py:111-126 | The in-place updates of mixTank produce exactly `Engine.Mix` of the previous state and the drawn noise. |
| `Simulation.Simulator.DrainTank` | OPCUAScadaSimulator_v102.py:129-149 | The in-place updates of drainTank produce exactly `Engine.Drain` of the previous state. |
| `Engine.RefreshInlets` | OPCUAScadaSimulator_v102.py:93-109 | Afterwards each inlet reads (Position, OLS, CLS) = (1, 1, 0) when its CMD is 1, and (0, 0, 1) otherwise. Only those six switch tags are written; every other tag, the commands included, is unchanged. The table is unchanged exactly when the switches already agreed. |
| `Engine.Fill` | OPCUAScadaSimulator_v102.py:67-109 | Its steps are `PumpOneStep` (lines 68-70), `SupplySwitch` (72-77), `PumpTwoStep` (79-83), `FullStop` (85-91) and `RefreshInlets` (93-109). Below 600 on supply 1, with the step staying at most 600, the level rises by pump 1's setpoint, Pump1.PV reads that setpoint and the status is unchanged. Above 600 and below 1000, supply 1 is switched off (inlet 1, pump 1 and Pump1.PV 0) and the level rises by pump 2's setpoint capped at 1000 (`min(1000, ·)`); short of 1000 supply 2 is on and Pump2.PV reads its setpoint. A call that ends above 600 has switched supply 1 off, unless pump 1 stopped at exactly 600. Inlet switches follow their commands. Temperature, agitator reading, outlet and configuration tags are unchanged. The phase becomes mixing exactly when the level ends at 1000 or more, and then the agitator is on and supply 2 is off. Below 1000 the status and agitator command are unchanged. With non-negative setpoints the level never falls. |
| `Engine.Heat` | OPCUAScadaSimulator_v102.py:114-117 | When T + 14.6 <= 301 the result is exactly T + 14.6. When T < 301 < T + 14.6 the result is exactly 300. From at most 301 the result is at most 301. Below 300 heating strictly raises the temperature. The only decrease is the reset to 300. At 301 or above the temperature is unchanged. |
| `Engine.Mix` | OPCUAScadaSimulator_v102.py:111-126 | Level, pumps, inlets (commands and switches) and outlet position are unchanged. The counter always advances. When it reaches `MixingTime.PV` it resets to 0, the phase becomes draining, the agitator command and reading become 0 and the outlet command becomes 1. A running agitator in the mixing phase reads the drawn noise; an idle one keeps its reading unless mixing ends. The temperature becomes exactly `Heat` of the old one when the agitator runs in the mixing phase, and is unchanged otherwise; it stays at most 301, and it falls only to 300. |
| `Engine.Cool` | OPCUAScadaSimulator_v102.py:134-137 | Above 71.816 the result is exactly T - 5.2, floored at 71.816. At or below 71.816 the temperature is unchanged. Cooling never raises the temperature and never takes it below 71.816 from at or above it. |
| `Engine.Drain` | OPCUAScadaSimulator_v102.py:129-149 | With level > 0 and the outlet commanded, the level drops by 23.06, floored at 0. Otherwise the level is unchanged. The temperature becomes exactly `Cool` of the old one on a call that drains, and is unchanged otherwise; it does not rise and stays at least 71.816. When the level is 0 the outlet closes, the phase returns to filling and supply 1 is commanded on. Otherwise the status is unchanged. The outlet position equals 1 exactly when the outlet command is 1. Inlet switches, agitator, supply 2 and configuration tags are unchanged. |
| `Engine.Tick` | OPCUAScadaSimulator_v102.py:54-63 | No tick writes the pump setpoints, the agitator speed, the mixing time or the outlet's limit switches. The inlet switches change only on a tick that starts in the filling phase. |
| `Engine.RunTicks` | OPCUAScadaSimulator_v102.py:54-63 | Any number of ticks leaves the configuration tags unchanged. |
| `Properties.InitialValid` | OPCUAScadaSimulator_v102.py:7-52 | The initial table and status satisfy the invariant `Valid`. |
| `Properties.TickPreservesValid` | OPCUAScadaSimulator_v102.py:54-149 | One tick with in-band noise keeps `Valid`. `Valid` includes: exactly one phase; 0 <= Level <= 1000; 71.816 <= Temperature <= 301; all switch-like tags 0 or 1; counter in [0, MixingTime) while mixing and 0 otherwise; agitator command and outlet command/position tied to the phase; agitator reading in its band while mixing; supplies tied to the phase and to the 600 threshold; inlet switches following commands outside filling. |
| `Properties.TickFromFilling` | OPCUAScadaSimulator_v102.py:56-109 | A tick from the filling phase keeps `Valid`, including the cascade into mixing and draining. |
| `Properties.TickFromMixing` | OPCUAScadaSimulator_v102.py:59-63 | A tick from the mixing phase keeps `Valid`, including the cascade into draining. |
| `Properties.TickFromDraining` | OPCUAScadaSimulator_v102.py:62-63 | A tick from the draining phase keeps `Valid`. |
| `Properties.ValidForever` | OPCUAScadaSimulator_v102.py:54-149 | After any number of ticks with in-band noise the invariant still holds. |
| `Properties.RunTicksAppend` | OPCUAScadaSimulator_v102.py:54-63 | Running ticks `a` then ticks `b` equals running `a + b`. |
| `Properties.PhaseOrder` | OPCUAScadaSimulator_v102.py:54-149 | A tick keeps the phase or moves to the next one in the cycle: filling to mixing, mixing to draining, draining to filling. Filling goes straight to draining only when the mixing time is 1, and with a mixing time of 1 a filling tick never ends in the mixing phase. |
| `Properties.FirstTick` | OPCUAScadaSimulator_v102.py:10-13 | The first tick from the initial table gives Level.PV = Pump1.PV = 16.37. The phase is still filling, supply 1 is on and the inlet switches follow their commands. |
| `Properties.CrossingSwitchesSupply` | OPCUAScadaSimulator_v102.py:68-83 | The fillTank call that first takes the level over 600 also switches to supply 2 and adds pump 2's setpoint, clamped at 1000. Inlet 1 reads closed. Short of a full tank, that is the whole tick, and inlet 2 reads open. |
| `Properties.FullTankStartsMixing` | OPCUAScadaSimulator_v102.py:85-91 | The filling tick that reaches 1000 closes supply 2 (Pump2.PV = 0) and turns the agitator on. In the same tick it runs the first mixing step: the counter is 1, the agitator reads the noise, the temperature is heated once, and inlet 2 reads closed. |
| `Properties.StallAtSwitchLevel` | OPCUAScadaSimulator_v102.py:68-83 | A filling level of exactly 600 triggers no fill rule. One tick only refreshes the inlet switches, and the next tick changes nothing. |
| `Properties.HeatClampQuirk` | OPCUAScadaSimulator_v102.py:114-117 | From a `Valid` state at 286.4, a mixing tick ends at exactly 301. A tick from between 300 and 301 lowers the temperature to 300. Neither state is reached from the initial table (`ReachableTemperature`). |
| `Properties.MixingCountdown` | OPCUAScadaSimulator_v102.py:119-120 | While the counter stays below the mixing time, each tick advances it by exactly one, the phase stays mixing and the level stays 1000. |
| `Properties.MixingEnds` | OPCUAScadaSimulator_v102.py:119-126 | The tick on which the counter reaches the mixing time resets it and stops the agitator (command and reading 0). It opens the outlet (command and position 1), moves to draining, and in the same tick drains once to 976.94. |
| `Properties.MixingDuration` | OPCUAScadaSimulator_v102.py:111-126 | From counter value k, the phase stays mixing for `MixingTime - 1 - k` more ticks, and the next tick is draining. The fill tick that starts mixing leaves the counter at 1 (`FullTankStartsMixing`), so mixing lasts exactly `MixingTime` ticks. |
| `Properties.DrainingCountdown` | OPCUAScadaSimulator_v102.py:130-137 | While the level exceeds the drain rate over n ticks, the level falls by exactly 23.06 n, the temperature becomes T - 5.2 n floored at 71.816, and the phase stays draining. |
| `Properties.DrainAfterMixing` | OPCUAScadaSimulator_v102.py:119-149 | From the last mixing tick, 43 ticks (the one that ends mixing and drains to 976.94, then 42 more) leave the tank draining at 8.42. The 44th tick empties it, closes the outlet, returns to the initial status and turns supply 1 on, while inlet 1 still reads closed (Position 0, OLS 0, CLS 1). The temperature is then the heated last-mixing value minus 5.2 per drain, floored at 71.816, so exactly 71.816 whenever that last mixing tick ended at 300 or below. |
| `Properties.FillingCountup` | OPCUAScadaSimulator_v102.py:68-70 | While n filling ticks stay below 600 on supply 1, the level rises by exactly `Repeated(Pump1.Speed.SP, n)`, Pump1.PV reads the setpoint, the phase stays filling, supply 1 stays on and `Valid` holds. |
| `Properties.RepeatedIsProduct` | OPCUAScadaSimulator_v102.py:68-70 | The level gained in n pump-1 ticks, `Repeated(step, n)`, is exactly step times n. |
| `TemperatureSchedule.HeatOnSchedule` | OPCUAScadaSimulator_v102.py:114-117 | Heating 71.816 + 14.6k (at most 300) or 300 gives another such value. The result is never above 300. |
| `TemperatureSchedule.CoolAfterMixing` | OPCUAScadaSimulator_v102.py:119-137 | The drain in the tick that ends mixing leaves level 1000 - 23.06 and a temperature at 71.816 or at most 300 - 5.2. |
| `TemperatureSchedule.CoolWhileDraining` | OPCUAScadaSimulator_v102.py:130-137 | After j drains from a full tank the temperature is 71.816 or at most 300 - 5.2j. One more drain keeps that with j + 1. The drain that empties the tank, the 44th, leaves exactly 71.816. |
| `TemperatureSchedule.TickOnSchedule` | OPCUAScadaSimulator_v102.py:54-149 | One tick keeps `OnSchedule`: `Valid`, 71.816 while filling, a heating value while mixing, and the drain schedule while draining. |
| `TemperatureSchedule.ScheduleBounds` | OPCUAScadaSimulator_v102.py:114-137 | On schedule, the temperature lies between 71.816 and 300, and it is exactly 71.816 while filling. |
| `TemperatureSchedule.ScheduleForever` | OPCUAScadaSimulator_v102.py:54-149 | Any run of ticks with in-band noise keeps `OnSchedule`. |
| `TemperatureSchedule.ReachableTemperature` | OPCUAScadaSimulator_v102.py:7-149 | From the initial table, after any run of ticks the temperature lies between 71.816 and 300, so 301 and the drop from between 300 and 301 never occur. In the filling phase, where each cycle starts, it is exactly 71.816. |

## Left out

- The OPC UA server (`OPCUAServer`, lines 153-210), the `__main__` block, the endpoint, namespace and node creation, and the fan-out of the one table to four `Mixer` nodes are not modelled. They are network I/O into a library that is not part of this model.
- The endless publish loop and the `sleep(1)` calls are left out. They are wall-clock timing and process control. `Engine.RunTicks` stands for any finite number of consecutive `run()` calls.
- The host-name lookup is host I/O and is left out.
- The probability distribution of `uniform` is left out. Only its range is modelled, as a parameter.
- IEEE-754 rounding is not modelled. Arithmetic is exact `real`, so the tick counts in `DrainAfterMixing` hold for exact arithmetic.
- The status entries `state`, `tempFlow` and `levelFlow` are set at construction and never read or written again, so they are not modelled.
- Lookup by tag-name string is not modelled. Each tag is a named field, so an unknown key cannot occur.
- Properties.TickPreservesValid and the other invariant lemmas assume setpoints with 0 <= `Pump1.Speed.SP` <= 400 and `Pump2.Speed.SP` >= 0, and a whole-number `MixingTime.PV` of at least 1. Outside these, the code itself does not keep the level in range or the counter bounded.
- No liveness or progress is proved for arbitrary setpoints. Filling can stall forever at exactly 600 (`StallAtSwitchLevel`).
- The claim that every full cycle repeats the same trajectory apart from the agitator noise is not proved as one statement. It would need the exact level and temperature at each of the roughly 140 ticks of a cycle with the default setpoints. The parts are proved: `FillingCountup` and `CrossingSwitchesSupply` for filling, `MixingDuration` for mixing, and `DrainAfterMixing` for draining. `ReachableTemperature` shows that from the initial table every cycle starts at the base temperature 71.816.
