# Switchgear state engine of the power-distribution dashboard

A Dafny model of the state engine behind the single-line switchgear
dashboard in `src/App.js`. The line-up has ten breakers: two utility mains,
a bus tie, five feeders that supply motors, and two generators. The engine
has four parts, and each has its own module:

- **Switchgear** (`switchgear.dfy`): one record per breaker, holding its
  position and its voltage, current and power readings. It also models the
  toggle a click performs. Opening a breaker zeroes its readings. Closing it
  restores its role's nominal readings.
- **Telemetry** (`telemetry.dfy`): the two-second tick. A closed generator
  re-draws its output. A closed main or feeder re-draws its voltage and
  random-walks its current and power. The tie and every open breaker are
  left untouched.
- **Topology** (`topology.dfy`): derives the energization of the main bus
  and of distribution buses A and B from breaker positions. It also derives
  whether the motor under a feeder is running.
- **History** (`history.dfy`): the rolling window of the 15 newest power
  samples shown in the trend chart.

`devices.dfy` holds the breaker identities, their keys and roles, and the
readings record. `aggregates.dfy` holds the header figures (net power,
closed count, total generation). `simulation.dfy` drives the whole
dashboard with a sequence of clicks and ticks, and proves the invariants of
every reachable state.

Every `Math.random()` call is a caller-supplied `Draw`, a real in [0, 1).
So every transition is a deterministic function of its draws. Readings are
`real`. A role is derived from a breaker's key with the same substring
tests the dashboard uses (`Includes` is `String.prototype.includes`).
`RoleOf` proves which role each of the ten keys receives.

Main things proved:

- Toggle flips exactly one breaker and leaves the other nine unchanged.
- Each role's closing band is exact. Every record in the band is reachable
  from some draws (`ClosingCoversBand`). The same holds for what one tick
  may do (`TickCoversAllowed`).
- From start-up, under any sequence of clicks and ticks:
  - an open breaker reads zero;
  - a closed generator supplies between 600 and 700 kW;
  - the closed tie stays within its closing band, and its readings do not
    change for as long as it stays closed;
  - the history window never holds more than 15 samples.
- Bus A is energized exactly when a closed source on bus A, or a closed
  source on bus B with the tie closed, reaches it. The two sides mirror
  each other.

The tick body also computes its own bus flags (`src/App.js:30-32`). These
count a generator only while both mains are open, and nothing reads them.
They are modelled as `StaleTickResolve`, and `StaleTickResolveDiffers`
characterises exactly where they disagree with the render-time resolver,
bus by bus.
The rest of the model uses the render-time resolver of lines 133-135.

## Model

| member | source | states |
|---|---|---|
| Devices.RoleOf | src/App.js:92-94 | The key substring tests give main to main1/main2, generator to gen1/gen2, tie to tie, and feeder to the other five keys. |
| Devices.KeyTests | src/App.js:39-40 | `includes('main')` holds exactly for main1 and main2, `includes('gen')` exactly for gen1 and gen2, and `=== 'tie'` only for the tie. |
| Devices.IncludesIffOccurs | src/App.js:39-40 | The substring test holds exactly when the needle occurs at some offset of the key. |
| Devices.ParseKey | src/App.js:9-20 | A key parses to the breaker it names. It parses to nothing exactly when no breaker has that key. |
| Devices.ParseKeyRoundTrip | src/App.js:9-20 | Every breaker's key parses back to that breaker. |
| Devices.BaseVoltage | src/App.js:41 | The base voltage is 13800 V for mains and 4160 V for every other role. |
| Switchgear.Closing | src/App.js:90-116 | A closing breaker is closed and lands in its role's band. Generator: 4160 V, current in (-100, -80], power in (-700, -600]. Main: exactly 13800 V, 240 A, 5700 kW. Tie: 4160 V, [50, 70) A, [300, 400) kW. Feeder: 4160 V, [140, 170) A, [1000, 1200) kW. |
| Switchgear.ClosingCoversBand | src/App.js:96-116 | Every closed record in a role's band is produced by closing with some pair of draws, so the bands are exact. |
| Switchgear.Toggle | src/App.js:85-129 | Toggle negates the breaker's position. Opening leaves all three readings zero. Closing lands in the role's band. Every other breaker's record is unchanged. |
| Switchgear.ToggleKey | src/App.js:86-88 | A key that is one of the ten breaker keys toggles that breaker. Any other key is refused with an unknown-breaker error (narrower than the source for inherited keys; see Left out). |
| Switchgear.InitialSafe | src/App.js:9-20 | The start-up line-up satisfies the per-breaker invariant: the open tie reads zero and the closed generators supply power. |
| Switchgear.ToggleKeepsSafe | src/App.js:117-127 | Toggling any breaker preserves the invariant. This holds because opening zeroes regardless of role. |
| Telemetry.JitterWidth | src/App.js:55 | The voltage jitter band is 200 V wide for mains and 50 V for every other role. |
| Telemetry.TickDevice | src/App.js:38-59 | Open breakers and the tie are unchanged. A closed generator supplies power in (-700, -600] with current equal to power / 4.16, and voltage in [4135, 4185). A closed main or feeder re-draws voltage within half the jitter band of its base, and moves current by [-5, 5) A and power by [-25, 25) kW. |
| Telemetry.TickCoversAllowed | src/App.js:43-58 | Every outcome `TickDevice`'s contract allows is produced by some draws. |
| Telemetry.Tick | src/App.js:35-63 | Every breaker of the line-up moves as its own per-breaker tick allows. No position changes. |
| Telemetry.TickKeepsSafe | src/App.js:36-62 | A tick preserves the per-breaker invariant. |
| Telemetry.FeederPowerDrifts | src/App.js:56-57 | The random walk is unbounded. With a power draw of 0.9, a closed feeder 1 gains exactly 20 kW per tick, for any number of ticks. |
| Topology.Resolve | src/App.js:133-135 | The main bus is live iff main 1 or main 2 is closed. Bus A (B) is live iff some closed main or generator sits on it, or sits on the other bus while the tie is closed. |
| Topology.ResolveReadsSourcesAndTie | src/App.js:133-135 | Energization depends only on the positions of the two mains, the tie and the two generators. |
| Topology.TieOpenIsolates | src/App.js:134-135 | With the tie open, bus A is live iff main 1 or gen 1 is closed. Bus B is live iff main 2 or gen 2 is closed. |
| Topology.MirrorSwapsBuses | src/App.js:134-135 | Swapping main 1 with main 2 and gen 1 with gen 2 swaps bus A with bus B and keeps the main bus. |
| Topology.InitialBothLive | src/App.js:9-20 | At start-up the main bus and both distribution buses are live. |
| Topology.OutageScenarios | src/App.js:134-135 | With all four sources open, both buses are dead. With main 1 open, a closed main 2 feeds bus A through a closed tie. |
| Topology.MotorRunning | src/App.js:451-541 | A feeder's motor runs iff the feeder is closed and a bus it hangs from is live (feeders 1, 2 and 4 on bus A; feeders 5 and 7 on bus B). |
| Topology.FeederToggleKeepsBuses | src/App.js:108-116 | Opening or closing a feeder never changes any bus's energization. |
| Topology.StaleTickResolve | src/App.js:30-32 | The tick-time flags never claim a bus is live when the render-time resolver says it is dead. The main-bus flag is identical. |
| Topology.StaleTickResolveDiffers | src/App.js:31-32 | The two bus-A flags differ exactly when main 1 is open, main 2 does not reach bus A through the tie, and either gen 1 is closed with main 2 closed, or gen 2 feeds through the tie with gen 1 open. The bus-B flags differ exactly in the mirror case, with the sides swapped. |
| Topology.StaleTickResolveExample | src/App.js:31 | From start-up, opening main 1 leaves bus A live at render time, but the tick-time flag says it is dead. |
| History.SampleOf | src/App.js:67-73 | Generator fields are never negative. A main's field is 0 while that main is open. In a line-up satisfying the invariant, the main fields are the mains' signed power and the generator fields are the generators' output. |
| History.LastN | src/App.js:75 | For n ≥ 1, as `slice(-n)`: keeps min(|xs|, n) elements, and they are the final ones. |
| History.Record | src/App.js:74-75 | The window becomes the last 15 of old window + sample. Its length is old + 1 while there is room and 15 afterwards. It ends with the new sample. On overflow, only the oldest sample is dropped. |
| History.RecordAllKeepsNewest | src/App.js:66-76 | Recording any number of samples leaves exactly the newest 15 of old window + arrivals, in order. |
| History.FromEmpty | src/App.js:22 | From an empty window, n samples leave min(n, 15) of them, the newest, in arrival order. |
| Aggregates.AllIdsEnumerates | src/App.js:9-20 | The declaration-order list names each of the ten breakers exactly once. |
| Aggregates.TotalPower | src/App.js:267 | In a line-up satisfying the invariant, net power over the closed breakers equals the plain sum of all ten power readings. `ReplaceShiftsTotals`, `ToggleShiftsTotals` and `InitialPower` pin it down further. |
| Aggregates.SafeClosedPowerIsPlainSum | src/App.js:267 | Under the invariant every breaker's contribution to net power is its own power reading, so the filtered sum is the plain sum. |
| Aggregates.ClosedCount | src/App.js:268 | The closed count is at most ten and equals the number of closed breakers. |
| Aggregates.TallyIsCardinality | src/App.js:268 | For a list of distinct breakers, the filtered length equals the size of the set of closed breakers among them. |
| Aggregates.TotalGeneration | src/App.js:269 | Total generation is never negative. In a line-up satisfying the invariant, it equals the negated power of the closed generators. |
| Aggregates.ReplaceOne | src/App.js:267-268 | Changing one breaker's record shifts net power and the closed count by that breaker's change alone. |
| Aggregates.ReplaceShiftsTotals | src/App.js:267-268 | Replacing one breaker's record moves the closed count by that breaker's tally change and net power by its contribution change. |
| Aggregates.ToggleShiftsTotals | src/App.js:267-268 | A click moves the closed count by exactly one (up on close, down on open). Net power moves by the clicked breaker's change alone. |
| Aggregates.InitialClosedCount | src/App.js:268 | At start-up nine of the ten breakers are closed. |
| Aggregates.InitialPower | src/App.js:267-269 | At start-up the net power is 15570 kW and the generation is 1270 kW. |
| Simulation.Step | src/App.js:35-129 | A click flips its breaker, zeroes it when it opens, puts it in its role's closing band when it closes, and leaves the other nine and the window unchanged. A tick sets the window to the last 15 of the old window plus the sample of the line-up as it stood before the tick, and moves every breaker as `TickAllows` permits. |
| Simulation.TieHoldsWhileClosed | src/App.js:52 | If the tie is closed before and after one event, its record is unchanged by that event. |
| Simulation.StepKeepsHealthy | src/App.js:35-129 | One click or tick keeps both the per-breaker invariant and the window bound. |
| Simulation.RunKeepsHealthy | src/App.js:35-129 | Any sequence of clicks and ticks keeps both the per-breaker invariant and the window bound. |
| Simulation.Reachable | src/App.js:9-129 | In every state reached from start-up: open breakers read zero, closed generators have negative power, and the window holds at most 15 samples. |

## Left out

- Rendering. The `Breaker`, `Motor` and `Generator` components, the SVG diagram, the chart and the styling (`src/App.js:137-265`, `284-630`) are presentation only. `MotorRunning` covers the one energization rule they display.
- Timer lifecycle. `setInterval`/`clearInterval` and the effect that restarts on every state change (`src/App.js:25-26`, `80-83`) are scheduling. A tick is the `Timer` event.
- Clock. `new Date()`, `currentTime` and `toLocaleTimeString()` (`src/App.js:6`, `27`, `68`) are not modelled. The sample's time label is an opaque string parameter.
- Animation. The `rotation` counter (`src/App.js:79`) is presentation only.
- Randomness. `Math.random` itself is not modelled. Every draw is a parameter in [0, 1).
- Floating point. IEEE double rounding is not modelled. Readings are exact reals, so `genPower / (4160 / 1000)` is exact division by 4.16.
- React update semantics. A tick samples the history from the state rendered before the tick (the effect's `breakers`), while the tick's updater reads `prev`. `Simulation.Step` makes this explicit: it samples the pre-tick line-up and then ticks it. React's batching is not modelled.
- ToggleKey: refuses every key that is not one of the ten breakers, which differs from the source in two ways, because the model's state is a fixed ten-breaker record and the dashboard itself only ever passes the ten literal keys. First, a key naming an inherited object member (`toString`, `constructor`, `valueOf`, `hasOwnProperty`) is not refused by the source: `prev[key].closed` is `undefined`, so the update adds an eleventh, feeder-like closed record, which later ticks jitter and the header totals count. Second, for a key that is genuinely missing, reading `closed` of `undefined` throws a `TypeError` that escapes the state update and unmounts the dashboard; the model only says no new state is produced.
- Walk bounds. Mains' and feeders' current and power are an unclamped random walk, as in the source. No bound holds over many ticks, and `FeederPowerDrifts` shows the drift. The invariant therefore bounds only their voltage.
