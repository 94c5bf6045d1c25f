/**
 The periodic telemetry tick: every closed breaker except the tie gets fresh
 readings; generators re-draw their output, mains and feeders random-walk.
 */
module Telemetry {
  import opened Devices
  import opened Switchgear

  /** The three `Math.random()` draws one breaker consumes in one tick. */
  datatype TickDraws = TickDraws(voltage: Draw, current: Draw, power: Draw)

  /** Width of the voltage jitter band: 200 V on the mains, 50 V elsewhere. */
  function JitterWidth(id: DeviceId): (w: real)
    ensures RoleOf(id) == Main ==> w == 200.0
    ensures RoleOf(id) != Main ==> w == 50.0
  {
    KeyTests(id);
    if Includes(Key(id), "main") then 200.0 else 50.0
  }

  /**
   What one tick may do to one breaker: nothing to an open breaker or to the
   tie; a closed generator supplies between 600 and 700 kW at a current equal
   to its power over 4.16 kV, with its voltage within 25 V of 4160; a closed
   main or feeder gets a voltage within half the jitter width of its base and
   moves its current by at most 5 A and its power by at most 25 kW.
   */
  predicate TickAllows(id: DeviceId, before: Device, after: Device)
  {
    after.closed == before.closed
    && (if !before.closed || RoleOf(id) == BusTie then after == before
        else if RoleOf(id) == Generator then
          && -700.0 < after.power <= -600.0
          && after.current * 4.16 == after.power
          && 4135.0 <= after.voltage < 4185.0
        else
          var base := if RoleOf(id) == Main then 13800.0 else 4160.0;
          var half := if RoleOf(id) == Main then 100.0 else 25.0;
          && base - half <= after.voltage < base + half
          && -5.0 <= after.current - before.current < 5.0
          && -25.0 <= after.power - before.power < 25.0)
  }

  /** One breaker's new record after a tick. */
  function TickDevice(id: DeviceId, d: Device, r: TickDraws): (e: Device)
    ensures TickAllows(id, d, e)
  {
    if !d.closed then d
    else
      var base := BaseVoltage(id);
      if Includes(Key(id), "gen") then
        var genPower := -600.0 - r.power * 100.0;
        d.(voltage := base + (r.voltage - 0.5) * 50.0,
           current := genPower / (base / 1000.0),
           power := genPower)
      else if Key(id) != "tie" then
        d.(voltage := base + (r.voltage - 0.5) * JitterWidth(id),
           current := d.current + (r.current - 0.5) * 10.0,
           power := d.power + (r.power - 0.5) * 50.0)
      else d
  }

  /**
   `TickAllows` is exact: every outcome it allows is what the tick yields for
   some draws.
   */
  lemma TickCoversAllowed(id: DeviceId, before: Device, after: Device)
    requires TickAllows(id, before, after)
    ensures exists r: TickDraws :: TickDevice(id, before, r) == after
  {
    if !before.closed || RoleOf(id) == BusTie {
      assert TickDevice(id, before, TickDraws(0.0, 0.0, 0.0)) == after;
    } else if RoleOf(id) == Generator {
      TickCoversGenerator(id, before, after);
    } else {
      TickCoversWalk(id, before, after);
    }
  }

  /** The generator case of `TickCoversAllowed`. */
  lemma TickCoversGenerator(id: DeviceId, before: Device, after: Device)
    requires before.closed && RoleOf(id) == Generator
    requires TickAllows(id, before, after)
    ensures exists r: TickDraws :: TickDevice(id, before, r) == after
  {
    var rv: Draw := (after.voltage - 4160.0) / 50.0 + 0.5;
    var rp: Draw := (-600.0 - after.power) / 100.0;
    assert TickDevice(id, before, TickDraws(rv, 0.0, rp)) == after;
  }

  /** The main and feeder case of `TickCoversAllowed`. */
  lemma TickCoversWalk(id: DeviceId, before: Device, after: Device)
    requires before.closed && (RoleOf(id) == Main || RoleOf(id) == Feeder)
    requires TickAllows(id, before, after)
    ensures exists r: TickDraws :: TickDevice(id, before, r) == after
  {
    var rc: Draw := (after.current - before.current) / 10.0 + 0.5;
    var rp: Draw := (after.power - before.power) / 50.0 + 0.5;
    var rv: Draw;
    if RoleOf(id) == Main {
      rv := (after.voltage - 13800.0) / 200.0 + 0.5;
    } else {
      rv := (after.voltage - 4160.0) / 50.0 + 0.5;
    }
    assert TickDevice(id, before, TickDraws(rv, rc, rp)) == after;
  }

  /** One tick over the whole line-up, each breaker using its own draws. */
  function Tick(s: Switchgear, draws: DeviceId -> TickDraws): (t: Switchgear)
    ensures forall id :: TickAllows(id, s.Get(id), t.Get(id))
  {
    TickedPerDevice(s, draws);
    Ticked(s, draws)
  }

  /** The record-by-record construction of a tick. */
  function Ticked(s: Switchgear, draws: DeviceId -> TickDraws): Switchgear
  {
    Switchgear(
      TickDevice(Main1, s.main1, draws(Main1)),
      TickDevice(Main2, s.main2, draws(Main2)),
      TickDevice(Tie, s.tie, draws(Tie)),
      TickDevice(Feeder1, s.feeder1, draws(Feeder1)),
      TickDevice(Feeder2, s.feeder2, draws(Feeder2)),
      TickDevice(Gen1, s.gen1, draws(Gen1)),
      TickDevice(Feeder4, s.feeder4, draws(Feeder4)),
      TickDevice(Feeder5, s.feeder5, draws(Feeder5)),
      TickDevice(Gen2, s.gen2, draws(Gen2)),
      TickDevice(Feeder7, s.feeder7, draws(Feeder7)))
  }

  /** Each breaker of the constructed line-up is that breaker's own tick. */
  lemma TickedPerDevice(s: Switchgear, draws: DeviceId -> TickDraws)
    ensures forall id :: TickAllows(id, s.Get(id), Ticked(s, draws).Get(id))
  {
  }

  /** A tick keeps the invariant: it never touches open breakers or the tie. */
  lemma TickKeepsSafe(s: Switchgear, draws: DeviceId -> TickDraws)
    requires Safe(s)
    ensures Safe(Tick(s, draws))
  {
  }

  /** `n` ticks in a row, every breaker drawing the same values every time. */
  function TickTimes(s: Switchgear, r: TickDraws, n: nat): Switchgear
    decreases n
  {
    if n == 0 then s else Tick(TickTimes(s, r, n - 1), _ => r)
  }

  /**
   The main and feeder random walk has no bound: with a power draw of 0.9 on
   every tick, a closed feeder's power climbs by 20 kW per tick, forever.
   */
  lemma {:induction false} FeederPowerDrifts(s: Switchgear, r: TickDraws, n: nat)
    requires s.feeder1.closed
    requires r.power == 0.9
    ensures TickTimes(s, r, n).feeder1.closed
    ensures TickTimes(s, r, n).feeder1.power == s.feeder1.power + 20.0 * n as real
    decreases n
  {
    if n > 0 {
      FeederPowerDrifts(s, r, n - 1);
    }
  }
}
