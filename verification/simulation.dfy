/**
 The dashboard as a whole: the line-up plus the history window, driven by
 two kinds of event — a click on a breaker and a timer tick. Every state
 reached from start-up keeps the per-breaker invariant and a bounded window.
 */
module Simulation {
  import opened Devices
  import opened Switchgear
  import opened Telemetry
  import opened History

  /** A click on one breaker, or a timer tick with its draws and time label. */
  datatype Event =
    | Click(id: DeviceId, rc: Draw, rp: Draw)
    | Timer(draws: DeviceId -> TickDraws, time: string)

  datatype Dashboard = Dashboard(gear: Switchgear, history: seq<Sample>)

  /** Start-up: the initial line-up and an empty window. */
  const Start := Dashboard(Initial, [])

  /** The invariant of every reachable dashboard. */
  predicate Healthy(d: Dashboard)
  {
    Safe(d.gear) && |d.history| <= Capacity
  }

  /**
   One event. A click toggles its breaker and leaves the window alone. A tick
   records a sample of the line-up as it stood before the tick, then re-draws
   the readings. That the window ends with the sample is a corollary of the
   window clause, stated for the reader.
   */
  function Step(d: Dashboard, ev: Event): (n: Dashboard)
    ensures ev.Click? ==> n.history == d.history
    ensures ev.Click? ==> n.gear.Get(ev.id).closed == !d.gear.Get(ev.id).closed
    ensures ev.Click? && !n.gear.Get(ev.id).closed ==> Zeroed(n.gear.Get(ev.id))
    ensures ev.Click? && n.gear.Get(ev.id).closed ==> ClosingBand(ev.id, n.gear.Get(ev.id))
    ensures ev.Click? ==> forall id :: id != ev.id ==> n.gear.Get(id) == d.gear.Get(id)
    ensures ev.Timer? ==> n.history == LastN(d.history + [SampleOf(d.gear, ev.time)], Capacity)
    ensures ev.Timer? ==> n.history[|n.history| - 1] == SampleOf(d.gear, ev.time)
    ensures ev.Timer? ==> forall id :: TickAllows(id, d.gear.Get(id), n.gear.Get(id))
  {
    match ev
    case Click(id, rc, rp) =>
      Dashboard(Toggle(d.gear, id, rc, rp), d.history)
    case Timer(draws, time) =>
      Dashboard(Tick(d.gear, draws), Record(d.history, SampleOf(d.gear, time)))
  }

  /** One event keeps a healthy dashboard healthy. */
  lemma StepKeepsHealthy(d: Dashboard, ev: Event)
    requires Healthy(d)
    ensures Healthy(Step(d, ev))
  {
    match ev
    case Click(id, rc, rp) => ToggleKeepsSafe(d.gear, id, rc, rp);
    case Timer(draws, time) => TickKeepsSafe(d.gear, draws);
  }

  /**
   While the tie stays closed its readings do not change: a tick never
   touches it, and a click on another breaker leaves it alone.
   */
  lemma TieHoldsWhileClosed(d: Dashboard, ev: Event)
    requires d.gear.tie.closed && Step(d, ev).gear.tie.closed
    ensures Step(d, ev).gear.tie == d.gear.tie
  {
    assert d.gear.Get(Tie).closed && Step(d, ev).gear.Get(Tie).closed;
    if ev.Timer? {
      assert TickAllows(Tie, d.gear.Get(Tie), Step(d, ev).gear.Get(Tie));
    }
  }

  /** The events applied in order. */
  function Run(d: Dashboard, evs: seq<Event>): Dashboard
    decreases |evs|
  {
    if evs == [] then d else Run(Step(d, evs[0]), evs[1..])
  }

  /** Running any sequence of events from a healthy dashboard keeps it healthy. */
  lemma {:induction false} RunKeepsHealthy(d: Dashboard, evs: seq<Event>)
    requires Healthy(d)
    ensures Healthy(Run(d, evs))
    decreases |evs|
  {
    if evs != [] {
      StepKeepsHealthy(d, evs[0]);
      RunKeepsHealthy(Step(d, evs[0]), evs[1..]);
    }
  }

  /**
   Every dashboard reached from start-up: open breakers read zero, closed
   generators supply power, and the window holds at most 15 samples.
   */
  lemma Reachable(evs: seq<Event>)
    ensures var d := Run(Start, evs);
      && |d.history| <= Capacity
      && (forall id :: !d.gear.Get(id).closed ==> Zeroed(d.gear.Get(id)))
      && (forall id :: d.gear.Get(id).closed && RoleOf(id) == Generator ==> d.gear.Get(id).power < 0.0)
  {
    InitialSafe();
    RunKeepsHealthy(Start, evs);
    var g := Run(Start, evs).gear;
    forall id ensures !g.Get(id).closed ==> Zeroed(g.Get(id)) {
      assert DeviceSafe(id, g.Get(id));
    }
    forall id ensures g.Get(id).closed && RoleOf(id) == Generator ==> g.Get(id).power < 0.0 {
      assert DeviceSafe(id, g.Get(id));
    }
  }
}
