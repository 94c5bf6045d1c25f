/**
 Bus energization, derived from breaker positions on every read. Main 1 and
 generator 1 feed distribution bus A, main 2 and generator 2 feed bus B, and
 the closed tie joins the two buses.
 */
module Topology {
  import opened Devices
  import opened Switchgear

  datatype Bus = BusA | BusB

  /** The three energization flags the dashboard colours the diagram with. */
  datatype Energization = Energization(mainBus: bool, busA: bool, busB: bool)

  /** A breaker that can put power onto a distribution bus. */
  predicate IsSource(id: DeviceId)
  {
    RoleOf(id) == Main || RoleOf(id) == Generator
  }

  /** The sources are exactly the two mains and the two generators. */
  lemma Sources()
    ensures forall id :: IsSource(id) <==> id in {Main1, Main2, Gen1, Gen2}
  {
  }

  /** The distribution bus a breaker hangs from; the tie hangs from neither. */
  predicate OnBus(id: DeviceId, bus: Bus)
  {
    match bus
    case BusA => id in {Main1, Gen1, Feeder1, Feeder2, Feeder4}
    case BusB => id in {Main2, Gen2, Feeder5, Feeder7}
  }

  /**
   Reference notion of energization: some closed source sits on `bus`, or on
   the other bus with the tie closed.
   */
  ghost predicate Fed(s: Switchgear, bus: Bus)
  {
    exists src :: IsSource(src) && s.Get(src).closed && (OnBus(src, bus) || s.tie.closed)
  }

  /**
   The render-time resolver: the main bus is live when either main is closed;
   each distribution bus is live exactly when a closed source reaches it.
   */
  function Resolve(s: Switchgear): (e: Energization)
    ensures e.mainBus <==> s.main1.closed || s.main2.closed
    ensures e.busA <==> Fed(s, BusA)
    ensures e.busB <==> Fed(s, BusB)
  {
    Sources();
    assert IsSource(Main1) && IsSource(Main2) && IsSource(Gen1) && IsSource(Gen2);
    Energization(
      s.main1.closed || s.main2.closed,
      s.main1.closed || (s.tie.closed && s.main2.closed) || s.gen1.closed || (s.tie.closed && s.gen2.closed),
      s.main2.closed || (s.tie.closed && s.main1.closed) || s.gen2.closed || (s.tie.closed && s.gen1.closed))
  }

  /** Energization depends on the positions of the two mains, the tie and the two generators only. */
  lemma ResolveReadsSourcesAndTie(s: Switchgear, t: Switchgear)
    requires forall id :: IsSource(id) || id == Tie ==> s.Get(id).closed == t.Get(id).closed
    ensures Resolve(s) == Resolve(t)
  {
    Sources();
    assert s.Get(Main1).closed == t.Get(Main1).closed && s.Get(Main2).closed == t.Get(Main2).closed;
    assert s.Get(Gen1).closed == t.Get(Gen1).closed && s.Get(Gen2).closed == t.Get(Gen2).closed;
    assert s.Get(Tie).closed == t.Get(Tie).closed;
  }

  /** With the tie open, each bus is fed only by its own main and generator. */
  lemma TieOpenIsolates(s: Switchgear)
    requires !s.tie.closed
    ensures Resolve(s).busA <==> s.main1.closed || s.gen1.closed
    ensures Resolve(s).busB <==> s.main2.closed || s.gen2.closed
  {
  }

  /** The line-up seen from the other end: mains and generators swap sides. */
  function Mirror(s: Switchgear): (m: Switchgear)
    ensures m.main1 == s.main2 && m.main2 == s.main1
    ensures m.gen1 == s.gen2 && m.gen2 == s.gen1
    ensures m.tie == s.tie
  {
    s.(main1 := s.main2, main2 := s.main1, gen1 := s.gen2, gen2 := s.gen1)
  }

  /** Swapping the two sides swaps the two buses and leaves the main bus alone. */
  lemma MirrorSwapsBuses(s: Switchgear)
    ensures Resolve(Mirror(s)).busA == Resolve(s).busB
    ensures Resolve(Mirror(s)).busB == Resolve(s).busA
    ensures Resolve(Mirror(s)).mainBus == Resolve(s).mainBus
  {
  }

  /** At start-up (tie open, everything else closed) both buses are live. */
  lemma InitialBothLive()
    ensures Resolve(Initial) == Energization(true, true, true)
  {
  }

  /**
   With every source open both buses are dead, whatever the tie does; with
   main 1 open, a closed main 2 still feeds bus A through a closed tie.
   */
  lemma OutageScenarios(s: Switchgear)
    ensures !s.main1.closed && !s.main2.closed && !s.gen1.closed && !s.gen2.closed ==>
      !Resolve(s).busA && !Resolve(s).busB
    ensures !s.main1.closed && s.tie.closed && s.main2.closed ==> Resolve(s).busA
  {
  }

  /** The motor under a feeder turns when its bus is live and its own feeder is closed. */
  function MotorRunning(s: Switchgear, feeder: DeviceId): (running: bool)
    requires RoleOf(feeder) == Feeder
    ensures running <==> s.Get(feeder).closed && exists bus :: OnBus(feeder, bus) && Fed(s, bus)
  {
    var e := Resolve(s);
    var bus := if feeder in {Feeder1, Feeder2, Feeder4} then BusA else BusB;
    assert OnBus(feeder, bus);
    (if bus == BusA then e.busA else e.busB) && s.Get(feeder).closed
  }

  /** Closing or opening a feeder never changes which buses are live. */
  lemma FeederToggleKeepsBuses(s: Switchgear, feeder: DeviceId)
    requires RoleOf(feeder) == Feeder
    ensures forall rc: Draw, rp: Draw :: Resolve(Toggle(s, feeder, rc, rp)) == Resolve(s)
  {
    forall rc: Draw, rp: Draw ensures Resolve(Toggle(s, feeder, rc, rp)) == Resolve(s) {
      ResolveReadsSourcesAndTie(s, Toggle(s, feeder, rc, rp));
    }
  }

  /**
   The flags the tick computes before re-drawing readings. They count a
   generator only while both mains are open; the tick never uses them.
   */
  function StaleTickResolve(s: Switchgear): (e: Energization)
    ensures e.busA ==> Resolve(s).busA
    ensures e.busB ==> Resolve(s).busB
    ensures e.mainBus == Resolve(s).mainBus
  {
    var mainBus := s.main1.closed || s.main2.closed;
    Energization(
      mainBus,
      s.main1.closed || (s.tie.closed && s.main2.closed) || (s.gen1.closed && !mainBus),
      s.main2.closed || (s.tie.closed && s.main1.closed) || (s.gen2.closed && !mainBus))
  }

  /**
   Where the two resolvers disagree on bus A: main 1 is open, main 2 does not
   reach bus A through the tie, and bus A is fed by generator 1 while main 2
   is closed, or by generator 2 through the tie while generator 1 is open.
   Bus B mirrors this with the two sides swapped.
   */
  lemma StaleTickResolveDiffers(s: Switchgear)
    ensures Resolve(s).busA != StaleTickResolve(s).busA <==>
      && !s.main1.closed && !(s.tie.closed && s.main2.closed)
      && ((s.gen1.closed && s.main2.closed) || (s.tie.closed && s.gen2.closed && !s.gen1.closed))
    ensures Resolve(s).busB != StaleTickResolve(s).busB <==>
      && !s.main2.closed && !(s.tie.closed && s.main1.closed)
      && ((s.gen2.closed && s.main1.closed) || (s.tie.closed && s.gen1.closed && !s.gen2.closed))
  {
  }

  /** Bus A lit by its own generator while main 2 is closed: the resolvers disagree. */
  lemma StaleTickResolveExample()
    ensures var s := Toggle(Initial, Main1, 0.0, 0.0);
      Resolve(s).busA && !StaleTickResolve(s).busA
  {
  }
}
