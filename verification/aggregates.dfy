/**
 The header figures the dashboard derives from the line-up: net power over
 the closed breakers, the number of closed breakers, and total generation.
 */
module Aggregates {
  import opened Devices
  import opened Switchgear

  /** Every breaker, in the dashboard's declaration order. */
  const AllIds: seq<DeviceId> := [Main1, Main2, Tie, Feeder1, Feeder2, Gen1, Feeder4, Feeder5, Gen2, Feeder7]

  /** No breaker is listed twice. */
  predicate Distinct(ids: seq<DeviceId>)
  {
    forall i, j :: 0 <= i < j < |ids| ==> ids[i] != ids[j]
  }

  /** `AllIds` lists each of the ten breakers exactly once. */
  lemma AllIdsEnumerates()
    ensures |AllIds| == 10 && Distinct(AllIds)
    ensures forall id :: id in AllIds
  {
    forall id ensures id in AllIds {
      match id
      case Main1 => assert AllIds[0] == id;
      case Main2 => assert AllIds[1] == id;
      case Tie => assert AllIds[2] == id;
      case Feeder1 => assert AllIds[3] == id;
      case Feeder2 => assert AllIds[4] == id;
      case Gen1 => assert AllIds[5] == id;
      case Feeder4 => assert AllIds[6] == id;
      case Feeder5 => assert AllIds[7] == id;
      case Gen2 => assert AllIds[8] == id;
      case Feeder7 => assert AllIds[9] == id;
    }
  }

  /** What a breaker adds to the net power figure: its power if closed, else nothing. */
  function Contribution(d: Device): real
  {
    if d.closed then d.power else 0.0
  }

  /** What a breaker adds to the closed count. */
  function Tally(d: Device): nat
  {
    if d.closed then 1 else 0
  }

  /** Net power over the closed breakers among `ids`. */
  function ClosedPower(s: Switchgear, ids: seq<DeviceId>): real
    decreases |ids|
  {
    if ids == [] then 0.0 else Contribution(s.Get(ids[0])) + ClosedPower(s, ids[1..])
  }

  /** How many of `ids` are closed. */
  function ClosedTally(s: Switchgear, ids: seq<DeviceId>): (n: nat)
    ensures n <= |ids|
    decreases |ids|
  {
    if ids == [] then 0 else Tally(s.Get(ids[0])) + ClosedTally(s, ids[1..])
  }

  /** The closed breakers. */
  function ClosedSet(s: Switchgear): set<DeviceId>
  {
    set id | id in AllIds && s.Get(id).closed
  }

  /**
   Net power: the signed sum of power over the closed breakers. In a line-up
   satisfying the invariant that is the plain sum of all ten power readings,
   since an open breaker reads zero.
   */
  function TotalPower(s: Switchgear): (p: real)
    ensures Safe(s) ==> p == PowerSum(s)
  {
    SafeClosedPowerIsPlainSum(s);
    ClosedPower(s, AllIds)
  }

  /** The plain sum of all ten power readings, open or closed. */
  function PowerSum(s: Switchgear): real
  {
    s.main1.power + s.main2.power + s.tie.power
    + s.feeder1.power + s.feeder2.power + s.gen1.power
    + s.feeder4.power + s.feeder5.power + s.gen2.power + s.feeder7.power
  }

  /** Under the invariant every breaker contributes its own power reading. */
  lemma SafeClosedPowerIsPlainSum(s: Switchgear)
    ensures Safe(s) ==> ClosedPower(s, AllIds) == PowerSum(s)
  {
    if !Safe(s) {
      return;
    }
    forall id ensures Contribution(s.Get(id)) == s.Get(id).power {
      assert DeviceSafe(id, s.Get(id));
    }
    var ids := AllIds;
    assert ClosedPower(s, ids[9..]) == s.feeder7.power;
    assert ClosedPower(s, ids[7..]) == s.feeder5.power + s.gen2.power + ClosedPower(s, ids[9..]);
    assert ClosedPower(s, ids[5..]) == s.gen1.power + s.feeder4.power + ClosedPower(s, ids[7..]);
    assert ClosedPower(s, ids[3..]) == s.feeder1.power + s.feeder2.power + ClosedPower(s, ids[5..]);
    assert ClosedPower(s, ids[1..]) == s.main2.power + s.tie.power + ClosedPower(s, ids[3..]);
    assert ClosedPower(s, ids) == s.main1.power + ClosedPower(s, ids[1..]);
  }

  /** The number of closed breakers, out of ten. */
  function ClosedCount(s: Switchgear): (n: nat)
    ensures n <= 10
    ensures n == |ClosedSet(s)|
  {
    AllIdsEnumerates();
    TallyIsCardinality(s, AllIds);
    ClosedTally(s, AllIds)
  }

  /**
   Total generation: the magnitudes of both generators' power, whatever
   their position. In a line-up satisfying the invariant this is the output
   of the closed generators, and it is never negative.
   */
  function TotalGeneration(s: Switchgear): (g: real)
    ensures g >= 0.0
    ensures Safe(s) ==> g == -(Contribution(s.gen1) + Contribution(s.gen2))
  {
    assert Safe(s) ==> DeviceSafe(Gen1, s.Get(Gen1)) && DeviceSafe(Gen2, s.Get(Gen2));
    assert RoleOf(Gen1) == Generator && RoleOf(Gen2) == Generator;
    Abs(s.gen1.power) + Abs(s.gen2.power)
  }

  /** For distinct ids, the tally is the number of closed breakers among them. */
  lemma {:induction false} TallyIsCardinality(s: Switchgear, ids: seq<DeviceId>)
    requires Distinct(ids)
    ensures ClosedTally(s, ids) == |set id | id in ids && s.Get(id).closed|
    decreases |ids|
  {
    if ids != [] {
      var rest := set id | id in ids[1..] && s.Get(id).closed;
      var head := if s.Get(ids[0]).closed then {ids[0]} else {};
      assert Distinct(ids[1..]) by {
        forall i, j | 0 <= i < j < |ids[1..]| ensures ids[1..][i] != ids[1..][j] {
          assert ids[1..][i] == ids[i + 1] && ids[1..][j] == ids[j + 1];
        }
      }
      TallyIsCardinality(s, ids[1..]);
      assert ids[0] !in ids[1..] by {
        forall k | 0 <= k < |ids[1..]| ensures ids[1..][k] != ids[0] {
          assert ids[1..][k] == ids[k + 1];
        }
      }
      assert (set id | id in ids && s.Get(id).closed) == head + rest by {
        assert forall id :: id in ids <==> id == ids[0] || id in ids[1..];
      }
      assert head !! rest;
    }
  }

  /**
   Replacing one listed breaker's record shifts the net power and the closed
   count by exactly that breaker's change; the other breakers contribute as before.
   */
  lemma {:induction false} ReplaceOne(s: Switchgear, t: Switchgear, id: DeviceId, ids: seq<DeviceId>)
    requires Distinct(ids)
    requires forall other :: other != id ==> t.Get(other) == s.Get(other)
    ensures id in ids ==> ClosedPower(t, ids) == ClosedPower(s, ids) - Contribution(s.Get(id)) + Contribution(t.Get(id))
    ensures id in ids ==> ClosedTally(t, ids) as int == ClosedTally(s, ids) as int - Tally(s.Get(id)) as int + Tally(t.Get(id)) as int
    ensures id !in ids ==> ClosedPower(t, ids) == ClosedPower(s, ids) && ClosedTally(t, ids) == ClosedTally(s, ids)
    decreases |ids|
  {
    if ids != [] {
      assert Distinct(ids[1..]) by {
        forall i, j | 0 <= i < j < |ids[1..]| ensures ids[1..][i] != ids[1..][j] {
          assert ids[1..][i] == ids[i + 1] && ids[1..][j] == ids[j + 1];
        }
      }
      ReplaceOne(s, t, id, ids[1..]);
      if ids[0] == id {
        assert id !in ids[1..] by {
          forall k | 0 <= k < |ids[1..]| ensures ids[1..][k] != id {
            assert ids[1..][k] == ids[k + 1];
          }
        }
      } else {
        assert id in ids <==> id in ids[1..];
      }
    }
  }

  /**
   Replacing one breaker's record moves the closed count and the net power
   by that breaker's change alone.
   */
  lemma ReplaceShiftsTotals(s: Switchgear, t: Switchgear, id: DeviceId)
    requires forall other :: other != id ==> t.Get(other) == s.Get(other)
    ensures ClosedCount(t) as int == ClosedCount(s) as int - Tally(s.Get(id)) as int + Tally(t.Get(id)) as int
    ensures TotalPower(t) == TotalPower(s) - Contribution(s.Get(id)) + Contribution(t.Get(id))
  {
    AllIdsEnumerates();
    ReplaceOne(s, t, id, AllIds);
    assert ClosedCount(t) == ClosedTally(t, AllIds) && ClosedCount(s) == ClosedTally(s, AllIds);
  }

  /**
   A click moves the closed count by exactly one (up on close, down on open)
   and the net power by the clicked breaker's change alone.
   */
  lemma ToggleShiftsTotals(s: Switchgear, id: DeviceId, rc: Draw, rp: Draw)
    ensures var t := Toggle(s, id, rc, rp);
      && ClosedCount(t) == (if t.Get(id).closed then ClosedCount(s) + 1 else ClosedCount(s) - 1)
      && TotalPower(t) == TotalPower(s) - Contribution(s.Get(id)) + Contribution(t.Get(id))
  {
    ReplaceShiftsTotals(s, Toggle(s, id, rc, rp), id);
  }

  /** At start-up nine of the ten breakers are closed. */
  lemma InitialClosedCount()
    ensures ClosedCount(Initial) == 9
  {
    var s := Initial;
    var ids := AllIds;
    assert ClosedTally(s, ids[9..]) == 1;
    assert ClosedTally(s, ids[7..]) == 2 + ClosedTally(s, ids[9..]);
    assert ClosedTally(s, ids[5..]) == 2 + ClosedTally(s, ids[7..]);
    assert ClosedTally(s, ids[3..]) == 2 + ClosedTally(s, ids[5..]);
    assert ClosedTally(s, ids[1..]) == 1 + ClosedTally(s, ids[3..]);
    assert ClosedTally(s, ids) == 1 + ClosedTally(s, ids[1..]);
  }

  /** The start-up header: 15570 kW net and 1270 kW generated. */
  lemma InitialPower()
    ensures TotalPower(Initial) == 15570.0
    ensures TotalGeneration(Initial) == 1270.0
  {
    var s := Initial;
    var ids := AllIds;
    assert ClosedPower(s, ids[9..]) == 990.0;
    assert ClosedPower(s, ids[7..]) == 1210.0 - 660.0 + ClosedPower(s, ids[9..]);
    assert ClosedPower(s, ids[5..]) == -610.0 + 1120.0 + ClosedPower(s, ids[7..]);
    assert ClosedPower(s, ids[3..]) == 1040.0 + 950.0 + ClosedPower(s, ids[5..]);
    assert ClosedPower(s, ids[1..]) == 5680.0 + 0.0 + ClosedPower(s, ids[3..]);
    assert ClosedPower(s, ids) == 5850.0 + ClosedPower(s, ids[1..]);
  }
}
