/**
 The ten breakers of the switchgear line-up: their fixed identities, the
 string keys the dashboard stores them under, the role each key implies,
 and the readings every breaker carries.
 */
module Devices {

  /** The ten fixed breakers, in the order the dashboard declares them. */
  datatype DeviceId =
    | Main1 | Main2 | Tie | Feeder1 | Feeder2 | Gen1 | Feeder4 | Feeder5 | Gen2 | Feeder7

  datatype Option<T> = None | Some(value: T)

  /** The role a breaker plays in the line-up. */
  datatype Role = Main | BusTie | Feeder | Generator

  /** The dashboard's key for each breaker. */
  function Key(id: DeviceId): string
  {
    match id
    case Main1 => "main1"
    case Main2 => "main2"
    case Tie => "tie"
    case Feeder1 => "feeder1"
    case Feeder2 => "feeder2"
    case Gen1 => "gen1"
    case Feeder4 => "feeder4"
    case Feeder5 => "feeder5"
    case Gen2 => "gen2"
    case Feeder7 => "feeder7"
  }

  /** Substring containment, as JavaScript's `String.prototype.includes`. */
  predicate Includes(hay: string, needle: string)
    decreases |hay|
  {
    needle <= hay || (|hay| > 0 && Includes(hay[1..], needle))
  }

  /** `needle` occurs in `hay` starting at offset `i`. */
  predicate OccursAt(hay: string, needle: string, i: int)
  {
    0 <= i && i + |needle| <= |hay| && hay[i..i + |needle|] == needle
  }

  /** `Includes` is the usual "occurs at some offset" relation. */
  lemma {:induction false} IncludesIffOccurs(hay: string, needle: string)
    ensures Includes(hay, needle) <==> exists i :: OccursAt(hay, needle, i)
    decreases |hay|
  {
    if needle <= hay {
      assert OccursAt(hay, needle, 0);
    } else if |hay| > 0 {
      IncludesIffOccurs(hay[1..], needle);
      if Includes(hay[1..], needle) {
        var i :| OccursAt(hay[1..], needle, i);
        assert hay[1..][i..i + |needle|] == hay[i + 1..i + 1 + |needle|];
        assert OccursAt(hay, needle, i + 1);
      }
      if i :| OccursAt(hay, needle, i) {
        if i > 0 {
          assert hay[1..][i - 1..i - 1 + |needle|] == hay[i..i + |needle|];
          assert OccursAt(hay[1..], needle, i - 1);
        }
      }
    }
  }

  /** A needle whose first character never occurs in `hay` is not included. */
  lemma {:induction false} FirstCharAbsent(hay: string, needle: string)
    requires |needle| > 0 && needle[0] !in hay
    ensures !Includes(hay, needle)
    decreases |hay|
  {
    if |hay| > 0 {
      FirstCharAbsent(hay[1..], needle);
    }
  }

  /** Only the two mains' keys contain "main". */
  lemma MainKeys(id: DeviceId)
    ensures Includes(Key(id), "main") <==> id == Main1 || id == Main2
  {
    match id
    case Main1 => assert "main1"[..4] == "main";
    case Main2 => assert "main2"[..4] == "main";
    case Tie => FirstCharAbsent("tie", "main");
    case Feeder1 => FirstCharAbsent("feeder1", "main");
    case Feeder2 => FirstCharAbsent("feeder2", "main");
    case Gen1 => FirstCharAbsent("gen1", "main");
    case Feeder4 => FirstCharAbsent("feeder4", "main");
    case Feeder5 => FirstCharAbsent("feeder5", "main");
    case Gen2 => FirstCharAbsent("gen2", "main");
    case Feeder7 => FirstCharAbsent("feeder7", "main");
  }

  /** Only the two generators' keys contain "gen". */
  lemma GenKeys(id: DeviceId)
    ensures Includes(Key(id), "gen") <==> id == Gen1 || id == Gen2
  {
    match id
    case Main1 => FirstCharAbsent("main1", "gen");
    case Main2 => FirstCharAbsent("main2", "gen");
    case Tie => FirstCharAbsent("tie", "gen");
    case Feeder1 => FirstCharAbsent("feeder1", "gen");
    case Feeder2 => FirstCharAbsent("feeder2", "gen");
    case Gen1 => assert "gen1"[..3] == "gen";
    case Feeder4 => FirstCharAbsent("feeder4", "gen");
    case Feeder5 => FirstCharAbsent("feeder5", "gen");
    case Gen2 => assert "gen2"[..3] == "gen";
    case Feeder7 => FirstCharAbsent("feeder7", "gen");
  }

  /** The substring tests the dashboard applies to each key. */
  lemma KeyTests(id: DeviceId)
    ensures Includes(Key(id), "main") <==> id == Main1 || id == Main2
    ensures Includes(Key(id), "gen") <==> id == Gen1 || id == Gen2
    ensures Key(id) == "tie" <==> id == Tie
  {
    MainKeys(id);
    GenKeys(id);
  }

  /**
   The role a key implies, tested in the dashboard's order: a key containing
   "gen" is a generator, one containing "main" a main, the key "tie" the bus
   tie, and anything else a feeder.
   */
  function RoleOf(id: DeviceId): (r: Role)
    ensures r == Main <==> id == Main1 || id == Main2
    ensures r == Generator <==> id == Gen1 || id == Gen2
    ensures r == BusTie <==> id == Tie
    ensures r == Feeder <==> id in {Feeder1, Feeder2, Feeder4, Feeder5, Feeder7}
  {
    KeyTests(id);
    var key := Key(id);
    if Includes(key, "gen") then Generator
    else if Includes(key, "main") then Main
    else if key == "tie" then BusTie
    else Feeder
  }

  /** Parses a dashboard key back to the breaker it names, if any. */
  function ParseKey(key: string): (r: Option<DeviceId>)
    ensures r.Some? ==> Key(r.value) == key
    ensures r.None? <==> forall id :: Key(id) != key
  {
    if key == "main1" then Some(Main1)
    else if key == "main2" then Some(Main2)
    else if key == "tie" then Some(Tie)
    else if key == "feeder1" then Some(Feeder1)
    else if key == "feeder2" then Some(Feeder2)
    else if key == "gen1" then Some(Gen1)
    else if key == "feeder4" then Some(Feeder4)
    else if key == "feeder5" then Some(Feeder5)
    else if key == "gen2" then Some(Gen2)
    else if key == "feeder7" then Some(Feeder7)
    else None
  }

  /** Every breaker's key parses back to that breaker. */
  lemma ParseKeyRoundTrip(id: DeviceId)
    ensures ParseKey(Key(id)) == Some(id)
  {
  }

  /** A breaker's position and its three readings (V, A, kW; negative kW = supplying). */
  datatype Device = Device(closed: bool, voltage: real, current: real, power: real)

  /** All three readings are zero. */
  predicate Zeroed(d: Device)
  {
    d.voltage == 0.0 && d.current == 0.0 && d.power == 0.0
  }

  /** Absolute value, as `Math.abs`. */
  function Abs(x: real): (a: real)
    ensures a >= 0.0 && (a == x || a == -x)
  {
    if x < 0.0 then -x else x
  }

  /** A value returned by `Math.random()`: a real in [0, 1). */
  type Draw = r: real | 0.0 <= r < 1.0

  /** The nominal voltage class: 13.8 kV for the mains, 4.16 kV downstream. */
  function BaseVoltage(id: DeviceId): (v: real)
    ensures RoleOf(id) == Main ==> v == 13800.0
    ensures RoleOf(id) != Main ==> v == 4160.0
  {
    KeyTests(id);
    if Includes(Key(id), "main") then 13800.0 else 4160.0
  }
}
