/**
 The switchgear state — one record per breaker — and the breaker-toggle
 transition a click on a breaker performs.
 */
module Switchgear {
  import opened Devices

  /** The whole line-up: exactly one record per breaker. */
  datatype Switchgear = Switchgear(
    main1: Device, main2: Device, tie: Device,
    feeder1: Device, feeder2: Device, gen1: Device,
    feeder4: Device, feeder5: Device, gen2: Device, feeder7: Device)
  {
    /** The record of breaker `id`. */
    function Get(id: DeviceId): Device
    {
      match id
      case Main1 => main1
      case Main2 => main2
      case Tie => tie
      case Feeder1 => feeder1
      case Feeder2 => feeder2
      case Gen1 => gen1
      case Feeder4 => feeder4
      case Feeder5 => feeder5
      case Gen2 => gen2
      case Feeder7 => feeder7
    }

    /** This line-up with breaker `id`'s record replaced by `d`. */
    function With(id: DeviceId, d: Device): (t: Switchgear)
      ensures t.Get(id) == d
      ensures forall other :: other != id ==> t.Get(other) == Get(other)
    {
      match id
      case Main1 => this.(main1 := d)
      case Main2 => this.(main2 := d)
      case Tie => this.(tie := d)
      case Feeder1 => this.(feeder1 := d)
      case Feeder2 => this.(feeder2 := d)
      case Gen1 => this.(gen1 := d)
      case Feeder4 => this.(feeder4 := d)
      case Feeder5 => this.(feeder5 := d)
      case Gen2 => this.(gen2 := d)
      case Feeder7 => this.(feeder7 := d)
    }
  }

  /** The line-up at start-up: everything closed at nominal readings except the open tie. */
  const Initial := Switchgear(
    main1 := Device(true, 13800.0, 245.0, 5850.0),
    main2 := Device(true, 13800.0, 238.0, 5680.0),
    tie := Device(false, 0.0, 0.0, 0.0),
    feeder1 := Device(true, 4160.0, 145.0, 1040.0),
    feeder2 := Device(true, 4160.0, 132.0, 950.0),
    gen1 := Device(true, 4160.0, -85.0, -610.0),
    feeder4 := Device(true, 4160.0, 156.0, 1120.0),
    feeder5 := Device(true, 4160.0, 168.0, 1210.0),
    gen2 := Device(true, 4160.0, -92.0, -660.0),
    feeder7 := Device(true, 4160.0, 138.0, 990.0))

  /**
   The readings a breaker of `id`'s role may take on the instant it closes:
   a generator supplies power, a main takes fixed nameplate values, the tie
   and the feeders draw within their role's band.
   */
  predicate ClosingBand(id: DeviceId, d: Device)
  {
    match RoleOf(id)
    case Generator =>
      d.voltage == 4160.0 && -100.0 < d.current <= -80.0 && -700.0 < d.power <= -600.0
    case Main =>
      d.voltage == 13800.0 && d.current == 240.0 && d.power == 5700.0
    case BusTie =>
      d.voltage == 4160.0 && 50.0 <= d.current < 70.0 && 300.0 <= d.power < 400.0
    case Feeder =>
      d.voltage == 4160.0 && 140.0 <= d.current < 170.0 && 1000.0 <= d.power < 1200.0
  }

  /** The closed record a breaker gets when it closes, given the two random draws. */
  function Closing(id: DeviceId, rc: Draw, rp: Draw): (d: Device)
    ensures d.closed
    ensures ClosingBand(id, d)
  {
    var key := Key(id);
    var isMain := Includes(key, "main");
    var isTie := key == "tie";
    if Includes(key, "gen") then
      Device(true, 4160.0, -80.0 - rc * 20.0, -600.0 - rp * 100.0)
    else
      Device(true,
             if isMain then 13800.0 else 4160.0,
             if isMain then 240.0 else if isTie then 50.0 + rc * 20.0 else 140.0 + rc * 30.0,
             if isMain then 5700.0 else if isTie then 300.0 + rp * 100.0 else 1000.0 + rp * 200.0)
  }

  /**
   The bands are exact: every record in a role's band is what closing yields
   for some pair of draws.
   */
  lemma ClosingCoversBand(id: DeviceId, d: Device)
    requires d.closed && ClosingBand(id, d)
    ensures exists rc: Draw, rp: Draw :: Closing(id, rc, rp) == d
  {
    match RoleOf(id)
    case Generator =>
      var rc: Draw := (-80.0 - d.current) / 20.0;
      var rp: Draw := (-600.0 - d.power) / 100.0;
      assert Closing(id, rc, rp) == d;
    case Main =>
      assert Closing(id, 0.0, 0.0) == d;
    case BusTie =>
      var rc: Draw := (d.current - 50.0) / 20.0;
      var rp: Draw := (d.power - 300.0) / 100.0;
      assert Closing(id, rc, rp) == d;
    case Feeder =>
      var rc: Draw := (d.current - 140.0) / 30.0;
      var rp: Draw := (d.power - 1000.0) / 200.0;
      assert Closing(id, rc, rp) == d;
  }

  /** The record of an open breaker. */
  const Opened := Device(false, 0.0, 0.0, 0.0)

  /**
   A click on breaker `id`: it flips position, opening zeroes its readings and
   closing restores its role's nominal readings; every other breaker is left as is.
   */
  function Toggle(s: Switchgear, id: DeviceId, rc: Draw, rp: Draw): (t: Switchgear)
    ensures t.Get(id).closed == !s.Get(id).closed
    ensures !t.Get(id).closed ==> Zeroed(t.Get(id))
    ensures t.Get(id).closed ==> ClosingBand(id, t.Get(id))
    ensures forall other :: other != id ==> t.Get(other) == s.Get(other)
  {
    if s.Get(id).closed then s.With(id, Opened) else s.With(id, Closing(id, rc, rp))
  }

  /** The reason a toggle request is refused. */
  datatype ToggleError = UnknownBreaker(key: string)

  datatype Outcome = Toggled(state: Switchgear) | Refused(error: ToggleError)

  /**
   A toggle request naming its breaker by key. A key that names no breaker
   is refused and no new state is produced.
   */
  function ToggleKey(s: Switchgear, key: string, rc: Draw, rp: Draw): (o: Outcome)
    ensures o.Refused? <==> forall id :: Key(id) != key
    ensures o.Refused? ==> o.error == UnknownBreaker(key)
    ensures o.Toggled? ==> exists id :: Key(id) == key && o.state == Toggle(s, id, rc, rp)
  {
    match ParseKey(key)
    case None => Refused(UnknownBreaker(key))
    case Some(id) => Toggled(Toggle(s, id, rc, rp))
  }

  /**
   The per-breaker invariant of every reachable state: an open breaker reads
   zero; a closed generator supplies power within its band; the closed tie
   stays within its closing band; a closed main or feeder stays within its
   voltage band.
   */
  predicate DeviceSafe(id: DeviceId, d: Device)
  {
    if !d.closed then Zeroed(d)
    else match RoleOf(id)
      case Generator =>
        -700.0 < d.power <= -600.0 && d.current < 0.0 && 4135.0 <= d.voltage < 4185.0
      case BusTie =>
        ClosingBand(id, d)
      case Main =>
        13700.0 <= d.voltage < 13900.0
      case Feeder =>
        4135.0 <= d.voltage < 4185.0
  }

  /** Every breaker satisfies the per-breaker invariant. */
  predicate Safe(s: Switchgear)
  {
    forall id :: DeviceSafe(id, s.Get(id))
  }

  /** The start-up line-up satisfies the invariant. */
  lemma InitialSafe()
    ensures Safe(Initial)
  {
  }

  /** Toggling any breaker keeps the invariant. */
  lemma ToggleKeepsSafe(s: Switchgear, id: DeviceId, rc: Draw, rp: Draw)
    requires Safe(s)
    ensures Safe(Toggle(s, id, rc, rp))
  {
  }
}
