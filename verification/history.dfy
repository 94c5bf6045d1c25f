/**
 The rolling power-history window behind the trend chart: one sample per
 tick, the 15 most recent kept in arrival order.
 */
module History {
  import opened Devices
  import opened Switchgear

  /** One point of the trend chart: a time label and four power figures in kW. */
  datatype Sample = Sample(time: string, main1: real, main2: real, gen1: real, gen2: real)

  /** How many samples the window keeps. */
  const Capacity: nat := 15

  /**
   The sample taken from a line-up: each main's signed power and each
   generator's output magnitude, counted as zero while that breaker is open.
   The time label is supplied by the caller.
   */
  function SampleOf(s: Switchgear, time: string): (e: Sample)
    ensures e.time == time
    ensures e.gen1 >= 0.0 && e.gen2 >= 0.0
    ensures !s.main1.closed ==> e.main1 == 0.0
    ensures !s.main2.closed ==> e.main2 == 0.0
    ensures Safe(s) ==> e.main1 == s.main1.power && e.main2 == s.main2.power
    ensures Safe(s) ==> e.gen1 == -s.gen1.power && e.gen2 == -s.gen2.power
  {
    assert Safe(s) ==> DeviceSafe(Main1, s.Get(Main1)) && DeviceSafe(Main2, s.Get(Main2));
    assert Safe(s) ==> DeviceSafe(Gen1, s.Get(Gen1)) && DeviceSafe(Gen2, s.Get(Gen2));
    assert RoleOf(Gen1) == Generator && RoleOf(Gen2) == Generator;
    Sample(time,
           if s.main1.closed then s.main1.power else 0.0,
           if s.main2.closed then s.main2.power else 0.0,
           if s.gen1.closed then Abs(s.gen1.power) else 0.0,
           if s.gen2.closed then Abs(s.gen2.power) else 0.0)
  }

  /** The last `n` elements of `xs` (all of `xs` when it is shorter), as `slice(-n)` for `n >= 1`. */
  function LastN<T>(xs: seq<T>, n: nat): (r: seq<T>)
    requires n > 0
    ensures |r| == if |xs| < n then |xs| else n
    ensures r == xs[|xs| - |r|..]
  {
    if |xs| <= n then xs else xs[|xs| - n..]
  }

  /**
   Appends a sample and keeps the newest `Capacity` samples: the window never
   overflows, ends with the new sample, and is a suffix of the old window
   followed by the sample; while there is room nothing is dropped. The size
   stated again in the overflow clause is a corollary of the first clause.
   */
  function Record(window: seq<Sample>, e: Sample): (r: seq<Sample>)
    ensures |r| == if |window| < Capacity then |window| + 1 else Capacity
    ensures r[|r| - 1] == e
    ensures r == (window + [e])[|window| + 1 - |r|..]
    ensures |window| < Capacity ==> r == window + [e]
    ensures |window| >= Capacity ==> |r| == Capacity && r[..|r| - 1] == window[|window| - Capacity + 1..]
  {
    LastN(window + [e], Capacity)
  }

  /** Records the samples one after another, oldest first. */
  function RecordAll(window: seq<Sample>, es: seq<Sample>): seq<Sample>
    decreases |es|
  {
    if es == [] then window else RecordAll(Record(window, es[0]), es[1..])
  }

  /** Taking the last `n` twice, with more appended in between, is taking the last `n` once. */
  lemma LastNAppend<T>(xs: seq<T>, ys: seq<T>, n: nat)
    requires n > 0
    ensures LastN(LastN(xs, n) + ys, n) == LastN(xs + ys, n)
  {
    var a := LastN(xs, n);
    var l := LastN(a + ys, n);
    var r := LastN(xs + ys, n);
    assert |l| == |r|;
    forall k | 0 <= k < |l| ensures l[k] == r[k] {
      var j := |a + ys| - |l| + k;
      if j < |a| {
        assert l[k] == a[j] == xs[|xs| - |a| + j];
      } else {
        assert l[k] == ys[j - |a|];
      }
    }
  }

  /** Splitting off the first element of `ys` and appending it back. */
  lemma SplitFirst<T>(xs: seq<T>, ys: seq<T>)
    requires ys != []
    ensures xs + [ys[0]] + ys[1..] == xs + ys
  {
  }

  /**
   However many samples arrive, the window holds exactly the newest ones of
   the old window followed by the arrivals, at most `Capacity` of them, in order.
   */
  lemma {:induction false} RecordAllKeepsNewest(window: seq<Sample>, es: seq<Sample>)
    requires |window| <= Capacity
    ensures RecordAll(window, es) == LastN(window + es, Capacity)
    decreases |es|
  {
    if es != [] {
      var w' := Record(window, es[0]);
      RecordAllKeepsNewest(w', es[1..]);
      LastNAppend(window + [es[0]], es[1..], Capacity);
      calc {
        RecordAll(window, es);
        RecordAll(w', es[1..]);
        LastN(w' + es[1..], Capacity);
        LastN(LastN(window + [es[0]], Capacity) + es[1..], Capacity);
        LastN(window + [es[0]] + es[1..], Capacity);
        { SplitFirst(window, es); }
        LastN(window + es, Capacity);
      }
    }
  }

  /** From an empty window, `n` samples leave `min(n, Capacity)` of them, the newest in order. */
  lemma FromEmpty(es: seq<Sample>)
    ensures |RecordAll([], es)| == if |es| < Capacity then |es| else Capacity
    ensures RecordAll([], es) == es[|es| - |RecordAll([], es)|..]
  {
    RecordAllKeepsNewest([], es);
    assert [] + es == es;
  }
}
