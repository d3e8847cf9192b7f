/** The trading-simulation panel: one price series grown tick by tick, either
    by replaying a ticker's historical closes or by a random geometric step
    floored at one cent, with a multi-day fast-forward, the quarter calendar
    and the "1Q / 1Y / 5Y / ALL" view window. */
module TradingSimulation {
  import opened Prelude
  import opened TimeFrames

  /** The lowest price a random step can produce. */
  const PriceFloor: real := 0.01
  /** The random series' first price. */
  const RandomStart: real := 100.0

  /** The `dataSource` prop. */
  datatype DataSource = RealData | RandomData

  /** `Math.max(lastVal * factor, 0.01)` */
  function NextPrice(last: real, factor: real): (p: real)
    ensures p >= PriceFloor
    ensures p == last * factor || p == PriceFloor
    ensures last * factor >= PriceFloor ==> p == last * factor
  {
    if last * factor > PriceFloor then last * factor else PriceFloor
  }

  /** The series after one random step per factor, oldest first. */
  function Grow(s: seq<real>, factors: seq<real>): (r: seq<real>)
    requires |s| > 0
    ensures |r| == |s| + |factors|
    ensures r[..|s|] == s
    decreases |factors|
  {
    if factors == [] then s
    else
      var g := Grow(s, factors[..|factors| - 1]);
      g + [NextPrice(g[|g| - 1], factors[|factors| - 1])]
  }

  /** Every price a random step appended is at least one cent. */
  lemma {:induction false} GrowAboveFloor(s: seq<real>, factors: seq<real>)
    requires |s| > 0
    ensures forall i :: |s| <= i < |Grow(s, factors)| ==> Grow(s, factors)[i] >= PriceFloor
    decreases |factors|
  {
    if factors != [] {
      var init := factors[..|factors| - 1];
      GrowAboveFloor(s, init);
      var g := Grow(s, init);
      assert Grow(s, factors) == g + [NextPrice(g[|g| - 1], factors[|factors| - 1])];
    }
  }

  /** Fast-forwarding by two runs of days is the same as one run of both:
      steps compose. */
  lemma {:induction false} GrowCompose(s: seq<real>, f1: seq<real>, f2: seq<real>)
    requires |s| > 0
    ensures Grow(s, f1 + f2) == Grow(Grow(s, f1), f2)
    decreases |f2|
  {
    if f2 == [] {
      assert f1 + f2 == f1;
    } else {
      var init := f2[..|f2| - 1];
      assert (f1 + f2)[..|f1 + f2| - 1] == f1 + init;
      GrowCompose(s, f1, init);
    }
  }

  /** `(time % 63) + 1`: the day of the quarter, from 1 to 63. */
  function DayInQuarter(time: nat): (d: nat)
    ensures 1 <= d <= QuarterDays
  {
    time % QuarterDays + 1
  }

  /** `quarterDuration - currentDayInQuarter`: days left in the quarter. */
  function DaysUntilQuarterEnd(time: nat): (d: int)
    ensures 0 <= d < QuarterDays
    ensures d + DayInQuarter(time) == QuarterDays
  {
    QuarterDays - DayInQuarter(time)
  }

  /** The quarter calendar repeats every 63 days, and a quarter's first day is
      exactly a multiple of 63. */
  lemma QuarterCalendarRepeats(time: nat)
    ensures DayInQuarter(time + QuarterDays) == DayInQuarter(time)
    ensures DayInQuarter(time) == 1 <==> time % QuarterDays == 0
    ensures DaysUntilQuarterEnd(time) == 0 <==> time % QuarterDays == QuarterDays - 1
  {
  }

  /** `parsed.data.map(row => parseFloat(row['Close'])).filter(price => !isNaN(price))`:
      the closes that parsed, in file order. */
  function ParsedCloses(rows: seq<Option<real>>): (r: seq<real>)
    ensures |r| == CountParsed(rows) <= |rows|
    ensures forall i :: 0 <= i < |rows| && rows[i].Some? ==> rows[i].value in r
    ensures forall x :: x in r ==> Some(x) in rows
  {
    if rows == [] then []
    else (if rows[0].Some? then [rows[0].value] else []) + ParsedCloses(rows[1..])
  }

  /** The filter keeps file order and repeats: the close of a parsed row `i`
      sits at the position given by the number of parsed rows before it, so
      the k-th kept close is the k-th parsed row's close. */
  lemma {:induction false} ParsedClosesInOrder(rows: seq<Option<real>>)
    ensures forall i :: 0 <= i < |rows| && rows[i].Some? ==>
      CountParsed(rows[..i]) < |ParsedCloses(rows)| && ParsedCloses(rows)[CountParsed(rows[..i])] == rows[i].value
    decreases |rows|
  {
    if rows != [] {
      var tail := rows[1..];
      ParsedClosesInOrder(tail);
      var head := if rows[0].Some? then 1 else 0;
      assert ParsedCloses(rows) == (if rows[0].Some? then [rows[0].value] else []) + ParsedCloses(tail);
      forall i | 0 <= i < |rows| && rows[i].Some?
        ensures CountParsed(rows[..i]) < |ParsedCloses(rows)| && ParsedCloses(rows)[CountParsed(rows[..i])] == rows[i].value
      {
        if i > 0 {
          assert rows[..i][1..] == tail[..i - 1];
          assert CountParsed(rows[..i]) == head + CountParsed(tail[..i - 1]);
          assert tail[i - 1] == rows[i];
        } else {
          assert rows[..0] == [];
        }
      }
    }
  }

  /** Two parsed rows keep their relative order among the kept closes. */
  lemma ParsedCountMonotone(rows: seq<Option<real>>, i: nat, j: nat)
    requires i < j <= |rows| && rows[i].Some?
    ensures CountParsed(rows[..i]) < CountParsed(rows[..j])
  {
    CountParsedSplit(rows[..j], i);
    assert rows[..j][..i] == rows[..i];
    assert rows[..j][i..][0] == rows[i];
  }

  lemma {:induction false} CountParsedSplit(rows: seq<Option<real>>, i: nat)
    requires i <= |rows|
    ensures CountParsed(rows) == CountParsed(rows[..i]) + CountParsed(rows[i..])
    decreases i
  {
    if i > 0 {
      CountParsedSplit(rows[1..], i - 1);
      assert rows[1..][..i - 1] == rows[..i][1..];
      assert rows[1..][i - 1..] == rows[i..];
    } else {
      assert rows[..0] == [] && rows[0..] == rows;
    }
  }

  class Simulation {
    var sim: seq<real>
    var time: nat
    var realPrices: seq<real>
    var dataSource: DataSource
    var timeFrame: TimeFrame

    /** In random mode the series is non-empty and every price is at least one
      cent; in real mode the series is exactly the closes replayed so far. */
    ghost predicate Valid()
      reads this
    {
      && (dataSource == RandomData ==>
            |sim| > 0 && forall i :: 0 <= i < |sim| ==> sim[i] >= PriceFloor)
      && (dataSource == RealData ==>
            if |realPrices| == 0 then sim == [] && time == 0
            else time < |realPrices| && sim == realPrices[..time + 1])
    }

    /** The panel as it starts for the random source: `[[100]]` at time 0. */
    constructor ()
      ensures Valid()
      ensures dataSource == RandomData && sim == [RandomStart] && time == 0
      ensures realPrices == [] && timeFrame == All
    {
      sim := [RandomStart];
      time := 0;
      realPrices := [];
      dataSource := RandomData;
      timeFrame := All;
    }

    /** Switching the data source runs its effect: the real source loads the
      parsed closes `rows` and shows the first, the random source restarts at
      100. An empty close list shows nothing. */
    method SelectSource(ds: DataSource, rows: seq<Option<real>>)
      modifies this`sim, this`time, this`realPrices, this`dataSource
      ensures Valid()
      ensures dataSource == ds && time == 0
      ensures ds == RealData ==>
        && realPrices == ParsedCloses(rows)
        && sim == (if |realPrices| > 0 then [realPrices[0]] else [])
      ensures ds == RandomData ==> sim == [RandomStart] && realPrices == old(realPrices)
    {
      dataSource := ds;
      if ds == RealData {
        var allPrices := ParsedCloses(rows);
        realPrices := allPrices;
        sim := if |allPrices| > 0 then [allPrices[0]] else [];
        time := 0;
      } else {
        sim := [RandomStart];
        time := 0;
      }
    }

    /** One interval tick. Real source: append the next close while one is
      left. Random source: append `max(last * factor, 0.01)`, where `factor`
      is the tick's lognormal growth factor. */
    method Tick(factor: real)
      requires Valid()
      modifies this`sim, this`time
      ensures Valid()
      ensures dataSource == RealData ==>
        if |realPrices| > 0 && old(time) < |realPrices| - 1
        then sim == old(sim) + [realPrices[old(time) + 1]] && time == old(time) + 1
        else sim == old(sim) && time == old(time)
      ensures dataSource == RandomData ==>
        sim == Grow(old(sim), [factor]) && time == old(time) + 1
    {
      if dataSource == RealData {
        if |realPrices| > 0 && time < |realPrices| - 1 {
          var nextPrice := realPrices[time + 1];
          assert realPrices[..time + 2] == realPrices[..time + 1] + [nextPrice];
          sim := sim + [nextPrice];
          time := time + 1;
        }
      } else {
        var lastVal := sim[|sim| - 1];
        var nextVal := NextPrice(lastVal, factor);
        assert [factor][..0] == [];
        sim := sim + [nextVal];
        time := time + 1;
      }
    }

    /** `handleAdvance(days)`, with `factors[i]` the growth factor of day `i`:
      only for the random source, appends one floored step per day and moves
      time on by `days`. */
    method HandleAdvance(days: nat, factors: seq<real>)
      requires Valid() && |factors| == days
      modifies this`sim, this`time
      ensures Valid()
      ensures dataSource != RandomData ==> sim == old(sim) && time == old(time)
      ensures dataSource == RandomData ==>
        && sim == Grow(old(sim), factors)
        && |sim| == |old(sim)| + days && sim[..|old(sim)|] == old(sim)
        && time == old(time) + days
    {
      if dataSource != RandomData {
        return;
      }
      var newTime := time;
      var newSim := sim;
      var i := 0;
      while i < days
        invariant 0 <= i <= days
        invariant newSim == Grow(sim, factors[..i])
        invariant newTime == time + i
      {
        var lastVal := newSim[|newSim| - 1];
        var newVal := NextPrice(lastVal, factors[i]);
        assert factors[..i + 1][..i] == factors[..i];
        newTime := newTime + 1;
        newSim := newSim + [newVal];
        i := i + 1;
      }
      assert factors[..days] == factors;
      GrowAboveFloor(sim, factors);
      sim := newSim;
      time := newTime;
    }

    /** The series as the chart shows it: the newest points of the chosen window. */
    function Displayed(): (shown: seq<real>)
      reads this
      ensures |shown| <= |sim| && shown == sim[|sim| - |shown|..]
      ensures |sim| > 0 ==> |shown| > 0
    {
      Trailing(sim, timeFrame)
    }
  }
}
