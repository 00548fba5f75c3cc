/** The dashboard: the time filter over the fetched rows, the per-location counts behind the bar
    chart, the compliance pie, and logging out. */
module DashboardScreen {
  import opened Common
  import opened Records
  import ViolationsScreen
  import App

  /** One entry of `chartData`, kept in the order its key was first added. */
  datatype Tally = Tally(location: string, count: int)

  /** `acc[loc] = (acc[loc] || 0) + 1`. */
  function Bump(acc: seq<Tally>, loc: string): (r: seq<Tally>)
    decreases |acc|
  {
    if |acc| == 0 then [Tally(loc, 1)]
    else if acc[0].location == loc then [Tally(loc, acc[0].count + 1)] + acc[1..]
    else [acc[0]] + Bump(acc[1..], loc)
  }

  /** The `chartData` reduce over the shown rows. */
  function ChartData(rows: seq<Violation>): seq<Tally>
    decreases |rows|
  {
    if |rows| == 0 then [] else Bump(ChartData(rows[..|rows| - 1]), rows[|rows| - 1].cameraLocation)
  }

  /** `chartData[loc]`, with an absent key read as 0. */
  function CountOf(chart: seq<Tally>, loc: string): int
    decreases |chart|
  {
    if |chart| == 0 then 0
    else if chart[0].location == loc then chart[0].count
    else CountOf(chart[1..], loc)
  }

  /** The keys of `chartData`. */
  function Keys(chart: seq<Tally>): set<string>
    decreases |chart|
  {
    if |chart| == 0 then {} else {chart[0].location} + Keys(chart[1..])
  }

  /** No key is added twice. */
  ghost predicate DistinctKeys(chart: seq<Tally>)
    decreases |chart|
  {
    |chart| == 0 || (chart[0].location !in Keys(chart[1..]) && DistinctKeys(chart[1..]))
  }

  ghost predicate AllPositive(chart: seq<Tally>)
  {
    forall i :: 0 <= i < |chart| ==> chart[i].count >= 1
  }

  function Total(chart: seq<Tally>): int
    decreases |chart|
  {
    if |chart| == 0 then 0 else chart[0].count + Total(chart[1..])
  }

  /** The locations the rows were logged at. */
  function Locations(rows: seq<Violation>): set<string>
  {
    set i | 0 <= i < |rows| :: rows[i].cameraLocation
  }

  /** The number of rows logged at `loc`. */
  function Occurrences(rows: seq<Violation>, loc: string): nat
    decreases |rows|
  {
    if |rows| == 0 then 0
    else Occurrences(rows[..|rows| - 1], loc) + (if rows[|rows| - 1].cameraLocation == loc then 1 else 0)
  }

  lemma {:induction false} BumpCount(acc: seq<Tally>, loc: string, l: string)
    ensures CountOf(Bump(acc, loc), l) == CountOf(acc, l) + (if l == loc then 1 else 0)
    decreases |acc|
  {
    if |acc| > 0 && acc[0].location != loc {
      BumpCount(acc[1..], loc, l);
      assert Bump(acc, loc)[1..] == Bump(acc[1..], loc);
    } else if |acc| > 0 {
      assert Bump(acc, loc)[1..] == acc[1..];
    }
  }

  lemma {:induction false} BumpKeys(acc: seq<Tally>, loc: string)
    ensures Keys(Bump(acc, loc)) == Keys(acc) + {loc}
    decreases |acc|
  {
    if |acc| > 0 && acc[0].location != loc {
      BumpKeys(acc[1..], loc);
      assert Bump(acc, loc)[1..] == Bump(acc[1..], loc);
    } else if |acc| > 0 {
      assert Bump(acc, loc)[1..] == acc[1..];
    }
  }

  lemma {:induction false} BumpDistinct(acc: seq<Tally>, loc: string)
    requires DistinctKeys(acc)
    ensures DistinctKeys(Bump(acc, loc))
    decreases |acc|
  {
    if |acc| > 0 && acc[0].location != loc {
      BumpDistinct(acc[1..], loc);
      BumpKeys(acc[1..], loc);
      assert Bump(acc, loc)[1..] == Bump(acc[1..], loc);
    } else if |acc| > 0 {
      assert Bump(acc, loc)[1..] == acc[1..];
    }
  }

  lemma {:induction false} BumpTotal(acc: seq<Tally>, loc: string)
    ensures Total(Bump(acc, loc)) == Total(acc) + 1
    decreases |acc|
  {
    if |acc| > 0 && acc[0].location != loc {
      BumpTotal(acc[1..], loc);
      assert Bump(acc, loc)[1..] == Bump(acc[1..], loc);
    } else if |acc| > 0 {
      assert Bump(acc, loc)[1..] == acc[1..];
    }
  }

  lemma {:induction false} BumpPositive(acc: seq<Tally>, loc: string)
    requires AllPositive(acc)
    ensures AllPositive(Bump(acc, loc))
    decreases |acc|
  {
    if |acc| > 0 && acc[0].location != loc {
      BumpPositive(acc[1..], loc);
      assert Bump(acc, loc)[1..] == Bump(acc[1..], loc);
    } else if |acc| > 0 {
      assert Bump(acc, loc)[1..] == acc[1..];
    }
  }

  /** `chartData` has one key per location that occurs among the rows, each holding the
      number of rows at that location; every count is positive and they add up to the rows. */
  lemma {:induction false} ChartDataCounts(rows: seq<Violation>)
    ensures DistinctKeys(ChartData(rows))
    ensures Keys(ChartData(rows)) == Locations(rows)
    ensures forall loc :: CountOf(ChartData(rows), loc) == Occurrences(rows, loc)
    ensures AllPositive(ChartData(rows))
    ensures Total(ChartData(rows)) == |rows|
    decreases |rows|
  {
    if |rows| > 0 {
      var init := rows[..|rows| - 1];
      var last := rows[|rows| - 1].cameraLocation;
      ChartDataCounts(init);
      BumpKeys(ChartData(init), last);
      BumpDistinct(ChartData(init), last);
      BumpTotal(ChartData(init), last);
      BumpPositive(ChartData(init), last);
      forall loc ensures CountOf(ChartData(rows), loc) == Occurrences(rows, loc) {
        BumpCount(ChartData(init), last, loc);
      }
      forall x | x in Locations(rows) ensures x in Locations(init) + {last} {
        var i :| 0 <= i < |rows| && rows[i].cameraLocation == x;
        if i < |rows| - 1 {
          assert init[i].cameraLocation == x;
        }
      }
      forall x | x in Locations(init) ensures x in Locations(rows) {
        var i :| 0 <= i < |init| && init[i].cameraLocation == x;
        assert rows[i].cameraLocation == x;
      }
    }
  }

  /** A key's index in an entry list is among its keys, and with distinct keys the count
      stored there is the one `CountOf` reads and no other entry has that key. */
  lemma {:induction false} EntryAtIndex(chart: seq<Tally>, i: int)
    requires 0 <= i < |chart|
    ensures chart[i].location in Keys(chart)
    ensures DistinctKeys(chart) ==> CountOf(chart, chart[i].location) == chart[i].count
    ensures DistinctKeys(chart) ==> forall j :: 0 <= j < |chart| && j != i ==> chart[j].location != chart[i].location
    decreases |chart|
  {
    if i > 0 {
      EntryAtIndex(chart[1..], i - 1);
      assert chart[1..][i - 1] == chart[i];
      if DistinctKeys(chart) {
        forall j | 0 <= j < |chart| && j != i ensures chart[j].location != chart[i].location {
          if j > 0 {
            assert chart[1..][j - 1] == chart[j];
          }
        }
      }
    } else if DistinctKeys(chart) {
      forall j | 0 < j < |chart| ensures chart[j].location != chart[0].location {
        EntryAtIndex(chart[1..], j - 1);
        assert chart[1..][j - 1] == chart[j];
      }
    }
  }

  /** Every key has an entry. */
  lemma {:induction false} KeyHasEntry(chart: seq<Tally>, loc: string)
    requires loc in Keys(chart)
    ensures exists i :: 0 <= i < |chart| && chart[i].location == loc
    decreases |chart|
  {
    if chart[0].location != loc {
      KeyHasEntry(chart[1..], loc);
      var i :| 0 <= i < |chart[1..]| && chart[1..][i].location == loc;
      assert chart[i + 1].location == loc;
    }
  }

  /** One bar of the bar chart. */
  datatype Bar = Bar(location: string, count: int)

  /** `barChartData`: one bar per `chartData` key with that key's count. */
  function BarChartData(chart: seq<Tally>): (r: seq<Bar>)
    ensures |r| == |chart|
    ensures forall i :: 0 <= i < |r| ==> r[i] == Bar(chart[i].location, chart[i].count)
  {
    if |chart| == 0 then [] else [Bar(chart[0].location, chart[0].count)] + BarChartData(chart[1..])
  }

  /** One slice of the compliance pie. */
  datatype Slice = Slice(name: string, value: int)

  function ComplianceData(violations: seq<Violation>, filtered: seq<Violation>): seq<Slice>
  {
    [Slice("Compliant", |violations| - |filtered|), Slice("Non-Compliant", |filtered|)]
  }

  /** The bars give each location that occurs among the shown rows exactly once, with the
      number of shown rows at it, and no other location. */
  lemma BarsCountShownRows(filtered: seq<Violation>, bars: seq<Bar>)
    requires bars == BarChartData(ChartData(filtered))
    ensures forall i, j :: 0 <= i < |bars| && 0 <= j < |bars| && i != j ==> bars[i].location != bars[j].location
    ensures forall i :: 0 <= i < |bars| ==> bars[i].count == Occurrences(filtered, bars[i].location) >= 1
    ensures forall loc :: loc in Locations(filtered) <==> exists i :: 0 <= i < |bars| && bars[i].location == loc
  {
    var chart := ChartData(filtered);
    ChartDataCounts(filtered);
    forall i | 0 <= i < |chart|
      ensures chart[i].count == CountOf(chart, chart[i].location)
      ensures chart[i].location in Locations(filtered)
      ensures forall j :: 0 <= j < |chart| && j != i ==> chart[j].location != chart[i].location
    {
      EntryAtIndex(chart, i);
    }
    forall loc | loc in Locations(filtered) ensures exists i :: 0 <= i < |chart| && chart[i].location == loc {
      KeyHasEntry(chart, loc);
    }
  }

  /** Over the time-filtered rows the two slices are non-negative and add up to all rows. */
  lemma ComplianceSplit(violations: seq<Violation>, timeFilter: string, clock: ViolationsScreen.Clock)
    ensures var c := ComplianceData(violations, ViolationsScreen.TimeFiltered(violations, timeFilter, clock));
            && |c| == 2 && c[0].value >= 0 && c[1].value >= 0 && c[0].value + c[1].value == |violations|
            && c[1].value == |ViolationsScreen.TimeFiltered(violations, timeFilter, clock)|
  {
    ViolationsScreen.FilterViolationsMeaning(violations, timeFilter, ViolationsScreen.AllFilter, clock);
  }

  /** The page's state. */
  class DashboardView {
    var violations: seq<Violation>
    var filteredViolations: seq<Violation>
    var filter: string

    /** The shown rows are always an order-preserving sub-list of the fetched ones. */
    ghost predicate Valid()
      reads this
    {
      IsSublist(filteredViolations, violations)
    }

    constructor ()
      ensures Valid()
      ensures violations == [] && filteredViolations == [] && filter == ViolationsScreen.AllFilter
    {
      violations := [];
      filteredViolations := [];
      filter := ViolationsScreen.AllFilter;
    }

    /** The filter effect, run whenever `filter` or `violations` changes. */
    method RunFilterEffect(clock: ViolationsScreen.Clock)
      modifies this`filteredViolations
      ensures Valid()
      ensures filteredViolations == ViolationsScreen.TimeFiltered(violations, filter, clock)
    {
      filteredViolations := ViolationsScreen.TimeFiltered(violations, filter, clock);
      ViolationsScreen.FilterViolationsMeaning(violations, filter, ViolationsScreen.AllFilter, clock);
    }

    /** The load effect with an ok reply's rows (or, on a refusal or an exception, nothing),
        followed by the filter effect. */
    method ReceiveViolations(reply: Option<seq<Violation>>, clock: ViolationsScreen.Clock)
      requires Valid()
      modifies this`violations, this`filteredViolations
      ensures Valid()
      ensures reply.Some? ==> violations == reply.value
      ensures reply.None? ==> violations == old(violations) && filteredViolations == old(filteredViolations)
      ensures reply.Some? ==> filteredViolations == ViolationsScreen.TimeFiltered(reply.value, filter, clock)
    {
      if reply.Some? {
        violations := reply.value;
        filteredViolations := reply.value;
        RunFilterEffect(clock);
      }
    }

    /** Choosing a time filter in the selector. */
    method SelectFilter(f: string, clock: ViolationsScreen.Clock)
      modifies this`filter, this`filteredViolations
      ensures Valid()
      ensures filter == f
      ensures filteredViolations == ViolationsScreen.TimeFiltered(violations, f, clock)
    {
      filter := f;
      RunFilterEffect(clock);
    }

    /** The bar chart of the shown rows: each location among them exactly once, with the
        number of shown rows there. */
    function Bars(): (bars: seq<Bar>)
      reads this
      ensures forall i, j :: 0 <= i < |bars| && 0 <= j < |bars| && i != j ==> bars[i].location != bars[j].location
      ensures forall i :: 0 <= i < |bars| ==> bars[i].count == Occurrences(filteredViolations, bars[i].location) >= 1
      ensures forall loc :: loc in Locations(filteredViolations) <==> exists i :: 0 <= i < |bars| && bars[i].location == loc
    {
      var bars := BarChartData(ChartData(filteredViolations));
      BarsCountShownRows(filteredViolations, bars);
      bars
    }

    /** The compliance pie: the shown rows are the non-compliant slice, the rest of the fetched
        rows the compliant one, and the two add up to every fetched row. */
    function Compliance(): (r: seq<Slice>)
      requires Valid()
      reads this
      ensures |r| == 2 && r[0].name == "Compliant" && r[1].name == "Non-Compliant"
      ensures r[1].value == |filteredViolations| && r[0].value + r[1].value == |violations|
      ensures r[0].value >= 0
    {
      SublistLength(filteredViolations, violations);
      ComplianceData(violations, filteredViolations)
    }

    /** `handleLogout`: the token goes, the session is marked signed out. */
    method HandleLogout(shell: App.AppShell)
      modifies shell`isAuthenticated, shell.storage
      ensures shell.storage.items == old(shell.storage.items) - {"token"}
      ensures !shell.isAuthenticated && shell.userRole == old(shell.userRole)
    {
      shell.storage.RemoveItem("token");
      shell.isAuthenticated := false;
    }
  }
}
