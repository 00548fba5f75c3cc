/** The violations page: the time and location filters over the fetched rows, the page's filter
    state, and the rows, title and file name of the downloadable report. */
module ViolationsScreen {
  import opened Common
  import opened Records

  /** A local calendar date. */
  datatype Date = Date(year: int, month: int, day: int)

  /** What the filters read from `new Date()`: today's date, the date one day earlier, and the
      local calendar date of each stored timestamp. */
  datatype Clock = Clock(today: Date, yesterday: Date, calendar: int -> Date)

  const AllFilter: string := "All"

  /** `new Date(v.timestamp).toDateString() === day.toDateString()`. */
  function OnDate(day: Date, clock: Clock): Violation -> bool
  {
    (v: Violation) => clock.calendar(v.timestamp) == day
  }

  /** Same month and year as today. */
  function InCurrentMonth(clock: Clock): Violation -> bool
  {
    (v: Violation) => clock.calendar(v.timestamp).month == clock.today.month
                      && clock.calendar(v.timestamp).year == clock.today.year
  }

  function AtCamera(location: string): Violation -> bool
  {
    (v: Violation) => v.cameraLocation == location
  }

  /** The time filter alone, as the chain of `.filter` calls writes it; any value other than
      the three named ones keeps every row. */
  function TimeFiltered(vs: seq<Violation>, timeFilter: string, clock: Clock): seq<Violation>
  {
    if timeFilter == "Today" then Filter(vs, OnDate(clock.today, clock))
    else if timeFilter == "Yesterday" then Filter(vs, OnDate(clock.yesterday, clock))
    else if timeFilter == "Monthly" then Filter(vs, InCurrentMonth(clock))
    else vs
  }

  /** `filterViolations`' list: the time filter, then the location filter unless it is "All". */
  function FilterViolations(vs: seq<Violation>, timeFilter: string, location: string, clock: Clock): seq<Violation>
  {
    var timed := TimeFiltered(vs, timeFilter, clock);
    if location != AllFilter then Filter(timed, AtCamera(location)) else timed
  }

  /** The time window a filter value describes. */
  predicate InTimeWindow(v: Violation, timeFilter: string, clock: Clock)
  {
    var d := clock.calendar(v.timestamp);
    && (timeFilter == "Today" ==> d == clock.today)
    && (timeFilter == "Yesterday" ==> d == clock.yesterday)
    && (timeFilter == "Monthly" ==> d.month == clock.today.month && d.year == clock.today.year)
  }

  predicate AtLocation(v: Violation, location: string)
  {
    location == AllFilter || v.cameraLocation == location
  }

  /** Both selections at once, as one predicate. */
  function Selector(timeFilter: string, location: string, clock: Clock): Violation -> bool
  {
    (v: Violation) => InTimeWindow(v, timeFilter, clock) && AtLocation(v, location)
  }

  /** The time filter keeps, in order, exactly the rows in the window. */
  lemma {:induction false} TimeFilteredSelects(vs: seq<Violation>, timeFilter: string, clock: Clock)
    ensures TimeFiltered(vs, timeFilter, clock) == Filter(vs, Selector(timeFilter, AllFilter, clock))
  {
    var sel := Selector(timeFilter, AllFilter, clock);
    if timeFilter == "Today" {
      FilterCongruent(vs, OnDate(clock.today, clock), sel);
    } else if timeFilter == "Yesterday" {
      FilterCongruent(vs, OnDate(clock.yesterday, clock), sel);
    } else if timeFilter == "Monthly" {
      FilterCongruent(vs, InCurrentMonth(clock), sel);
    } else {
      FilterAll(vs, sel);
    }
  }

  /** The page's list is the original list filtered by the conjunction of the two selections. */
  lemma {:induction false} FilterViolationsSelects(vs: seq<Violation>, timeFilter: string, location: string, clock: Clock)
    ensures FilterViolations(vs, timeFilter, location, clock) == Filter(vs, Selector(timeFilter, location, clock))
  {
    var timeSel := Selector(timeFilter, AllFilter, clock);
    var sel := Selector(timeFilter, location, clock);
    TimeFilteredSelects(vs, timeFilter, clock);
    if location != AllFilter {
      FilterFilter(vs, timeSel, AtCamera(location), sel);
    } else {
      FilterCongruent(vs, timeSel, sel);
    }
  }

  /** What the page shows: an order-preserving sub-list holding exactly the rows in both
      the time window and the location. */
  lemma FilterViolationsMeaning(vs: seq<Violation>, timeFilter: string, location: string, clock: Clock)
    ensures var shown := FilterViolations(vs, timeFilter, location, clock);
            && IsSublist(shown, vs)
            && (forall v :: v in shown <==> v in vs && InTimeWindow(v, timeFilter, clock) && AtLocation(v, location))
            && |shown| <= |vs|
  {
    FilterViolationsSelects(vs, timeFilter, location, clock);
    FilterIsSublist(vs, Selector(timeFilter, location, clock));
  }

  /** "All" with an unnamed time filter keeps every row. */
  lemma NoSelectionKeepsAll(vs: seq<Violation>, timeFilter: string, clock: Clock)
    requires timeFilter != "Today" && timeFilter != "Yesterday" && timeFilter != "Monthly"
    ensures FilterViolations(vs, timeFilter, AllFilter, clock) == vs
    ensures TimeFiltered(vs, timeFilter, clock) == vs
  {
  }

  // ---------------------------------------------------------------------------------------
  // The report

  /** One table cell: a number, a text, or a moment (printed with `toLocaleString`, whose
      formatting is not modelled). */
  datatype Cell = Number(n: int) | Text(s: string) | Moment(t: int)

  datatype Report = Report(title: string, columns: seq<string>, rows: seq<seq<Cell>>, fileName: string)

  const ReportColumns: seq<string> := ["ID", "Location", "Detected Gear", "Missing Gear", "Timestamp"]

  function ReportRow(v: Violation): seq<Cell>
  {
    [Number(v.id), Text(v.cameraLocation), Text(v.detectedGear), Text(v.missingGear), Moment(v.timestamp)]
  }

  function ReportRows(vs: seq<Violation>): (r: seq<seq<Cell>>)
    ensures |r| == |vs|
    ensures forall i :: 0 <= i < |r| ==> r[i] == ReportRow(vs[i])
  {
    if |vs| == 0 then [] else [ReportRow(vs[0])] + ReportRows(vs[1..])
  }

  /** Reads a violation back from a report row laid out in `ReportColumns` order. */
  function RecordOfRow(row: seq<Cell>): Option<Violation>
  {
    if |row| == 5 && row[0].Number? && row[1].Text? && row[2].Text? && row[3].Text? && row[4].Moment?
    then Some(Violation(row[0].n, row[1].s, row[2].s, row[3].s, row[4].t))
    else None
  }

  /** `generatePDF`. */
  function GenerateReport(filter: string, locationFilter: string, filtered: seq<Violation>): (r: Report)
    ensures r.title == "Safety Violations Report (" + filter + ", " + locationFilter + ")"
    ensures r.fileName == "safety_violations_report_" + filter + "_" + locationFilter + ".pdf"
  {
    Report("Safety Violations Report (" + filter + ", " + locationFilter + ")",
           ReportColumns, ReportRows(filtered),
           "safety_violations_report_" + filter + "_" + locationFilter + ".pdf")
  }

  /** The report has one row per shown violation, in the shown order, each with one cell per
      column, and the row gives back the whole violation. */
  lemma ReportRowsCarryRecords(filter: string, locationFilter: string, filtered: seq<Violation>)
    ensures |GenerateReport(filter, locationFilter, filtered).rows| == |filtered|
    ensures forall i :: 0 <= i < |filtered| ==>
              && |GenerateReport(filter, locationFilter, filtered).rows[i]| == |ReportColumns|
              && RecordOfRow(GenerateReport(filter, locationFilter, filtered).rows[i]) == Some(filtered[i])
  {
  }

  /** The page's state. */
  class ViolationsView {
    var violations: seq<Violation>
    var filteredViolations: seq<Violation>
    var filter: string
    var locationFilter: string

    constructor ()
      ensures violations == [] && filteredViolations == []
      ensures filter == AllFilter && locationFilter == AllFilter
    {
      violations := [];
      filteredViolations := [];
      filter := AllFilter;
      locationFilter := AllFilter;
    }

    /** The load effect: an ok reply's rows become both lists; a refusal or an exception
        leaves the page as it was. */
    method ReceiveViolations(reply: Option<seq<Violation>>)
      modifies this`violations, this`filteredViolations
      ensures reply.Some? ==> violations == reply.value && filteredViolations == reply.value
      ensures reply.None? ==> violations == old(violations) && filteredViolations == old(filteredViolations)
    {
      if reply.Some? {
        violations := reply.value;
        filteredViolations := reply.value;
      }
    }

    /** `filterViolations(timeFilter, location)`. */
    method ApplyFilters(timeFilter: string, location: string, clock: Clock)
      modifies this`filter, this`locationFilter, this`filteredViolations
      ensures filter == timeFilter && locationFilter == location
      ensures filteredViolations == FilterViolations(violations, timeFilter, location, clock)
    {
      var filtered := TimeFiltered(violations, timeFilter, clock);
      if location != AllFilter {
        filtered := Filter(filtered, AtCamera(location));
      }
      filter := timeFilter;
      locationFilter := location;
      filteredViolations := filtered;
    }

    /** The report of what the page currently shows: named after the current filters, with
        one row per shown violation that reads back as that violation. */
    function CurrentReport(): (r: Report)
      reads this
      ensures r.title == "Safety Violations Report (" + filter + ", " + locationFilter + ")"
      ensures r.fileName == "safety_violations_report_" + filter + "_" + locationFilter + ".pdf"
      ensures r.columns == ReportColumns
      ensures |r.rows| == |filteredViolations|
      ensures forall i :: 0 <= i < |r.rows| ==> RecordOfRow(r.rows[i]) == Some(filteredViolations[i])
    {
      ReportRowsCarryRecords(filter, locationFilter, filteredViolations);
      GenerateReport(filter, locationFilter, filteredViolations)
    }
  }
}
