/**
 * The week view's table (internal/ui/views/week): one row per project with
 * the time booked on each weekday, Monday to Friday, and the week's total,
 * and a final "Totals" row. Durations are whole nanoseconds; parsing the
 * lower-cased duration text (`time.ParseDuration`) is the parameter `parse`,
 * and the order in which Go's map hands out the projects is the parameter
 * `order`.
 */
module Week {
  import opened Wrappers
  import opened Models
  import opened GoStrings
  import opened Helpers

  /** Monday to Friday. */
  const WeekDays: nat := 5

  /** A table row: the project name, the five weekday durations and the total. */
  datatype Row = Row(name: string, days: seq<int>, total: int)

  /** The keys of `dailyTotals`: a day (its "2006-01-02" text) or "total". */
  datatype TotalsKey = DayKey(day: int) | TotalKey

  /** What `+=` on a Go map reads for a missing key. */
  function Get(m: map<TotalsKey, int>, k: TotalsKey): int {
    if k in m then m[k] else 0
  }

  /** The day of weekday `d` (0 for Monday) of the week starting on Sunday `startOfWeek`. */
  function WeekDay(startOfWeek: int, d: int): int {
    startOfWeek + d + 1
  }

  /** The total kept under the key of weekday `d` of the week starting on `startOfWeek`. */
  function DayTotal(m: map<TotalsKey, int>, startOfWeek: int, d: int): int {
    Get(m, DayKey(WeekDay(startOfWeek, d)))
  }

  /** The Sunday starting the week of `today`. */
  function StartOfWeek(today: int): (r: int)
    ensures r % 7 == 0 && r <= today < r + 7
  {
    today - today % 7
  }

  // ---------------------------------------------------------------------------
  // Grouping
  // ---------------------------------------------------------------------------

  /** The entries of project `id`, in input order. */
  function Filter(es: seq<Entry>, id: string): (r: seq<Entry>)
    ensures |r| <= |es|
    ensures forall e :: e in r ==> e in es && e.projectId == id
    decreases |es|
  {
    if es == [] then []
    else Filter(es[..|es| - 1], id) + (if es[|es| - 1].projectId == id then [es[|es| - 1]] else [])
  }

  /** What `groupEntriesByProject` builds, entry by entry. */
  function Groups(es: seq<Entry>): map<string, seq<Entry>>
    decreases |es|
  {
    if es == [] then map[]
    else
      var g := Groups(es[..|es| - 1]);
      var e := es[|es| - 1];
      g[e.projectId := (if e.projectId in g then g[e.projectId] else []) + [e]]
  }

  predicate HasProject(es: seq<Entry>, id: string) {
    exists i :: 0 <= i < |es| && es[i].projectId == id
  }

  /**
   * The keys are exactly the entries' project ids, and each group is the
   * non-empty list of that project's entries in input order.
   */
  lemma {:induction false} GroupsAre(es: seq<Entry>)
    ensures forall id :: id in Groups(es) <==> HasProject(es, id)
    ensures forall id :: id in Groups(es) ==> Groups(es)[id] == Filter(es, id) && |Groups(es)[id]| > 0
    decreases |es|
  {
    if es != [] {
      var init := es[..|es| - 1];
      var e := es[|es| - 1];
      GroupsAre(init);
      forall id
        ensures id in Groups(es) <==> HasProject(es, id)
      {
        if HasProject(init, id) {
          var i :| 0 <= i < |init| && init[i].projectId == id;
          assert es[i].projectId == id;
        }
        if HasProject(es, id) && id != e.projectId {
          var i :| 0 <= i < |es| && es[i].projectId == id;
          assert init[i].projectId == id;
        }
      }
      forall id | id in Groups(es)
        ensures Groups(es)[id] == Filter(es, id)
      {
        if id != e.projectId {
          assert Filter(es, id) == Filter(init, id) + [];
        } else if id !in Groups(init) {
          FilterAbsent(init, id);
        }
      }
    }
  }

  /** A project none of the entries has gets an empty list. */
  lemma {:induction false} FilterAbsent(es: seq<Entry>, id: string)
    requires !HasProject(es, id)
    ensures Filter(es, id) == []
    decreases |es|
  {
    if es != [] {
      var init := es[..|es| - 1];
      assert !HasProject(init, id) by {
        assert forall i :: 0 <= i < |init| ==> init[i] == es[i];
      }
      FilterAbsent(init, id);
    }
  }

  /** `groupEntriesByProject`, loop by loop. */
  method GroupEntriesByProject(entries: seq<Entry>) returns (projectMap: map<string, seq<Entry>>)
    ensures projectMap == Groups(entries)
  {
    projectMap := map[];
    for i := 0 to |entries|
      invariant projectMap == Groups(entries[..i])
    {
      assert entries[..i + 1][..i] == entries[..i];
      var entry := entries[i];
      var existing := if entry.projectId in projectMap then projectMap[entry.projectId] else [];
      projectMap := projectMap[entry.projectId := existing + [entry]];
    }
    assert entries[..|entries|] == entries;
  }

  // ---------------------------------------------------------------------------
  // Sums over entries
  // ---------------------------------------------------------------------------

  /** One entry's duration: the text without its "PT" prefix, lower-cased and parsed; 0 when it does not parse. */
  function EntryDuration(parse: string -> Option<int>, e: Entry): int {
    match parse(ToLower(TrimPrefix(e.timeInterval.duration, "PT")))
    case Some(d) => d
    case None => 0
  }

  /** The duration of an entry that starts on a day in [lo, hi], and 0 for any other. */
  function Weight(parse: string -> Option<int>, e: Entry, lo: int, hi: int): int {
    if lo <= e.timeInterval.start.day <= hi then EntryDuration(parse, e) else 0
  }

  /** The time booked by entries starting on days lo..hi. */
  function SumIn(parse: string -> Option<int>, es: seq<Entry>, lo: int, hi: int): int
    decreases |es|
  {
    if es == [] then 0 else SumIn(parse, es[..|es| - 1], lo, hi) + Weight(parse, es[|es| - 1], lo, hi)
  }

  function DayDuration(parse: string -> Option<int>, es: seq<Entry>, day: int): int {
    SumIn(parse, es, day, day)
  }

  /** The time booked Monday to Friday of the week starting on Sunday `startOfWeek`. */
  function WeekDuration(parse: string -> Option<int>, es: seq<Entry>, startOfWeek: int): int {
    SumIn(parse, es, startOfWeek + 1, startOfWeek + WeekDays)
  }

  /** The durations of the first `n` weekdays of the week starting on `startOfWeek`. */
  function DaysFrom(parse: string -> Option<int>, es: seq<Entry>, startOfWeek: int, n: nat): seq<int> {
    seq(n, d => DayDuration(parse, es, WeekDay(startOfWeek, d)))
  }

  function Sum(xs: seq<int>): int
    decreases |xs|
  {
    if xs == [] then 0 else Sum(xs[..|xs| - 1]) + xs[|xs| - 1]
  }

  lemma {:induction false} SumInEmptyRange(parse: string -> Option<int>, es: seq<Entry>, lo: int, hi: int)
    requires lo > hi
    ensures SumIn(parse, es, lo, hi) == 0
    decreases |es|
  {
    if es != [] {
      SumInEmptyRange(parse, es[..|es| - 1], lo, hi);
    }
  }

  /** A range of days splits into all but its last day and its last day. */
  lemma {:induction false} SumInSplit(parse: string -> Option<int>, es: seq<Entry>, lo: int, hi: int)
    requires lo <= hi
    ensures SumIn(parse, es, lo, hi) == SumIn(parse, es, lo, hi - 1) + SumIn(parse, es, hi, hi)
    decreases |es|
  {
    if es != [] {
      SumInSplit(parse, es[..|es| - 1], lo, hi);
    }
  }

  /** The days' durations add up to the time booked over those days. */
  lemma {:induction false} DaysFromSum(parse: string -> Option<int>, es: seq<Entry>, startOfWeek: int, n: nat)
    ensures Sum(DaysFrom(parse, es, startOfWeek, n)) == SumIn(parse, es, startOfWeek + 1, startOfWeek + n)
    decreases n
  {
    if n == 0 {
      assert DaysFrom(parse, es, startOfWeek, n) == [];
      SumInEmptyRange(parse, es, startOfWeek + 1, startOfWeek);
    } else {
      var r := DaysFrom(parse, es, startOfWeek, n);
      assert r[..|r| - 1] == DaysFrom(parse, es, startOfWeek, n - 1);
      assert Sum(r) == Sum(r[..|r| - 1]) + r[n - 1];
      assert r[n - 1] == SumIn(parse, es, startOfWeek + n, startOfWeek + n);
      DaysFromSum(parse, es, startOfWeek, n - 1);
      SumInSplit(parse, es, startOfWeek + 1, startOfWeek + n);
    }
  }

  lemma DaysFromAt(parse: string -> Option<int>, es: seq<Entry>, startOfWeek: int, n: nat, d: int)
    requires 0 <= d < n
    ensures |DaysFrom(parse, es, startOfWeek, n)| == n
    ensures DaysFrom(parse, es, startOfWeek, n)[d] == DayDuration(parse, es, WeekDay(startOfWeek, d))
  {
  }

  /** An entry starting outside the range, or whose duration does not parse, adds nothing. */
  lemma ExcludedEntryAddsNothing(parse: string -> Option<int>, es: seq<Entry>, e: Entry, lo: int, hi: int)
    requires !(lo <= e.timeInterval.start.day <= hi) || parse(ToLower(TrimPrefix(e.timeInterval.duration, "PT"))).None?
    ensures SumIn(parse, es + [e], lo, hi) == SumIn(parse, es, lo, hi)
  {
    assert (es + [e])[..|es|] == es;
  }

  // ---------------------------------------------------------------------------
  // Sums over a partition by project
  // ---------------------------------------------------------------------------

  /** The time booked on days lo..hi, group by group, over the groups of the ids in `ids`. */
  function GroupsSumIn(parse: string -> Option<int>, es: seq<Entry>, ids: seq<string>, lo: int, hi: int): int
    decreases |ids|
  {
    if ids == [] then 0
    else GroupsSumIn(parse, es, ids[..|ids| - 1], lo, hi) + SumIn(parse, Filter(es, ids[|ids| - 1]), lo, hi)
  }

  /** The number of entries, group by group, over the groups of the ids in `ids`. */
  function GroupsSize(es: seq<Entry>, ids: seq<string>): int
    decreases |ids|
  {
    if ids == [] then 0 else GroupsSize(es, ids[..|ids| - 1]) + |Filter(es, ids[|ids| - 1])|
  }

  predicate Distinct(ids: seq<string>) {
    forall i, j :: 0 <= i < j < |ids| ==> ids[i] != ids[j]
  }

  lemma FilterSnoc(es: seq<Entry>, e: Entry, id: string)
    ensures Filter(es + [e], id) == Filter(es, id) + (if e.projectId == id then [e] else [])
  {
    assert (es + [e])[..|es|] == es;
  }

  lemma SumInSnoc(parse: string -> Option<int>, es: seq<Entry>, e: Entry, lo: int, hi: int)
    ensures SumIn(parse, es + [e], lo, hi) == SumIn(parse, es, lo, hi) + Weight(parse, e, lo, hi)
  {
    assert (es + [e])[..|es|] == es;
  }

  /** Distinct ids without `id` stay distinct, and do not contain `id`, when `id` is the last one. */
  lemma DistinctInit(ids: seq<string>)
    requires |ids| > 0 && Distinct(ids)
    ensures Distinct(ids[..|ids| - 1]) && ids[|ids| - 1] !in ids[..|ids| - 1]
  {
  }

  /** One more entry adds its weight to its project's group, once if the id is listed once. */
  lemma {:induction false} GroupsSumInSnoc(parse: string -> Option<int>, es: seq<Entry>, e: Entry, ids: seq<string>,
                                           lo: int, hi: int)
    requires Distinct(ids)
    ensures GroupsSumIn(parse, es + [e], ids, lo, hi)
         == GroupsSumIn(parse, es, ids, lo, hi) + (if e.projectId in ids then Weight(parse, e, lo, hi) else 0)
    decreases |ids|
  {
    if ids != [] {
      var init := ids[..|ids| - 1];
      var id := ids[|ids| - 1];
      DistinctInit(ids);
      GroupsSumInSnoc(parse, es, e, init, lo, hi);
      FilterSnoc(es, e, id);
      if e.projectId == id {
        SumInSnoc(parse, Filter(es, id), e, lo, hi);
      } else {
        assert Filter(es + [e], id) == Filter(es, id);
      }
      assert e.projectId in ids <==> e.projectId in init || e.projectId == id;
    }
  }

  lemma {:induction false} GroupsSizeSnoc(es: seq<Entry>, e: Entry, ids: seq<string>)
    requires Distinct(ids)
    ensures GroupsSize(es + [e], ids) == GroupsSize(es, ids) + (if e.projectId in ids then 1 else 0)
    decreases |ids|
  {
    if ids != [] {
      var init := ids[..|ids| - 1];
      var id := ids[|ids| - 1];
      DistinctInit(ids);
      GroupsSizeSnoc(es, e, init);
      FilterSnoc(es, e, id);
      assert e.projectId in ids <==> e.projectId in init || e.projectId == id;
    }
  }

  lemma {:induction false} GroupsOfNothing(parse: string -> Option<int>, ids: seq<string>, lo: int, hi: int)
    ensures GroupsSumIn(parse, [], ids, lo, hi) == 0 && GroupsSize([], ids) == 0
    decreases |ids|
  {
    if ids != [] {
      GroupsOfNothing(parse, ids[..|ids| - 1], lo, hi);
    }
  }

  /**
   * Summing group by group over a list naming each project once, and every
   * entry's project, is summing over all the entries: every entry is in
   * exactly one group.
   */
  lemma {:induction false} GroupsSumInIsTotal(parse: string -> Option<int>, es: seq<Entry>, ids: seq<string>,
                                              lo: int, hi: int)
    requires Distinct(ids)
    requires forall i :: 0 <= i < |es| ==> es[i].projectId in ids
    ensures GroupsSumIn(parse, es, ids, lo, hi) == SumIn(parse, es, lo, hi)
    ensures GroupsSize(es, ids) == |es|
    decreases |es|
  {
    if es == [] {
      GroupsOfNothing(parse, ids, lo, hi);
    } else {
      var init := es[..|es| - 1];
      var e := es[|es| - 1];
      GroupsSumInIsTotal(parse, init, ids, lo, hi);
      assert init + [e] == es;
      GroupsSumInSnoc(parse, init, e, ids, lo, hi);
      GroupsSizeSnoc(init, e, ids);
    }
  }

  // ---------------------------------------------------------------------------
  // The table
  // ---------------------------------------------------------------------------

  /** The first column: the project's name, followed by its client in parentheses when it has one. */
  function ProjectLabel(p: Project): string {
    if p.clientName != "" then p.name + " (" + p.clientName + ")" else p.name
  }

  /**
   * A project's row: the label of the project of its first entry (the zero
   * project's empty name when no project has that id), the five weekday
   * durations, and the week's total.
   */
  function ProjectRow(parse: string -> Option<int>, projects: seq<Project>, group: seq<Entry>, startOfWeek: int): Row
    requires |group| > 0
  {
    Row(ProjectLabel(ProjectOrZero(projects, group[0].projectId)),
        DaysFrom(parse, group, startOfWeek, WeekDays),
        WeekDuration(parse, group, startOfWeek))
  }

  lemma ProjectRowParts(parse: string -> Option<int>, projects: seq<Project>, group: seq<Entry>, startOfWeek: int)
    requires |group| > 0
    ensures ProjectRow(parse, projects, group, startOfWeek).days == DaysFrom(parse, group, startOfWeek, WeekDays)
    ensures ProjectRow(parse, projects, group, startOfWeek).total == WeekDuration(parse, group, startOfWeek)
  {
  }

  predicate Covers(groups: map<string, seq<Entry>>, ids: seq<string>) {
    forall i :: 0 <= i < |ids| ==> ids[i] in groups && |groups[ids[i]]| > 0
  }

  function ProjectRows(parse: string -> Option<int>, projects: seq<Project>, groups: map<string, seq<Entry>>,
                       ids: seq<string>, startOfWeek: int): (r: seq<Row>)
    requires Covers(groups, ids)
    ensures |r| == |ids|
    decreases |ids|
  {
    if ids == [] then []
    else
      var init := ids[..|ids| - 1];
      assert Covers(groups, init) by {
        assert forall i :: 0 <= i < |init| ==> init[i] == ids[i];
      }
      ProjectRows(parse, projects, groups, init, startOfWeek) + [ProjectRow(parse, projects, groups[ids[|ids| - 1]], startOfWeek)]
  }

  /** The sum of weekday column `d` over the rows. */
  function ColumnSum(rows: seq<Row>, d: int): int
    decreases |rows|
  {
    if rows == [] then 0
    else
      var r := rows[|rows| - 1];
      ColumnSum(rows[..|rows| - 1], d) + (if 0 <= d < |r.days| then r.days[d] else 0)
  }

  /** The sum of the Total column over the rows. */
  function TotalSum(rows: seq<Row>): int
    decreases |rows|
  {
    if rows == [] then 0 else TotalSum(rows[..|rows| - 1]) + rows[|rows| - 1].total
  }

  function ColumnSums(rows: seq<Row>, n: nat): seq<int> {
    seq(n, d => ColumnSum(rows, d))
  }

  /** The last row: each weekday column summed over the project rows, and their totals summed. */
  function TotalsRow(rows: seq<Row>): Row {
    Row("Totals", ColumnSums(rows, WeekDays), TotalSum(rows))
  }

  /** Every listed project with entries has a non-empty group. */
  lemma GroupsCover(entries: seq<Entry>, ids: seq<string>)
    requires forall i :: 0 <= i < |ids| ==> HasProject(entries, ids[i])
    ensures Covers(Groups(entries), ids)
  {
    GroupsAre(entries);
  }

  /** The table for `today`, with the projects in the order `order`. */
  function Table(parse: string -> Option<int>, projects: seq<Project>, entries: seq<Entry>, today: int,
                 order: seq<string>): seq<Row>
    requires forall i :: 0 <= i < |order| ==> HasProject(entries, order[i])
  {
    GroupsCover(entries, order);
    var rows := ProjectRows(parse, projects, Groups(entries), order, StartOfWeek(today));
    rows + [TotalsRow(rows)]
  }

  /** The order in which Go's map can hand out the groups: every project id once. */
  predicate IsKeyOrder(entries: seq<Entry>, order: seq<string>) {
    Distinct(order) &&
    (forall i :: 0 <= i < |order| ==> HasProject(entries, order[i])) &&
    (forall i :: 0 <= i < |entries| ==> entries[i].projectId in order)
  }

  /** The body of the project loop for one group: its name, its five days and its total. */
  method AddProjectRow(parse: string -> Option<int>, projects: seq<Project>, group: seq<Entry>, startOfWeek: int,
                       dailyTotals0: map<TotalsKey, int>)
    returns (row: Row, dailyTotals: map<TotalsKey, int>)
    requires |group| > 0
    ensures row == ProjectRow(parse, projects, group, startOfWeek)
    ensures forall d :: 0 <= d < WeekDays ==>
      DayTotal(dailyTotals, startOfWeek, d) == DayTotal(dailyTotals0, startOfWeek, d) + row.days[d]
    ensures Get(dailyTotals, TotalKey) == Get(dailyTotals0, TotalKey) + row.total
  {
    var project, _ := FindProjectById(projects, group[0].projectId);
    var projectName := project.name;
    if project.clientName != "" {
      projectName := project.name + " (" + project.clientName + ")";
    }
    var days, totalDuration;
    days, totalDuration, dailyTotals := DayColumns(parse, group, startOfWeek, dailyTotals0);
    dailyTotals := dailyTotals[TotalKey := Get(dailyTotals, TotalKey) + totalDuration];
    DaysFromSum(parse, group, startOfWeek, WeekDays);
    row := Row(projectName, days, totalDuration);
  }

  /** The loop over the five weekdays for one group, adding each day's duration to `dailyTotals`. */
  method DayColumns(parse: string -> Option<int>, group: seq<Entry>, startOfWeek: int, dailyTotals0: map<TotalsKey, int>)
    returns (days: seq<int>, totalDuration: int, dailyTotals: map<TotalsKey, int>)
    ensures days == DaysFrom(parse, group, startOfWeek, WeekDays)
    ensures totalDuration == Sum(days)
    ensures forall d :: 0 <= d < WeekDays ==>
      DayTotal(dailyTotals, startOfWeek, d) == DayTotal(dailyTotals0, startOfWeek, d) + days[d]
    ensures Get(dailyTotals, TotalKey) == Get(dailyTotals0, TotalKey)
  {
    days := [];
    totalDuration := 0;
    dailyTotals := dailyTotals0;
    for i := 0 to WeekDays
      invariant |days| == i
      invariant forall d :: 0 <= d < i ==> days[d] == DayDuration(parse, group, WeekDay(startOfWeek, d))
      invariant totalDuration == Sum(days)
      invariant forall d :: 0 <= d < i ==>
        DayTotal(dailyTotals, startOfWeek, d) == DayTotal(dailyTotals0, startOfWeek, d) + days[d]
      invariant forall d :: i <= d < WeekDays ==> DayTotal(dailyTotals, startOfWeek, d) == DayTotal(dailyTotals0, startOfWeek, d)
      invariant Get(dailyTotals, TotalKey) == Get(dailyTotals0, TotalKey)
    {
      var day := startOfWeek + i + 1;
      assert day == WeekDay(startOfWeek, i);
      var dayDuration;
      dayDuration, totalDuration := SumDay(parse, group, day, totalDuration);
      dailyTotals := CreditDay(dailyTotals, dailyTotals0, days, startOfWeek, i, dayDuration);
      assert Sum(days + [dayDuration]) == Sum(days) + dayDuration by {
        assert (days + [dayDuration])[..i] == days;
      }
      days := days + [dayDuration];
    }
  }

  /** `dailyTotals[day] += dayDuration` for weekday `i`, and what it keeps. */
  method CreditDay(dailyTotals: map<TotalsKey, int>, dailyTotals0: map<TotalsKey, int>, days: seq<int>,
                   startOfWeek: int, i: int, dayDuration: int)
    returns (r: map<TotalsKey, int>)
    requires 0 <= i < WeekDays && |days| == i
    requires forall d :: 0 <= d < i ==>
      DayTotal(dailyTotals, startOfWeek, d) == DayTotal(dailyTotals0, startOfWeek, d) + days[d]
    requires forall d :: i <= d < WeekDays ==> DayTotal(dailyTotals, startOfWeek, d) == DayTotal(dailyTotals0, startOfWeek, d)
    requires Get(dailyTotals, TotalKey) == Get(dailyTotals0, TotalKey)
    ensures forall d :: 0 <= d < i + 1 ==>
      DayTotal(r, startOfWeek, d) == DayTotal(dailyTotals0, startOfWeek, d) + (days + [dayDuration])[d]
    ensures forall d :: i + 1 <= d < WeekDays ==> DayTotal(r, startOfWeek, d) == DayTotal(dailyTotals0, startOfWeek, d)
    ensures Get(r, TotalKey) == Get(dailyTotals0, TotalKey)
  {
    var day := startOfWeek + i + 1;
    r := dailyTotals[DayKey(day) := Get(dailyTotals, DayKey(day)) + dayDuration];
    forall d | 0 <= d < i + 1
      ensures DayTotal(r, startOfWeek, d) == DayTotal(dailyTotals0, startOfWeek, d) + (days + [dayDuration])[d]
    {
      if d < i {
        assert DayKey(WeekDay(startOfWeek, d)) != DayKey(day);
      }
    }
    forall d | i + 1 <= d < WeekDays
      ensures DayTotal(r, startOfWeek, d) == DayTotal(dailyTotals0, startOfWeek, d)
    {
      assert DayKey(WeekDay(startOfWeek, d)) != DayKey(day);
    }
  }

  /** The innermost loop: one day's duration for a group, also added to the running total. */
  method SumDay(parse: string -> Option<int>, group: seq<Entry>, day: int, total0: int)
    returns (dayDuration: int, totalDuration: int)
    ensures dayDuration == DayDuration(parse, group, day)
    ensures totalDuration == total0 + dayDuration
  {
    dayDuration := 0;
    totalDuration := total0;
    for j := 0 to |group|
      invariant dayDuration == SumIn(parse, group[..j], day, day)
      invariant totalDuration == total0 + dayDuration
    {
      assert group[..j + 1][..j] == group[..j];
      var entry := group[j];
      if entry.timeInterval.start.day == day {
        var d := entry.timeInterval.duration;
        d := TrimPrefix(d, "PT");
        var parsed := parse(ToLower(d));
        var entryDuration := if parsed.Some? then parsed.value else 0;
        dayDuration := dayDuration + entryDuration;
        totalDuration := totalDuration + entryDuration;
      }
    }
    assert group[..|group|] == group;
  }

  /** `setTableData`: the project rows in the order `order`, then the Totals row. */
  method SetTableData(parse: string -> Option<int>, projects: seq<Project>, entries: seq<Entry>, today: int,
                      order: seq<string>)
    returns (rows: seq<Row>)
    requires IsKeyOrder(entries, order)
    ensures rows == Table(parse, projects, entries, today, order)
  {
    var groupedEntries := GroupEntriesByProject(entries);
    var weekday := today % 7;
    var startOfWeek := today - weekday;
    TableIs(parse, projects, entries, today, order, groupedEntries, startOfWeek);
    var dailyTotals;
    rows, dailyTotals := ProjectLoop(parse, projects, groupedEntries, order, startOfWeek);
    var totals := TotalsLoop(dailyTotals, rows, startOfWeek);
    rows := rows + [Row("Totals", totals, Get(dailyTotals, TotalKey))];
  }

  /** The loop over the groups: one row each, with the days and the total added to `dailyTotals`. */
  method ProjectLoop(parse: string -> Option<int>, projects: seq<Project>, groupedEntries: map<string, seq<Entry>>,
                     order: seq<string>, startOfWeek: int)
    returns (rows: seq<Row>, dailyTotals: map<TotalsKey, int>)
    requires Covers(groupedEntries, order)
    ensures rows == ProjectRows(parse, projects, groupedEntries, order, startOfWeek)
    ensures forall d :: 0 <= d < WeekDays ==> DayTotal(dailyTotals, startOfWeek, d) == ColumnSum(rows, d)
    ensures Get(dailyTotals, TotalKey) == TotalSum(rows)
  {
    dailyTotals := map[];
    rows := [];
    for g := 0 to |order|
      invariant Covers(groupedEntries, order[..g])
      invariant rows == ProjectRows(parse, projects, groupedEntries, order[..g], startOfWeek)
      invariant forall d :: 0 <= d < WeekDays ==> DayTotal(dailyTotals, startOfWeek, d) == ColumnSum(rows, d)
      invariant Get(dailyTotals, TotalKey) == TotalSum(rows)
    {
      ProjectRowsSnoc(parse, projects, groupedEntries, order, startOfWeek, g);
      var group := groupedEntries[order[g]];
      var row;
      row, dailyTotals := AddProjectRow(parse, projects, group, startOfWeek, dailyTotals);
      SumsSnoc(rows, row);
      rows := rows + [row];
    }
    assert order[..|order|] == order;
  }

  /** One more listed project adds its row at the end. */
  lemma ProjectRowsSnoc(parse: string -> Option<int>, projects: seq<Project>, groups: map<string, seq<Entry>>,
                        ids: seq<string>, startOfWeek: int, g: int)
    requires Covers(groups, ids) && 0 <= g < |ids|
    ensures Covers(groups, ids[..g]) && Covers(groups, ids[..g + 1])
    ensures ProjectRows(parse, projects, groups, ids[..g + 1], startOfWeek)
         == ProjectRows(parse, projects, groups, ids[..g], startOfWeek)
          + [ProjectRow(parse, projects, groups[ids[g]], startOfWeek)]
  {
    assert ids[..g + 1][..g] == ids[..g];
  }

  /** One more row adds its cells to the column sums and its total to the Total column's sum. */
  lemma SumsSnoc(rows: seq<Row>, row: Row)
    ensures TotalSum(rows + [row]) == TotalSum(rows) + row.total
    ensures forall d :: 0 <= d < |row.days| ==> ColumnSum(rows + [row], d) == ColumnSum(rows, d) + row.days[d]
  {
    assert (rows + [row])[..|rows|] == rows;
  }

  /** The loop building the Totals row's five weekday cells. */
  method TotalsLoop(dailyTotals: map<TotalsKey, int>, rows: seq<Row>, startOfWeek: int) returns (totals: seq<int>)
    requires forall d :: 0 <= d < WeekDays ==> DayTotal(dailyTotals, startOfWeek, d) == ColumnSum(rows, d)
    ensures totals == ColumnSums(rows, WeekDays)
  {
    totals := [];
    for i := 0 to WeekDays
      invariant totals == ColumnSums(rows, i)
    {
      var day := startOfWeek + i + 1;
      assert day == WeekDay(startOfWeek, i);
      totals := totals + [Get(dailyTotals, DayKey(day))];
    }
  }

  // ---------------------------------------------------------------------------
  // Properties of the table
  // ---------------------------------------------------------------------------

  /** Each project row's total is the sum of its five weekday columns. */
  lemma RowTotalIsSumOfDays(parse: string -> Option<int>, projects: seq<Project>, group: seq<Entry>, startOfWeek: int)
    requires |group| > 0
    ensures var row := ProjectRow(parse, projects, group, startOfWeek);
      |row.days| == WeekDays && Sum(row.days) == row.total
  {
    DaysFromSum(parse, group, startOfWeek, WeekDays);
  }

  /** There is one row per project plus the Totals row, which comes last. */
  lemma TableShape(parse: string -> Option<int>, projects: seq<Project>, entries: seq<Entry>, today: int, order: seq<string>)
    requires IsKeyOrder(entries, order)
    ensures var t := Table(parse, projects, entries, today, order);
      |t| == |order| + 1 && t[|order|].name == "Totals" && |t[|order|].days| == WeekDays &&
      (forall id :: id in order <==> HasProject(entries, id))
  {
    forall id | HasProject(entries, id)
      ensures id in order
    {
      var i :| 0 <= i < |entries| && entries[i].projectId == id;
    }
  }

  /** Every group is non-empty, each is the project's entries, and the group sizes add up to the number of entries. */
  lemma GroupSizes(entries: seq<Entry>, order: seq<string>)
    requires IsKeyOrder(entries, order)
    ensures forall i :: 0 <= i < |order| ==> order[i] in Groups(entries) && |Groups(entries)[order[i]]| > 0
    ensures forall id :: id in Groups(entries) ==> Groups(entries)[id] == Filter(entries, id)
    ensures GroupsSize(entries, order) == |entries|
  {
    GroupsAre(entries);
    GroupsSumInIsTotal(x => None, entries, order, 0, 0);
  }

  /** Groups that are the projects' filters of the entries. */
  predicate FiltersOf(groups: map<string, seq<Entry>>, entries: seq<Entry>, ids: seq<string>) {
    Covers(groups, ids) && forall i :: 0 <= i < |ids| ==> groups[ids[i]] == Filter(entries, ids[i])
  }

  lemma FiltersOfInit(groups: map<string, seq<Entry>>, entries: seq<Entry>, ids: seq<string>)
    requires |ids| > 0 && FiltersOf(groups, entries, ids)
    ensures FiltersOf(groups, entries, ids[..|ids| - 1])
    ensures groups[ids[|ids| - 1]] == Filter(entries, ids[|ids| - 1])
  {
    assert forall i :: 0 <= i < |ids| - 1 ==> ids[..|ids| - 1][i] == ids[i];
  }

  /** The last row adds its day `d` to the column and its total to the Total column. */
  lemma RowsStep(parse: string -> Option<int>, projects: seq<Project>, groups: map<string, seq<Entry>>,
                 ids: seq<string>, startOfWeek: int, d: int)
    requires Covers(groups, ids) && |ids| > 0 && 0 <= d < WeekDays
    ensures Covers(groups, ids[..|ids| - 1])
    ensures ColumnSum(ProjectRows(parse, projects, groups, ids, startOfWeek), d)
         == ColumnSum(ProjectRows(parse, projects, groups, ids[..|ids| - 1], startOfWeek), d)
          + DayDuration(parse, groups[ids[|ids| - 1]], WeekDay(startOfWeek, d))
    ensures TotalSum(ProjectRows(parse, projects, groups, ids, startOfWeek))
         == TotalSum(ProjectRows(parse, projects, groups, ids[..|ids| - 1], startOfWeek))
          + WeekDuration(parse, groups[ids[|ids| - 1]], startOfWeek)
  {
    var rows := ProjectRows(parse, projects, groups, ids, startOfWeek);
    var group := groups[ids[|ids| - 1]];
    assert rows[..|rows| - 1] == ProjectRows(parse, projects, groups, ids[..|ids| - 1], startOfWeek);
    ProjectRowParts(parse, projects, group, startOfWeek);
    DaysFromAt(parse, group, startOfWeek, WeekDays, d);
  }

  /** The rows' sums of weekday column `d` and of the Total column are sums over the groups. */
  lemma {:induction false} RowsAreGroupSums(parse: string -> Option<int>, projects: seq<Project>, entries: seq<Entry>,
                                            groups: map<string, seq<Entry>>, ids: seq<string>, startOfWeek: int, d: int)
    requires FiltersOf(groups, entries, ids)
    requires 0 <= d < WeekDays
    ensures ColumnSum(ProjectRows(parse, projects, groups, ids, startOfWeek), d)
         == GroupsSumIn(parse, entries, ids, WeekDay(startOfWeek, d), WeekDay(startOfWeek, d))
    ensures TotalSum(ProjectRows(parse, projects, groups, ids, startOfWeek))
         == GroupsSumIn(parse, entries, ids, startOfWeek + 1, startOfWeek + WeekDays)
    decreases |ids|
  {
    if ids != [] {
      FiltersOfInit(groups, entries, ids);
      RowsAreGroupSums(parse, projects, entries, groups, ids[..|ids| - 1], startOfWeek, d);
      RowsStep(parse, projects, groups, ids, startOfWeek, d);
    }
  }

  /**
   * Over the groups of a key order, the rows' sum of weekday column `d` is the
   * time booked on that day by all the entries, and the rows' sum of the Total
   * column is the time booked Monday to Friday by all the entries.
   */
  lemma RowsCountEveryEntry(parse: string -> Option<int>, projects: seq<Project>, entries: seq<Entry>,
                            order: seq<string>, startOfWeek: int, d: int)
    requires FiltersOf(Groups(entries), entries, order)
    requires Distinct(order) && forall i :: 0 <= i < |entries| ==> entries[i].projectId in order
    requires 0 <= d < WeekDays
    ensures ColumnSum(ProjectRows(parse, projects, Groups(entries), order, startOfWeek), d)
         == DayDuration(parse, entries, WeekDay(startOfWeek, d))
    ensures TotalSum(ProjectRows(parse, projects, Groups(entries), order, startOfWeek))
         == WeekDuration(parse, entries, startOfWeek)
  {
    RowsAreGroupSums(parse, projects, entries, Groups(entries), order, startOfWeek, d);
    GroupsSumInIsTotal(parse, entries, order, WeekDay(startOfWeek, d), WeekDay(startOfWeek, d));
    GroupsSumInIsTotal(parse, entries, order, startOfWeek + 1, startOfWeek + WeekDays);
  }

  /** Weekday column `d` of the Totals row is the time booked on that day by all the entries. */
  lemma TotalsColumnCountsEveryEntry(parse: string -> Option<int>, projects: seq<Project>, entries: seq<Entry>,
                                     today: int, order: seq<string>, d: int)
    requires IsKeyOrder(entries, order)
    requires 0 <= d < WeekDays
    ensures var t := Table(parse, projects, entries, today, order);
      |t[|order|].days| == WeekDays && t[|order|].days[d] == DayDuration(parse, entries, WeekDay(StartOfWeek(today), d))
  {
    var rows := TableLast(parse, projects, entries, today, order);
    RowsCountEveryEntry(parse, projects, entries, order, StartOfWeek(today), d);
    assert ColumnSums(rows, WeekDays)[d] == ColumnSum(rows, d);
  }

  /** The Totals row's Total is the time booked Monday to Friday by all the entries. */
  lemma TotalsTotalCountsEveryEntry(parse: string -> Option<int>, projects: seq<Project>, entries: seq<Entry>,
                                    today: int, order: seq<string>)
    requires IsKeyOrder(entries, order)
    ensures var t := Table(parse, projects, entries, today, order);
      t[|order|].total == WeekDuration(parse, entries, StartOfWeek(today))
  {
    var rows := TableLast(parse, projects, entries, today, order);
    RowsCountEveryEntry(parse, projects, entries, order, StartOfWeek(today), 0);
    assert Table(parse, projects, entries, today, order)[|order|].total == TotalSum(rows);
  }

  /** The table's last row is the Totals row of its project rows, which are the groups' filters. */
  lemma TableLast(parse: string -> Option<int>, projects: seq<Project>, entries: seq<Entry>, today: int,
                  order: seq<string>)
    returns (rows: seq<Row>)
    requires IsKeyOrder(entries, order)
    ensures FiltersOf(Groups(entries), entries, order)
    ensures rows == ProjectRows(parse, projects, Groups(entries), order, StartOfWeek(today))
    ensures |rows| == |order|
    ensures Table(parse, projects, entries, today, order)[|order|] == TotalsRow(rows)
  {
    GroupsAre(entries);
    rows := ProjectRows(parse, projects, Groups(entries), order, StartOfWeek(today));
  }

  /** The table is the project rows of the groups followed by their Totals row. */
  lemma TableIs(parse: string -> Option<int>, projects: seq<Project>, entries: seq<Entry>, today: int,
                order: seq<string>, groups: map<string, seq<Entry>>, startOfWeek: int)
    requires IsKeyOrder(entries, order)
    requires groups == Groups(entries) && startOfWeek == StartOfWeek(today)
    ensures Covers(groups, order)
    ensures Table(parse, projects, entries, today, order)
         == ProjectRows(parse, projects, groups, order, startOfWeek)
          + [TotalsRow(ProjectRows(parse, projects, groups, order, startOfWeek))]
  {
    GroupsCover(entries, order);
  }

  /** The Totals row's own Total is the sum of its five weekday columns, like every project row's. */
  lemma TotalsRowTotalIsSumOfDays(parse: string -> Option<int>, projects: seq<Project>, entries: seq<Entry>, today: int,
                                  order: seq<string>)
    requires IsKeyOrder(entries, order)
    ensures var t := Table(parse, projects, entries, today, order);
      Sum(t[|order|].days) == t[|order|].total
  {
    var sow := StartOfWeek(today);
    var t := Table(parse, projects, entries, today, order);
    var days := DaysFrom(parse, entries, sow, WeekDays);
    forall d | 0 <= d < WeekDays
      ensures t[|order|].days[d] == days[d]
    {
      TotalsColumnCountsEveryEntry(parse, projects, entries, today, order, d);
    }
    assert t[|order|].days == days;
    TotalsTotalCountsEveryEntry(parse, projects, entries, today, order);
    DaysFromSum(parse, entries, sow, WeekDays);
  }
}
