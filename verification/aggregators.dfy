/**
 * The KPI summary and the chart series (src/App.tsx): counts per pattern,
 * per org unit and per deadline week over the filtered tasks, the workload
 * bars and the average risk per org unit over the rows.  The org-unit, risk
 * and deadline series fold into an insertion-ordered `Map`, so their keys
 * come out in first-seen order.
 */
module Aggregators {
  import opened Wrappers
  import opened Seqs
  import opened OrderedMaps
  import opened Domain
  import opened RowBuilder
  import opened RiskScorer

  function HasPattern(p: Pattern): Task -> bool
  {
    (t: Task) => t.pattern == p
  }

  /** Every task has exactly one of the three patterns. */
  lemma {:induction false} PatternPartition(tasks: seq<Task>)
    ensures |Filter(tasks, HasPattern(Direct))| + |Filter(tasks, HasPattern(Deferred))|
            + |Filter(tasks, HasPattern(Offer))| == |tasks|
  {
    if tasks != [] {
      PatternPartition(tasks[1..]);
    }
  }

  // ---------------------------------------------------------------- KPIs

  datatype Kpis = Kpis(
    total: nat, unassigned: nat, offered: nat, offeredUnclaimed: nat,
    deferred: nat, direct: nat, overdue: nat)

  function IsUnassigned(t: Task): bool
  {
    !HasAssignee(t)
  }

  function IsUnclaimedOffer(t: Task): bool
  {
    t.pattern == Offer && !HasAssignee(t)
  }

  /** A deadline strictly before today, whatever the status. */
  function IsOverdue(today: int): Task -> bool
  {
    (t: Task) => t.deadline.Some? && DaysUntil(t.deadline.value, today) < 0
  }

  /**
   * An overdue task that is still in progress or in the backlog is also near
   * its deadline, so it raises its assignee's risk score as well.
   */
  lemma OverdueActiveIsNear(t: Task, today: int)
    requires IsOverdue(today)(t) && (t.status == InProgress || t.status == Backlog)
    ensures NearDeadline(t, today)
  {
  }

  function HasDeadline(t: Task): bool
  {
    t.deadline.Some?
  }

  /**
   * `kpis`: the three pattern counts add up to the total; unclaimed offers
   * are both offers and unassigned; unassigned and overdue tasks are among
   * the total, and overdue ones all have a deadline.
   */
  function ComputeKpis(tasks: seq<Task>, today: int): (k: Kpis)
    ensures k.total == |tasks|
    ensures k.unassigned == |Filter(tasks, IsUnassigned)| && k.overdue == |Filter(tasks, IsOverdue(today))|
    ensures k.offered == |Filter(tasks, HasPattern(Offer))| && k.offeredUnclaimed == |Filter(tasks, IsUnclaimedOffer)|
    ensures k.direct == |Filter(tasks, HasPattern(Direct))| && k.deferred == |Filter(tasks, HasPattern(Deferred))|
    ensures k.direct + k.deferred + k.offered == k.total
    ensures k.offeredUnclaimed <= k.offered && k.offeredUnclaimed <= k.unassigned
    ensures k.unassigned <= k.total
    ensures k.overdue <= |Filter(tasks, HasDeadline)|
  {
    PatternPartition(tasks);
    FilterWeaker(tasks, IsUnclaimedOffer, HasPattern(Offer));
    FilterWeaker(tasks, IsUnclaimedOffer, IsUnassigned);
    FilterWeaker(tasks, IsOverdue(today), HasDeadline);
    Kpis(
      |tasks|,
      |Filter(tasks, IsUnassigned)|,
      |Filter(tasks, HasPattern(Offer))|,
      |Filter(tasks, IsUnclaimedOffer)|,
      |Filter(tasks, HasPattern(Deferred))|,
      |Filter(tasks, HasPattern(Direct))|,
      |Filter(tasks, IsOverdue(today))|)
  }

  // ------------------------------------------------------ workload bars

  datatype WorkloadBar = WorkloadBar(name: string, hours: int, capacity: nat)

  /** `workloadByEmployee`: one bar per row, in row order, with the row's hours and capacity. */
  function WorkloadByEmployee(rows: seq<EmployeeRow>): (bars: seq<WorkloadBar>)
    ensures |bars| == |rows|
    ensures forall i :: 0 <= i < |rows| ==>
      bars[i].name == rows[i].name && bars[i].hours == rows[i].assignedHours &&
      bars[i].capacity == rows[i].weeklyCapacity
  {
    if rows == [] then []
    else [WorkloadBar(rows[0].name, rows[0].assignedHours, rows[0].weeklyCapacity)] + WorkloadByEmployee(rows[1..])
  }

  // -------------------------------------------------- pattern histogram

  datatype PatternCount = PatternCount(key: Pattern, value: nat)

  /**
   * `tasksByPattern`: the three buckets direct, deferred, offer in that
   * fixed order, each holding its number of tasks (0 included), together
   * counting every task once.
   */
  method TasksByPattern(tasks: seq<Task>) returns (series: seq<PatternCount>)
    ensures |series| == 3
    ensures series[0].key == Direct && series[1].key == Deferred && series[2].key == Offer
    ensures forall c :: c in series ==> c.value == |Filter(tasks, HasPattern(c.key))|
    ensures series[0].value + series[1].value + series[2].value == |tasks|
  {
    var direct, deferred, offer := 0, 0, 0;
    var i := 0;
    while i < |tasks|
      invariant 0 <= i <= |tasks|
      invariant direct == |Filter(tasks[..i], HasPattern(Direct))|
      invariant deferred == |Filter(tasks[..i], HasPattern(Deferred))|
      invariant offer == |Filter(tasks[..i], HasPattern(Offer))|
      invariant direct + deferred + offer == i
    {
      var t := tasks[i];
      assert tasks[..i + 1] == tasks[..i] + [t];
      FilterAppend(tasks[..i], [t], HasPattern(Direct));
      FilterAppend(tasks[..i], [t], HasPattern(Deferred));
      FilterAppend(tasks[..i], [t], HasPattern(Offer));
      match t.pattern {
        case Direct => direct := direct + 1;
        case Deferred => deferred := deferred + 1;
        case Offer => offer := offer + 1;
      }
      i := i + 1;
    }
    assert tasks[..i] == tasks;
    series := [PatternCount(Direct, direct), PatternCount(Deferred, deferred), PatternCount(Offer, offer)];
  }

  // ------------------------------------------------- org-unit histogram

  function TaskOrg(t: Task): string
  {
    t.orgUnit
  }

  /**
   * `tasksByOrgUnit`: one entry per org unit seen among the tasks, in
   * first-seen order, holding the number of tasks of that unit; the counts
   * add up to the number of tasks.
   */
  method TasksByOrgUnit(tasks: seq<Task>) returns (series: OMap<string, nat>)
    ensures Keys(series) == FirstSeen(Map(tasks, TaskOrg))
    ensures forall k {:trigger Get(series, k)} :: k in Keys(series) ==>
      Get(series, k) == Some(|Filter(tasks, KeyIs(TaskOrg, k))|)
    ensures TotalCount(series) == |tasks|
  {
    series := [];
    var i := 0;
    ghost var done: seq<Task> := [];
    while i < |tasks|
      invariant 0 <= i <= |tasks| && done == tasks[..i]
      invariant Keys(series) == FirstSeen(Map(done, TaskOrg))
      invariant forall k {:trigger Get(series, k)} :: k in Keys(series) ==>
        Get(series, k) == Some(|Filter(done, KeyIs(TaskOrg, k))|)
      invariant TotalCount(series) == i
    {
      var t := tasks[i];
      TallyStep(series, done, t, TaskOrg);
      series := Increment(series, TaskOrg(t));
      done := done + [t];
      PrefixStep(tasks, i);
      i := i + 1;
    }
    assert done == tasks;
  }

  // ---------------------------------------------- average risk per unit

  function RowOrg(r: EmployeeRow): string
  {
    r.orgUnit
  }

  function RowRisk(r: EmployeeRow): int
  {
    r.risk
  }

  function MinRisk(g: seq<EmployeeRow>): (m: int)
    requires g != []
    ensures forall r :: r in g ==> m <= r.risk
    ensures exists r :: r in g && r.risk == m
  {
    if |g| == 1 then g[0].risk
    else
      var rest := MinRisk(g[1..]);
      assert g == [g[0]] + g[1..];
      if g[0].risk <= rest then g[0].risk else rest
  }

  function MaxRisk(g: seq<EmployeeRow>): (m: int)
    requires g != []
    ensures forall r :: r in g ==> r.risk <= m
    ensures exists r :: r in g && r.risk == m
  {
    if |g| == 1 then g[0].risk
    else
      var rest := MaxRisk(g[1..]);
      assert g == [g[0]] + g[1..];
      if g[0].risk >= rest then g[0].risk else rest
  }

  /** The rounded mean risk of a non-empty group lies between its lowest and highest risk. */
  lemma AverageWithinRange(g: seq<EmployeeRow>)
    requires g != []
    ensures MinRisk(g) <= RoundHalfUp(Sum(g, RowRisk), |g|) <= MaxRisk(g)
  {
    SumBounds(g, RowRisk, MinRisk(g), MaxRisk(g));
    RoundHalfUpWithin(Sum(g, RowRisk), |g|, MinRisk(g), MaxRisk(g));
  }

  /** The rows of org unit `k`. */
  function OrgGroup(rows: seq<EmployeeRow>, k: string): seq<EmployeeRow>
  {
    Filter(rows, KeyIs(RowOrg, k))
  }

  /**
   * The `forEach` of `riskByOrgUnit`: per org unit seen among the rows, in
   * first-seen order, the sum of the risks of that unit's rows and their
   * number.
   */
  method TotalsByOrgUnit(rows: seq<EmployeeRow>) returns (totals: OMap<string, (int, nat)>)
    ensures Keys(totals) == FirstSeen(Map(rows, RowOrg))
    ensures forall k {:trigger Get(totals, k)} :: k in Keys(totals) ==>
      Get(totals, k) == Some(GroupTotals(rows, RowOrg, RowRisk, k))
  {
    totals := [];
    var i := 0;
    ghost var done: seq<EmployeeRow> := [];
    while i < |rows|
      invariant 0 <= i <= |rows| && done == rows[..i]
      invariant Keys(totals) == FirstSeen(Map(done, RowOrg))
      invariant forall k {:trigger Get(totals, k)} :: k in Keys(totals) ==>
        Get(totals, k) == Some(GroupTotals(done, RowOrg, RowRisk, k))
    {
      var r := rows[i];
      GroupStep(totals, done, r, RowOrg, RowRisk);
      totals := AddTo(totals, RowOrg(r), RowRisk(r));
      done := done + [r];
      PrefixStep(rows, i);
      i := i + 1;
    }
    assert done == rows;
  }

  /**
   * `riskByOrgUnit`: one entry per org unit seen among the rows, in
   * first-seen order, holding the rounded mean risk of that unit's rows,
   * which lies between the unit's lowest and highest risk.  A unit without
   * rows has no entry.
   */
  method RiskByOrgUnit(rows: seq<EmployeeRow>) returns (series: OMap<string, int>)
    ensures Keys(series) == FirstSeen(Map(rows, RowOrg))
    ensures forall k :: k in Keys(series) ==>
      OrgGroup(rows, k) != [] &&
      Get(series, k) == Some(RoundHalfUp(Sum(OrgGroup(rows, k), RowRisk), |OrgGroup(rows, k)|)) &&
      MinRisk(OrgGroup(rows, k)) <= Get(series, k).value <= MaxRisk(OrgGroup(rows, k))
  {
    var totals := TotalsByOrgUnit(rows);
    KeysLength(totals);
    series := [];
    var j := 0;
    while j < |totals|
      invariant 0 <= j <= |totals|
      invariant |series| == j
      invariant forall a :: 0 <= a < j ==>
        totals[a].1.1 > 0 && series[a] == (totals[a].0, RoundHalfUp(totals[a].1.0, totals[a].1.1))
    {
      GetAtIndex(totals, j);
      assert Keys(totals)[j] in Keys(totals);
      SeenKeySelectsSomething(rows, RowOrg, totals[j].0);
      series := series + [(totals[j].0, RoundHalfUp(totals[j].1.0, totals[j].1.1))];
      j := j + 1;
    }
    AveragesOfTotals(rows, totals, series);
  }

  /** Turning each (total, count) entry into its rounded mean keeps keys and order. */
  lemma AveragesOfTotals(rows: seq<EmployeeRow>, totals: OMap<string, (int, nat)>, series: OMap<string, int>)
    requires Keys(totals) == FirstSeen(Map(rows, RowOrg))
    requires forall k {:trigger Get(totals, k)} :: k in Keys(totals) ==>
      Get(totals, k) == Some(GroupTotals(rows, RowOrg, RowRisk, k))
    requires |series| == |totals|
    requires forall a :: 0 <= a < |totals| ==>
      totals[a].1.1 > 0 && series[a] == (totals[a].0, RoundHalfUp(totals[a].1.0, totals[a].1.1))
    ensures Keys(series) == FirstSeen(Map(rows, RowOrg))
    ensures forall k :: k in Keys(series) ==>
      OrgGroup(rows, k) != [] &&
      Get(series, k) == Some(RoundHalfUp(Sum(OrgGroup(rows, k), RowRisk), |OrgGroup(rows, k)|)) &&
      MinRisk(OrgGroup(rows, k)) <= Get(series, k).value <= MaxRisk(OrgGroup(rows, k))
  {
    KeysLength(totals);
    KeysLength(series);
    assert Keys(series) == Keys(totals);
    forall k | k in Keys(series)
      ensures OrgGroup(rows, k) != [] &&
        Get(series, k) == Some(RoundHalfUp(Sum(OrgGroup(rows, k), RowRisk), |OrgGroup(rows, k)|)) &&
        MinRisk(OrgGroup(rows, k)) <= Get(series, k).value <= MaxRisk(OrgGroup(rows, k))
    {
      var a :| 0 <= a < |series| && Keys(series)[a] == k;
      GetAtIndex(totals, a);
      GetAtIndex(series, a);
      SeenKeySelectsSomething(rows, RowOrg, k);
      AverageWithinRange(OrgGroup(rows, k));
    }
  }

  // ---------------------------------------------------- deadline trend

  /** The bucket key `${year}-W${week}`. */
  datatype WeekKey = WeekKey(year: int, week: int)

  /**
   * `Math.ceil((getDate() + (getDay() + 6) % 7) / 7)`: the ceiling of
   * (day of month + days since Monday) / 7, a number from 1 to 6.
   */
  function WeekNumber(d: Date): (w: int)
    ensures 7 * (w - 1) < d.dayOfMonth + (d.weekday + 6) % 7 <= 7 * w
    ensures 1 <= w <= 6
  {
    (d.dayOfMonth + (d.weekday + 6) % 7 + 6) / 7
  }

  /**
   * The key of a date: its year and its week number, the ceiling of
   * (day of month + days since Monday) / 7, from 1 to 6.
   */
  function WeekKeyOf(d: Date): (k: WeekKey)
    ensures k.year == d.year && 1 <= k.week <= 6
    ensures 7 * (k.week - 1) < d.dayOfMonth + (d.weekday + 6) % 7 <= 7 * k.week
  {
    WeekKey(d.year, WeekNumber(d))
  }

  /** The deadlines of the tasks that have one, in task order. */
  function Deadlines(tasks: seq<Task>): (ds: seq<Date>)
    ensures |ds| == |Filter(tasks, HasDeadline)|
  {
    if tasks == [] then []
    else if tasks[0].deadline.Some? then [tasks[0].deadline.value] + Deadlines(tasks[1..])
    else Deadlines(tasks[1..])
  }

  lemma {:induction false} DeadlinesAppend(tasks: seq<Task>, t: Task)
    ensures t.deadline.Some? ==> Deadlines(tasks + [t]) == Deadlines(tasks) + [t.deadline.value]
    ensures t.deadline.None? ==> Deadlines(tasks + [t]) == Deadlines(tasks)
  {
    if tasks == [] {
      assert tasks + [t] == [t];
    } else {
      assert (tasks + [t])[0] == tasks[0];
      assert (tasks + [t])[1..] == tasks[1..] + [t];
      DeadlinesAppend(tasks[1..], t);
    }
  }

  /**
   * `deadlinesTrend`: one entry per week key seen among the deadlines, in
   * first-seen order, holding the number of deadlines with that key; tasks
   * without a deadline are left out, so the counts add up to the number of
   * tasks with one.
   */
  method DeadlinesTrend(tasks: seq<Task>) returns (series: OMap<WeekKey, nat>)
    ensures Keys(series) == FirstSeen(Map(Deadlines(tasks), WeekKeyOf))
    ensures forall k {:trigger Get(series, k)} :: k in Keys(series) ==>
      Get(series, k) == Some(|Filter(Deadlines(tasks), KeyIs(WeekKeyOf, k))|)
    ensures TotalCount(series) == |Filter(tasks, HasDeadline)|
  {
    series := [];
    var i := 0;
    ghost var done: seq<Task> := [];
    while i < |tasks|
      invariant 0 <= i <= |tasks| && done == tasks[..i]
      invariant Keys(series) == FirstSeen(Map(Deadlines(done), WeekKeyOf))
      invariant forall k {:trigger Get(series, k)} :: k in Keys(series) ==>
        Get(series, k) == Some(|Filter(Deadlines(done), KeyIs(WeekKeyOf, k))|)
      invariant TotalCount(series) == |Deadlines(done)|
    {
      var t := tasks[i];
      DeadlinesAppend(done, t);
      if t.deadline.Some? {
        var d := t.deadline.value;
        TallyStep(series, Deadlines(done), d, WeekKeyOf);
        series := Increment(series, WeekKeyOf(d));
      }
      done := done + [t];
      PrefixStep(tasks, i);
      i := i + 1;
    }
    assert done == tasks;
  }

  /**
   * The week number is not a calendar week: Thursday 2025-09-04 and Friday
   * 2025-09-05 lie in the same Monday-to-Sunday week (September 2025 begins
   * on a Monday) yet get weeks 1 and 2, while Friday 2025-09-05 and Monday
   * 2025-09-08 share week 2.
   */
  lemma WeekNumberIsNotCalendarWeek()
    ensures WeekNumber(Date(20335, 2025, 9, 4, 4)) == 1
    ensures WeekNumber(Date(20336, 2025, 9, 5, 5)) == 2
    ensures WeekNumber(Date(20339, 2025, 9, 8, 1)) == 2
  {
  }

  /**
   * The key has no month: Friday 2025-08-22 and Friday 2025-09-19 fall into
   * the same bucket 2025-W4.
   */
  lemma WeekKeyIgnoresMonth()
    ensures WeekKeyOf(Date(20322, 2025, 8, 22, 5)) == WeekKeyOf(Date(20350, 2025, 9, 19, 5)) == WeekKey(2025, 4)
  {
  }
}
