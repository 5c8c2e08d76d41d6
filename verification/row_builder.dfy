/**
 * The row builder (`employeeRows`, src/App.tsx): employees selected by the
 * org-unit facet and a case-insensitive name search, one row each with the
 * employee's bucket totals, utilization and risk, sorted by risk from
 * highest to lowest with ties kept in employee order (the sort is stable).
 */
module RowBuilder {
  import opened Seqs
  import opened Domain
  import opened TaskFilter
  import opened AssignmentGrouper
  import opened RiskScorer

  /**
   * `Math.round(n / d)` for a positive `d`: the integer nearest to n/d,
   * halves rounding up.
   */
  function RoundHalfUp(n: int, d: int): (r: int)
    requires d > 0
    ensures 2 * r * d - d <= 2 * n < 2 * r * d + d
  {
    var q := (2 * n + d) / (2 * d);
    assert 2 * n + d == (2 * d) * q + (2 * n + d) % (2 * d);
    q
  }

  /**
   * `e.weeklyCapacity ? Math.round((hours / e.weeklyCapacity) * 100) : 0`:
   * the integer percent nearest to hours/capacity, 0 for a missing or zero
   * capacity (no fallback to 40 here), non-negative for non-negative hours.
   */
  function UtilizationPercent(hours: int, weeklyCapacity: nat): (u: int)
    ensures weeklyCapacity == 0 ==> u == 0
    ensures weeklyCapacity > 0 ==>
      2 * u * weeklyCapacity - weeklyCapacity <= 200 * hours < 2 * u * weeklyCapacity + weeklyCapacity
    ensures hours >= 0 ==> u >= 0
  {
    if weeklyCapacity == 0 then 0 else RoundHalfUp(100 * hours, weeklyCapacity)
  }

  lemma MulNonNegative(a: int, b: int)
    requires a >= 0 && b >= 0
    ensures a * b >= 0
  {
  }

  /** Integer division by a positive divisor is monotone in the dividend. */
  lemma DivMonotone(a: int, b: int, d: int)
    requires d > 0 && a <= b
    ensures a / d <= b / d
  {
    var qa, qb := a / d, b / d;
    assert a == d * qa + a % d && b == d * qb + b % d;
    if qa > qb {
      MulNonNegative(d, qa - qb - 1);
    }
  }

  /** A ratio n/d between two integers rounds to a value between them. */
  lemma RoundHalfUpWithin(n: int, d: int, lo: int, hi: int)
    requires d > 0 && d * lo <= n <= d * hi
    ensures lo <= RoundHalfUp(n, d) <= hi
  {
    var r := RoundHalfUp(n, d);
    if r < lo {
      MulNonNegative(d, lo - 1 - r);
    } else if r > hi {
      MulNonNegative(d, r - 1 - hi);
    }
  }

  /** Holding capacity fixed, utilization never decreases as hours grow. */
  lemma UtilizationMonotone(h1: int, h2: int, weeklyCapacity: nat)
    requires h1 <= h2
    ensures UtilizationPercent(h1, weeklyCapacity) <= UtilizationPercent(h2, weeklyCapacity)
  {
    if weeklyCapacity > 0 {
      var c := weeklyCapacity;
      DivMonotone(2 * (100 * h1) + c, 2 * (100 * h2) + c, 2 * c);
    }
  }

  /** An ASCII capital letter. */
  predicate IsUpper(c: char)
  {
    'A' <= c <= 'Z'
  }

  /**
   * ASCII lower case (`String.prototype.toLowerCase` on ASCII letters): the
   * same length, no capital left, each capital replaced by its small letter
   * and every other character kept.
   */
  function Lower(s: string): (r: string)
    ensures |r| == |s|
    ensures forall i :: 0 <= i < |s| ==> !IsUpper(r[i])
    ensures forall i :: 0 <= i < |s| ==> if IsUpper(s[i]) then r[i] as int == s[i] as int + 32 else r[i] == s[i]
  {
    if s == [] then []
    else [if IsUpper(s[0]) then (s[0] as int + 32) as char else s[0]] + Lower(s[1..])
  }

  /** Lower-casing twice is lower-casing once. */
  lemma LowerIdempotent(s: string)
    ensures Lower(Lower(s)) == Lower(s)
  {
    var l := Lower(s);
    assert forall i :: 0 <= i < |l| ==> Lower(l)[i] == l[i];
  }

  /** `String.prototype.includes`: `part` occurs in `s` at some position. */
  predicate Contains(s: string, part: string)
  {
    part <= s || (s != [] && Contains(s[1..], part))
  }

  /** `part` is the slice of `s` starting at position `k`. */
  predicate OccursAt(s: string, part: string, k: int)
  {
    0 <= k <= |s| - |part| && s[k..k + |part|] == part
  }

  /** `Contains` holds exactly when `part` occurs in `s` at some position. */
  lemma {:induction false} ContainsAt(s: string, part: string)
    ensures Contains(s, part) <==> exists k :: OccursAt(s, part, k)
  {
    if part <= s {
      assert OccursAt(s, part, 0);
    }
    if s != [] {
      ContainsAt(s[1..], part);
      if exists k :: OccursAt(s[1..], part, k) {
        var k :| OccursAt(s[1..], part, k);
        assert s[k + 1..k + 1 + |part|] == s[1..][k..k + |part|];
        assert OccursAt(s, part, k + 1);
      }
      if exists k :: OccursAt(s, part, k) {
        var k :| OccursAt(s, part, k);
        if k == 0 {
          assert part <= s;
        } else {
          assert s[1..][k - 1..k - 1 + |part|] == s[k..k + |part|];
          assert OccursAt(s[1..], part, k - 1);
        }
      }
    } else if exists k :: OccursAt(s, part, k) {
      assert part <= s;
    }
  }

  /** The name search: an empty query keeps everyone, otherwise a case-insensitive substring match. */
  predicate NameMatches(query: string, e: Employee)
  {
    query == "" || Contains(Lower(e.name), Lower(query))
  }

  /** The search does not depend on the case of the query's letters. */
  lemma NameSearchIgnoresCase(query: string, e: Employee)
    ensures NameMatches(query, e) <==> NameMatches(Lower(query), e)
  {
    LowerIdempotent(query);
  }

  /** The org-unit facet applied to the employee's own unit. */
  predicate InOrg(orgFilter: string, e: Employee)
  {
    orgFilter == ALL || e.orgUnit == orgFilter
  }

  function OrgSelector(orgFilter: string): Employee -> bool
  {
    e => InOrg(orgFilter, e)
  }

  /**
   * The org-unit facet: "all" keeps every employee, any other value exactly
   * the employees of that unit, in order.
   */
  lemma OrgFacet(employees: seq<Employee>, orgFilter: string)
    ensures orgFilter == ALL ==> Filter(employees, OrgSelector(orgFilter)) == employees
    ensures forall e :: e in Filter(employees, OrgSelector(orgFilter)) <==>
      e in employees && (orgFilter == ALL || e.orgUnit == orgFilter)
  {
    if orgFilter == ALL {
      FilterKeepsAll(employees, OrgSelector(orgFilter));
    }
    FilterMembershipAll(employees, OrgSelector(orgFilter));
  }

  function NameSelector(query: string): Employee -> bool
  {
    e => NameMatches(query, e)
  }

  /** The employees that get a row, in employee-list order. */
  function Selected(employees: seq<Employee>, orgFilter: string, query: string): seq<Employee>
  {
    Filter(Filter(employees, OrgSelector(orgFilter)), NameSelector(query))
  }

  /** `tasksByAssignee.get(e.id) || []` */
  function BucketOf(buckets: map<string, seq<Task>>, id: string): seq<Task>
  {
    if id in buckets then buckets[id] else []
  }

  /**
   * The row of one employee: the bucket's size and total effort (missing
   * effort counted as 0), the utilization percent and the risk score.
   */
  function MakeRow(e: Employee, bucket: seq<Task>, today: int): (row: EmployeeRow)
    ensures row.id == e.id && row.orgUnit == e.orgUnit && row.name == e.name
    ensures row.role == e.role && row.weeklyCapacity == e.weeklyCapacity
    ensures row.risk == RiskScore(e, bucket, today)
    ensures row.assignedTasks == |bucket| && row.assignedHours == Sum(bucket, Hours)
    ensures row.utilization == UtilizationPercent(row.assignedHours, e.weeklyCapacity)
    ensures row.risk <= 100 && (Reports(e) >= 0 ==> 0 <= row.risk)
    ensures row.secureReports == Reports(e)
  {
    var hours := Sum(bucket, Hours);
    EmployeeRow(
      e.id, e.name, e.role, e.orgUnit, e.weeklyCapacity,
      |bucket|, hours, UtilizationPercent(hours, e.weeklyCapacity),
      RiskScore(e, bucket, today), Reports(e))
  }

  /** With no task of negative effort in the bucket, the row's utilization is non-negative. */
  lemma UtilizationNonNegative(e: Employee, bucket: seq<Task>, today: int)
    requires forall t :: t in bucket ==> Hours(t) >= 0
    ensures MakeRow(e, bucket, today).utilization >= 0
  {
    SumNonNegative(bucket, Hours);
  }

  function RowMaker(buckets: map<string, seq<Task>>, today: int): Employee -> EmployeeRow
  {
    (e: Employee) => MakeRow(e, BucketOf(buckets, e.id), today)
  }

  predicate SortedByRiskDesc(rows: seq<EmployeeRow>)
  {
    forall i, j :: 0 <= i < j < |rows| ==> rows[i].risk >= rows[j].risk
  }

  function RiskIs(k: int): EmployeeRow -> bool
  {
    (r: EmployeeRow) => r.risk == k
  }

  /** Places `x` before the first row whose risk does not exceed its own. */
  function InsertByRisk(x: EmployeeRow, rows: seq<EmployeeRow>): (r: seq<EmployeeRow>)
    requires SortedByRiskDesc(rows)
    ensures SortedByRiskDesc(r)
    ensures multiset(r) == multiset(rows) + multiset{x}
    ensures forall y :: y in r ==> y == x || y in rows
  {
    if rows == [] || rows[0].risk <= x.risk then
      [x] + rows
    else
      assert rows == [rows[0]] + rows[1..];
      var rest := InsertByRisk(x, rows[1..]);
      SortedCons(rows[0], rest);
      [rows[0]] + rest
  }

  lemma SortedCons(head: EmployeeRow, rest: seq<EmployeeRow>)
    requires SortedByRiskDesc(rest)
    requires forall y :: y in rest ==> y.risk <= head.risk
    ensures SortedByRiskDesc([head] + rest)
  {
    forall i, j | 0 <= i < j < |rest| + 1
      ensures ([head] + rest)[i].risk >= ([head] + rest)[j].risk
    {
      assert rest[j - 1] in rest;
    }
  }

  /** Inserting `x` puts it ahead of the rows of its own risk. */
  lemma {:induction false} InsertStable(x: EmployeeRow, rows: seq<EmployeeRow>, k: int)
    requires SortedByRiskDesc(rows)
    ensures Filter(InsertByRisk(x, rows), RiskIs(k)) == (if x.risk == k then [x] else []) + Filter(rows, RiskIs(k))
  {
    if rows == [] || rows[0].risk <= x.risk {
      assert InsertByRisk(x, rows) == [x] + rows;
      assert ([x] + rows)[1..] == rows;
    } else {
      var rest := InsertByRisk(x, rows[1..]);
      InsertStable(x, rows[1..], k);
      assert InsertByRisk(x, rows) == [rows[0]] + rest;
      assert ([rows[0]] + rest)[1..] == rest;
    }
  }

  /**
   * `rows.sort((a, b) => b.risk - a.risk)`: a permutation of the input,
   * ordered by risk from highest to lowest.
   */
  function SortByRiskDesc(rows: seq<EmployeeRow>): (r: seq<EmployeeRow>)
    ensures SortedByRiskDesc(r)
    ensures multiset(r) == multiset(rows)
  {
    if rows == [] then []
    else
      assert rows == [rows[0]] + rows[1..];
      InsertByRisk(rows[0], SortByRiskDesc(rows[1..]))
  }

  /**
   * JavaScript's sort is stable: the rows of each risk value come out in the
   * order they went in.
   */
  lemma {:induction false} SortStable(rows: seq<EmployeeRow>, k: int)
    ensures Filter(SortByRiskDesc(rows), RiskIs(k)) == Filter(rows, RiskIs(k))
  {
    if rows != [] {
      SortStable(rows[1..], k);
      InsertStable(rows[0], SortByRiskDesc(rows[1..]), k);
      assert rows == [rows[0]] + rows[1..];
    }
  }

  /** `employeeRows`: one row per selected employee, sorted by risk from highest to lowest. */
  function BuildRows(employees: seq<Employee>, buckets: map<string, seq<Task>>,
                     orgFilter: string, query: string, today: int): (rows: seq<EmployeeRow>)
    ensures SortedByRiskDesc(rows)
    ensures multiset(rows) == multiset(Map(Selected(employees, orgFilter, query), RowMaker(buckets, today)))
  {
    SortByRiskDesc(Map(Selected(employees, orgFilter, query), RowMaker(buckets, today)))
  }

  /** Rows of equal risk are in the order of the employee list. */
  lemma RowsKeepEmployeeOrderOnTies(employees: seq<Employee>, buckets: map<string, seq<Task>>,
                                    orgFilter: string, query: string, today: int, k: int)
    ensures Filter(BuildRows(employees, buckets, orgFilter, query, today), RiskIs(k)) ==
            Filter(Map(Selected(employees, orgFilter, query), RowMaker(buckets, today)), RiskIs(k))
  {
    SortStable(Map(Selected(employees, orgFilter, query), RowMaker(buckets, today)), k);
  }

  /**
   * A row exists exactly for each employee that passes the org-unit facet
   * and the name search, and it is that employee's row.
   */
  lemma RowsMembership(employees: seq<Employee>, buckets: map<string, seq<Task>>,
                       orgFilter: string, query: string, today: int, row: EmployeeRow)
    ensures row in BuildRows(employees, buckets, orgFilter, query, today) <==>
      exists e :: e in employees && InOrg(orgFilter, e) && NameMatches(query, e) &&
        row == MakeRow(e, BucketOf(buckets, e.id), today)
  {
    var sel := Selected(employees, orgFilter, query);
    var built := Map(sel, RowMaker(buckets, today));
    var rows := BuildRows(employees, buckets, orgFilter, query, today);
    assert row in rows <==> row in built by {
      assert row in rows <==> row in multiset(rows);
      assert row in built <==> row in multiset(built);
    }
    MapMembership(sel, RowMaker(buckets, today), row);
    forall e
      ensures e in sel <==> e in employees && InOrg(orgFilter, e) && NameMatches(query, e)
    {
      FilterMembership(employees, OrgSelector(orgFilter), e);
      FilterMembership(Filter(employees, OrgSelector(orgFilter)), NameSelector(query), e);
    }
  }

  /** An org-unit selection that no employee belongs to yields no rows. */
  lemma NoRowsForUnknownOrg(employees: seq<Employee>, buckets: map<string, seq<Task>>,
                            orgFilter: string, query: string, today: int)
    requires orgFilter != ALL
    requires forall e :: e in employees ==> e.orgUnit != orgFilter
    ensures BuildRows(employees, buckets, orgFilter, query, today) == []
  {
    var rows := BuildRows(employees, buckets, orgFilter, query, today);
    if rows != [] {
      RowsMembership(employees, buckets, orgFilter, query, today, rows[0]);
    }
  }

  /** The tasks that pass the facets and are assigned to `id`. */
  function MatchesAndAssignedTo(f: Facets, id: string): Task -> bool
  {
    t => Matches(f, t) && AssignedTo(id)(t)
  }

  /**
   * Through the whole pipeline (facet filter, grouping, rows), a row's
   * `assignedTasks` and `assignedHours` are the count and the effort total
   * of exactly the tasks that pass the facets and are assigned to the row's
   * employee.
   */
  lemma RowTotalsExact(employees: seq<Employee>, tasks: seq<Task>, f: Facets,
                       query: string, today: int, row: EmployeeRow)
    requires row in BuildRows(employees, Buckets(employees, FilterTasks(tasks, f)), f.orgUnit, query, today)
    ensures row.assignedTasks == |Filter(tasks, MatchesAndAssignedTo(f, row.id))|
    ensures row.assignedHours == Sum(Filter(tasks, MatchesAndAssignedTo(f, row.id)), Hours)
  {
    var buckets := Buckets(employees, FilterTasks(tasks, f));
    RowsMembership(employees, buckets, f.orgUnit, query, today, row);
    var e :| e in employees && row == MakeRow(e, BucketOf(buckets, e.id), today);
    assert e.id in EmployeeIds(employees);
    FilterFilter(tasks, Matcher(f), AssignedTo(e.id), MatchesAndAssignedTo(f, e.id));
  }

  /** With every facet at "all", a row's hours are the effort of all tasks assigned to its employee. */
  lemma RowHoursWithoutFacets(employees: seq<Employee>, tasks: seq<Task>,
                              query: string, today: int, row: EmployeeRow)
    requires row in BuildRows(employees, Buckets(employees, FilterTasks(tasks, NoFacets)), ALL, query, today)
    ensures row.assignedHours == Sum(Filter(tasks, AssignedTo(row.id)), Hours)
  {
    RowTotalsExact(employees, tasks, NoFacets, query, today, row);
    FilterFilter(tasks, Matcher(NoFacets), AssignedTo(row.id), MatchesAndAssignedTo(NoFacets, row.id));
    FilterAllFacetsIsIdentity(tasks);
  }
}
