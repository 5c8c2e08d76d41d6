# NOM-035 workload dashboard — verified model of the analytics core

The dashboard (`src/App.tsx`) loads employees and tasks and shows three things.
First, a facet-filtered task list. Second, one row per employee, with the hours
assigned, the utilization and a psychosocial risk score. Third, the KPI cards and
chart series derived from those. This project models the computations behind those
views as Dafny functions, methods and lemmas:

- **Task filter** (`TaskFilter`). The org-unit, pattern and status facets. The
  selector value `"all"` means no constraint.
- **Assignment grouper** (`AssignmentGrouper`). `tasksByAssignee`, imperative as in
  the source. It makes one empty bucket per employee id, then appends each filtered
  task whose assignee is known.
- **Risk scorer** (`RiskScorer`). `riskScoreForEmployee` and the `riskChip` label
  banding.
- **Row builder** (`RowBuilder`). `employeeRows`: the org-unit facet and the
  case-insensitive name search over employees, then one row per employee, then a
  stable sort by risk, highest first.
- **Aggregators** (`Aggregators`). The KPIs and the series `workloadByEmployee`,
  `tasksByPattern`, `tasksByOrgUnit`, `riskByOrgUnit` and `deadlinesTrend`. Loops
  stay loops, proved against specification functions.
- **Shared pieces.**
  - `Seqs`: `filter`, `map` and `reduce`-sum over sequences.
  - `OrderedMaps`: JavaScript's insertion-ordered `Map` as a sequence of entries.
    `set` overwrites a key in place or appends it, so `Array.from(map.entries())`
    is in first-seen key order.
  - `Domain`: the records.

Modelling conventions:

- JavaScript falsy defaults are explicit.
  - A missing `effortHours` or `secureReports` counts as 0.
  - A `weeklyCapacity` of 0 stands for "0 or absent". It becomes 40 in the risk
    score and gives a utilization of 0 in the row.
  - An `assigneeId` that is `null` or `""` means unassigned.
- Dates are records carrying a day number, the year, the month, the day of the month
  and the weekday, with `getDay()` numbering (0 = Sunday). The present moment enters
  as `today`, the day number of the current local date. `daysUntil(d)` is
  `d.dayNumber - today`. This equals the source's `Math.ceil` of the fractional day
  difference, because the deadline is at local midnight and "now" is at or after
  today's midnight.
- Utilization tiers use exact rationals. `Math.round(n / d)` for `d > 0` is the
  half-up integer `RoundHalfUp(n, d)`.

## Model

| member | source | states |
|---|---|---|
| TaskFilter.FilterTasks | src/App.tsx:235-242 | The result is an order-preserving subsequence of the tasks. A task is in it exactly when it is in the input and matches every facet that is not "all". A matching task keeps all its copies, and any other task has none. |
| TaskFilter.FilterAllFacetsIsIdentity | src/App.tsx:235-242 | With all three facets at "all", the filter returns the task list unchanged. |
| TaskFilter.FilterTasksIdempotent | src/App.tsx:235-242 | Filtering an already filtered list with the same facets changes nothing. |
| TaskFilter.RelaxedFacetsKeepMore | src/App.tsx:236-240 | Setting a facet only narrows the list. If every facet of g is "all" or equal to f's, then filtering by g and then by f gives the f-filtered list, which is no longer than the g-filtered one. |
| AssignmentGrouper.GroupByAssignee | src/App.tsx:244-253 | The two loops produce a map keyed by exactly the employee ids. Each id maps to the filtered tasks assigned to it, in task order, which equals the specification `Buckets`. |
| AssignmentGrouper.BucketContents | src/App.tsx:244-253 | An id has a bucket iff some employee has that id. A bucket is a subsequence of the tasks. A task is in a bucket iff it is assigned (non-empty id) to that bucket's id, and then it appears there as often as in the tasks. |
| AssignmentGrouper.DroppedTasks | src/App.tsx:247-250 | A task lands in some bucket iff its assignee id is non-empty and belongs to an employee. Unassigned tasks and tasks with unknown assignees are dropped. |
| RiskScorer.Capacity | src/App.tsx:140 | The capacity is always positive. It is 40 when `weeklyCapacity` is 0 or absent, and `weeklyCapacity` otherwise. |
| Domain.DaysUntilIsCeiling | src/App.tsx:132 | With "now" a fraction f in [0, 1) of a day past today's midnight, the day difference is the ceiling of the exact difference between the deadline and now. |
| RiskScorer.UtilizationTier | src/App.tsx:142-147 | The tier is 50 iff hours > capacity. It is 30 iff 0.85 < ratio <= 1, 15 iff 0.6 < ratio <= 0.85, and 0 iff ratio <= 0.6. Each case is stated both ways, in integer terms. |
| RiskScorer.TierMonotone | src/App.tsx:144-147 | More hours against the same capacity never lower the tier. |
| RiskScorer.FullCapacityTier | src/App.tsx:145-146 | Hours exactly equal to capacity earn 30, not 50, because the comparison is strict. |
| RiskScorer.NearDeadline | src/App.tsx:149-153 | A task counts as near its deadline iff it has a deadline at most 5 days after today (overdue included) and it is in progress or in the backlog. |
| RiskScorer.RawScore | src/App.tsx:140-159 | The uncapped score is at least the report bonus 4 × secureReports and at most 50 + 14 per task above it. With no tasks it is exactly the report bonus. |
| RiskScorer.RiskScore | src/App.tsx:134-162 | The score is the raw score capped at 100. It is at most 100. It is non-negative when the report count is. With no tasks it is min(100, 4 × secureReports). |
| RiskScorer.RawScoreAppend | src/App.tsx:149-159 | One more task adds 8 exactly when its deadline is within 5 days and it is in progress or in the backlog, 6 exactly when it has high priority, and its hours only through the change of tier. |
| RiskScorer.RiskMonotone | src/App.tsx:141-161 | Assigning one more task with non-negative effort never lowers the score. |
| RiskScorer.RiskLevelOf | src/App.tsx:164-176 | The label is Alto iff score >= 70, Medio iff 40 <= score < 70, and Bajo iff score < 40. |
| RiskScorer.RiskLevelMonotone | src/App.tsx:166-176 | A higher score never gets a lower label. |
| RowBuilder.RoundHalfUp | src/App.tsx:263 | The result r is the integer nearest to n/d, with halves rounded up: 2rd - d <= 2n < 2rd + d. |
| RowBuilder.UtilizationPercent | src/App.tsx:263 | The result is 0 when capacity is 0 or absent. Otherwise it is the integer percent nearest to hours/capacity. It is non-negative for non-negative hours. |
| RowBuilder.UtilizationMonotone | src/App.tsx:263 | At a fixed capacity, utilization never decreases as hours grow. |
| RowBuilder.MakeRow | src/App.tsx:260-277 | The row carries the employee's id, name, role, org unit and raw weekly capacity. It holds the bucket size and the effort total (missing effort counts as 0), the utilization percent of that total, the employee's risk score over the bucket, and the report count defaulted to 0. |
| RowBuilder.UtilizationNonNegative | src/App.tsx:262-263 | When no task in the bucket has negative effort, the row's utilization is non-negative. |
| RowBuilder.InsertByRisk | src/App.tsx:278 | Inserting into a list sorted by descending risk keeps it sorted. It adds exactly the new row, as a multiset. |
| RowBuilder.SortByRiskDesc | src/App.tsx:278 | The sort returns a permutation of its input, ordered by risk from highest to lowest. |
| RowBuilder.SortStable | src/App.tsx:278 | The sort is stable: for every risk value, the rows with that value come out in their input order. |
| RowBuilder.BuildRows | src/App.tsx:255-279 | The rows are sorted by descending risk. As a multiset they are the rows of the employees selected by the org-unit facet and then the name search. |
| RowBuilder.RowsKeepEmployeeOrderOnTies | src/App.tsx:257-278 | Rows of equal risk are in employee-list order. |
| RowBuilder.RowsMembership | src/App.tsx:257-277 | A row is present iff it is the row of an employee who is in the selected org unit (or the facet is "all") and whose name contains the query, case-insensitively (an empty query matches everyone). |
| RowBuilder.OrgFacet | src/App.tsx:258 | The org-unit facet "all" keeps every employee. Any other value keeps exactly the employees of that unit. |
| RowBuilder.Lower | src/App.tsx:259 | Lower-casing keeps the length, leaves no ASCII capital, replaces each capital by its small letter and keeps every other character. |
| RowBuilder.ContainsAt | src/App.tsx:259 | `includes` holds iff the query occurs as a slice of the name at some position. |
| RowBuilder.NameSearchIgnoresCase | src/App.tsx:259 | The name search gives the same answer for a query and for its lower-cased form. |
| RowBuilder.NoRowsForUnknownOrg | src/App.tsx:258 | An org-unit selection that no employee belongs to yields no rows. |
| RowBuilder.RowTotalsExact | src/App.tsx:235-277 | Through the filter, the grouper and the row builder, a row's task count and hours are those of exactly the tasks that pass the facets and are assigned to its employee. |
| RowBuilder.RowHoursWithoutFacets | src/App.tsx:244-272 | With every facet at "all", a row's hours are the effort of all tasks assigned to its employee. |
| RowBuilder.RoundHalfUpWithin | src/App.tsx:324 | A ratio n/d that lies between lo and hi rounds to a value between lo and hi. |
| OrderedMaps.Get | src/App.tsx:312 | `get` finds a value exactly for the keys present. |
| OrderedMaps.Set | src/App.tsx:312 | `set` keeps the key order when the key exists and appends the key otherwise. Afterwards the key maps to the new value and no other key changes. |
| OrderedMaps.FirstSeen | src/App.tsx:314 | The distinct keys: every input element occurs in it, nothing else does, and no key repeats. |
| OrderedMaps.FirstSeenOrder | src/App.tsx:314 | The keys come out in first-seen order: of two keys, the earlier one first occurs earlier in the input. |
| OrderedMaps.Increment | src/App.tsx:312 | `map.set(k, (map.get(k) \|\| 0) + 1)` keeps the keys or appends k. k's count becomes its old count (0 when absent) plus one, every other key keeps its count, and the total grows by one. |
| OrderedMaps.TallyStep | src/App.tsx:311-313 | If the map counted the elements of s per key, in first-seen key order, then after one increment it counts those of s + [x], and its total is one higher. |
| OrderedMaps.AddTo | src/App.tsx:321-322 | The (total, count) update keeps the keys or appends the key. The key's entry becomes (total + a, count + 1), starting from (0, 0) when absent, and every other key keeps its entry. |
| OrderedMaps.GroupStep | src/App.tsx:320-322 | If the map held each key's risk total and row count over s, in first-seen key order, then after one update it holds those over s + [x]. |
| Aggregators.OverdueActiveIsNear | src/App.tsx:289 | An overdue task (a deadline before today) that is in progress or in the backlog is also near its deadline in the risk score. |
| Aggregators.PatternPartition | src/App.tsx:285-288 | The direct, deferred and offer counts add up to the number of tasks. |
| Aggregators.ComputeKpis | src/App.tsx:282-292 | Each KPI is the number of tasks with its property: unassigned (null or empty assignee), each pattern, unclaimed offers, and overdue (a deadline before today). total is the task count, and direct + deferred + offered = total. Unclaimed offers are at most the offers and at most the unassigned tasks. Unassigned tasks are at most the total. Overdue tasks are at most the tasks with a deadline. |
| Aggregators.WorkloadByEmployee | src/App.tsx:295-297 | There is one bar per row, in row order, with the row's name, hours and capacity. |
| Aggregators.TasksByPattern | src/App.tsx:299-306 | There are exactly three entries, direct, deferred and offer, in that order. Each holds its pattern's task count (0 included). Together they count every task once. |
| Aggregators.TasksByOrgUnit | src/App.tsx:309-314 | There is one entry per org unit seen, in first-seen order, holding that unit's task count. The counts add up to the number of tasks. |
| Aggregators.TotalsByOrgUnit | src/App.tsx:319-323 | Per org unit seen, in first-seen order, the entry holds the sum of the unit's row risks and the number of its rows. |
| Aggregators.RiskByOrgUnit | src/App.tsx:317-324 | There is one entry per org unit among the rows, in first-seen order. Each unit has at least one row. The value is the rounded mean risk of the unit's rows and lies between their lowest and highest risk. |
| Aggregators.AveragesOfTotals | src/App.tsx:324 | Mapping each (total, count) entry to its rounded mean keeps keys and order, and gives each unit its rounded mean risk. |
| Aggregators.AverageWithinRange | src/App.tsx:324 | The rounded mean of a non-empty group lies between its minimum and maximum risk. |
| Aggregators.WeekNumber | src/App.tsx:333 | The week is the ceiling of (day of month + days since Monday) / 7, a number from 1 to 6. |
| Aggregators.WeekKeyOf | src/App.tsx:333 | The bucket key of a date is its year and the week number of `WeekNumber`: the ceiling of (day of month + days since Monday) / 7, from 1 to 6. |
| Aggregators.DeadlinesTrend | src/App.tsx:327-336 | There is one entry per week key seen among the deadlines, in first-seen order, holding the number of deadlines with that key. Tasks without a deadline are skipped, so the counts add up to the number of tasks that have one. |
| Aggregators.WeekNumberIsNotCalendarWeek | src/App.tsx:333 | Thu 2025-09-04 and Fri 2025-09-05 are in the same Monday-to-Sunday week but get weeks 1 and 2. Fri 2025-09-05 and Mon 2025-09-08 share week 2. |
| Aggregators.WeekKeyIgnoresMonth | src/App.tsx:333 | The key has no month: 2025-08-22 and 2025-09-19 share the bucket 2025-W4. |

## Left out

- Loading data is not modelled: `fetch`, JSON parsing and the fallback to the sample data (src/App.tsx:209-225) are asynchronous I/O. The model takes the employee and task lists as inputs.
- React state and memoisation (`useState`, `useMemo`, `useEffect`) are not modelled. Each derived value is a function of its explicit inputs.
- The download of the sample JSON (src/App.tsx:368-376) is browser I/O and is not modelled.
- Rendering is not modelled: the KPI cards, the chips' colours and icons, the grid columns, the charts and the org-unit dropdown options (src/App.tsx:230-233). Display-only text such as the pattern series' Spanish names is left out too.
- Date parsing and the clock are not modelled. `parseDate` becomes the `Date` record, and `new Date()` becomes the `today` parameter. Malformed dates (`NaN`) and daylight-saving shifts are left out.
- RiskScorer.UtilizationTier and RowBuilder.UtilizationPercent use exact arithmetic, not IEEE doubles. Near a rounding boundary the results can differ. For example, 23 h of 40 h gives 57 with doubles (0.575 × 100 = 57.49999…) but 58 exactly.
- RowBuilder.Lower lowercases ASCII letters only. `toLowerCase` also folds non-ASCII letters such as "Á".
- Effort hours, capacities and report counts are integers. Fractional values and non-numeric JSON values are left out.
- Domain.Employee: `weeklyCapacity` is a natural number, so negative capacities are left out. The code treats a negative capacity as truthy (`emp.weeklyCapacity || 40`, src/App.tsx:140), which would give a negative ratio, tier 0 and a negative utilization. The positive-capacity facts of `Capacity`, `UtilizationTier` and `UtilizationPercent` rely on this typing.
- Domain.Task: `pattern`, `status` and `priority` are closed datatypes, so strings outside the known values, which unvalidated JSON could carry, are left out. For such a task `g[t.pattern]` (src/App.tsx:301) would add a fourth key, and direct + deferred + offer would fall short of the total. The sum-to-total facts of `TasksByPattern`, `ComputeKpis` and `PatternPartition` hold partly because of this typing.
- The week key of the deadline trend is modelled as written: it is not a calendar or ISO week.
