/**
 * The records of the NOM-035 workload dashboard: employees, their tasks
 * and the per-employee row the dashboard derives from them.
 *
 * JavaScript's falsy defaults are kept where the code applies them:
 * an absent `effortHours` or `secureReports` reads as 0 (`x || 0`), a null
 * or empty `assigneeId` means "no assignee", and a `weeklyCapacity` of 0
 * stands for both an absent and a zero capacity (both are falsy).
 */
module Domain {
  import opened Wrappers

  /** How a task reaches an employee. */
  datatype Pattern = Direct | Deferred | Offer

  datatype Status = Backlog | Offered | InProgress | Done

  datatype Priority = High | Medium | Low

  /** The string a task carries in the dataset, which the facet selectors compare with. */
  function PatternName(p: Pattern): string
  {
    match p
    case Direct => "direct"
    case Deferred => "deferred"
    case Offer => "offer"
  }

  function StatusName(s: Status): string
  {
    match s
    case Backlog => "backlog"
    case Offered => "offered"
    case InProgress => "in_progress"
    case Done => "done"
  }

  type Month = m: int | 1 <= m <= 12 witness 1

  type DayOfMonth = d: int | 1 <= d <= 31 witness 1

  /** `Date.prototype.getDay()`: 0 is Sunday, 6 is Saturday. */
  type Weekday = d: int | 0 <= d <= 6

  /**
   * A `YYYY-MM-DD` date read at local midnight, given by what the dashboard
   * asks of it: a day number (days since a fixed epoch, so that differences
   * are whole days) and the calendar fields year, month, day of month and
   * weekday.  Parsing the string is not part of the model.
   */
  datatype Date = Date(dayNumber: int, year: int, month: Month, dayOfMonth: DayOfMonth, weekday: Weekday)

  /**
   * Days from today to the date: `Math.ceil((date - now) / 1 day)`.  With
   * `now` anywhere within the day numbered `today` and the date at its local
   * midnight, the ceiling is the difference of the day numbers.
   */
  function DaysUntil(d: Date, today: int): int
  {
    d.dayNumber - today
  }

  /**
   * With "now" a fraction `f` of a day past today's midnight, the day
   * difference is the ceiling of the exact difference `dayNumber - today - f`.
   */
  lemma DaysUntilIsCeiling(d: Date, today: int, f: real)
    requires 0.0 <= f < 1.0
    ensures (DaysUntil(d, today) - 1) as real < (d.dayNumber - today) as real - f <= DaysUntil(d, today) as real
  {
  }

  datatype Employee = Employee(
    id: string,
    name: string,
    role: string,
    orgUnit: string,
    weeklyCapacity: nat,
    secureReports: Option<int>)

  datatype Task = Task(
    id: string,
    title: string,
    pattern: Pattern,
    assigneeId: Option<string>,
    orgUnit: string,
    effortHours: Option<int>,
    createdAt: Option<Date>,
    deadline: Option<Date>,
    status: Status,
    priority: Priority,
    offersAccepted: Option<nat>)

  /** The grid row of one employee. */
  datatype EmployeeRow = EmployeeRow(
    id: string,
    name: string,
    role: string,
    orgUnit: string,
    weeklyCapacity: nat,
    assignedTasks: nat,
    assignedHours: int,
    utilization: int,
    risk: int,
    secureReports: int)

  /** `t.effortHours || 0` */
  function Hours(t: Task): int
  {
    t.effortHours.GetOr(0)
  }

  /** `emp.secureReports || 0` */
  function Reports(e: Employee): int
  {
    e.secureReports.GetOr(0)
  }

  /** `!!t.assigneeId`: a non-null, non-empty assignee id. */
  predicate HasAssignee(t: Task)
  {
    t.assigneeId.Some? && t.assigneeId.value != ""
  }
}
