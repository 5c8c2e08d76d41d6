/**
 * The psychosocial risk score of one employee (`riskScoreForEmployee`,
 * src/App.tsx) and its label banding (`riskChip`).  The score adds a
 * utilization tier, 8 per task close to its deadline that is still being
 * worked on, 6 per high-priority task and 4 per secure-channel report, and
 * is capped at 100.  "Now" enters as the day number `today`.
 */
module RiskScorer {
  import opened Seqs
  import opened Domain

  /** `emp.weeklyCapacity || 40`: a missing or zero capacity counts as 40 hours. */
  function Capacity(e: Employee): (c: nat)
    ensures c > 0
    ensures e.weeklyCapacity == 0 ==> c == 40
    ensures e.weeklyCapacity != 0 ==> c == e.weeklyCapacity
  {
    if e.weeklyCapacity == 0 then 40 else e.weeklyCapacity
  }

  lemma RatioAbove(a: int, c: int, n: int, d: int)
    requires c > 0 && d > 0
    ensures a as real / c as real > n as real / d as real <==> a * d > n * c
  {
    var u := a as real / c as real;
    assert u * c as real == a as real;
    var v := n as real / d as real;
    assert v * d as real == n as real;
    assert (a * d) as real == u * (c as real) * (d as real);
    assert (n * c) as real == v * (d as real) * (c as real);
    if u > v {
      assert u * (c as real * d as real) > v * (c as real * d as real);
    }
  }

  /**
   * The utilization bonus: the ratio hours/capacity above 1, 0.85 or 0.6
   * earns 50, 30 or 15.  In exact integer terms the tiers are exclusive,
   * only the highest applies, and a ratio exactly at a threshold does not
   * reach it (hours equal to capacity earns 30, not 50).
   */
  function UtilizationTier(hours: int, capacity: nat): (tier: int)
    requires capacity > 0
    ensures tier == 50 <==> hours > capacity
    ensures tier == 30 <==> 85 * capacity < 100 * hours <= 100 * capacity
    ensures tier == 15 <==> 60 * capacity < 100 * hours <= 85 * capacity
    ensures tier == 0 <==> 100 * hours <= 60 * capacity
  {
    RatioAbove(hours, capacity, 1, 1);
    RatioAbove(hours, capacity, 85, 100);
    RatioAbove(hours, capacity, 6, 10);
    assert 1.0 == 1 as real / 1 as real;
    assert 0.85 == 85 as real / 100 as real;
    assert 0.6 == 6 as real / 10 as real;
    var utilization := hours as real / capacity as real;
    if utilization > 1.0 then 50
    else if utilization > 0.85 then 30
    else if utilization > 0.6 then 15
    else 0
  }

  /** More hours never lower the tier. */
  lemma TierMonotone(h1: int, h2: int, capacity: nat)
    requires capacity > 0 && h1 <= h2
    ensures UtilizationTier(h1, capacity) <= UtilizationTier(h2, capacity)
  {
  }

  /** Hours equal to capacity (ratio 1.0) earn the 30 tier, whatever the capacity. */
  lemma FullCapacityTier(capacity: nat)
    requires capacity > 0
    ensures UtilizationTier(capacity, capacity) == 30
  {
  }

  /**
   * A deadline at most 5 days ahead of today (overdue included) on a task
   * that is in progress or in the backlog; a task without a deadline never is.
   */
  function NearDeadline(t: Task, today: int): (near: bool)
    ensures near <==>
      t.deadline.Some? && t.deadline.value.dayNumber <= today + 5 && (t.status == InProgress || t.status == Backlog)
  {
    t.deadline.Some? && DaysUntil(t.deadline.value, today) <= 5 &&
    (t.status == InProgress || t.status == Backlog)
  }

  function IsNearDeadline(today: int): Task -> bool
  {
    t => NearDeadline(t, today)
  }

  function IsHighPriority(t: Task): bool
  {
    t.priority == High
  }

  /**
   * The score before the cap of 100: at least the report bonus, at most the
   * highest tier plus 8 + 6 per task on top of it, and exactly the report
   * bonus for an employee with no tasks.
   */
  function RawScore(e: Employee, bucket: seq<Task>, today: int): (raw: int)
    ensures 4 * Reports(e) <= raw <= 50 + 14 * |bucket| + 4 * Reports(e)
    ensures bucket == [] ==> raw == 4 * Reports(e)
  {
    UtilizationTier(Sum(bucket, Hours), Capacity(e))
    + 8 * |Filter(bucket, IsNearDeadline(today))|
    + 6 * |Filter(bucket, IsHighPriority)|
    + 4 * Reports(e)
  }

  /**
   * `riskScoreForEmployee(emp, tasksForEmp)`: the raw score capped at 100.
   * The score never exceeds 100,
   * is non-negative when the report count is, and an employee with no tasks
   * scores min(100, 4 * secureReports).
   */
  function RiskScore(e: Employee, bucket: seq<Task>, today: int): (r: int)
    ensures r == if RawScore(e, bucket, today) < 100 then RawScore(e, bucket, today) else 100
    ensures r <= 100
    ensures Reports(e) >= 0 ==> r >= 0
    ensures bucket == [] ==> r == if 4 * Reports(e) < 100 then 4 * Reports(e) else 100
  {
    var score := RawScore(e, bucket, today);
    if score < 100 then score else 100
  }

  /**
   * What one more task adds before the cap: 8 exactly when it is near its
   * deadline and in progress or in the backlog, 6 exactly when it has high
   * priority (whatever its status), and its hours only through the change
   * of utilization tier.
   */
  lemma RawScoreAppend(e: Employee, bucket: seq<Task>, x: Task, today: int)
    ensures RawScore(e, bucket + [x], today) ==
      RawScore(e, bucket, today)
      + (UtilizationTier(Sum(bucket, Hours) + Hours(x), Capacity(e)) - UtilizationTier(Sum(bucket, Hours), Capacity(e)))
      + (if NearDeadline(x, today) then 8 else 0)
      + (if x.priority == High then 6 else 0)
  {
    SumAppend(bucket, [x], Hours);
    FilterAppend(bucket, [x], IsNearDeadline(today));
    FilterAppend(bucket, [x], IsHighPriority);
  }

  /** Assigning one more task with non-negative effort never lowers the score. */
  lemma RiskMonotone(e: Employee, bucket: seq<Task>, x: Task, today: int)
    requires Hours(x) >= 0
    ensures RiskScore(e, bucket, today) <= RiskScore(e, bucket + [x], today)
  {
    RawScoreAppend(e, bucket, x, today);
    TierMonotone(Sum(bucket, Hours), Sum(bucket, Hours) + Hours(x), Capacity(e));
  }

  /** The label of `riskChip`. */
  datatype RiskLevel = Bajo | Medio | Alto

  /** Alto from 70, Medio from 40, Bajo below. */
  function RiskLevelOf(score: int): (l: RiskLevel)
    ensures l == Alto <==> score >= 70
    ensures l == Medio <==> 40 <= score < 70
    ensures l == Bajo <==> score < 40
  {
    if score >= 70 then Alto
    else if score >= 40 then Medio
    else Bajo
  }

  function LevelRank(l: RiskLevel): nat
  {
    match l
    case Bajo => 0
    case Medio => 1
    case Alto => 2
  }

  /** A higher score never gets a lower label. */
  lemma RiskLevelMonotone(s1: int, s2: int)
    requires s1 <= s2
    ensures LevelRank(RiskLevelOf(s1)) <= LevelRank(RiskLevelOf(s2))
  {
  }
}
