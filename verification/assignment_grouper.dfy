/**
 * The assignment grouper (`tasksByAssignee`, src/App.tsx): one bucket per
 * employee id, created empty first, then filled with the filtered tasks
 * assigned to that id, in task order.  Tasks without an assignee or with an
 * id no employee has are in no bucket.
 */
module AssignmentGrouper {
  import opened Seqs
  import opened Domain

  function EmployeeIds(employees: seq<Employee>): set<string>
  {
    set e | e in employees :: e.id
  }

  /** `t.assigneeId && t.assigneeId === id` */
  function AssignedTo(id: string): Task -> bool
  {
    t => HasAssignee(t) && t.assigneeId.value == id
  }

  /** The grouping as a value: every employee id mapped to the tasks assigned to it. */
  function Buckets(employees: seq<Employee>, tasks: seq<Task>): map<string, seq<Task>>
  {
    map id | id in EmployeeIds(employees) :: Filter(tasks, AssignedTo(id))
  }

  /**
   * Builds the buckets in two phases as the dashboard does: an empty list per
   * employee id, then each task with a known assignee appended to its list.
   */
  method GroupByAssignee(employees: seq<Employee>, tasks: seq<Task>) returns (buckets: map<string, seq<Task>>)
    ensures buckets.Keys == EmployeeIds(employees)
    ensures forall id :: id in buckets ==> buckets[id] == Filter(tasks, AssignedTo(id))
    ensures buckets == Buckets(employees, tasks)
  {
    buckets := map[];
    var i := 0;
    while i < |employees|
      invariant 0 <= i <= |employees|
      invariant buckets.Keys == EmployeeIds(employees[..i])
      invariant forall id :: id in buckets ==> buckets[id] == []
    {
      assert employees[..i + 1] == employees[..i] + [employees[i]];
      buckets := buckets[employees[i].id := []];
      i := i + 1;
    }
    assert employees[..i] == employees;
    var j := 0;
    ghost var done: seq<Task> := [];
    while j < |tasks|
      invariant 0 <= j <= |tasks| && done == tasks[..j]
      invariant buckets.Keys == EmployeeIds(employees)
      invariant forall id :: id in buckets ==> buckets[id] == Filter(done, AssignedTo(id))
    {
      var t := tasks[j];
      AppendStep(buckets, done, t);
      if t.assigneeId.Some? && t.assigneeId.value != "" && t.assigneeId.value in buckets {
        buckets := buckets[t.assigneeId.value := buckets[t.assigneeId.value] + [t]];
      }
      done := done + [t];
      PrefixStep(tasks, j);
      j := j + 1;
    }
    assert done == tasks;
  }

  /**
   * One task of the second loop: appending it to its assignee's bucket, when
   * that bucket exists, keeps every bucket equal to the filter of the tasks
   * seen so far.
   */
  lemma AppendStep(buckets: map<string, seq<Task>>, done: seq<Task>, t: Task)
    requires forall id :: id in buckets ==> buckets[id] == Filter(done, AssignedTo(id))
    ensures var b := if HasAssignee(t) && t.assigneeId.value in buckets
        then buckets[t.assigneeId.value := buckets[t.assigneeId.value] + [t]]
        else buckets;
      b.Keys == buckets.Keys &&
      forall id :: id in b ==> b[id] == Filter(done + [t], AssignedTo(id))
  {
    forall id | id in buckets {
      FilterAppend(done, [t], AssignedTo(id));
    }
  }

  /**
   * A bucket holds exactly the tasks assigned to its id, each as often as
   * in the task list and in their original order; every employee id has a
   * bucket, and no other key does.
   */
  lemma BucketContents(employees: seq<Employee>, tasks: seq<Task>, id: string, t: Task)
    ensures id in Buckets(employees, tasks) <==> exists e :: e in employees && e.id == id
    ensures id in Buckets(employees, tasks) ==>
      IsSubsequence(Buckets(employees, tasks)[id], tasks) &&
      (t in Buckets(employees, tasks)[id] <==> t in tasks && HasAssignee(t) && t.assigneeId.value == id) &&
      multiset(Buckets(employees, tasks)[id])[t] ==
        if HasAssignee(t) && t.assigneeId.value == id then multiset(tasks)[t] else 0
  {
    if id in Buckets(employees, tasks) {
      FilterIsSubsequence(tasks, AssignedTo(id));
      FilterMembership(tasks, AssignedTo(id), t);
      FilterMultiplicity(tasks, AssignedTo(id), t);
    }
  }

  /**
   * A task lands in some bucket exactly when it has an assignee whose id
   * belongs to an employee: null, empty and unknown assignees are dropped.
   */
  lemma DroppedTasks(employees: seq<Employee>, tasks: seq<Task>, t: Task)
    requires t in tasks
    ensures (exists id :: id in Buckets(employees, tasks) && t in Buckets(employees, tasks)[id]) <==>
      HasAssignee(t) && t.assigneeId.value in EmployeeIds(employees)
  {
    var b := Buckets(employees, tasks);
    if HasAssignee(t) && t.assigneeId.value in EmployeeIds(employees) {
      var id := t.assigneeId.value;
      FilterMembership(tasks, AssignedTo(id), t);
      assert id in b && t in b[id];
    }
    forall id | id in b && t in b[id]
      ensures HasAssignee(t) && t.assigneeId.value in EmployeeIds(employees)
    {
      FilterMembership(tasks, AssignedTo(id), t);
    }
  }
}
