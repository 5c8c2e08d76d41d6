/**
 * The task facet filter (`filteredTasks`, src/App.tsx): a task is kept when
 * it matches each of the org-unit, pattern and status selections that is
 * not the sentinel "all".
 */
module TaskFilter {
  import opened Seqs
  import opened Domain

  /** The selector value meaning "no constraint". */
  const ALL := "all"

  datatype Facets = Facets(orgUnit: string, pattern: string, status: string)

  const NoFacets := Facets(ALL, ALL, ALL)

  predicate Matches(f: Facets, t: Task)
  {
    (f.orgUnit == ALL || t.orgUnit == f.orgUnit) &&
    (f.pattern == ALL || PatternName(t.pattern) == f.pattern) &&
    (f.status == ALL || StatusName(t.status) == f.status)
  }

  function Matcher(f: Facets): Task -> bool
  {
    t => Matches(f, t)
  }

  /**
   * The tasks that match every active facet, as an order-preserving
   * subsequence of the input: a task is in the result exactly when it is in
   * the input and matches, and then with all its copies.
   */
  function FilterTasks(tasks: seq<Task>, f: Facets): (r: seq<Task>)
    ensures IsSubsequence(r, tasks)
    ensures forall t :: t in r ==> t in tasks && Matches(f, t)
    ensures forall t :: t in tasks && Matches(f, t) ==> t in r
    ensures forall t :: multiset(r)[t] == if Matches(f, t) then multiset(tasks)[t] else 0
  {
    FilterIsSubsequence(tasks, Matcher(f));
    FilterMembershipAll(tasks, Matcher(f));
    forall t | true
      ensures multiset(Filter(tasks, Matcher(f)))[t] == if Matches(f, t) then multiset(tasks)[t] else 0
    {
      FilterMultiplicity(tasks, Matcher(f), t);
    }
    Filter(tasks, Matcher(f))
  }

  /** With every facet at "all" the filter returns its input unchanged. */
  lemma FilterAllFacetsIsIdentity(tasks: seq<Task>)
    ensures FilterTasks(tasks, NoFacets) == tasks
  {
    FilterKeepsAll(tasks, Matcher(NoFacets));
  }

  /** Filtering an already filtered list with the same facets changes nothing. */
  lemma FilterTasksIdempotent(tasks: seq<Task>, f: Facets)
    ensures FilterTasks(FilterTasks(tasks, f), f) == FilterTasks(tasks, f)
  {
    FilterIdempotent(tasks, Matcher(f));
  }

  /** Every facet of `g` is "all" or the same as in `f`: `g` asks less than `f`. */
  predicate Relaxes(g: Facets, f: Facets)
  {
    (g.orgUnit == ALL || g.orgUnit == f.orgUnit) &&
    (g.pattern == ALL || g.pattern == f.pattern) &&
    (g.status == ALL || g.status == f.status)
  }

  /**
   * Setting facets only narrows the list: the tasks kept by `f` are those
   * kept by a relaxed `g` and then by `f`, and there are no more of them.
   */
  lemma RelaxedFacetsKeepMore(tasks: seq<Task>, f: Facets, g: Facets)
    requires Relaxes(g, f)
    ensures FilterTasks(FilterTasks(tasks, g), f) == FilterTasks(tasks, f)
    ensures |FilterTasks(tasks, f)| <= |FilterTasks(tasks, g)|
  {
    FilterFilter(tasks, Matcher(g), Matcher(f), Matcher(f));
    FilterWeaker(tasks, Matcher(f), Matcher(g));
  }
}
