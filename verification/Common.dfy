// Datatypes shared by the modules, and the size of a subset.
module Common {
  datatype Option<+T> = None | Some(value: T)

  type TaskId = string

  datatype Tier = Tier1 | Tier2 | Tier3

  datatype AgentType = Coder | Reviewer | Tester | Planner

  datatype TaskType = ImplementFeature | WriteTest | ReviewCode | FixBug | Refactor

  lemma SubsetSize<T>(a: set<T>, b: set<T>)
    requires a <= b
    ensures |a| <= |b|
  {
    if a != {} {
      var x :| x in a;
      SubsetSize(a - {x}, b - {x});
    }
  }
}
