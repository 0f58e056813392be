// The steps of one participant in a run of many.
module Runs {

  function Select<A>(run: seq<A>, mine: A -> bool): seq<A> {
    if run == [] then []
    else Select(run[..|run| - 1], mine) + if mine(run[|run| - 1]) then [run[|run| - 1]] else []
  }

  ghost predicate NoneOf<A(!new)>(run: seq<A>, mine: A -> bool) { forall a | a in run :: !mine(a) }

  lemma {:induction false} SelectWithOthers<A(!new)>(run: seq<A>, others: seq<A>, mine: A -> bool)
    requires NoneOf(others, mine)
    ensures Select(run + others, mine) == Select(run, mine)
  {
    if others == [] {
      assert run + others == run;
    } else {
      var n := |others| - 1;
      assert (run + others)[..|run + others| - 1] == run + others[..n];
      assert others[n] in others;
      SelectWithOthers(run, others[..n], mine);
    }
  }

  // The others first, then a step of one's own.
  lemma SelectAfterOthers<A(!new)>(run: seq<A>, others: seq<A>, a: A, mine: A -> bool)
    requires NoneOf(others, mine) && mine(a)
    ensures Select(run + others + [a], mine) == Select(run, mine) + [a]
  {
    SelectWithOthers(run, others, mine);
    assert (run + others + [a])[..|run + others|] == run + others;
  }
}
