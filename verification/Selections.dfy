/** What it means that one sequence keeps some elements of another, in order. */
module Selections {

  /** `kept` is what `all` holds at the positions `at`, which are in increasing order. */
  ghost predicate Picks<T(!new)>(kept: seq<T>, all: seq<T>, at: seq<nat>) {
    && |kept| == |at|
    && (forall i :: 0 <= i < |at| ==> at[i] < |all| && kept[i] == all[at[i]])
    && (forall i, j :: 0 <= i < j < |at| ==> at[i] < at[j])
  }

  /** One more element, kept or not. */
  lemma PicksNext<T(!new)>(kept: seq<T>, all: seq<T>, at: seq<nat>, x: T)
    requires Picks(kept, all, at)
    ensures Picks(kept, all + [x], at) && Picks(kept + [x], all + [x], at + [|all|])
    ensures forall k :: k in at ==> k < |all|
  {
  }

  lemma PicksMembers<T(!new)>(kept: seq<T>, all: seq<T>, at: seq<nat>, x: T)
    requires Picks(kept, all, at) && x in kept
    ensures exists k: nat :: k in at && k < |all| && all[k] == x
  {
    var i :| 0 <= i < |kept| && kept[i] == x;
    assert at[i] in at && all[at[i]] == x;
  }
}
