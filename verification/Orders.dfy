/** Iteration orders: what a loop over a map or set of names sees of it. */
module Orders {
  predicate NoDuplicates(list: seq<string>) {
    forall i, j :: 0 <= i < j < |list| ==> list[i] != list[j]
  }

  /** Every name exactly once. */
  ghost predicate IsOrderOf(order: seq<string>, names: set<string>) {
    NoDuplicates(order) && (set name | name in order) == names
  }
}
