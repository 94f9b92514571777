module Wrappers {

  datatype Option<+T> = None | Some(value: T)

  lemma Occupied(xs: set<int>)
    ensures xs != {} ==> exists x :: x in xs
  {
    if forall x :: x !in xs {
      assert xs == {};
    }
  }
}
