/** Vocabulary shared by the other modules. */
module Basics {
  datatype Option<T> = None | Some(value: T)

  ghost function Elements(l: seq<nat>): set<nat> {
    set x | x in l
  }

  lemma {:induction false} ElementsBound(l: seq<nat>)
    ensures |Elements(l)| <= |l|
  {
    if l == [] {
      assert Elements(l) == {};
    } else {
      ElementsBound(l[1..]);
      assert Elements(l) == Elements(l[1..]) + {l[0]};
    }
  }

  lemma SubsetSize<T>(a: set<T>, b: set<T>)
    requires a <= b
    ensures |a| <= |b|
  {
    assert a + (b - a) == b;
  }
}
