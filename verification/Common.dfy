/** What several components share and none of them owns. */
module Common {

  datatype Option<+T> = None | Some(value: T)

  lemma {:induction false} SubsetSize<T>(a: set<T>, b: set<T>)
    requires a <= b
    ensures |a| <= |b|
    decreases |a|
  {
    if a != {} {
      var x :| x in a;
      SubsetSize(a - {x}, b - {x});
    }
  }

  lemma {:induction false} ListedSize<T>(list: seq<T>, some: set<T>)
    requires forall x :: x in some ==> x in list
    ensures |some| <= |list|
    decreases list
  {
    if list == [] {
      assert some == {};
    } else {
      ListedSize(list[1..], some - {list[0]});
    }
  }
}
