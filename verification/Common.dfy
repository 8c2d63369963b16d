/** Small shared pieces. */
module Common {
  datatype Option<+T> = None | Some(value: T)

  /** One round of a Go `range` over a map or set: any remaining element, in no particular order. */
  method Pick<T(==)>(s: set<T>) returns (x: T)
    requires s != {}
    ensures x in s
  {
    x :| x in s;
  }

  /** A whole `range` over a map: its keys, each once, in some order. */
  method Ordered<T(==)>(s: set<T>) returns (order: seq<T>)
    ensures (forall x :: x in order <==> x in s) && |order| == |s|
    ensures forall i, j :: 0 <= i < j < |order| ==> order[i] != order[j]
  {
    order := [];
    var left := s;
    while left != {}
      invariant left <= s && |order| + |left| == |s|
      invariant forall x :: x in s <==> x in order || x in left
      invariant (forall x :: x in order ==> x !in left) && forall i, j :: 0 <= i < j < |order| ==> order[i] != order[j]
      decreases |left|
    {
      var x := Pick(left);
      order, left := order + [x], left - {x};
    }
  }
}
