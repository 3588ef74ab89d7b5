/** Field-by-field assignment to a row, as the update routes do it with
    `for key, value in ...: setattr(row, key, value)`. */
module Rows {
  import opened Wrappers

  /** The row obtained from `r` by performing each assignment of `items` in turn. */
  function Fold<R, A>(r: R, items: seq<A>, assign: (R, A) -> R): R
    decreases |items|
  {
    if items == [] then r else Fold(assign(r, items[0]), items[1..], assign)
  }

  /** The assignment of a supplied field as a one-item list, nothing when the
      field is not supplied. */
  function IfSupplied<T, A>(o: Option<T>, f: T -> A): seq<A> {
    if o.Some? then [f(o.value)] else []
  }

  /** Folding a possibly-supplied assignment followed by `rest`: the assignment
      happens exactly when the field is supplied. */
  lemma FoldSupplied<R, T, A>(r: R, o: Option<T>, f: T -> A, rest: seq<A>, assign: (R, A) -> R)
    ensures Fold(r, IfSupplied(o, f) + rest, assign)
            == Fold(if o.Some? then assign(r, f(o.value)) else r, rest, assign)
  {
    if o.Some? {
      assert (IfSupplied(o, f) + rest)[0] == f(o.value);
      assert (IfSupplied(o, f) + rest)[1..] == rest;
    } else {
      assert IfSupplied(o, f) + rest == rest;
    }
  }

  /** The setattr loop itself: one assignment per iteration. */
  method SetEach<R, A>(r: R, items: seq<A>, assign: (R, A) -> R) returns (nr: R)
    ensures nr == Fold(r, items, assign)
  {
    nr := r;
    var i := 0;
    while i < |items|
      invariant 0 <= i <= |items|
      invariant Fold(nr, items[i..], assign) == Fold(r, items, assign)
    {
      assert items[i..][0] == items[i];
      assert items[i..][1..] == items[i + 1..];
      nr := assign(nr, items[i]);
      i := i + 1;
    }
    assert items[i..] == [];
  }
}
