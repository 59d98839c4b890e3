/** Python list operations on sequences. */
module Lists {
  /** `xs.remove(x)`: the first occurrence removed. */
  function ListRemove<T(==)>(xs: seq<T>, x: T): (r: seq<T>)
    requires x in xs
    ensures |r| == |xs| - 1
    ensures multiset(r) == multiset(xs) - multiset{x}
  {
    if xs[0] == x then
      assert xs == [xs[0]] + xs[1..];
      xs[1..]
    else
      assert xs == [xs[0]] + xs[1..];
      [xs[0]] + ListRemove(xs[1..], x)
  }

  /** The element removed is the first occurrence; the others keep their order. */
  lemma {:induction false} ListRemoveFirst<T>(xs: seq<T>, x: T, i: nat)
    requires i < |xs| && xs[i] == x && x !in xs[..i]
    ensures ListRemove(xs, x) == xs[..i] + xs[i + 1..]
  {
    if i != 0 {
      var tail := xs[1..];
      assert xs[..i] == [xs[0]] + tail[..i - 1];
      assert xs[i + 1..] == tail[i..];
      ListRemoveFirst(tail, x, i - 1);
    }
  }
}
