/** Small types and facts shared by the model's modules. */
module Basics {

  datatype Option<+T> = None | Some(value: T)

  type byte = b: int | 0 <= b < 256

  /** A finite set has at least as many elements as each of its subsets. */
  lemma {:induction false} SubsetIsSmaller<T>(small: set<T>, big: set<T>)
    requires small <= big
    ensures |small| <= |big|
    decreases small
  {
    if small != {} {
      var x :| x in small;
      SubsetIsSmaller(small - {x}, big - {x});
    }
  }

  /** A slice of a suffix, in the coordinates of the whole. */
  lemma SliceOfSuffix<T>(s: seq<T>, from: nat, i: nat, j: nat)
    requires i <= j && from + j <= |s|
    ensures s[from..][i..j] == s[from + i..from + j]
  {
  }
}
