/** Datatypes and sequence helpers shared by the models. */
module Common {

  datatype Option<+T> = None | Some(value: T)

  /** The last `n` elements of `s`, or all of `s` when it is shorter. */
  function LastN<T>(s: seq<T>, n: nat): (r: seq<T>)
    ensures |r| == if |s| <= n then |s| else n
  {
    if |s| <= n then s else s[|s| - n..]
  }

  /** Appending to a bounded tail: only the newest `n` elements ever matter. */
  lemma LastNSnoc<T>(s: seq<T>, x: T, n: nat)
    requires n > 0
    ensures LastN(s + [x], n) == LastN(LastN(s, n) + [x], n)
    ensures |s| >= n ==> LastN(s + [x], n) == LastN(s, n)[1..] + [x]
    ensures |s| < n ==> LastN(s + [x], n) == LastN(s, n) + [x]
  {
  }
}
