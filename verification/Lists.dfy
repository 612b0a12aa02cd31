/** The end of a list. */
module Lists {
  /** `slice(-n)`, which for zero is the whole list. */
  function LastN<T>(s: seq<T>, n: nat): seq<T> {
    if n == 0 || |s| <= n then s else s[|s| - n..]
  }

  lemma {:induction false} LastNIn<T>(s: seq<T>, n: nat)
    ensures forall x :: x in LastN(s, n) ==> x in s
  {
  }

  /** Of a list that grows, the end can be kept up to date. */
  lemma {:induction false} LastNGrows<T>(s: seq<T>, more: seq<T>, n: nat)
    requires n > 0
    ensures LastN(LastN(s, n) + more, n) == LastN(s + more, n)
  {
  }
}
