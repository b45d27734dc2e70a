/** Facts about sequences that runs are put together with. */
module Sequences {
  function DropLast<T>(s: seq<T>): seq<T>
    requires s != []
  {
    s[..|s| - 1]
  }

  lemma Reassociate<T>(a: seq<T>, b: seq<T>, c: seq<T>)
    ensures a + (b + c) == a + b + c
  {
  }

  lemma SumWithEmpty<T>(a: seq<T>)
    ensures a + [] == a
  {
  }

  lemma LastOfSum<T>(a: seq<T>, b: seq<T>)
    requires b != []
    ensures DropLast(a + b) == a + DropLast(b) && (a + b)[|a + b| - 1] == b[|b| - 1]
  {
  }

  lemma SplitLast<T>(s: seq<T>)
    requires s != []
    ensures s == DropLast(s) + [s[|s| - 1]]
  {
  }

  lemma PrefixOfDropLast<T>(s: seq<T>, n: nat)
    requires n < |s|
    ensures DropLast(s)[..n] == s[..n]
  {
  }

  lemma WholePrefix<T>(s: seq<T>)
    ensures s[..|s|] == s
  {
  }
}
