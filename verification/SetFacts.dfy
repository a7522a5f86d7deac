/** One fact about finite sets. */
module SetFacts {

  /** A subset is no larger than the set. */
  lemma {:induction false} CardLe<T>(x: set<T>, y: set<T>)
    requires x <= y
    ensures |x| <= |y|
  {
    if x != {} {
      var u :| u in x;
      CardLe(x - {u}, y - {u});
    }
  }
}
