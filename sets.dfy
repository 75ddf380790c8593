/** Facts about sets that the proofs elsewhere use. */
module Sets {

  /** A set that is not empty has a member. */
  lemma MemberOf<T>(s: set<T>) returns (x: T)
    requires s != {}
    ensures x in s
  {
    x :| x in s;
  }
}
