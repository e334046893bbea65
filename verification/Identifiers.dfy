/** Identifiers for new calls. */
module Identifiers {

  /** There is always an identifier that is not in use. */
  lemma {:induction false} Unused(ids: set<nat>) returns (unused: nat)
    ensures forall i :: i in ids ==> i < unused
  {
    if ids == {} {
      return 0;
    }
    var i :| i in ids;
    unused := Unused(ids - {i});
    unused := if unused <= i then i + 1 else unused;
    assert ids == (ids - {i}) + {i};
  }
}
