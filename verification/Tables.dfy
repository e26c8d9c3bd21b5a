/** Resource tables: entries under small indices, of which free ones are reused. */
module Tables {

  /** The first index from `from` on that is not in use. */
  function FirstFree(used: set<nat>, from: nat): (r: nat)
    ensures r !in used && from <= r
    ensures forall i: nat | from <= i < r :: i in used
    decreases |used|
  {
    if from !in used then from
    else
      var r := FirstFree(used - {from}, from + 1);
      assert forall i: nat | from <= i < r :: i in used by {
        forall i: nat | from <= i < r ensures i in used {
          assert i == from || i in used - {from};
        }
      }
      r
  }

  /** The index the next entry is put at. */
  function Slot<T>(t: map<nat, T>): (i: nat)
    ensures i !in t && forall j: nat | j < i :: j in t
  {
    FirstFree(t.Keys, 0)
  }
}
