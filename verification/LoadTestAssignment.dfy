/** The plan that planning computes is a plan in the sense of the protocol. */
module LoadTestAssignment {
  import opened LoadTest
  import opened Distribution

  lemma {:induction false} OwnersAssigned(selected: seq<Selection>, plan: seq<Assignment>, i: nat)
    requires |plan| == |selected| && forall a :: 0 <= a < |plan| ==> plan[a].spoke == selected[a].spoke
    requires i < |Owners(plan)|
    ensures Owners(plan)[i] in IDs(selected)
  {
    var n := |plan| - 1;
    if i < |Owners(plan[..n])| {
      OwnersAssigned(selected[..n], plan[..n], i);
      var a :| 0 <= a < n && IDs(selected[..n])[a] == Owners(plan)[i];
      assert IDs(selected)[a] == Owners(plan)[i];
    } else {
      assert IDs(selected)[n] == plan[n].spoke;
    }
  }

  /** What planning computes is a plan in the sense of the protocol. */
  lemma DistributionIsWellPlanned(selected: seq<Selection>, workers: nat, plan: seq<Assignment>)
    requires IsPlan(selected, workers, plan) && selected != []
    ensures WellPlanned(Plan(IDs(selected), Owners(plan)))
  {
    forall i | 0 <= i < |Owners(plan)| ensures Owners(plan)[i] in IDs(selected) {
      OwnersAssigned(selected, plan, i);
    }
  }
}
