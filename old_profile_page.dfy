/** The earlier profile page (pages/ProfilePage.tsx): releasing a milestone's
    payment completes every milestone with that id and does nothing else. */
module OldProfilePage {
  import opened Types
  import opened MockData

  /** `releasePayment(milestoneId)` applied to the plan state. */
  function ReleasePayment(plan: PaymentPlan, milestoneId: int): (r: PaymentPlan)
    ensures r.total == plan.total && r.currency == plan.currency
    ensures |r.milestones| == |plan.milestones|
    ensures forall k :: 0 <= k < |plan.milestones| && plan.milestones[k].id == milestoneId ==>
              r.milestones[k] == plan.milestones[k].(status := Completed)
    ensures forall k :: 0 <= k < |plan.milestones| && plan.milestones[k].id != milestoneId ==>
              r.milestones[k] == plan.milestones[k]
  {
    plan.(milestones := seq(|plan.milestones|, k requires 0 <= k < |plan.milestones| =>
      var m := plan.milestones[k];
      if m.id == milestoneId then m.(status := Completed) else m))
  }

  /** The ids whose row shows the release button: the pending milestones. */
  function ReleasableIds(plan: PaymentPlan): (ids: set<int>)
    ensures forall id :: id in ids <==>
              exists k :: 0 <= k < |plan.milestones| && plan.milestones[k].id == id && plan.milestones[k].status == Pending
  {
    var ids := set m | m in plan.milestones && m.status == Pending :: m.id;
    assert forall k :: 0 <= k < |plan.milestones| && plan.milestones[k].status == Pending ==> plan.milestones[k].id in ids;
    ids
  }

  /** Releasing twice is releasing once. */
  lemma ReleaseIdempotent(plan: PaymentPlan, milestoneId: int)
    ensures ReleasePayment(ReleasePayment(plan, milestoneId), milestoneId) == ReleasePayment(plan, milestoneId)
  {
    var once := ReleasePayment(plan, milestoneId);
    var twice := ReleasePayment(once, milestoneId);
    assert twice.milestones == once.milestones;
  }

  /** Release never unlocks anything: a milestone that was locked is locked
      afterwards unless it carries the released id, and no milestone becomes pending. */
  lemma ReleaseNeverUnlocks(plan: PaymentPlan, milestoneId: int)
    ensures forall k :: 0 <= k < |plan.milestones| && plan.milestones[k].status == Locked && plan.milestones[k].id != milestoneId
              ==> ReleasePayment(plan, milestoneId).milestones[k].status == Locked
    ensures forall k :: 0 <= k < |plan.milestones| && ReleasePayment(plan, milestoneId).milestones[k].status == Pending ==>
              plan.milestones[k].status == Pending
  {
  }

  /** The released id loses its button, and no other id gains or loses one. */
  lemma ReleaseRemovesOnlyItsButton(plan: PaymentPlan, milestoneId: int)
    ensures ReleasableIds(ReleasePayment(plan, milestoneId)) == ReleasableIds(plan) - {milestoneId}
  {
    var ms := plan.milestones;
    var rs := ReleasePayment(plan, milestoneId).milestones;
    forall id | id in ReleasableIds(plan) - {milestoneId}
      ensures id in ReleasableIds(ReleasePayment(plan, milestoneId))
    {
      var m :| m in ms && m.status == Pending && m.id == id;
      var k :| 0 <= k < |ms| && ms[k] == m;
      assert rs[k] == m;
    }
    forall id | id in ReleasableIds(ReleasePayment(plan, milestoneId))
      ensures id in ReleasableIds(plan) - {milestoneId}
    {
      var m :| m in rs && m.status == Pending && m.id == id;
      var k :| 0 <= k < |rs| && rs[k] == m;
      assert ms[k] == m;
    }
  }

  /** On a plan that advances in order, releasing the pending milestone leaves no
      milestone pending: this page never offers the next release. */
  lemma ReleaseStallsSequentialPlan(plan: PaymentPlan, k: nat)
    requires SequentialAt(plan.milestones, k) && k < |plan.milestones|
    requires AscendingIds(plan.milestones)
    ensures ReleasableIds(ReleasePayment(plan, plan.milestones[k].id)) == {}
  {
    var id := plan.milestones[k].id;
    ReleaseRemovesOnlyItsButton(plan, id);
    forall x | x in ReleasableIds(plan) ensures x == id {
      var m :| m in plan.milestones && m.status == Pending && m.id == x;
      var j :| 0 <= j < |plan.milestones| && plan.milestones[j] == m;
      assert j == k;
    }
  }

  /** From the fixture, releasing the first milestone completes it and leaves
      the other two locked. */
  lemma ReleaseFirstFixtureMilestone()
    ensures ReleasePayment(MockPaymentPlan(), 1).milestones[0].status == Completed
    ensures ReleasePayment(MockPaymentPlan(), 1).milestones[1].status == Locked
    ensures ReleasePayment(MockPaymentPlan(), 1).milestones[2].status == Locked
  {
  }
}
