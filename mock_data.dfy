/** The fixtures the pages start from: the mentor catalog and the payment plan. */
module MockData {
  import opened Types

  /** `MOCK_MENTORS`, without the free-text `experience` field. */
  function MockMentors(): (ms: seq<Mentor>)
    ensures |ms| == 5
  {
    [ Mentor(1, "Zhang Wei (张伟)", "https://picsum.photos/id/1027/200/200", Verification(true, true),
             "Stanford University", "Computer Science", "USA", 150, "PhD Candidate"),
      Mentor(2, "Li Na (李娜)", "https://picsum.photos/id/1011/200/200", Verification(true, true),
             "London School of Economics", "Finance", "UK", 180, "MSc"),
      Mentor(3, "Wang Fang (王芳)", "https://picsum.photos/id/1012/200/200", Verification(true, false),
             "University of Toronto", "Data Science", "Canada", 120, "MSc Candidate"),
      Mentor(4, "Liu Yang (刘洋)", "https://picsum.photos/id/1013/200/200", Verification(true, true),
             "ETH Zurich", "Electrical Engineering", "Europe", 160, "PhD"),
      Mentor(5, "Chen Jing (陈静)", "https://picsum.photos/id/1015/200/200", Verification(false, false),
             "National University of Singapore", "Business Analytics", "Asia", 130, "MSc") ]
  }

  /** `MOCK_PAYMENT_PLAN` */
  function MockPaymentPlan(): (p: PaymentPlan)
    ensures |p.milestones| == 3
  {
    PaymentPlan(9000, "CNY", [
      Milestone(1, "Statement of Purpose Draft & Polish", 3000, "2024-08-30", Pending),
      Milestone(2, "Resume/CV Writing & Review", 3000, "2024-09-30", Locked),
      Milestone(3, "Online Application System Guidance", 3000, "2024-10-30", Locked) ])
  }

  function SumAmounts(ms: seq<Milestone>): int
  {
    if ms == [] then 0 else ms[0].amount + SumAmounts(ms[1..])
  }

  /** The milestones' statuses advance in order: those before `k` are completed,
      the one at `k` (if any) is pending, those after it are locked. */
  predicate SequentialAt(ms: seq<Milestone>, k: nat)
  {
    && k <= |ms|
    && (forall j :: 0 <= j < k ==> ms[j].status == Completed)
    && (k < |ms| ==> ms[k].status == Pending)
    && (forall j :: k < j < |ms| ==> ms[j].status == Locked)
  }

  /** Ids strictly increase along the list, so they are distinct. */
  predicate AscendingIds(ms: seq<Milestone>)
  {
    forall i, j :: 0 <= i < j < |ms| ==> ms[i].id < ms[j].id
  }

  predicate DistinctMentorIds(ms: seq<Mentor>)
  {
    forall i, j :: 0 <= i < j < |ms| ==> ms[i].id != ms[j].id
  }

  /** The fixture plan is consistent: its amounts add up to its total, only the
      first milestone is pending, and its ids ascend. */
  lemma MockPlanWellFormed()
    ensures SumAmounts(MockPaymentPlan().milestones) == MockPaymentPlan().total
    ensures SequentialAt(MockPaymentPlan().milestones, 0)
    ensures AscendingIds(MockPaymentPlan().milestones)
  {
    var ms := MockPaymentPlan().milestones;
    assert SumAmounts(ms[2..]) == 3000;
    assert SumAmounts(ms[1..]) == 6000;
  }

  /** No two catalog mentors share an id. */
  lemma MockMentorIdsDistinct()
    ensures DistinctMentorIds(MockMentors())
  {
  }
}
