/** The profile page (src/pages/ProfilePage/index.tsx): the milestone payment
    plan with sequential release, and the student's payment-method registry. */
module ProfilePage {
  import opened Types
  import opened MockData
  import Seqs

  /** The index of the first milestone with id `id`, or -1. */
  function MilestoneIndex(ms: seq<Milestone>, id: int): (i: int)
    ensures -1 <= i < |ms|
    ensures i == -1 <==> forall j :: 0 <= j < |ms| ==> ms[j].id != id
    ensures 0 <= i ==> ms[i].id == id && forall j :: 0 <= j < i ==> ms[j].id != id
  {
    Seqs.FirstIndex(ms, (m: Milestone) => m.id == id)
  }

  /** The milestone list after confirming payment for the milestone with id `id`:
      the first milestone with that id is completed and the one after it, if any,
      becomes pending whatever its status was. Nothing else changes. */
  function ConfirmMilestones(ms: seq<Milestone>, id: int): (r: seq<Milestone>)
    ensures |r| == |ms|
    ensures forall k :: 0 <= k < |ms| ==> r[k] == ms[k].(status := r[k].status)
    ensures MilestoneIndex(ms, id) == -1 ==> r == ms
    ensures 0 <= MilestoneIndex(ms, id) ==> r[MilestoneIndex(ms, id)].status == Completed
    ensures 0 <= MilestoneIndex(ms, id) < |ms| - 1 ==> r[MilestoneIndex(ms, id) + 1].status == Pending
    ensures forall k :: 0 <= k < |ms| && k != MilestoneIndex(ms, id) && k != MilestoneIndex(ms, id) + 1 ==> r[k] == ms[k]
  {
    var i := MilestoneIndex(ms, id);
    if i == -1 then ms
    else
      var done := ms[i := ms[i].(status := Completed)];
      if i + 1 < |done| then done[i + 1 := done[i + 1].(status := Pending)] else done
  }

  /** Confirming the pending milestone of a plan that advances in order moves
      the plan one step on. */
  lemma {:induction false} ConfirmAdvancesSequentialPlan(ms: seq<Milestone>, k: nat)
    requires SequentialAt(ms, k) && k < |ms|
    requires AscendingIds(ms)
    ensures SequentialAt(ConfirmMilestones(ms, ms[k].id), k + 1)
  {
    assert MilestoneIndex(ms, ms[k].id) == k;
  }

  /** The successor becomes pending even when it was already completed: confirming
      an earlier milestone again re-opens the next one. */
  lemma ConfirmReopensCompletedSuccessor(ms: seq<Milestone>, id: int)
    requires 0 <= MilestoneIndex(ms, id) < |ms| - 1
    requires ms[MilestoneIndex(ms, id) + 1].status == Completed
    ensures var i := MilestoneIndex(ms, id);
            ConfirmMilestones(ms, id)[i + 1] == ms[i + 1].(status := Pending)
  {
  }

  /** Confirming the fixture's milestones 1, 2 and 3 in turn completes the plan. */
  lemma ConfirmFixtureInOrder()
    ensures var ms := MockPaymentPlan().milestones;
            SequentialAt(ConfirmMilestones(ConfirmMilestones(ConfirmMilestones(ms, 1), 2), 3), 3)
  {
    var ms := MockPaymentPlan().milestones;
    MockPlanWellFormed();
    assert |ms| == 3 && ms[0].id == 1 && ms[1].id == 2 && ms[2].id == 3;
    ConfirmAdvancesSequentialPlan(ms, 0);
    var ms1 := ConfirmMilestones(ms, 1);
    assert ms1[1].id == ms[1].id;
    ConfirmAdvancesSequentialPlan(ms1, 1);
    var ms2 := ConfirmMilestones(ms1, 2);
    assert ms2[2].id == ms1[2].id;
    ConfirmAdvancesSequentialPlan(ms2, 2);
  }

  /** How many entries of the list are Alipay entries. */
  function AlipayCount(methods: seq<PaymentMethod>): nat
  {
    if methods == [] then 0 else (if methods[0].Alipay? then 1 else 0) + AlipayCount(methods[1..])
  }

  lemma {:induction false} AlipayCountZero(methods: seq<PaymentMethod>)
    ensures AlipayCount(methods) == 0 <==> forall i :: 0 <= i < |methods| ==> !methods[i].Alipay?
  {
    if methods != [] {
      AlipayCountZero(methods[1..]);
      assert forall i :: 1 <= i < |methods| ==> methods[i] == methods[1..][i - 1];
    }
  }

  lemma {:induction false} AlipayCountAppend(methods: seq<PaymentMethod>, p: PaymentMethod)
    ensures AlipayCount(methods + [p]) == AlipayCount(methods) + (if p.Alipay? then 1 else 0)
  {
    if methods != [] {
      assert (methods + [p])[1..] == methods[1..] + [p];
      AlipayCountAppend(methods[1..], p);
    }
  }

  /** The payment-method list after a successful Alipay binding: a bound Alipay
      entry is added only when the list holds no Alipay entry at all. */
  function BindAlipay(methods: seq<PaymentMethod>): (r: seq<PaymentMethod>)
    ensures AlipayCount(r) == if AlipayCount(methods) == 0 then 1 else AlipayCount(methods)
    ensures methods <= r && |r| <= |methods| + 1
    ensures |r| == |methods| + 1 ==> r[|methods|] == Alipay(true)
  {
    AlipayCountZero(methods);
    AlipayCountAppend(methods, Alipay(true));
    if exists i :: 0 <= i < |methods| && methods[i].Alipay? then methods else methods + [Alipay(true)]
  }

  /** Binding twice is binding once, so a list never gains a second Alipay entry. */
  lemma BindAlipayIdempotent(methods: seq<PaymentMethod>)
    ensures BindAlipay(BindAlipay(methods)) == BindAlipay(methods)
  {
    AlipayCountZero(methods);
    AlipayCountZero(BindAlipay(methods));
  }

  /** `hasAlipay`: the list holds a bound Alipay entry, so it holds at least
      one Alipay entry. */
  predicate HasAlipay(methods: seq<PaymentMethod>)
    ensures HasAlipay(methods) ==> AlipayCount(methods) > 0
  {
    AlipayCountZero(methods);
    exists i :: 0 <= i < |methods| && methods[i].Alipay? && methods[i].bound
  }

  /** Binding makes `hasAlipay` true, except when the list already held an
      unbound Alipay entry: that entry blocks the new one and stays unbound. */
  lemma BindAlipayResult(methods: seq<PaymentMethod>)
    ensures HasAlipay(BindAlipay(methods)) <==> AlipayCount(methods) == 0 || HasAlipay(methods)
  {
    AlipayCountZero(methods);
    if AlipayCount(methods) == 0 {
      var r := BindAlipay(methods);
      assert r[|methods|] == Alipay(true);
    }
  }

  /** The card the add-card form hands over, as a bound credit-card entry. */
  function CardMethod(card: CardDetails): (p: PaymentMethod)
    ensures p.CreditCard? && p.IsBound()
    ensures p.last4 == card.last4 && p.brand == card.brand
  {
    CreditCard(card.last4, card.brand)
  }

  /** Adding a card never changes the number of Alipay entries. */
  lemma AddCardKeepsAlipayCount(methods: seq<PaymentMethod>, card: CardDetails)
    ensures AlipayCount(methods + [CardMethod(card)]) == AlipayCount(methods)
  {
    AlipayCountAppend(methods, CardMethod(card));
  }

  /** The page's state: the `useState` slots of the profile page. */
  class ProfilePageState {
    const currentUser: User
    var paymentPlan: PaymentPlan
    var isPaymentModalOpen: bool
    var isBindAlipayModalOpen: bool
    var isAddCardModalOpen: bool
    var selectedMilestone: Option<Milestone>
    var paymentMethods: seq<PaymentMethod>

    /** The page as first rendered for `user`, starting from the fixture plan. */
    constructor (user: User)
      ensures currentUser == user && paymentPlan == MockPaymentPlan()
      ensures !isPaymentModalOpen && !isBindAlipayModalOpen && !isAddCardModalOpen
      ensures selectedMilestone == None
      ensures paymentMethods == if user.StudentUser? then user.paymentMethods else []
    {
      currentUser := user;
      paymentPlan := MockPaymentPlan();
      isPaymentModalOpen, isBindAlipayModalOpen, isAddCardModalOpen := false, false, false;
      selectedMilestone := None;
      paymentMethods := if user.StudentUser? then user.paymentMethods else [];
    }

    /** The release button of a milestone: a student with at least one payment
        method selects it and opens the payment modal; otherwise nothing changes
        (a mentor gets nothing, a student without a method gets an alert). */
    method HandleReleasePaymentClick(milestone: Milestone)
      modifies this
      ensures paymentPlan == old(paymentPlan) && paymentMethods == old(paymentMethods)
      ensures isBindAlipayModalOpen == old(isBindAlipayModalOpen) && isAddCardModalOpen == old(isAddCardModalOpen)
      ensures currentUser.StudentUser? && |paymentMethods| > 0 ==>
                selectedMilestone == Some(milestone) && isPaymentModalOpen
      ensures !(currentUser.StudentUser? && |paymentMethods| > 0) ==>
                selectedMilestone == old(selectedMilestone) && isPaymentModalOpen == old(isPaymentModalOpen)
    {
      if currentUser.StudentUser? {
        if |paymentMethods| > 0 {
          selectedMilestone := Some(milestone);
          isPaymentModalOpen := true;
        }
      }
    }

    /** `handlePaymentConfirm`: with no selected milestone nothing happens;
        otherwise the plan's milestones are confirmed on a copy, the modal closes
        and the selection is cleared. */
    method HandlePaymentConfirm()
      modifies this
      ensures paymentMethods == old(paymentMethods)
      ensures isBindAlipayModalOpen == old(isBindAlipayModalOpen) && isAddCardModalOpen == old(isAddCardModalOpen)
      ensures old(selectedMilestone) == None ==>
                paymentPlan == old(paymentPlan) && isPaymentModalOpen == old(isPaymentModalOpen) && selectedMilestone == None
      ensures old(selectedMilestone).Some? ==>
                && paymentPlan == old(paymentPlan).(milestones := ConfirmMilestones(old(paymentPlan.milestones), old(selectedMilestone).value.id))
                && !isPaymentModalOpen && selectedMilestone == None
    {
      if selectedMilestone == None {
        return;
      }
      var ms := paymentPlan.milestones;
      var id := selectedMilestone.value.id;
      var updated := new Milestone[|ms|](k requires 0 <= k < |ms| => ms[k]);
      assert updated[..] == ms;
      var i := MilestoneIndex(ms, id);
      if i != -1 {
        var done := ms[i := ms[i].(status := Completed)];
        updated[i] := updated[i].(status := Completed);
        assert updated[..] == done;
        if i + 1 < updated.Length {
          updated[i + 1] := updated[i + 1].(status := Pending);
          assert updated[..] == done[i + 1 := done[i + 1].(status := Pending)];
        }
      }
      paymentPlan := paymentPlan.(milestones := updated[..]);
      isPaymentModalOpen := false;
      selectedMilestone := None;
    }

    /** `handleBindAlipaySuccess` */
    method HandleBindAlipaySuccess()
      modifies this
      ensures paymentMethods == BindAlipay(old(paymentMethods))
      ensures !isBindAlipayModalOpen
      ensures paymentPlan == old(paymentPlan) && selectedMilestone == old(selectedMilestone)
      ensures isPaymentModalOpen == old(isPaymentModalOpen) && isAddCardModalOpen == old(isAddCardModalOpen)
    {
      if !exists i :: 0 <= i < |paymentMethods| && paymentMethods[i].Alipay? {
        paymentMethods := paymentMethods + [Alipay(true)];
      }
      isBindAlipayModalOpen := false;
    }

    /** `handleAddCardSuccess`: the card is appended as a bound credit card. */
    method HandleAddCardSuccess(card: CardDetails)
      modifies this
      ensures paymentMethods == old(paymentMethods) + [CardMethod(card)]
      ensures !isAddCardModalOpen
      ensures paymentPlan == old(paymentPlan) && selectedMilestone == old(selectedMilestone)
      ensures isPaymentModalOpen == old(isPaymentModalOpen) && isBindAlipayModalOpen == old(isBindAlipayModalOpen)
    {
      var newCard := CreditCard(card.last4, card.brand);
      paymentMethods := paymentMethods + [newCard];
      isAddCardModalOpen := false;
    }
  }
}
