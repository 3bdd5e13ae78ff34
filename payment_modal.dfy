/** The payment modal (src/components/payment/PaymentModal.tsx): a small view
    machine over `select`, `qr` and `form`, with the chosen method, and the
    callbacks it fires towards the page. */
module PaymentModal {
  import opened Types

  datatype View = Select | Form | Qr

  /** The `selectedMethod` values: 'alipay', 'wechat' or 'credit_card'. */
  datatype Choice = AlipayChoice | WechatChoice | CardChoice

  /** A call of one of the modal's callback props. */
  datatype Callback = OnConfirm | OnClose

  /** What `renderContent` shows inside the open modal, or that nothing is rendered. */
  datatype Content =
    | Nothing
    | BoundMethodList(methods: seq<PaymentMethod>)
    | GenericMethodList
    | QrView(choice: Option<Choice>)
    | CardFormView

  class PaymentModalState {
    /** The props given by the page. */
    const isOpen: bool
    const milestone: Option<Milestone>
    const boundMethods: seq<PaymentMethod>
    /** The component's own state. */
    var selectedMethod: Option<Choice>
    var view: View
    /** The callbacks fired so far, in order. */
    var calls: seq<Callback>

    constructor (isOpen: bool, milestone: Option<Milestone>, boundMethods: seq<PaymentMethod>)
      ensures this.isOpen == isOpen && this.milestone == milestone && this.boundMethods == boundMethods
      ensures selectedMethod == None && view == Select && calls == []
    {
      this.isOpen, this.milestone, this.boundMethods := isOpen, milestone, boundMethods;
      selectedMethod, view, calls := None, Select, [];
    }

    /** The rendered content: nothing unless open with a milestone; the saved
        methods whenever there are any, whatever the view; otherwise by view. */
    function Content(): (c: Content)
      reads this
      ensures c == Nothing <==> !isOpen || milestone == None
      ensures c.BoundMethodList? <==> isOpen && milestone.Some? && |boundMethods| > 0
      ensures c.BoundMethodList? ==> c.methods == boundMethods
      ensures c == GenericMethodList <==> isOpen && milestone.Some? && |boundMethods| == 0 && view == Select
      ensures c.QrView? <==> isOpen && milestone.Some? && |boundMethods| == 0 && view == Qr
      ensures c.QrView? ==> c.choice == selectedMethod
      ensures c == CardFormView <==> isOpen && milestone.Some? && |boundMethods| == 0 && view == Form
    {
      if !isOpen || milestone == None then Nothing
      else if |boundMethods| > 0 then BoundMethodList(boundMethods)
      else match view
        case Select => GenericMethodList
        case Qr => QrView(selectedMethod)
        case Form => CardFormView
    }

    /** `handleConfirm`: `onConfirm` once, then `resetState`. */
    method HandleConfirm()
      modifies this
      ensures calls == old(calls) + [OnConfirm, OnClose]
      ensures selectedMethod == None && view == Select
    {
      calls := calls + [OnConfirm];
      ResetState();
    }

    /** `resetState` (also the close button): `onClose`, then back to the
        method list with nothing selected. */
    method ResetState()
      modifies this
      ensures calls == old(calls) + [OnClose]
      ensures selectedMethod == None && view == Select
    {
      calls := calls + [OnClose];
      selectedMethod := None;
      view := Select;
    }

    /** Any button of the saved-method list confirms. */
    method ChooseBoundMethod(index: nat)
      requires Content().BoundMethodList? && index < |boundMethods|
      modifies this
      ensures calls == old(calls) + [OnConfirm, OnClose]
      ensures selectedMethod == None && view == Select
    {
      HandleConfirm();
    }

    /** The Alipay and WeChat Pay buttons of the generic list: that method, QR view. */
    method ChooseQrMethod(choice: Choice)
      requires Content() == GenericMethodList && choice != CardChoice
      modifies this
      ensures selectedMethod == Some(choice) && view == Qr && calls == old(calls)
      ensures Content() == QrView(Some(choice))
    {
      selectedMethod := Some(choice);
      view := Qr;
    }

    /** The card button of the generic list: card chosen, form view. */
    method ChooseCard()
      requires Content() == GenericMethodList
      modifies this
      ensures selectedMethod == Some(CardChoice) && view == Form && calls == old(calls)
      ensures Content() == CardFormView
    {
      selectedMethod := Some(CardChoice);
      view := Form;
    }

    /** "Choose another method" in the QR view and "Back to payment options" in
        the card form: back to the generic list, the choice kept. */
    method BackToSelect()
      requires Content().QrView? || Content() == CardFormView
      modifies this
      ensures view == Select && selectedMethod == old(selectedMethod) && calls == old(calls)
      ensures Content() == GenericMethodList
    {
      view := Select;
    }

    /** "I have completed the payment" in the QR view and the card form's submit. */
    method CompletePayment()
      requires Content().QrView? || Content() == CardFormView
      modifies this
      ensures calls == old(calls) + [OnConfirm, OnClose]
      ensures view == Select && selectedMethod == None
    {
      HandleConfirm();
    }
  }
}
