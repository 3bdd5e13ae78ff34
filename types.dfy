/** The domain values shared by the pages: milestones and payment plans, payment
    methods, users and mentors, AI chat messages, direct-chat messages and posts. */
module Types {

  datatype Option<+T> = None | Some(value: T)

  /** `Milestone.status` */
  datatype Status = Pending | Completed | Locked

  datatype Milestone = Milestone(id: int, name: string, amount: int, dueDate: string, status: Status)

  /** The plan as the fixture gives it: a total, a currency and the ordered milestones. */
  datatype PaymentPlan = PaymentPlan(total: int, currency: string, milestones: seq<Milestone>)

  datatype Brand = Visa | Mastercard | Amex

  /** The tagged union `AlipayPaymentMethod | CreditCardPaymentMethod`; a credit card is always bound. */
  datatype PaymentMethod =
    | Alipay(bound: bool)
    | CreditCard(last4: string, brand: Brand)
  {
    predicate IsBound() { Alipay? ==> bound }
  }

  /** What the add-card form hands to its caller: the card without `type` and `bound`. */
  datatype CardDetails = CardDetails(last4: string, brand: Brand)

  datatype Verification = Verification(name: bool, school: bool)

  /** A mentor record of the catalog. */
  datatype Mentor = Mentor(
    id: int, name: string, avatar: string, verified: Verification,
    university: string, major: string, region: string, price: int, degree: string)

  datatype StudentProfile = StudentProfile(university: string, major: string, degree: string, background: string, needs: string)
  datatype MentorProfile = MentorProfile(university: string, major: string, degree: string, background: string, services: string)

  /** The signed-in user: `Student | Mentor`, tagged by role. */
  datatype User =
    | StudentUser(id: int, name: string, avatar: string, verified: Verification,
                  studentProfile: StudentProfile, paymentMethods: seq<PaymentMethod>)
    | MentorUser(id: int, name: string, avatar: string, verified: Verification,
                 mentorProfile: MentorProfile)

  datatype Role = User | Model

  datatype AnalysisKind = Grammar | Originality

  datatype Analysis = Analysis(kind: AnalysisKind, result: string)

  /** `MessageData`; an absent optional field and `null` are both `None`, an absent
      `isAnalyzing` is `false`. */
  datatype MessageData = MessageData(
    role: Role, text: string, isAnalyzing: bool,
    analysisResult: Option<Analysis>, mentorRecommendation: Option<Mentor>)

  /** A message with only a role and a text. */
  function Plain(role: Role, text: string): (m: MessageData)
    ensures m.role == role && m.text == text
    ensures !m.isAnalyzing && m.analysisResult == None && m.mentorRecommendation == None
  {
    MessageData(role, text, false, None, None)
  }

  /** The outcome of a one-shot call to the text-generation service. */
  datatype AIResult = AIText(text: string) | AIError

  datatype Conversation = Conversation(id: string, title: string, messages: seq<MessageData>)

  /** A direct-chat message. */
  datatype ChatMessage = ChatMessage(senderId: int, text: string, timestamp: string)

  /** A community post; the role-dependent fields are optional. */
  datatype Post = Post(
    id: int, userId: int, name: string, avatar: string, verified: Verification,
    university: Option<string>, major: Option<string>, background: string,
    services: Option<string>, target: Option<string>, needs: Option<string>)
}
