# Mentorship platform state model

A model of the client-side state logic of a study-abroad mentorship demo. In
this web app, students find mentors, pay for mentoring in milestone
instalments, chat with mentors and with an AI helper, and post on a community
board. The model covers, one Dafny module per page or component:

- **Profile page** (`ProfilePage`, `OldProfilePage`, `AddCardModal`): the milestone
  payment plan. The current page completes the confirmed milestone and opens
  the next one. The earlier page completes by id and opens nothing. Also the
  student's payment-method registry (Alipay binding, added cards), and the
  card brand and last four digits read off an entered number.
- **Payment modal** (`PaymentModal`): the `select`/`qr`/`form` view machine,
  the chosen method, what is rendered, and the confirm/close callbacks.
- **Mentor directory** (`FindMentorPage`, `OldFindMentorPage`): the filters
  over the mentor catalog, and the de-duplicated region/major/degree option
  lists.
- **AI helper** (`AIHelperPage`, `OldAIHelperPage`, `WritingAssistant`,
  `AIChatView`): conversations with the active one, the send flow with a
  structured reply and a mentor recommendation, streamed replies that build
  up a message chunk by chunk, per-message grammar/originality analysis, the
  writing assistant, and the chat view's send guard and last-user-message
  marker.
- **Direct chat** (`ChatPage`): the history key built from two user ids, and
  message sending.
- **Community board** (`CommunityPage`): the role-dependent post and the two
  post lists.
- **Fixtures** (`MockData`): the mentor catalog and the initial payment plan.

Shared modules: `Types` holds the records, `Text` holds lower-casing,
substring search, trimming and numerals, and `Seqs` holds first-index,
filter, map and de-duplication.

How the modules model the app:

- Each React component's `useState` slots are the fields of a class. Each
  event handler is a method that says the whole new state.
- Callback props and requests to the text-generation service are recorded
  in a log field (`calls`, `requests`, `sent`).
- The service's answer is a parameter of the handler that awaits it. That
  answer is a reply or a failure, or, for streaming, the chunks and whether
  the stream ends normally.
- Clock-derived ids and timestamps are parameters too.

## Model

| member | source | states |
|---|---|---|
| Seqs.FirstIndex | src/pages/ProfilePage/index.tsx:43 | `findIndex`: -1 exactly when no element satisfies the predicate; otherwise an element that does, with none before it |
| Seqs.Filter | src/pages/FindMentorPage/index.tsx:21-31 | `filter`: every value satisfying the predicate occurs as often as in the input and no other value occurs; the result is a subsequence of the input |
| Seqs.Map | pages/FindMentorPage.tsx:24-26 | `map`: same length, element-wise image |
| Seqs.Distinct | src/pages/FindMentorPage/index.tsx:35-36 | `[...new Set(xs)]`: no duplicates, holds exactly the input's values, in first-occurrence order (subsequence) |
| Text.ToLower | pages/FindMentorPage.tsx:17 | `toLowerCase`: same length, each character lower-cased |
| Text.TrimEmptyIffBlank | src/pages/AIHelperPage/components/AIChatView.tsx:25 | `s.trim() === ''` holds exactly when every character of `s` is whitespace |
| Text.NatToString | src/pages/ChatPage.tsx:18 | the numeral of n is canonical (digits only, no leading zero unless it is "0"), its decimal value is n, and it starts with '0' iff n is 0 |
| Text.NatToStringOfDigitsValue | src/pages/ChatPage.tsx:18 | every canonical digit string is the numeral of its own value, the inverse direction of `NatToString` |
| Text.IntToString | src/pages/ChatPage.tsx:18 | `String(n)` for an integer: a canonical numeral, starting with '-' iff n is negative, whose signed value is n |
| Text.IntToStringOfNumeralValue | src/pages/ChatPage.tsx:18 | every canonical signed numeral is `String` of its own value |
| Text.Trim | src/pages/ChatPage.tsx:36 | `trim()`: a slice of the input with only white space before and after it, starting and ending with a non-white-space character when non-empty |
| Text.IncludesIgnoringCase | src/pages/FindMentorPage/index.tsx:28-29 | case-insensitive `includes`: the empty search always matches, an exact occurrence matches, and a search longer than the text never matches |
| Text.IncludesIgnoringCaseOfLowered | src/pages/FindMentorPage/index.tsx:28-29 | lower-casing either side first does not change the outcome |
| MockData.MockMentors | lib/mockData.ts:2-8 | the catalog holds five mentors |
| MockData.MockPaymentPlan | lib/mockData.ts:24-32 | the plan holds three milestones |
| MockData.MockPlanWellFormed | lib/mockData.ts:24-32 | the three amounts add up to the total; the first milestone is pending and the rest locked; ids ascend |
| MockData.MockMentorIdsDistinct | lib/mockData.ts:2-8 | no two catalog mentors share an id |
| OldProfilePage.ReleasePayment | pages/ProfilePage.tsx:8-15 | total and currency kept; same count and order; exactly the milestones with that id become completed, all others unchanged |
| OldProfilePage.ReleasableIds | pages/ProfilePage.tsx:65 | an id shows the release button iff some milestone with that id is pending |
| OldProfilePage.ReleaseIdempotent | pages/ProfilePage.tsx:12 | releasing the same id twice equals releasing it once |
| OldProfilePage.ReleaseNeverUnlocks | pages/ProfilePage.tsx:8-15 | a locked milestone with another id stays locked, and nothing becomes pending |
| OldProfilePage.ReleaseRemovesOnlyItsButton | pages/ProfilePage.tsx:65-66 | the ids showing a release button afterwards are those before minus the released id |
| OldProfilePage.ReleaseStallsSequentialPlan | pages/ProfilePage.tsx:8-15 | on a plan advancing in order, releasing the pending milestone leaves no release button at all |
| OldProfilePage.ReleaseFirstFixtureMilestone | pages/ProfilePage.tsx:8-15 | from the fixture, release of id 1 completes it and leaves 2 and 3 locked |
| ProfilePage.MilestoneIndex | src/pages/ProfilePage/index.tsx:43 | index of the first milestone with the id, or -1 exactly when none has it |
| ProfilePage.ConfirmMilestones | src/pages/ProfilePage/index.tsx:42-51 | same count and only statuses change; an unknown id changes nothing; milestone i becomes completed, i+1 (if any) pending, all others unchanged |
| ProfilePage.ConfirmAdvancesSequentialPlan | src/pages/ProfilePage/index.tsx:44-49 | confirming the pending milestone of a plan advancing in order moves it one step on (stage k to k+1) |
| ProfilePage.ConfirmReopensCompletedSuccessor | src/pages/ProfilePage/index.tsx:47-49 | for any plan and id: when the confirmed milestone's successor was already completed, it comes back pending with nothing else about it changed |
| ProfilePage.ConfirmFixtureInOrder | src/pages/ProfilePage/index.tsx:38-57 | confirming fixture milestones 1, 2, 3 in turn leaves all three completed |
| ProfilePage.BindAlipay | src/pages/ProfilePage/index.tsx:59-64 | the Alipay count becomes 1 when it was 0 and is otherwise unchanged; earlier entries kept in order; at most one entry added, and it is a bound Alipay |
| ProfilePage.BindAlipayIdempotent | src/pages/ProfilePage/index.tsx:60-62 | binding twice equals binding once, so no second Alipay entry appears |
| ProfilePage.HasAlipay | src/pages/ProfilePage/index.tsx:84 | `hasAlipay`: some entry is a bound Alipay; when it holds the list has at least one Alipay entry |
| ProfilePage.BindAlipayResult | src/pages/ProfilePage/index.tsx:84 | after binding, `hasAlipay` holds iff there was no Alipay entry or a bound one already existed |
| ProfilePage.CardMethod | src/pages/ProfilePage/index.tsx:66-70 | the stored card is a bound credit card with the form's last4 and brand |
| ProfilePage.AddCardKeepsAlipayCount | src/pages/ProfilePage/index.tsx:66-70 | adding a card leaves the number of Alipay entries unchanged |
| ProfilePage.ProfilePageState.constructor | src/pages/ProfilePage/index.tsx:17-25 | fixture plan, all modals closed, no selection, the student's methods (none for a mentor) |
| ProfilePage.ProfilePageState.HandleReleasePaymentClick | src/pages/ProfilePage/index.tsx:27-36 | a student with a payment method selects the milestone and opens the modal; otherwise nothing changes |
| ProfilePage.ProfilePageState.HandlePaymentConfirm | src/pages/ProfilePage/index.tsx:38-57 | no selection: nothing changes; otherwise the plan's milestones become `ConfirmMilestones`, the modal closes and the selection clears |
| ProfilePage.ProfilePageState.HandleBindAlipaySuccess | src/pages/ProfilePage/index.tsx:59-64 | methods become `BindAlipay` of the old ones; the bind modal closes; nothing else changes |
| ProfilePage.ProfilePageState.HandleAddCardSuccess | src/pages/ProfilePage/index.tsx:66-70 | exactly the card's method is appended and the card modal closes |
| AddCardModal.CardBrand | src/pages/ProfilePage/components/AddCardModal.tsx:16-21 | Mastercard iff the number starts with '5', Amex iff with '3', Visa otherwise (including the empty string) |
| AddCardModal.Last4 | src/pages/ProfilePage/components/AddCardModal.tsx:25 | the suffix of length min(4, length) of the number |
| AddCardModal.SubmitCard | src/pages/ProfilePage/components/AddCardModal.tsx:23-68 | a card is handed over iff the modal is open and none of the four required inputs (name, number, expiry, CVC) is empty; its brand and last4 both come from the entered number |
| AddCardModal.SubmittedCardMatchesNumber | src/pages/ProfilePage/components/AddCardModal.tsx:25-27 | a number of four or more characters ends in the card's four-character last4, stored as a credit card of the number's brand |
| PaymentModal.PaymentModalState.constructor | src/components/payment/PaymentModal.tsx:14-15 | nothing selected, view `select`, no callbacks fired |
| PaymentModal.PaymentModalState.Content | src/components/payment/PaymentModal.tsx:128-137 | nothing unless open with a milestone; the saved-method list iff there are saved methods, whatever the view; otherwise exactly the view's screen |
| PaymentModal.PaymentModalState.HandleConfirm | src/components/payment/PaymentModal.tsx:19-22 | fires `onConfirm` once then `onClose`, and resets to `select` with nothing selected |
| PaymentModal.PaymentModalState.ResetState | src/components/payment/PaymentModal.tsx:24-28 | fires `onClose`, view `select`, nothing selected |
| PaymentModal.PaymentModalState.ChooseBoundMethod | src/components/payment/PaymentModal.tsx:44 | every saved-method button confirms |
| PaymentModal.PaymentModalState.ChooseQrMethod | src/components/payment/PaymentModal.tsx:63-67 | Alipay or WeChat Pay becomes the selected method and the QR view shows it |
| PaymentModal.PaymentModalState.ChooseCard | src/components/payment/PaymentModal.tsx:71 | card selected, card form shown |
| PaymentModal.PaymentModalState.BackToSelect | src/components/payment/PaymentModal.tsx:91 | back to the generic method list from the QR view or the card form, the selection kept |
| PaymentModal.PaymentModalState.CompletePayment | src/components/payment/PaymentModal.tsx:88 | the QR view's button and the card form's submit both confirm |
| FindMentorPage.MatchesSearch | src/pages/FindMentorPage/index.tsx:27-29 | the empty search passes everyone; a search found exactly in the name or the university passes |
| FindMentorPage.Matches | src/pages/FindMentorPage/index.tsx:24-30 | empty filters pass everyone; a passing mentor has exactly the set region and the set major |
| FindMentorPage.Listed | src/pages/FindMentorPage/index.tsx:21 | `mentorsToList`: each catalog mentor not the signed-in user, as often as in the catalog, in catalog order; membership iff in the catalog and not the user |
| FindMentorPage.FilteredMentors | src/pages/FindMentorPage/index.tsx:21-31 | exactly the catalog mentors other than the signed-in user that pass all three filters, each as often as in the catalog, in catalog order |
| FindMentorPage.Options | src/pages/FindMentorPage/index.tsx:35-36 | `[...new Set(list.map(field))]`: no duplicates, exactly the field's values over the list, in order of first occurrence |
| FindMentorPage.RegionOptions | src/pages/FindMentorPage/index.tsx:35 | no duplicates; exactly the regions of the catalog mentors other than the signed-in user, in order of first occurrence, which is the order shown |
| FindMentorPage.MajorOptions | src/pages/FindMentorPage/index.tsx:36 | no duplicates; exactly the majors of the catalog mentors other than the signed-in user |
| FindMentorPage.NoFiltersListsEveryoneElse | src/pages/FindMentorPage/index.tsx:23-31 | with every filter empty the result is the catalog minus the signed-in user |
| FindMentorPage.SelfNeverListed | src/pages/FindMentorPage/index.tsx:21 | the signed-in user's id never appears in the result |
| FindMentorPage.RegionFilterIsExact | src/pages/FindMentorPage/index.tsx:25 | with only a region filter, a mentor is listed iff it is in the catalog, is not the user, and has exactly that region |
| FindMentorPage.FixtureIdsAndRegions | lib/mockData.ts:2-8 | the fixture ids are 1 to 5 and the regions are USA, UK, Canada, Europe, Asia |
| FindMentorPage.SoleRegionListedAlone | src/pages/FindMentorPage/index.tsx:21-31 | when the catalog's only mentor in a region is at k and the user is not in the catalog, that filter lists exactly that mentor |
| FindMentorPage.UkFilterOnFixture | src/pages/FindMentorPage/index.tsx:21-31 | on the fixture, the UK filter lists only the second mentor |
| OldFindMentorPage.Matches | pages/FindMentorPage.tsx:14-21 | empty filters pass everyone; a major search longer than the major never passes |
| OldFindMentorPage.FilteredMentors | pages/FindMentorPage.tsx:13-22 | exactly the catalog mentors passing the region, degree, major-substring and search filters, each as often as in the catalog, in catalog order, with no self-exclusion |
| OldFindMentorPage.RegionOptions | pages/FindMentorPage.tsx:24 | no duplicates; exactly the regions of the whole catalog, in order of first occurrence, which is the order shown |
| OldFindMentorPage.MajorOptions | pages/FindMentorPage.tsx:25 | no duplicates; exactly the majors of the whole catalog, in order of first occurrence, which is the order shown |
| OldFindMentorPage.DegreeOptions | pages/FindMentorPage.tsx:26 | no duplicates; exactly the degrees of the whole catalog, in order of first occurrence, which is the order shown |
| OldFindMentorPage.NoFiltersListsWholeCatalog | pages/FindMentorPage.tsx:13-22 | with every filter empty the whole catalog is listed |
| OldFindMentorPage.MajorFilterMatchesSubstring | pages/FindMentorPage.tsx:17 | any search equal, up to case, to a slice of a mentor's major passes the major filter |
| OldFindMentorPage.NewerResultsListedHere | pages/FindMentorPage.tsx:13-22 | every mentor the newer page lists under some filters is listed here under the same filters with no degree |
| AIHelperPage.NewConversation | src/pages/AIHelperPage/index.tsx:43-49 | the given id, title "New Chat", exactly one model message and so no user message |
| AIHelperPage.HasUserMessage | src/pages/AIHelperPage/index.tsx:111 | whether some message of the conversation is the user's |
| AIHelperPage.Recommendation | src/pages/AIHelperPage/index.tsx:98-101 | a mentor is attached iff the id is non-zero and some catalog mentor has it; the attached mentor is the first catalog mentor with that id |
| AIHelperPage.ChatTitle | src/pages/AIHelperPage/index.tsx:114-118 | a message of at most 40 characters is the title; a longer one gives its first 40 characters plus "..." |
| AIHelperPage.AppendToConversation | src/pages/AIHelperPage/index.tsx:60-64 | the conversations with the id gain the message at the end; all others are unchanged |
| AIHelperPage.WithExchange | src/pages/AIHelperPage/index.tsx:110-120 | earlier messages are kept iff the conversation has a user message, then [user, model]; a "New Chat" title becomes the message title |
| AIHelperPage.FinalConversations | src/pages/AIHelperPage/index.tsx:109-122 | the active conversation gets `WithExchange`; every other conversation is unchanged |
| AIHelperPage.FinalConversationsOfHead | src/pages/AIHelperPage/index.tsx:109-122 | when the active conversation heads the list and no other shares its id, the result is that conversation after the exchange followed by the others unchanged |
| AIHelperPage.NewChatFirstExchange | src/pages/AIHelperPage/index.tsx:109-122 | a new chat answered once holds exactly [user, model] with the message's title; the other conversations are untouched |
| AIHelperPage.FailedSendAppendsErrorReply | src/pages/AIHelperPage/index.tsx:125-135 | on failure the active conversation holds its messages, the user message and the fixed error reply, title kept |
| AIHelperPage.AIHelperState.constructor | src/pages/AIHelperPage/index.tsx:36-38 | the initial conversations, active id "1", not loading |
| AIHelperPage.AIHelperState.HandleNewChat | src/pages/AIHelperPage/index.tsx:42-52 | the new conversation goes first and becomes active |
| AIHelperPage.AIHelperState.HandleSendMessage | src/pages/AIHelperPage/index.tsx:54-139 | no active id: nothing; otherwise one request, loading ends false, and the list is `FinalConversations` of the pre-send list on success or gets the user message and the error reply on failure |
| OldAIHelperPage.MessageIndex | pages/AIHelperPage.tsx:152 | the first message with exactly that text, or -1 exactly when there is none |
| OldAIHelperPage.AnalysisText | pages/AIHelperPage.tsx:167-177 | the service's text on success, "Error performing analysis." on failure |
| OldAIHelperPage.ConcatStep | pages/AIHelperPage.tsx:132-133 | the text after k+1 chunks is the text after k chunks plus chunk k |
| OldAIHelperPage.ChatState.constructor | pages/AIHelperPage.tsx:78-83 | one model greeting, empty input, not loading, no error |
| OldAIHelperPage.ChatState.HandleNewChat | pages/AIHelperPage.tsx:97-102 | exactly one model greeting in the page language, error cleared |
| OldAIHelperPage.ChatState.HandleSend | pages/AIHelperPage.tsx:104-147 | blank input or loading: nothing; no client: only the configuration error; otherwise one request with the earlier history, input cleared, the user message, the model message holding all streamed chunks, and on failure the banner and one error reply; loading ends false |
| OldAIHelperPage.ChatState.SendTurn | pages/AIHelperPage.tsx:111-146 | past the guards: the user message, one request with the earlier history, input cleared, the streamed reply if streaming started, then the banner and one error reply unless the stream completed; loading ends false |
| OldAIHelperPage.ChatState.StreamReply | pages/AIHelperPage.tsx:129-139 | one model message is appended and ends holding all chunks joined in order; nothing else changes |
| OldAIHelperPage.ChatState.HandleAnalyzeRequest | pages/AIHelperPage.tsx:149-183 | no client, loading or no exact match: nothing; otherwise only the first matching message changes, ending with the requested kind's result and not analysing |
| WritingAssistant.PromptFor | src/pages/AIHelperPage/components/WritingAssistant.tsx:21-23 | the grammar prompt iff the kind is grammar, embedding the text |
| WritingAssistant.ResultMessage | src/pages/AIHelperPage/components/WritingAssistant.tsx:37-53 | a model message; an analysis of the requested kind with empty text iff the service answered, otherwise the apology with no analysis |
| WritingAssistant.WritingAssistantState.constructor | src/pages/AIHelperPage/components/WritingAssistant.tsx:12-14 | empty text, not loading, no result |
| WritingAssistant.WritingAssistantState.HandleAnalyze | src/pages/AIHelperPage/components/WritingAssistant.tsx:16-57 | blank text: nothing; otherwise one prompt sent, result set from the outcome, loading ends false |
| AIChatView.LastUserMessageIndex | src/pages/AIHelperPage/components/AIChatView.tsx:36 | -1 iff there is no user message; otherwise a user message with no user message after it |
| AIChatView.LastUserFlags | src/pages/AIHelperPage/components/AIChatView.tsx:46 | at most one message is flagged, and a message is flagged iff it is a user message with no later user message |
| AIChatView.RenderedMessages | src/pages/AIHelperPage/components/AIChatView.tsx:50 | the messages, followed by an empty model placeholder exactly while loading |
| AIChatView.ChatViewState.constructor | src/pages/AIHelperPage/components/AIChatView.tsx:14 | empty input, nothing sent |
| AIChatView.ChatViewState.HandleSend | src/pages/AIHelperPage/components/AIChatView.tsx:24-28 | blank input or loading: nothing; otherwise the untrimmed input is sent once and the box cleared |
| AIChatView.ChatViewState.HandleEdit | src/pages/AIHelperPage/components/AIChatView.tsx:30-33 | the box holds the given text; nothing is sent |
| ChatPage.OtherUserId | src/pages/ChatPage.tsx:13 | the route's id, or -1 when it is missing |
| ChatPage.HistoryKey | src/pages/ChatPage.tsx:18 | the key is a canonical numeral of the smaller id, a '-', and a canonical numeral of the larger id |
| ChatPage.ChatHistory | src/pages/ChatPage.tsx:17-20 | the stored history under the pair's key, or empty when there is none |
| ChatPage.HistoryKeyIdentifiesPair | src/pages/ChatPage.tsx:18 | two id pairs share a key iff they are the same two ids in either order |
| ChatPage.JoinedNumeralsSplit | src/pages/ChatPage.tsx:18 | two numerals joined by '-' determine both numbers |
| ChatPage.ChatPageState.constructor | src/pages/ChatPage.tsx:12-23 | the other id from the route, the stored history of the pair, empty input |
| ChatPage.ChatPageState.IsOwnMessage | src/pages/ChatPage.tsx:63 | a message is drawn on the user's side iff its sender is the current user |
| ChatPage.ChatPageState.HandleSend | src/pages/ChatPage.tsx:35-44 | blank input: nothing; otherwise one message from the current user with the input's text is appended, shown as the user's own, and the input is cleared |
| CommunityPage.NewPost | src/pages/CommunityPage.tsx:30-56 | copies id, name, avatar and verified from the user; a student's post has needs = content, the placeholder target and the profile background; a mentor's has services = content and the profile's university, major and background |
| CommunityPage.TabFor | src/pages/CommunityPage.tsx:46-56 | the students tab iff the user is a student |
| CommunityPage.CommunityBoard.constructor | src/pages/CommunityPage.tsx:24-27 | students tab, modal closed, the sample posts |
| CommunityPage.CommunityBoard.HandleNewPostSubmit | src/pages/CommunityPage.tsx:29-58 | exactly one list grows, by the new post at its head with the older posts behind in order; the other list is kept; the tab shows the grown list |

## Left out

- Rendering, styling, routing, scrolling, focus handling, alerts and console logging: none of it changes the modelled state.
- The text-generation service and its prompts are not modelled. What it returns is a parameter. Prompt wording and the JSON parsing of replies are not modelled.
- The mentor-info and system-instruction strings sent with each request are not modelled.
- Clock-derived ids (`Date.now()`) and formatted timestamps are parameters.
- Language selection covers only "zh" against everything else. The greetings and error texts for each are module constants.
- Text.ToLower: `toLowerCase` is modelled on ASCII letters only, so non-ASCII letters keep their case.
- Text.Trim: `trim` uses the ECMAScript white-space and line-terminator set.
- AIHelperPage.ChatTitle: strings are sequences of code points, while `length` and `substring(0, 40)` count UTF-16 code units. A message with a character outside the Basic Multilingual Plane (an emoji, say) before position 40 is cut at a different place by the source, which can split a surrogate pair.
- AddCardModal.Last4: `slice(-4)` counts UTF-16 code units, while the model counts code points, so the two differ on a number holding a character outside the Basic Multilingual Plane.
- Ids, prices and amounts are JavaScript numbers (doubles) and are modelled as unbounded integers. No rounding or overflow is modelled.
- Text.IntToString: it agrees with JavaScript's `String(n)` only for safe integers. Above 2^53 the double is inexact, and from 1e21 on JavaScript writes exponent notation.
- The payment plan leaves out `studentId`, `mentorId`, `studentName` and `mentorName` (src/types/index.ts:87-90). No modelled operation reads or changes them.
- FindMentorPage.MajorOptions: the render sorts the majors list in place (src/pages/FindMentorPage/index.tsx:53). The model gives the first-occurrence order of `[...new Set(...)]`, not the sorted order shown.
- The mentor catalog leaves out the free-text `experience` field.
- src/lib/mockData.ts is not part of this model. The filters and the recommendation take the catalog as a parameter, and lib/mockData.ts provides the fixture values.
- The stored direct-chat histories are a parameter.
- The sample conversations and posts the pages start with are parameters, and so is the earlier AI page's first greeting.
- `parseInt` of the chat route parameter is not modelled: the parameter arrives as an optional number. The "user not found" screen is left out.
- ProfilePage.ProfilePageState.HandlePaymentConfirm: the array copy in the source is shallow, so the status writes also change the shared milestone objects (the fixture included). The model treats milestones as values, and this aliasing is not captured.
- The mentor branch of the community page's post handler checks that a profile exists. Here every mentor carries a profile, so that branch always runs for a mentor.
- OldAIHelperPage.ChatState.HandleSend: a chunk without text would append "undefined" in the source; each chunk here is a string.
- Form field edits, modal open/close buttons and tab clicks are left out. Each just sets one field.
- The new-post modal's own form state is left out for the same reason.
