/** The AI helper page (src/pages/AIHelperPage/index.tsx): a list of
    conversations, one of them active; sending appends to the active one, asks
    the text-generation service for a structured reply and attaches a mentor
    recommendation when the reply names a catalog mentor. */
module AIHelperPage {
  import opened Types
  import opened Text
  import Seqs

  const NewChatTitle := "New Chat"
  const TitleLength := 40
  const GreetingEn := "Hello! I am your AI Helper. How can I assist you with your university applications today?"
  const GreetingZh := "你好！我是您的AI助手。今天我能如何帮助您规划留学申请？"
  const ErrorReply := "Sorry, I encountered an error. Please try again."

  /** The greeting of a new chat, in the page's language. */
  function Greeting(lang: string): string
  {
    if lang == "zh" then GreetingZh else GreetingEn
  }

  /** The structured reply: the `response` text and `recommendedMentorId`
      (0 when the reply has none or null). */
  datatype Reply = Reply(response: string, recommendedMentorId: int)

  datatype ReplyOutcome = Replied(reply: Reply) | ReplyFailed

  /** The conversation `handleNewChat` creates. */
  function NewConversation(id: string, lang: string): (c: Conversation)
    ensures c.id == id && c.title == NewChatTitle
    ensures |c.messages| == 1 && c.messages[0].role == Model
    ensures !HasUserMessage(c)
  {
    Conversation(id, NewChatTitle, [Plain(Model, Greeting(lang))])
  }

  /** The recommendation attached to a reply: the first catalog mentor with the
      recommended id, when that id is non-zero and present; otherwise none. */
  function Recommendation(catalog: seq<Mentor>, recommendedMentorId: int): (r: Option<Mentor>)
    ensures r.Some? <==> recommendedMentorId != 0 && exists i :: 0 <= i < |catalog| && catalog[i].id == recommendedMentorId
    ensures r.Some? ==> r.value in catalog && r.value.id == recommendedMentorId
    ensures r.Some? ==> exists i :: 0 <= i < |catalog| && catalog[i] == r.value
                          && forall j :: 0 <= j < i ==> catalog[j].id != recommendedMentorId
  {
    if recommendedMentorId == 0 then None
    else
      var i := Seqs.FirstIndex(catalog, (m: Mentor) => m.id == recommendedMentorId);
      if i == -1 then None else Some(catalog[i])
  }

  /** The title a new chat gets from its first message: the message cut to 40
      characters, with "..." added exactly when something was cut. */
  function ChatTitle(messageText: string): (t: string)
    ensures |messageText| <= TitleLength ==> t == messageText
    ensures |messageText| > TitleLength ==> |t| == TitleLength + 3 && t[..TitleLength] == messageText[..TitleLength] && t[TitleLength..] == "..."
  {
    messageText[..Min(TitleLength, |messageText|)] + (if |messageText| > TitleLength then "..." else "")
  }

  predicate HasUserMessage(c: Conversation)
  {
    exists i :: 0 <= i < |c.messages| && c.messages[i].role == User
  }

  /** Every conversation with id `id` gets `msg` at the end; all others are unchanged. */
  function AppendToConversation(cs: seq<Conversation>, id: string, msg: MessageData): (r: seq<Conversation>)
    ensures |r| == |cs|
    ensures forall k :: 0 <= k < |cs| && cs[k].id == id ==>
              r[k].id == id && r[k].title == cs[k].title && r[k].messages == cs[k].messages + [msg]
    ensures forall k :: 0 <= k < |cs| && cs[k].id != id ==> r[k] == cs[k]
  {
    seq(|cs|, k requires 0 <= k < |cs| =>
      if cs[k].id == id then cs[k].(messages := cs[k].messages + [msg]) else cs[k])
  }

  /** A conversation after a successful exchange: its earlier messages are kept
      only if it already has a user message, then the user and model messages
      follow; a "New Chat" title is replaced by the message's title. */
  function WithExchange(c: Conversation, userMessage: MessageData, modelMessage: MessageData, messageText: string): (r: Conversation)
    ensures r.id == c.id
    ensures HasUserMessage(c) ==> r.messages == c.messages + [userMessage, modelMessage]
    ensures !HasUserMessage(c) ==> r.messages == [userMessage, modelMessage]
    ensures r.title == if c.title == NewChatTitle then ChatTitle(messageText) else c.title
  {
    var currentMessages := if HasUserMessage(c) then c.messages else [];
    var updatedMessages := currentMessages + [userMessage, modelMessage];
    if c.title == NewChatTitle then c.(messages := updatedMessages, title := ChatTitle(messageText))
    else c.(messages := updatedMessages)
  }

  /** `finalConversations`, computed from the snapshot taken before the send. */
  function FinalConversations(snapshot: seq<Conversation>, id: string, userMessage: MessageData,
                              modelMessage: MessageData, messageText: string): (r: seq<Conversation>)
    ensures |r| == |snapshot|
    ensures forall k :: 0 <= k < |snapshot| && snapshot[k].id == id ==>
              r[k] == WithExchange(snapshot[k], userMessage, modelMessage, messageText)
    ensures forall k :: 0 <= k < |snapshot| && snapshot[k].id != id ==> r[k] == snapshot[k]
  {
    seq(|snapshot|, k requires 0 <= k < |snapshot| =>
      if snapshot[k].id == id then WithExchange(snapshot[k], userMessage, modelMessage, messageText) else snapshot[k])
  }

  /** The answered conversation heads the list; the others, with other ids, are kept. */
  lemma FinalConversationsOfHead(c: Conversation, rest: seq<Conversation>, userMessage: MessageData,
                                 modelMessage: MessageData, messageText: string)
    requires forall k :: 0 <= k < |rest| ==> rest[k].id != c.id
    ensures FinalConversations([c] + rest, c.id, userMessage, modelMessage, messageText)
            == [WithExchange(c, userMessage, modelMessage, messageText)] + rest
  {
    var s := [c] + rest;
    var r := FinalConversations(s, c.id, userMessage, modelMessage, messageText);
    var e := [WithExchange(c, userMessage, modelMessage, messageText)] + rest;
    assert |r| == |e|;
    forall k | 0 <= k < |r| ensures r[k] == e[k] {
      if k > 0 {
        assert s[k] == rest[k - 1];
      }
    }
  }

  /** A chat opened with `handleNewChat` and then answered holds exactly the
      exchange: the greeting is dropped, and the title comes from the message. */
  lemma NewChatFirstExchange(id: string, lang: string, rest: seq<Conversation>, messageText: string, modelMessage: MessageData)
    requires id != ""
    requires forall k :: 0 <= k < |rest| ==> rest[k].id != id
    ensures var r := FinalConversations([NewConversation(id, lang)] + rest, id, Plain(User, messageText), modelMessage, messageText);
            && r[0].messages == [Plain(User, messageText), modelMessage]
            && r[0].title == ChatTitle(messageText)
            && r[1..] == rest
  {
    var c := NewConversation(id, lang);
    var w := WithExchange(c, Plain(User, messageText), modelMessage, messageText);
    FinalConversationsOfHead(c, rest, Plain(User, messageText), modelMessage, messageText);
    assert ([w] + rest)[1..] == rest;
  }

  /** A failed send leaves the active conversation with its snapshot messages,
      the user message and the error reply, in that order, and its title kept. */
  lemma FailedSendAppendsErrorReply(snapshot: seq<Conversation>, id: string, userMessage: MessageData, k: nat)
    requires k < |snapshot| && snapshot[k].id == id
    ensures var r := AppendToConversation(AppendToConversation(snapshot, id, userMessage), id, Plain(Model, ErrorReply));
            r[k].messages == snapshot[k].messages + [userMessage, Plain(Model, ErrorReply)] && r[k].title == snapshot[k].title
  {
  }

  /** The page's state. */
  class AIHelperState {
    const lang: string
    const catalog: seq<Mentor>
    var conversations: seq<Conversation>
    var activeConversationId: string
    var isLoading: bool
    /** The message texts sent to the text-generation service, in order. */
    var requests: seq<string>

    /** `initial` stands for the two sample conversations the page starts with. */
    constructor (lang: string, catalog: seq<Mentor>, initial: seq<Conversation>)
      ensures this.lang == lang && this.catalog == catalog
      ensures conversations == initial && activeConversationId == "1" && !isLoading && requests == []
    {
      this.lang, this.catalog := lang, catalog;
      conversations, activeConversationId, isLoading, requests := initial, "1", false, [];
    }

    /** `handleNewChat`: the new chat (its id from the clock) goes first and becomes active. */
    method HandleNewChat(newId: string)
      modifies this
      ensures conversations == [NewConversation(newId, lang)] + old(conversations)
      ensures activeConversationId == newId
      ensures isLoading == old(isLoading) && requests == old(requests)
    {
      conversations := [NewConversation(newId, lang)] + conversations;
      activeConversationId := newId;
    }

    /** `handleSendMessage`: nothing without an active id; otherwise the user
        message is shown at once, the service is asked, and the list is set from
        the pre-send snapshot on success, or the error reply is appended on failure. */
    method HandleSendMessage(messageText: string, outcome: ReplyOutcome)
      modifies this
      ensures old(activeConversationId) == "" ==>
                conversations == old(conversations) && isLoading == old(isLoading) && requests == old(requests)
      ensures activeConversationId == old(activeConversationId)
      ensures old(activeConversationId) != "" ==> !isLoading && requests == old(requests) + [messageText]
      ensures old(activeConversationId) != "" && outcome.Replied? ==>
                conversations == FinalConversations(old(conversations), activeConversationId, Plain(User, messageText),
                  MessageData(Model, outcome.reply.response, false, None, Recommendation(catalog, outcome.reply.recommendedMentorId)),
                  messageText)
      ensures old(activeConversationId) != "" && outcome.ReplyFailed? ==>
                conversations == AppendToConversation(AppendToConversation(old(conversations), activeConversationId, Plain(User, messageText)),
                  activeConversationId, Plain(Model, ErrorReply))
    {
      if activeConversationId == "" {
        return;
      }
      var userMessage := Plain(User, messageText);
      var snapshot := conversations;
      conversations := AppendToConversation(snapshot, activeConversationId, userMessage);
      isLoading := true;
      requests := requests + [messageText];
      match outcome {
        case Replied(reply) =>
          var mentorRecommendation := Recommendation(catalog, reply.recommendedMentorId);
          var modelMessage := MessageData(Model, reply.response, false, None, mentorRecommendation);
          conversations := FinalConversations(snapshot, activeConversationId, userMessage, modelMessage, messageText);
        case ReplyFailed =>
          conversations := AppendToConversation(conversations, activeConversationId, Plain(Model, ErrorReply));
      }
      isLoading := false;
    }
  }
}
