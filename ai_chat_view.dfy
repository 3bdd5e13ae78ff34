/** The chat view (src/pages/AIHelperPage/components/AIChatView.tsx): the
    input box, the send guard and which message is the last user message. */
module AIChatView {
  import opened Types
  import opened Text

  /** `messages.map(m => m.role).lastIndexOf('user')`: the greatest index of a
      user message, or -1 when there is none. */
  function LastUserMessageIndex(messages: seq<MessageData>): (r: int)
    ensures -1 <= r < |messages|
    ensures r == -1 <==> forall j :: 0 <= j < |messages| ==> messages[j].role != User
    ensures 0 <= r ==> messages[r].role == User && forall j :: r < j < |messages| ==> messages[j].role != User
  {
    if messages == [] then -1
    else if messages[|messages| - 1].role == User then |messages| - 1
    else LastUserMessageIndex(messages[..|messages| - 1])
  }

  /** The `isLastUserMessage` flag of each rendered message: set on at most one
      message, and on a message exactly when it is a user message with no user
      message after it. */
  function LastUserFlags(messages: seq<MessageData>): (flags: seq<bool>)
    ensures |flags| == |messages|
    ensures forall i, j :: 0 <= i < |flags| && 0 <= j < |flags| && flags[i] && flags[j] ==> i == j
    ensures forall i :: 0 <= i < |flags| ==>
              (flags[i] <==> messages[i].role == User && forall j :: i < j < |messages| ==> messages[j].role != User)
  {
    var last := LastUserMessageIndex(messages);
    seq(|messages|, i requires 0 <= i < |messages| => i == last)
  }

  /** The rendered list: the messages, followed by an empty model placeholder
      exactly while loading. */
  function RenderedMessages(messages: seq<MessageData>, isLoading: bool): (r: seq<MessageData>)
    ensures messages <= r
    ensures |r| == |messages| + (if isLoading then 1 else 0)
    ensures isLoading ==> r[|messages|] == Plain(Model, "")
  {
    if isLoading then messages + [Plain(Model, "")] else messages
  }

  class ChatViewState {
    var input: string
    /** The texts handed to `onSendMessage`, in order. */
    var sent: seq<string>

    constructor ()
      ensures input == "" && sent == []
    {
      input, sent := "", [];
    }

    /** `handleSend`: a blank input or loading does nothing; otherwise the
        untrimmed input goes to the callback and the box is cleared. */
    method HandleSend(isLoading: bool)
      modifies this
      ensures IsBlank(old(input)) || isLoading ==> input == old(input) && sent == old(sent)
      ensures !IsBlank(old(input)) && !isLoading ==> sent == old(sent) + [old(input)] && input == ""
    {
      // `input.trim() === ''` is `IsBlank(input)` (Text.TrimEmptyIffBlank)
      if IsBlank(input) || isLoading {
        return;
      }
      sent := sent + [input];
      input := "";
    }

    /** `handleEdit`: the box now holds the given text. */
    method HandleEdit(text: string)
      modifies this
      ensures input == text && sent == old(sent)
    {
      input := text;
    }
  }
}
