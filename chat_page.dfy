/** The direct chat (src/pages/ChatPage.tsx): a history looked up under a key
    built from the two user ids, and sending appends one message. */
module ChatPage {
  import opened Types
  import opened Text

  /** The `userId` route parameter as a number; -1 when it is missing. */
  function OtherUserId(userIdParam: Option<int>): (id: int)
    ensures userIdParam.None? ==> id == -1
    ensures userIdParam.Some? ==> id == userIdParam.value
  {
    match userIdParam
    case None => -1
    case Some(v) => v
  }

  /** `[a, b].sort((a, b) => a - b).join('-')`: the numeral of the smaller id,
      a '-', and the numeral of the larger id. */
  function HistoryKey(a: int, b: int): (key: string)
    ensures exists k :: 0 < k < |key| && key[k] == '-'
              && CanonicalNumeral(key[..k]) && NumeralValue(key[..k]) == Min(a, b)
              && CanonicalNumeral(key[k + 1..]) && NumeralValue(key[k + 1..]) == Max(a, b)
  {
    var lo, hi := IntToString(Min(a, b)), IntToString(Max(a, b));
    var key := lo + "-" + hi;
    assert key[..|lo|] == lo && key[|lo| + 1..] == hi;
    key
  }

  /** `getChatHistory`: the stored history under the key, or empty. */
  function ChatHistory(chats: map<string, seq<ChatMessage>>, a: int, b: int): (h: seq<ChatMessage>)
    ensures HistoryKey(a, b) in chats ==> h == chats[HistoryKey(a, b)]
    ensures HistoryKey(a, b) !in chats ==> h == []
  {
    if HistoryKey(a, b) in chats then chats[HistoryKey(a, b)] else []
  }

  /** No '-' after the first character of a numeral, so the first '-' past
      position 0 of a numeral followed by more text is where the numeral ends. */
  lemma NoSeparatorInsideNumeral(x: int, rest: string)
    ensures forall p :: 1 <= p < |IntToString(x) + rest| && (IntToString(x) + rest)[p] == '-' ==> p >= |IntToString(x)|
  {
    var u := IntToString(x);
    forall p | 1 <= p < |u| ensures u[p] != '-' {
      if u[0] == '-' { assert u[p] == u[1..][p - 1]; }
    }
  }

  /** Two numerals joined by '-' can be split back: the separator is the first
      '-' after the first character. */
  lemma {:induction false} JoinedNumeralsSplit(x: int, y: int, x': int, y': int)
    requires IntToString(x) + "-" + IntToString(y) == IntToString(x') + "-" + IntToString(y')
    ensures x == x' && y == y'
  {
    var u, v, u', v' := IntToString(x), IntToString(y), IntToString(x'), IntToString(y');
    var s := u + "-" + v;
    assert s[|u'|] == '-' && s[|u|] == '-';
    NoSeparatorInsideNumeral(x, "-" + v);
    NoSeparatorInsideNumeral(x', "-" + v');
    assert u == s[..|u|] == u';
    assert v == s[|u| + 1..] == v';
  }

  /** The key names the unordered pair: two pairs of ids share a key exactly
      when they are the same two ids, in either order. */
  lemma HistoryKeyIdentifiesPair(a: int, b: int, c: int, d: int)
    ensures HistoryKey(a, b) == HistoryKey(c, d) <==> (a == c && b == d) || (a == d && b == c)
  {
    if HistoryKey(a, b) == HistoryKey(c, d) {
      var lo, hi := if a <= b then a else b, if a <= b then b else a;
      var lo', hi' := if c <= d then c else d, if c <= d then d else c;
      JoinedNumeralsSplit(lo, hi, lo', hi');
    }
  }

  class ChatPageState {
    const currentUserId: int
    const otherUserId: int
    var messages: seq<ChatMessage>
    var input: string

    /** `chats` stands for the stored chat histories. */
    constructor (chats: map<string, seq<ChatMessage>>, currentUserId: int, userIdParam: Option<int>)
      ensures this.currentUserId == currentUserId && otherUserId == OtherUserId(userIdParam)
      ensures messages == ChatHistory(chats, currentUserId, otherUserId) && input == ""
    {
      this.currentUserId := currentUserId;
      otherUserId := OtherUserId(userIdParam);
      messages := ChatHistory(chats, currentUserId, OtherUserId(userIdParam));
      input := "";
    }

    /** Whether a message is drawn on the current user's side. */
    predicate IsOwnMessage(m: ChatMessage)
      reads this
    {
      m.senderId == currentUserId
    }

    /** `handleSend`: blank input does nothing; otherwise one message from the
        current user with the input's text is appended and the input cleared. */
    method HandleSend(timestamp: string)
      modifies this
      ensures IsBlank(old(input)) ==> messages == old(messages) && input == old(input)
      ensures !IsBlank(old(input)) ==>
                && messages == old(messages) + [ChatMessage(currentUserId, old(input), timestamp)]
                && IsOwnMessage(messages[|messages| - 1])
                && input == ""
    {
      // `input.trim() === ''` is `IsBlank(input)` (Text.TrimEmptyIffBlank)
      if IsBlank(input) {
        return;
      }
      var newMessage := ChatMessage(currentUserId, input, timestamp);
      messages := messages + [newMessage];
      input := "";
    }
  }
}
