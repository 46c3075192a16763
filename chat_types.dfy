/** The chat records the stores keep (src/types/chat and src/types/chatHistory). */
module ChatTypes {
  import opened Wrappers

  datatype Role = SystemRole | UserRole | AssistantRole

  /** A chat message; its `dayjs` timestamp is left out. */
  datatype ChatMessage = ChatMessage(role: Role, content: string)

  datatype ChatSession = ChatSession(sessionId: int, sessionName: string)

  datatype ChatHistory = ChatHistory(response: seq<ChatMessage>, chatSessionId: string)

  /** The session selection `setCurrentSession` makes: empty for null, the one id otherwise. */
  function Selection(sessionId: Option<int>): (r: seq<int>)
    ensures |r| <= 1
    ensures sessionId.Some? ==> r == [sessionId.value]
    ensures sessionId.None? <==> r == []
  {
    if sessionId.None? then [] else [sessionId.value]
  }

  /** The `chat_session_id` a request takes from the selection: its first id, or undefined. */
  function SelectedId(current: seq<int>): (r: Option<int>)
    ensures r.Some? <==> |current| > 0
    ensures r.Some? ==> r.value == current[0]
  {
    if |current| > 0 then Some(current[0]) else None
  }

  /** Selecting a session and reading the selection back gives that session. */
  lemma SelectionRoundTrip(sessionId: Option<int>)
    ensures SelectedId(Selection(sessionId)) == sessionId
  {
  }
}
