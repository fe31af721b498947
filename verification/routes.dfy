/**
 * The assistant's HTTP handlers (app/assistant/routes.py): how a finished turn becomes the
 * chat response, when a new conversation gets a title, and how the stored history becomes
 * the API's role/content messages.
 */
module Routes {
  import opened Wrappers
  import opened State
  import opened Conversation

  datatype Role = User | Assistant

  /** The API's view of one message. */
  datatype ConversationMessage = ConversationMessage(role: Role, content: string)

  const UnexpectedError: string := "An unexpected error occurred."

  /** The name every conversation starts with; only such a conversation gets a generated title. */
  const NewConversation: string := "New Conversation"

  /** A human message is the user's, every other message the assistant's. */
  function RoleOf(m: Message): (role: Role)
    ensures role == User <==> m.HumanMessage?
  {
    if m.HumanMessage? then User else Assistant
  }

  /** The list comprehension of `get_messages`. */
  function ToConversationMessages(messages: seq<Message>): (api: seq<ConversationMessage>)
    ensures |api| == |messages|
    ensures forall i :: 0 <= i < |messages| ==>
      api[i].content == messages[i].content && (api[i].role == User <==> messages[i].HumanMessage?)
  {
    if messages == [] then []
    else [ConversationMessage(RoleOf(messages[0]), messages[0].content)] + ToConversationMessages(messages[1..])
  }

  /** The message a role/content pair stands for. */
  function FromConversationMessage(m: ConversationMessage): Message
  {
    if m.role == User then HumanMessage(m.content) else AIMessage(m.content)
  }

  /** The mapping loses nothing: each API message gives back the stored message it came from. */
  lemma HistoryRoundTrip(messages: seq<Message>)
    ensures var api := ToConversationMessages(messages);
      forall i :: 0 <= i < |api| ==> FromConversationMessage(api[i]) == messages[i]
  {
  }

  /** The mapping works message by message, so it distributes over appending a turn. */
  lemma HistoryOfAppend(earlier: seq<Message>, turn: seq<Message>)
    ensures ToConversationMessages(earlier + turn) ==
      ToConversationMessages(earlier) + ToConversationMessages(turn)
  {
    var whole := ToConversationMessages(earlier + turn);
    var parts := ToConversationMessages(earlier) + ToConversationMessages(turn);
    forall i | 0 <= i < |whole| ensures whole[i] == parts[i] {
      if i < |earlier| {
        assert (earlier + turn)[i] == earlier[i];
      } else {
        assert (earlier + turn)[i] == turn[i - |earlier|];
      }
    }
  }

  /** `get_messages`: a failed history call fails the request; an empty history is `[]`. */
  function GetMessages(history: Result<seq<Message>>): (r: Result<seq<ConversationMessage>>)
    ensures history.Failed? <==> r.Failed?
    ensures history.Ok? && history.value == [] ==> r == Ok([])
    ensures history.Ok? ==>
      && |r.value| == |history.value|
      && forall i :: 0 <= i < |r.value| ==> FromConversationMessage(r.value[i]) == history.value[i]
  {
    if history.Failed? then Failed(history.error)
    else if history.value == [] then Ok([])
    else
      HistoryRoundTrip(history.value);
      Ok(ToConversationMessages(history.value))
  }

  /** The response text: the last message's content when it is an AI message, else a fixed error. */
  function ResponseText(messages: seq<Message>): (response: string)
    requires |messages| > 0
    ensures messages[|messages| - 1].AIMessage? ==> response == messages[|messages| - 1].content
    ensures messages[|messages| - 1].HumanMessage? ==> response == UnexpectedError
  {
    var last := messages[|messages| - 1];
    if last.AIMessage? then last.content else UnexpectedError
  }

  datatype ChatReply = ChatReply(response: string, conversationName: string)

  /**
   * `chat`: `turn` is the final state's messages, `Failed` when the pipeline raised. The title
   * model's availability and reply feed `generate_conversation_name`; `renameFails` is whether
   * saving the new name raised, which the handler swallows.
   */
  function Chat(name: string, turn: Result<seq<Message>>, llmAvailable: bool, reply: Result<string>,
                renameFails: bool): (r: Result<ChatReply>)
    requires turn.Ok? ==> |turn.value| > 0
    ensures turn.Failed? <==> r.Failed?
    ensures r.Ok? ==> r.value.response == ResponseText(turn.value)
    ensures r.Ok? && name != NewConversation ==> r.value.conversationName == name
    ensures r.Ok? && r.value.conversationName != name ==>
      && name == NewConversation
      && !renameFails
      && GenerateConversationName(llmAvailable, reply) == Some(r.value.conversationName)
      && r.value.conversationName != ""
    ensures r.Ok? && name == NewConversation && !renameFails && GenerateConversationName(llmAvailable, reply).Some? ==>
      r.value.conversationName == GenerateConversationName(llmAvailable, reply).value
    ensures r.Ok? && (renameFails || GenerateConversationName(llmAvailable, reply).None?) ==>
      r.value.conversationName == name
  {
    if turn.Failed? then Failed(turn.error)
    else
      var needsNameGeneration := name == NewConversation;
      var response := ResponseText(turn.value);
      if needsNameGeneration then
        var generated := GenerateConversationName(llmAvailable, reply);
        if generated.Some? && !renameFails then Ok(ChatReply(response, generated.value))
        else Ok(ChatReply(response, name))
      else Ok(ChatReply(response, name))
  }

  /** Naming never changes what the user is answered. */
  lemma ResponseIgnoresNaming(name1: string, name2: string, turn: seq<Message>,
                              available1: bool, available2: bool, reply1: Result<string>, reply2: Result<string>,
                              fails1: bool, fails2: bool)
    requires |turn| > 0
    ensures Chat(name1, Ok(turn), available1, reply1, fails1).value.response ==
            Chat(name2, Ok(turn), available2, reply2, fails2).value.response
  {
  }

  /** A turn that ends with the assistant's answer is answered with exactly that text. */
  lemma CompletedTurnResponse(prior: seq<Message>, query: string, answer: string)
    ensures ResponseText(prior + [HumanMessage(query), AIMessage(answer)]) == answer
  {
  }
}
