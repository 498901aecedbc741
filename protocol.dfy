/** The chat-completion protocol between the agent and the provider: messages,
    tool calls, tool declarations, requests and replies. The provider's wire
    format is not modelled; these are the fields the agent reads and writes. */
module Protocol {

  /** The role of a message's author. */
  datatype Role = System | User | Assistant | Tool

  /** A tool call requested by the provider: its id, the tool's name and the
      raw JSON text of its arguments. */
  datatype ToolCall = ToolCall(id: string, name: string, arguments: string)

  /** A chat message. `name` and `toolCallId` are set on tool messages;
      `toolCalls` on assistant messages. */
  datatype Message = Message(role: Role, content: string, name: string, toolCallId: string, toolCalls: seq<ToolCall>)

  /** A message written by the user (or the controller, on the user's behalf). */
  function UserMessage(text: string): (m: Message)
    ensures m.role == User && m.content == text && m.toolCalls == []
  {
    Message(User, text, "", "", [])
  }

  /** A tool declared to the provider: its name, the names of its argument
      properties and the names of the required ones. */
  datatype ToolDecl = ToolDecl(name: string, description: string, properties: seq<string>, required: seq<string>)

  /** The names of the declared tools, in order. */
  function Names(tools: seq<ToolDecl>): seq<string>
  {
    seq(|tools|, i requires 0 <= i < |tools| => tools[i].name)
  }

  /** What is sent to the provider: the messages and the tools on offer.
      The model name, temperature and streaming flag are constants of every
      request and are not modelled. */
  datatype Request = Request(messages: seq<Message>, tools: seq<ToolDecl>)

  /** What the provider call gives back: a transport error, a response with
      no choices, or the message of the first choice. */
  datatype Reply = Failed(error: string) | NoChoices | Replied(message: Message)

  /** A provider that answers every request. */
  type Provider = Request -> Reply
}
