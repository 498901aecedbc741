/** The conversation engine (agent.go): one turn sends the stored log, behind a
    freshly made system message, to the provider, stores the reply, and runs
    the reply's tool calls in order; the last call's result is the message of
    the next turn. Also the yes/no oracle used by the controller. */
module Agent {
  import opened Base
  import opened Strings
  import opened Protocol
  import Tools

  /** The tool name that ends a batch at once. */
  const ContinueTool: string := "continue"

  /** The reason of the panic on indexing an empty slice. */
  const IndexOutOfRange: string := "index out of range"

  /** The wire name of a role. */
  function RoleName(role: Role): string
  {
    match role
    case System => "system"
    case User => "user"
    case Assistant => "assistant"
    case Tool => "tool"
  }

  /** The fixed instructions of the system message. */
  const Instructions: string :=
    "You are an autonomous, unsupervised agent that can write Go code, fix bugs, and implement features.\n"
    + "There is no user able to provide feedback. You are the only one in the conversation.\n"
    + "You have tools to analyze the local codebase, search the web, and more.\n"

  /** The text of the system message: the instructions and the current date and time. */
  function SystemText(now: string): string
  {
    Instructions + "\nDate and time: " + now + "\n"
  }

  /** The system message of a turn taken at time `now`. */
  function SystemPrompt(now: string): Message
  {
    Message(System, SystemText(now), "", "", [])
  }

  /** A rendering of a message for error texts. */
  function Describe(m: Message): string
  {
    "{Role:" + RoleName(m.role) + " Content:" + m.content + " Name:" + m.name + " ToolCallID:" + m.toolCallId + "}"
  }

  /** The text returned when the provider call fails. */
  function ChatError(msg: Message, err: string): string
  {
    "Error creating chat completion for (" + Describe(msg) + "): " + err
  }

  /** The collaborators of a conversation: the provider, the clock (the
      RFC 3339 time at which each turn is taken, by turn number) and the
      handler of tool calls. */
  datatype Context = Context(provider: Provider, clock: nat -> string, handle: ToolCall -> Outcome<Message>)

  /** The request of a turn taken at `turn` with the stored log `log`. */
  function Payload(ctx: Context, log: seq<Message>, turn: nat): Request
  {
    Request([SystemPrompt(ctx.clock(turn))] + log, Tools.GetTools())
  }

  /** `handleToolCall`: runs a tool call and wraps its result as a tool message. */
  function HandleToolCall(env: Tools.Env, call: ToolCall): (r: Outcome<Message>)
    ensures r.Done? <==> Tools.Dispatch(env, call).Done?
    ensures r.Done? ==>
              && r.value.role == Tool
              && r.value.content == Tools.Dispatch(env, call).value
              && r.value.name == call.name
              && r.value.toolCallId == call.id
              && r.value.toolCalls == []
  {
    match Tools.Dispatch(env, call)
    case Panic(why) => Panic(why)
    case Done(result) =>
      if result == [] then Panic("Tool call " + call.name + "(" + call.arguments + ") returned empty string")
      else Done(Message(Tool, result, call.name, call.id, []))
  }

  /** The context the agent runs with: tool calls are handled by `handleToolCall`
      over the tool environment `env`. Its handler pairs each result with its
      call, and fails only where the tool does. */
  function Wire(provider: Provider, clock: nat -> string, env: Tools.Env): (ctx: Context)
    ensures ctx.provider == provider && ctx.clock == clock
    ensures PairsToolMessages(ctx.handle)
    ensures forall call :: ctx.handle(call).Done? <==> Tools.Dispatch(env, call).Done?
  {
    Context(provider, clock, call => HandleToolCall(env, call))
  }

  /** Every successful tool call gives a tool message paired with the call. */
  ghost predicate PairsToolMessages(handle: ToolCall -> Outcome<Message>)
  {
    forall call :: handle(call).Done? ==>
      && handle(call).value.role == Tool
      && handle(call).value.name == call.name
      && handle(call).value.toolCallId == call.id
  }

  /** How a conversation ended: with a returned text, a panic, or because the
      bound on the number of turns was reached. */
  datatype Ending = Returned(text: string) | Panicked(reason: string) | OutOfTurns

  /** A finished conversation: the stored log, the ending and the requests sent, in order. */
  datatype Run = Run(log: seq<Message>, ending: Ending, sent: seq<Request>)

  /** `handleChatCompletion(msg)` on the stored log `log`, taken at turn
      `turn`, with at most `fuel` provider calls left. */
  function Chat(ctx: Context, log: seq<Message>, msg: Message, turn: nat, fuel: nat): (r: Run)
    ensures log <= r.log
    decreases fuel, 1, 0
  {
    if fuel == 0 then Run(log, OutOfTurns, [])
    else
      var stored := log + [msg];
      var request := Payload(ctx, stored, turn);
      match ctx.provider(request)
      case Failed(err) => Run(stored, Returned(ChatError(msg, err)), [request])
      case NoChoices => Run(stored, Panicked(IndexOutOfRange), [request])
      case Replied(reply) =>
        var rest := Batch(ctx, stored + [reply], reply.toolCalls, 0, turn, fuel);
        Run(rest.log, rest.ending, [request] + rest.sent)
  }

  /** The walk over the tool calls `calls` of a reply, from the `i`-th on. A
      call equal to the last one is the last: its result starts the next turn. */
  function Batch(ctx: Context, log: seq<Message>, calls: seq<ToolCall>, i: nat, turn: nat, fuel: nat): (r: Run)
    requires i <= |calls|
    requires |log| >= 1
    requires fuel >= 1
    ensures log <= r.log
    decreases fuel, 0, |calls| - i
  {
    if i == |calls| then Run(log, Returned(log[|log| - 1].content), [])
    else if calls[i].name == ContinueTool then Run(log, Returned("Continue"), [])
    else
      match ctx.handle(calls[i])
      case Panic(why) => Run(log, Panicked(why), [])
      case Done(result) =>
        if calls[i] == calls[|calls| - 1] then Chat(ctx, log, result, turn + 1, fuel - 1)
        else Batch(ctx, log + [result], calls, i + 1, turn, fuel)
  }

  /** The tool messages of calls that all succeed, in call order. */
  function ToolMessages(handle: ToolCall -> Outcome<Message>, calls: seq<ToolCall>): (ms: seq<Message>)
    requires forall j :: 0 <= j < |calls| ==> handle(calls[j]).Done?
    ensures |ms| == |calls|
    ensures forall j :: 0 <= j < |calls| ==> ms[j] == handle(calls[j]).value
  {
    if calls == [] then [] else ToolMessages(handle, calls[..|calls| - 1]) + [handle(calls[|calls| - 1]).value]
  }

  /** The calls from `i` to `k` are ordinary: not the sentinel, not equal to
      the last call, and their tools succeed. */
  predicate Ordinary(handle: ToolCall -> Outcome<Message>, calls: seq<ToolCall>, i: nat, k: nat)
    requires i <= k <= |calls|
  {
    forall j :: i <= j < k ==>
      calls[j].name != ContinueTool && calls[j] != calls[|calls| - 1] && handle(calls[j]).Done?
  }

  /** Ordinary calls each add exactly their tool message, in call order, and
      nothing else happens until the `k`-th call. */
  lemma {:induction false} BatchSerial(ctx: Context, log: seq<Message>, calls: seq<ToolCall>, i: nat, k: nat, turn: nat, fuel: nat)
    requires i <= k <= |calls| && |log| >= 1 && fuel >= 1
    requires Ordinary(ctx.handle, calls, i, k)
    ensures Batch(ctx, log, calls, i, turn, fuel) == Batch(ctx, log + ToolMessages(ctx.handle, calls[i..k]), calls, k, turn, fuel)
    decreases k - i
  {
    if i == k {
      assert calls[i..k] == [];
      assert log + [] == log;
    } else {
      var result := ctx.handle(calls[i]).value;
      BatchStep(ctx, log, calls, i, turn, fuel);
      assert Ordinary(ctx.handle, calls, i + 1, k);
      BatchSerial(ctx, log + [result], calls, i + 1, k, turn, fuel);
      var window := calls[i..k];
      assert forall j :: 0 <= j < |window| ==> window[j] == calls[i + j];
      assert window[1..] == calls[i + 1..k];
      ToolMessagesCons(ctx.handle, window);
      var later := ToolMessages(ctx.handle, calls[i + 1..k]);
      assert ToolMessages(ctx.handle, window) == [result] + later;
      AppendAssoc(log, [result], later);
    }
  }

  /** `BatchSerial` from the first call: the walk up to the `i`-th call stores
      the tool messages of the calls before it. */
  lemma WalkedTo(ctx: Context, log: seq<Message>, calls: seq<ToolCall>, i: nat, turn: nat, fuel: nat)
    requires i <= |calls| && |log| >= 1 && fuel >= 1
    requires Ordinary(ctx.handle, calls, 0, i)
    ensures Batch(ctx, log, calls, 0, turn, fuel) == Batch(ctx, log + ToolMessages(ctx.handle, calls[..i]), calls, i, turn, fuel)
  {
    BatchSerial(ctx, log, calls, 0, i, turn, fuel);
    assert calls[0..i] == calls[..i];
  }

  /** An ordinary call adds its tool message and the walk goes on with the next call. */
  lemma BatchStep(ctx: Context, log: seq<Message>, calls: seq<ToolCall>, i: nat, turn: nat, fuel: nat)
    requires i < |calls| && |log| >= 1 && fuel >= 1
    requires calls[i].name != ContinueTool && calls[i] != calls[|calls| - 1] && ctx.handle(calls[i]).Done?
    ensures Batch(ctx, log, calls, i, turn, fuel) == Batch(ctx, log + [ctx.handle(calls[i]).value], calls, i + 1, turn, fuel)
  {
  }

  /** The tool messages of one more call: those before it, then its own. */
  lemma ToolMessagesSnoc(handle: ToolCall -> Outcome<Message>, calls: seq<ToolCall>, i: nat)
    requires i < |calls|
    requires forall j :: 0 <= j <= i ==> handle(calls[j]).Done?
    ensures ToolMessages(handle, calls[..i + 1]) == ToolMessages(handle, calls[..i]) + [handle(calls[i]).value]
  {
    assert calls[..i + 1][..i] == calls[..i];
  }

  /** The tool messages of a non-empty batch: the first call's, then the rest's. */
  lemma {:induction false} ToolMessagesCons(handle: ToolCall -> Outcome<Message>, calls: seq<ToolCall>)
    requires |calls| >= 1
    requires forall j :: 0 <= j < |calls| ==> handle(calls[j]).Done?
    ensures ToolMessages(handle, calls) == [handle(calls[0]).value] + ToolMessages(handle, calls[1..])
  {
    var all := ToolMessages(handle, calls);
    var rest := ToolMessages(handle, calls[1..]);
    forall j | 0 <= j < |all|
      ensures all[j] == ([handle(calls[0]).value] + rest)[j]
    {
      if j > 0 {
        assert calls[1..][j - 1] == calls[j];
      }
    }
  }

  /** A turn stores the incoming message first, sends it behind a fresh
      system message, and stores a reply directly after it. */
  lemma TurnStart(ctx: Context, log: seq<Message>, msg: Message, turn: nat, fuel: nat)
    requires fuel >= 1
    ensures var r := Chat(ctx, log, msg, turn, fuel);
            && |r.sent| >= 1
            && r.sent[0] == Payload(ctx, log + [msg], turn)
            && log + [msg] <= r.log
            && (ctx.provider(r.sent[0]).Replied? ==> log + [msg, ctx.provider(r.sent[0]).message] <= r.log)
  {
    var stored := log + [msg];
    match ctx.provider(Payload(ctx, stored, turn))
    case Failed(_) =>
    case NoChoices =>
    case Replied(reply) =>
      assert stored + [reply] == log + [msg, reply];
  }

  /** A failed provider call ends the turn with the error text, having stored
      only the incoming message. */
  lemma ProviderFailure(ctx: Context, log: seq<Message>, msg: Message, turn: nat, fuel: nat)
    requires fuel >= 1
    requires ctx.provider(Payload(ctx, log + [msg], turn)).Failed?
    ensures Chat(ctx, log, msg, turn, fuel)
            == Run(log + [msg], Returned(ChatError(msg, ctx.provider(Payload(ctx, log + [msg], turn)).error)),
                   [Payload(ctx, log + [msg], turn)])
  {
  }

  /** A reply without tool calls ends the conversation with the reply's content. */
  lemma NoCallsEndsTurn(ctx: Context, log: seq<Message>, msg: Message, turn: nat, fuel: nat)
    requires fuel >= 1
    requires ctx.provider(Payload(ctx, log + [msg], turn)).Replied?
    requires ctx.provider(Payload(ctx, log + [msg], turn)).message.toolCalls == []
    ensures var reply := ctx.provider(Payload(ctx, log + [msg], turn)).message;
            Chat(ctx, log, msg, turn, fuel) == Run(log + [msg, reply], Returned(reply.content), [Payload(ctx, log + [msg], turn)])
  {
    var reply := ctx.provider(Payload(ctx, log + [msg], turn)).message;
    assert log + [msg] + [reply] == log + [msg, reply];
  }

  /** The first `continue` call ends the conversation with "Continue": the
      calls before it have had their results stored, in order, and no call
      after it is run. */
  lemma FirstSentinelWins(ctx: Context, log: seq<Message>, msg: Message, turn: nat, fuel: nat, c: nat)
    requires fuel >= 1
    requires ctx.provider(Payload(ctx, log + [msg], turn)).Replied?
    requires var calls := ctx.provider(Payload(ctx, log + [msg], turn)).message.toolCalls;
             c < |calls| && calls[c].name == ContinueTool && Ordinary(ctx.handle, calls, 0, c)
    ensures var reply := ctx.provider(Payload(ctx, log + [msg], turn)).message;
            var r := Chat(ctx, log, msg, turn, fuel);
            && r.log == log + [msg, reply] + ToolMessages(ctx.handle, reply.toolCalls[..c])
            && r.ending == Returned("Continue")
            && r.sent == [Payload(ctx, log + [msg], turn)]
  {
    var reply := ctx.provider(Payload(ctx, log + [msg], turn)).message;
    var calls := reply.toolCalls;
    assert log + [msg] + [reply] == log + [msg, reply];
    BatchSerial(ctx, log + [msg, reply], calls, 0, c, turn, fuel);
    assert calls[0..c] == calls[..c];
  }

  /** Without a sentinel, every call but the last adds its tool message in
      call order, and the last call's tool message is the next turn's message. */
  lemma LastCallFeedsNextTurn(ctx: Context, log: seq<Message>, msg: Message, turn: nat, fuel: nat)
    requires fuel >= 1
    requires ctx.provider(Payload(ctx, log + [msg], turn)).Replied?
    requires var calls := ctx.provider(Payload(ctx, log + [msg], turn)).message.toolCalls;
             && |calls| >= 1
             && Ordinary(ctx.handle, calls, 0, |calls| - 1)
             && calls[|calls| - 1].name != ContinueTool
             && ctx.handle(calls[|calls| - 1]).Done?
    ensures var reply := ctx.provider(Payload(ctx, log + [msg], turn)).message;
            var calls := reply.toolCalls;
            var next := Chat(ctx, log + [msg, reply] + ToolMessages(ctx.handle, calls[..|calls| - 1]),
                             ctx.handle(calls[|calls| - 1]).value, turn + 1, fuel - 1);
            Chat(ctx, log, msg, turn, fuel) == Run(next.log, next.ending, [Payload(ctx, log + [msg], turn)] + next.sent)
  {
    var reply := ctx.provider(Payload(ctx, log + [msg], turn)).message;
    var calls := reply.toolCalls;
    assert log + [msg] + [reply] == log + [msg, reply];
    BatchSerial(ctx, log + [msg, reply], calls, 0, |calls| - 1, turn, fuel);
    assert calls[0..|calls| - 1] == calls[..|calls| - 1];
  }

  /** The requests `sent`, of which the `k`-th is taken at turn `firstTurn + k`,
      each carry that turn's fresh system message, the declared tools, and
      then a prefix of `log`. */
  predicate Mirrors(ctx: Context, sent: seq<Request>, log: seq<Message>, firstTurn: nat)
  {
    forall k :: 0 <= k < |sent| ==>
      && |sent[k].messages| >= 2
      && sent[k].messages[0] == SystemPrompt(ctx.clock(firstTurn + k))
      && sent[k].tools == Tools.GetTools()
      && sent[k].messages[1..] <= log
  }

  /** The provider never writes a system message. */
  ghost predicate RepliesNotSystem(provider: Provider)
  {
    forall request :: provider(request).Replied? ==> provider(request).message.role != System
  }

  /** The messages from index `from` on are not system messages. */
  predicate NoSystemFrom(log: seq<Message>, from: nat)
  {
    forall j :: from <= j < |log| ==> log[j].role != System
  }

  /** Prepending a turn's request to the requests of the later turns. */
  lemma MirrorsCons(ctx: Context, request: Request, rest: seq<Request>, log: seq<Message>, turn: nat)
    requires |request.messages| >= 2 && request.messages[0] == SystemPrompt(ctx.clock(turn))
    requires request.tools == Tools.GetTools() && request.messages[1..] <= log
    requires Mirrors(ctx, rest, log, turn + 1)
    ensures Mirrors(ctx, [request] + rest, log, turn)
  {
    var all := [request] + rest;
    forall k | 1 <= k < |all|
      ensures all[k] == rest[k - 1] && turn + k == turn + 1 + (k - 1)
    {
    }
  }

  /** Messages of a prefix and of the extension past it are not system messages. */
  lemma NoSystemExtend(a: seq<Message>, b: seq<Message>, from: nat)
    requires a <= b && NoSystemFrom(a, from) && NoSystemFrom(b, |a|)
    ensures NoSystemFrom(b, from)
  {
    forall j | from <= j < |b|
      ensures b[j].role != System
    {
      if j < |a| {
        assert b[j] == a[j];
      }
    }
  }

  /** The system message is made afresh for every request: the `k`-th request
      of a conversation begun at `turn` starts with the system message of the
      time of turn `turn + k`, offers the declared tools, and then carries a
      prefix of the stored log. */
  lemma {:induction false} ChatPayloads(ctx: Context, log: seq<Message>, msg: Message, turn: nat, fuel: nat)
    ensures Mirrors(ctx, Chat(ctx, log, msg, turn, fuel).sent, Chat(ctx, log, msg, turn, fuel).log, turn)
    decreases fuel, 1, 0
  {
    if fuel > 0 {
      var stored := log + [msg];
      var request := Payload(ctx, stored, turn);
      assert request.messages[1..] == stored;
      match ctx.provider(request)
      case Failed(_) =>
        MirrorsCons(ctx, request, [], stored, turn);
        assert [request] + [] == [request];
      case NoChoices =>
        MirrorsCons(ctx, request, [], stored, turn);
        assert [request] + [] == [request];
      case Replied(reply) =>
        var rest := Batch(ctx, stored + [reply], reply.toolCalls, 0, turn, fuel);
        BatchPayloads(ctx, stored + [reply], reply.toolCalls, 0, turn, fuel);
        assert stored <= stored + [reply] <= rest.log;
        MirrorsCons(ctx, request, rest.sent, rest.log, turn);
    }
  }

  /** `ChatPayloads` for the walk over a reply's tool calls, whose requests
      begin at the next turn. */
  lemma {:induction false} BatchPayloads(ctx: Context, log: seq<Message>, calls: seq<ToolCall>, i: nat, turn: nat, fuel: nat)
    requires i <= |calls| && |log| >= 1 && fuel >= 1
    ensures Mirrors(ctx, Batch(ctx, log, calls, i, turn, fuel).sent, Batch(ctx, log, calls, i, turn, fuel).log, turn + 1)
    decreases fuel, 0, |calls| - i
  {
    var r := Batch(ctx, log, calls, i, turn, fuel);
    if i == |calls| || calls[i].name == ContinueTool {
      assert r.sent == [];
    } else {
      var handled := ctx.handle(calls[i]);
      if handled.Panic? {
        assert r.sent == [];
      } else if calls[i] == calls[|calls| - 1] {
        assert r == Chat(ctx, log, handled.value, turn + 1, fuel - 1);
        ChatPayloads(ctx, log, handled.value, turn + 1, fuel - 1);
      } else {
        assert r == Batch(ctx, log + [handled.value], calls, i + 1, turn, fuel);
        BatchPayloads(ctx, log + [handled.value], calls, i + 1, turn, fuel);
      }
    }
  }

  /** The system message is never stored: when neither the incoming message
      nor any reply of the provider is a system message, and tool calls give
      tool messages, no message the conversation adds to the log is one. */
  lemma {:induction false} ChatStoresNoSystem(ctx: Context, log: seq<Message>, msg: Message, turn: nat, fuel: nat)
    requires msg.role != System && RepliesNotSystem(ctx.provider) && PairsToolMessages(ctx.handle)
    ensures NoSystemFrom(Chat(ctx, log, msg, turn, fuel).log, |log|)
    decreases fuel, 1, 0
  {
    if fuel > 0 {
      var stored := log + [msg];
      match ctx.provider(Payload(ctx, stored, turn))
      case Failed(_) =>
      case NoChoices =>
      case Replied(reply) =>
        var rest := Batch(ctx, stored + [reply], reply.toolCalls, 0, turn, fuel);
        BatchStoresNoSystem(ctx, stored + [reply], reply.toolCalls, 0, turn, fuel);
        assert (stored + [reply])[|log|] == msg && (stored + [reply])[|log| + 1] == reply;
        NoSystemExtend(stored + [reply], rest.log, |log|);
    }
  }

  /** `ChatStoresNoSystem` for the walk over a reply's tool calls. */
  lemma {:induction false} BatchStoresNoSystem(ctx: Context, log: seq<Message>, calls: seq<ToolCall>, i: nat, turn: nat, fuel: nat)
    requires i <= |calls| && |log| >= 1 && fuel >= 1
    requires RepliesNotSystem(ctx.provider) && PairsToolMessages(ctx.handle)
    ensures NoSystemFrom(Batch(ctx, log, calls, i, turn, fuel).log, |log|)
    decreases fuel, 0, |calls| - i
  {
    var r := Batch(ctx, log, calls, i, turn, fuel);
    if i == |calls| || calls[i].name == ContinueTool {
      assert r.log == log;
    } else {
      var handled := ctx.handle(calls[i]);
      if handled.Panic? {
        assert r.log == log;
      } else if calls[i] == calls[|calls| - 1] {
        assert r == Chat(ctx, log, handled.value, turn + 1, fuel - 1);
        ChatStoresNoSystem(ctx, log, handled.value, turn + 1, fuel - 1);
      } else {
        var longer := log + [handled.value];
        assert r == Batch(ctx, longer, calls, i + 1, turn, fuel);
        BatchStoresNoSystem(ctx, longer, calls, i + 1, turn, fuel);
        assert longer[|log|] == handled.value;
        NoSystemExtend(longer, r.log, |log|);
      }
    }
  }

  /** Two runs store the same log and end the same way. */
  predicate Same(a: Run, b: Run)
  {
    a.log == b.log && a.ending == b.ending
  }

  /** The agent's conversation state: the stored message log. */
  class Session {
    var messages: seq<Message>

    constructor()
      ensures messages == []
    {
      messages := [];
    }

    /** `handleChatCompletion`, its tail call unrolled into a loop over at
        most `maxTurns` turns. */
    method HandleChatCompletion(ctx: Context, msg: Message, maxTurns: nat) returns (ending: Ending)
      modifies this
      ensures messages == Chat(ctx, old(messages), msg, 0, maxTurns).log
      ensures ending == Chat(ctx, old(messages), msg, 0, maxTurns).ending
    {
      ghost var goal := Chat(ctx, messages, msg, 0, maxTurns);
      var incoming := msg;
      var turn: nat := 0;
      var fuel := maxTurns;
      while fuel > 0
        invariant Same(Chat(ctx, messages, incoming, turn, fuel), goal)
        decreases fuel
      {
        ghost var before := messages;
        messages := messages + [incoming];
        var request := Payload(ctx, messages, turn);
        var response := ctx.provider(request);
        if response.Failed? {
          ending := Returned(ChatError(incoming, response.error));
          assert Chat(ctx, before, incoming, turn, fuel).log == messages;
          return;
        }
        if response.NoChoices? {
          ending := Panicked(IndexOutOfRange);
          assert Chat(ctx, before, incoming, turn, fuel).log == messages;
          return;
        }
        var reply := response.message;
        messages := messages + [reply];
        var calls := reply.toolCalls;
        assert Same(Batch(ctx, messages, calls, 0, turn, fuel), Chat(ctx, before, incoming, turn, fuel));
        var next;
        next, ending := WalkCalls(ctx, calls, turn, fuel);
        if next.None? {
          return;
        }
        incoming := next.value;
        turn := turn + 1;
        fuel := fuel - 1;
      }
      ending := OutOfTurns;
    }

    /** The walk over the tool calls of one reply: it stops at the first
        `continue` call, at a panic, after the last call (with that call's
        tool message as `next`), or at the end of the calls. */
    method WalkCalls(ctx: Context, calls: seq<ToolCall>, turn: nat, fuel: nat) returns (next: Option<Message>, ending: Ending)
      requires |messages| >= 1 && fuel >= 1
      modifies this
      ensures next.None? ==> Same(Run(messages, ending, []), Batch(ctx, old(messages), calls, 0, turn, fuel))
      ensures next.Some? ==> Same(Chat(ctx, messages, next.value, turn + 1, fuel - 1), Batch(ctx, old(messages), calls, 0, turn, fuel))
      ensures old(messages) <= messages
      ensures next.Some? ==> calls != [] && ctx.handle(calls[|calls| - 1]) == Done(next.value)
      ensures next.Some? ==>
                var k := |messages| - |old(messages)|;
                && k < |calls| && calls[k] == calls[|calls| - 1]
                && Ordinary(ctx.handle, calls, 0, k)
                && messages == old(messages) + ToolMessages(ctx.handle, calls[..k])
    {
      ghost var start := messages;
      var i := 0;
      while i < |calls|
        invariant 0 <= i <= |calls|
        invariant Ordinary(ctx.handle, calls, 0, i)
        invariant messages == start + ToolMessages(ctx.handle, calls[..i])
        decreases |calls| - i
      {
        var call := calls[i];
        if call.name == ContinueTool {
          WalkedTo(ctx, start, calls, i, turn, fuel);
          return None, Returned("Continue");
        }
        var result := ctx.handle(call);
        if result.Panic? {
          WalkedTo(ctx, start, calls, i, turn, fuel);
          return None, Panicked(result.reason);
        }
        if call == calls[|calls| - 1] {
          WalkedTo(ctx, start, calls, i, turn, fuel);
          assert |messages| - |start| == i;
          return Some(result.value), OutOfTurns;
        }
        ToolMessagesSnoc(ctx.handle, calls, i);
        messages := messages + [result.value];
        i := i + 1;
      }
      WalkedTo(ctx, start, calls, i, turn, fuel);
      return None, Returned(messages[|messages| - 1].content);
    }
  }

  /** The instruction of the oracle's system message. */
  const OracleDirective: string := "You must answer the question with a \"yes\" or \"no\" tool call."

  /** The request of `YesNoQuestion`: its own two messages and the two answer tools. */
  function OracleRequest(question: string): (request: Request)
    ensures |request.messages| == 2
    ensures request.messages[0].role == System && request.messages[1] == UserMessage(question)
    ensures Names(request.tools) == ["yes", "no"]
  {
    Request([Message(System, OracleDirective, "", "", []), UserMessage(question)],
            [ToolDecl("yes", "Answer affirmatively", [], []), ToolDecl("no", "Answer negatively", [], [])])
  }

  /** The decision `YesNoQuestion` takes on the provider's reply. */
  function Decide(reply: Reply): (r: Outcome<bool>)
    ensures reply.Failed? ==> r == Done(false)
    ensures r.Panic? <==> reply.NoChoices? || (reply.Replied? && reply.message.toolCalls == [])
  {
    match reply
    case Failed(_) => Done(false)
    case NoChoices => Panic(IndexOutOfRange)
    case Replied(m) =>
      if m.toolCalls == [] then Panic(IndexOutOfRange)
      else if m.toolCalls[0].name == "yes" then Done(true)
      else if m.toolCalls[0].name == "no" then Done(false)
      else Done(Contains(m.content, "yes"))
  }

  /** `YesNoQuestion(question)`. */
  function YesNoQuestion(provider: Provider, question: string): (r: Outcome<bool>)
    ensures provider(OracleRequest(question)).Failed? ==> r == Done(false)
    ensures r.Panic? <==>
              || provider(OracleRequest(question)).NoChoices?
              || (provider(OracleRequest(question)).Replied? && provider(OracleRequest(question)).message.toolCalls == [])
  {
    Decide(provider(OracleRequest(question)))
  }

  /** The oracle's answer to a reply with tool calls is yes exactly when the
      first call is `yes`, or it is not `no` and "yes" occurs in the content. */
  lemma DecideMeaning(reply: Reply)
    requires reply.Replied? && reply.message.toolCalls != []
    ensures var first := reply.message.toolCalls[0].name;
            Decide(reply) == Done(true) <==>
              first == "yes" || (first != "no" && exists i :: OccursAt(reply.message.content, "yes", i))
    ensures Decide(reply).Done?
  {
    ContainsIffOccurs(reply.message.content, "yes");
  }

  /** Only the first tool call is looked at: replies that agree on it and on
      the content get the same answer, whatever their other calls. */
  lemma DecideReadsFirstCallOnly(a: Message, b: Message)
    requires a.toolCalls != [] && b.toolCalls != []
    requires a.toolCalls[0].name == b.toolCalls[0].name && a.content == b.content
    ensures Decide(Replied(a)) == Decide(Replied(b))
  {
  }
}
