/** The Home Assistant conversation agent: one turn sends the stored history
    and the user's text to the chat model; tool calls the model asks for are
    run against the grocery backend and their results sent back in a second
    request; the exchange is then remembered, bounded to ten exchanges. */
module Conversation {
  import opened Base
  import opened PyText
  import opened Json
  import opened McpClient
  import opened Dispatch

  /** The `content` of a message from the chat model: missing, `null`, or text. */
  datatype Content = Absent | Null | Text(text: string)

  /** One entry of `tool_calls`: its id, function name and JSON-encoded arguments. */
  datatype ToolCall = ToolCall(id: string, name: string, arguments: string)

  /** `choices[0].message`; `toolCalls` is empty when the key is missing,
      `null` or an empty list. */
  datatype ModelMessage = ModelMessage(content: Content, toolCalls: seq<ToolCall>)

  /** The outcome of one POST to the chat-completions endpoint: a 200 reply
      with its first choice's message, another status with its body, or an
      exception (transport failure, or a 200 body without that shape). */
  datatype ChatReply = ChatOk(message: ModelMessage) | ChatHttpError(status: int, body: string) | ChatBroken(failure: string)

  /** An entry of the `messages` list sent to the chat model. */
  datatype Message =
    | SystemPrompt
    | User(text: string)
    | Assistant(reply: Option<string>)
    | AssistantToolCalls(message: ModelMessage)
    | ToolResult(toolCallId: string, content: string)

  /** One request body: the messages, and whether the tool catalog is attached
      together with `tool_choice: auto`. */
  datatype ChatRequest = ChatRequest(messages: seq<Message>, offersTools: bool)

  /** What the agent answers: speech (possibly `None`) or an error. */
  datatype Response = Speech(text: Option<string>) | ErrorSpeech(error: string)

  datatype TurnResult = TurnResult(response: Response, conversationId: string)

  const HistoryLimit := 20
  const NoAnswer := "Omlouvám se, nemám odpověď."
  const ErrorPrefix := "Omlouvám se, došlo k chybě: "

  /** The text of the exception a failed chat request raises. */
  function ReplyFailure(reply: ChatReply): string
    requires !reply.ChatOk?
  {
    match reply
    case ChatHttpError(status, body) => "OpenAI API error: " + IntToString(status) + " - " + body
    case ChatBroken(message) => message
  }

  /** `message.get("content", "Omlouvám se, nemám odpověď.")`. */
  function DirectAnswer(content: Content): Option<string> {
    match content
    case Absent => Some(NoAnswer)
    case Null => None
    case Text(s) => Some(s)
  }

  /** `result["choices"][0]["message"]["content"]` of the second reply. */
  function FinalAnswer(reply: ChatReply): Outcome<Option<string>> {
    match reply
    case ChatOk(m) =>
      (match m.content
       case Absent => Raised("'content'")
       case Null => Returned(None)
       case Text(s) => Returned(Some(s)))
    case _ => Raised(ReplyFailure(reply))
  }

  /** The tool messages collected so far, the request bodies POSTed to the
      backend, and the decoding error that ended the loop, if any. */
  datatype Round = Round(results: seq<Message>, posts: seq<Json>, failure: Option<string>)

  /** The tool-call loop: decode each call's arguments (an undecodable one
      raises and ends the loop), run it, and collect a tool message carrying
      the call's id and the JSON text of the result. `n` is the number of
      POSTs the client made before the loop. */
  function RunCalls(calls: seq<ToolCall>, execute: (nat, string, Json) -> Executed, codec: Codec, n: nat): Round
    decreases |calls|
  {
    if calls == [] then Round([], [], None)
    else
      var before := RunCalls(calls[..|calls| - 1], execute, codec, n);
      if before.failure.Some? then before
      else
        var call := calls[|calls| - 1];
        match codec.loads(call.arguments)
        case Raised(m) => Round(before.results, before.posts, Some(m))
        case Returned(args) =>
          var run := execute(n + |before.posts|, call.name, args);
          Round(before.results + [ToolResult(call.id, codec.dumps(run.answer))], before.posts + run.posts, None)
  }

  /** The loop answers the calls in order, one tool message per call, each
      carrying its call's id; with an executor that POSTs at most once per
      call (as `_execute_function` does), it POSTs at most once per call. */
  lemma {:induction false} RunCallsAnswersInOrder(calls: seq<ToolCall>, execute: (nat, string, Json) -> Executed, codec: Codec, n: nat)
    requires forall k, name, args :: |execute(k, name, args).posts| <= 1
    ensures var round := RunCalls(calls, execute, codec, n);
      && |round.results| <= |calls| && |round.posts| <= |round.results|
      && forall i :: 0 <= i < |round.results| ==>
           round.results[i].ToolResult? && round.results[i].toolCallId == calls[i].id
    decreases |calls|
  {
    if calls != [] {
      var prefix := calls[..|calls| - 1];
      RunCallsAnswersInOrder(prefix, execute, codec, n);
      RunCallsStopsAtFirstUndecodable(prefix, execute, codec, n);
      assert forall i :: 0 <= i < |prefix| ==> prefix[i] == calls[i];
      var before := RunCalls(prefix, execute, codec, n);
      var call := calls[|calls| - 1];
      if before.failure.None? && codec.loads(call.arguments).Returned? {
        var run := execute(n + |before.posts|, call.name, codec.loads(call.arguments).value);
        assert RunCalls(calls, execute, codec, n).results == before.results + [ToolResult(call.id, codec.dumps(run.answer))];
      }
    }
  }

  /** `_execute_function` POSTs at most once per call. */
  lemma ChatExecutorPostsAtMostOnce(server: (nat, Json) -> Reply, clientLoads: string -> Outcome<Json>)
    ensures forall k, name, args :: |ChatExecutor(server, clientLoads)(k, name, args).posts| <= 1
  {
  }

  /** The loop fails exactly when some call's arguments do not decode; it
      then stops at the first such call, with that call's decoding error, and
      otherwise answers every call. */
  lemma {:induction false} RunCallsStopsAtFirstUndecodable(calls: seq<ToolCall>, execute: (nat, string, Json) -> Executed, codec: Codec, n: nat)
    ensures var round := RunCalls(calls, execute, codec, n);
      && (round.failure.None? <==> forall i :: 0 <= i < |calls| ==> codec.loads(calls[i].arguments).Returned?)
      && (round.failure.None? ==> |round.results| == |calls|)
      && (round.failure.Some? ==>
            && |round.results| < |calls|
            && codec.loads(calls[|round.results|].arguments) == Raised(round.failure.value)
            && forall i :: 0 <= i < |round.results| ==> codec.loads(calls[i].arguments).Returned?)
    decreases |calls|
  {
    if calls != [] {
      var prefix := calls[..|calls| - 1];
      RunCallsStopsAtFirstUndecodable(prefix, execute, codec, n);
      assert forall i :: 0 <= i < |prefix| ==> prefix[i] == calls[i];
    }
  }

  /** One more call, the `i`-th, whose arguments decode to `args` and whose
      run (the `k`-th POST being next) yields `run`, extends the round by its
      tool message and its POSTs. */
  lemma RunCallsStep(calls: seq<ToolCall>, i: nat, execute: (nat, string, Json) -> Executed, codec: Codec, n: nat,
                     call: ToolCall, k: nat, args: Json, run: Executed)
    requires i < |calls| && call == calls[i]
    requires RunCalls(calls[..i], execute, codec, n).failure.None?
    requires k == n + |RunCalls(calls[..i], execute, codec, n).posts|
    requires codec.loads(call.arguments) == Returned(args)
    requires run == execute(k, call.name, args)
    ensures RunCalls(calls[..i + 1], execute, codec, n)
      == Round(RunCalls(calls[..i], execute, codec, n).results + [ToolResult(call.id, codec.dumps(run.answer))],
               RunCalls(calls[..i], execute, codec, n).posts + run.posts, None)
  {
    assert calls[..i + 1][..i] == calls[..i];
  }

  /** Once a call's arguments fail to decode, later calls change nothing. */
  lemma {:induction false} FailureIsFinal(calls: seq<ToolCall>, k: nat, execute: (nat, string, Json) -> Executed, codec: Codec, n: nat)
    requires k <= |calls|
    requires RunCalls(calls[..k], execute, codec, n).failure.Some?
    ensures RunCalls(calls, execute, codec, n) == RunCalls(calls[..k], execute, codec, n)
    decreases |calls| - k
  {
    if k < |calls| {
      assert calls[..k + 1][..k] == calls[..k];
      FailureIsFinal(calls, k + 1, execute, codec, n);
    } else {
      assert calls[..k] == calls;
    }
  }

  /** Every request made, every body POSTed to the backend, and the answer
      of `_call_openai`: `r` requests were made to the chat model before it,
      and `n` POSTs to the backend. */
  datatype Exchange = Exchange(requests: seq<ChatRequest>, posts: seq<Json>, answer: Outcome<Option<string>>)

  function Converse(messages: seq<Message>, model: (nat, ChatRequest) -> ChatReply, r: nat,
                    server: (nat, Json) -> Reply, clientLoads: string -> Outcome<Json>, codec: Codec, n: nat): Exchange
  {
    var first := ChatRequest(messages, true);
    var reply := model(r, first);
    match reply
    case ChatOk(m) =>
      if m.toolCalls == [] then Exchange([first], [], Returned(DirectAnswer(m.content)))
      else
        var round := RunCalls(m.toolCalls, ChatExecutor(server, clientLoads), codec, n);
        if round.failure.Some? then Exchange([first], round.posts, Raised(round.failure.value))
        else
          var second := ChatRequest(messages + [AssistantToolCalls(m)] + round.results, false);
          Exchange([first, second], round.posts, FinalAnswer(model(r + 1, second)))
    case _ => Exchange([first], [], Raised(ReplyFailure(reply)))
  }

  /** The first request always carries the conversation and the tool catalog;
      a second request is made only after tool calls, without the catalog. */
  lemma ConverseRequests(messages: seq<Message>, model: (nat, ChatRequest) -> ChatReply, r: nat,
                         server: (nat, Json) -> Reply, clientLoads: string -> Outcome<Json>, codec: Codec, n: nat)
    ensures var x := Converse(messages, model, r, server, clientLoads, codec, n);
      && 1 <= |x.requests| <= 2
      && x.requests[0] == ChatRequest(messages, true)
      && (|x.requests| == 2 ==>
            && model(r, x.requests[0]).ChatOk? && model(r, x.requests[0]).message.toolCalls != []
            && !x.requests[1].offersTools)
  {
  }

  /** A reply without tool calls is the answer: its content, the fixed
      apology when the content is missing, `None` when it is `null`; nothing
      is sent to the backend. */
  lemma ReplyWithoutToolCalls(messages: seq<Message>, model: (nat, ChatRequest) -> ChatReply, r: nat,
                              server: (nat, Json) -> Reply, clientLoads: string -> Outcome<Json>, codec: Codec, n: nat)
    requires model(r, ChatRequest(messages, true)).ChatOk?
    requires model(r, ChatRequest(messages, true)).message.toolCalls == []
    ensures var x := Converse(messages, model, r, server, clientLoads, codec, n);
      var content := model(r, ChatRequest(messages, true)).message.content;
      && x.posts == []
      && x.answer == Returned(match content case Absent => Some(NoAnswer) case Null => None case Text(s) => Some(s))
  {
  }

  /** A failed first request raises its error and contacts nobody else. */
  lemma FailedFirstRequest(messages: seq<Message>, model: (nat, ChatRequest) -> ChatReply, r: nat,
                           server: (nat, Json) -> Reply, clientLoads: string -> Outcome<Json>, codec: Codec, n: nat)
    requires model(r, ChatRequest(messages, true)).ChatHttpError?
    ensures var x := Converse(messages, model, r, server, clientLoads, codec, n);
      var reply := model(r, ChatRequest(messages, true));
      && x.posts == [] && |x.requests| == 1
      && x.answer == Raised("OpenAI API error: " + IntToString(reply.status) + " - " + reply.body)
  {
  }

  /** After tool calls whose arguments all decode, the second request holds the
      conversation, then the model's message, then exactly one tool message per
      call in order, each carrying that call's id. */
  lemma SecondRequestAnswersEveryCall(messages: seq<Message>, model: (nat, ChatRequest) -> ChatReply, r: nat,
                                      server: (nat, Json) -> Reply, clientLoads: string -> Outcome<Json>, codec: Codec, n: nat)
    requires model(r, ChatRequest(messages, true)).ChatOk?
    requires model(r, ChatRequest(messages, true)).message.toolCalls != []
    requires forall i :: 0 <= i < |model(r, ChatRequest(messages, true)).message.toolCalls| ==>
      codec.loads(model(r, ChatRequest(messages, true)).message.toolCalls[i].arguments).Returned?
    ensures var x := Converse(messages, model, r, server, clientLoads, codec, n);
      var m := model(r, ChatRequest(messages, true)).message;
      && |x.requests| == 2
      && |x.requests[1].messages| == |messages| + 1 + |m.toolCalls|
      && x.requests[1].messages[..|messages| + 1] == messages + [AssistantToolCalls(m)]
      && (forall i :: 0 <= i < |m.toolCalls| ==>
            && x.requests[1].messages[|messages| + 1 + i].ToolResult?
            && x.requests[1].messages[|messages| + 1 + i].toolCallId == m.toolCalls[i].id)
      && x.answer == FinalAnswer(model(r + 1, x.requests[1]))
  {
    var m := model(r, ChatRequest(messages, true)).message;
    var round := RunCalls(m.toolCalls, ChatExecutor(server, clientLoads), codec, n);
    RunCallsStopsAtFirstUndecodable(m.toolCalls, ChatExecutor(server, clientLoads), codec, n);
    ChatExecutorPostsAtMostOnce(server, clientLoads);
    RunCallsAnswersInOrder(m.toolCalls, ChatExecutor(server, clientLoads), codec, n);
    var msgs := messages + [AssistantToolCalls(m)] + round.results;
    assert msgs[..|messages| + 1] == messages + [AssistantToolCalls(m)];
    assert forall i :: 0 <= i < |m.toolCalls| ==> msgs[|messages| + 1 + i] == round.results[i];
  }

  /** Arguments that do not decode abort the whole turn: no second request,
      and the decoding error is raised. */
  lemma UndecodableArgumentsAbortTheTurn(messages: seq<Message>, model: (nat, ChatRequest) -> ChatReply, r: nat,
                                         server: (nat, Json) -> Reply, clientLoads: string -> Outcome<Json>, codec: Codec, n: nat, k: nat)
    requires model(r, ChatRequest(messages, true)).ChatOk?
    requires k < |model(r, ChatRequest(messages, true)).message.toolCalls|
    requires codec.loads(model(r, ChatRequest(messages, true)).message.toolCalls[k].arguments).Raised?
    ensures var x := Converse(messages, model, r, server, clientLoads, codec, n);
      && |x.requests| == 1
      && x.answer.Raised?
  {
    var m := model(r, ChatRequest(messages, true)).message;
    RunCallsStopsAtFirstUndecodable(m.toolCalls, ChatExecutor(server, clientLoads), codec, n);
  }

  /** `user_input.conversation_id or ulid.ulid()`: a missing or empty id is
      replaced by a fresh one. */
  function ChosenId(supplied: Option<string>, generated: string): (id: string)
    ensures supplied.Some? && supplied.value != "" ==> id == supplied.value
    ensures supplied.None? || supplied.value == "" ==> id == generated
  {
    if supplied.Some? && supplied.value != "" then supplied.value else generated
  }

  /** The stored history of a conversation; an unseen one starts empty. */
  function HistoryOf(histories: map<string, seq<Message>>, id: string): seq<Message> {
    if id in histories then histories[id] else []
  }

  /** The messages of the first request: the system prompt, the history, the
      user's text. */
  function Prompt(history: seq<Message>, text: string): seq<Message> {
    [SystemPrompt] + history + [User(text)]
  }

  /** The history after a successful turn: the exchange appended, then only
      the last twenty messages kept. */
  function Remember(history: seq<Message>, text: string, reply: Option<string>): seq<Message> {
    var extended := history + [User(text), Assistant(reply)];
    if |extended| > HistoryLimit then extended[|extended| - HistoryLimit..] else extended
  }

  /** A stored history: at most ten exchanges, each a user message followed by
      the assistant's answer. */
  predicate IsHistory(h: seq<Message>) {
    && |h| <= HistoryLimit && |h| % 2 == 0
    && forall i :: 0 <= i < |h| ==> if i % 2 == 0 then h[i].User? else h[i].Assistant?
  }

  /** Remembering keeps a stored history well formed, ends it with the new
      exchange, and drops the oldest exchange only when ten are already kept. */
  lemma RememberKeepsHistory(h: seq<Message>, text: string, reply: Option<string>)
    requires IsHistory(h)
    ensures IsHistory(Remember(h, text, reply))
    ensures var k := Remember(h, text, reply);
      k[|k| - 2..] == [User(text), Assistant(reply)]
    ensures |h| < HistoryLimit ==> Remember(h, text, reply) == h + [User(text), Assistant(reply)]
    ensures |h| == HistoryLimit ==> Remember(h, text, reply) == h[2..] + [User(text), Assistant(reply)]
  {
    var tail := [User(text), Assistant(reply)];
    var extended := h + tail;
    if |h| < HistoryLimit {
      assert Remember(h, text, reply) == extended;
      forall i | 0 <= i < |extended|
        ensures if i % 2 == 0 then extended[i].User? else extended[i].Assistant?
      {
        if i < |h| {
          assert extended[i] == h[i];
        } else {
          assert extended[i] == tail[i - |h|];
        }
      }
    } else {
      var k := h[2..] + tail;
      assert extended[|extended| - HistoryLimit..] == k;
      forall i | 0 <= i < |k|
        ensures if i % 2 == 0 then k[i].User? else k[i].Assistant?
      {
        if i < |h| - 2 {
          assert k[i] == h[i + 2];
        } else {
          assert k[i] == tail[i - (|h| - 2)];
        }
      }
    }
  }

  /** `RohlikConversationAgent`. The chat model is `model`: the reply to the
      `r`-th request with a given body. `requests` records every request. */
  class Agent {
    const client: Client
    const codec: Codec
    const model: (nat, ChatRequest) -> ChatReply
    var histories: map<string, seq<Message>>
    var requests: seq<ChatRequest>

    predicate Valid()
      reads this
    {
      forall id | id in histories :: IsHistory(histories[id])
    }

    constructor (client: Client, codec: Codec, model: (nat, ChatRequest) -> ChatReply)
      ensures this.client == client && this.codec == codec && this.model == model
      ensures histories == map[] && requests == []
      ensures Valid()
    {
      this.client := client;
      this.codec := codec;
      this.model := model;
      histories := map[];
      requests := [];
    }

    /** The `for tool_call in message["tool_calls"]` loop of `_call_openai`. */
    method RunToolCalls(calls: seq<ToolCall>) returns (results: seq<Message>, failure: Option<string>)
      modifies client
      ensures var round := RunCalls(calls, ChatExecutor(client.server, client.loads), codec, |old(client.posted)|);
        && results == round.results && failure == round.failure
        && client.posted == old(client.posted) + round.posts
        && client.sessionOpen == (old(client.sessionOpen) || round.posts != [])
    {
      var execute := ChatExecutor(client.server, client.loads);
      results := [];
      failure := None;
      var i := 0;
      while i < |calls|
        invariant 0 <= i <= |calls|
        invariant var round := RunCalls(calls[..i], execute, codec, |old(client.posted)|);
          && round.failure.None?
          && results == round.results
          && client.posted == old(client.posted) + round.posts
          && client.sessionOpen == (old(client.sessionOpen) || round.posts != [])
      {
        var call := calls[i];
        assert calls[..i + 1][..i] == calls[..i];
        var decoded := codec.loads(call.arguments);
        if decoded.Raised? {
          FailureIsFinal(calls, i + 1, execute, codec, |old(client.posted)|);
          failure := Some(decoded.message);
          return;
        }
        ghost var before := RunCalls(calls[..i], execute, codec, |old(client.posted)|);
        ghost var k := |client.posted|;
        assert k == |old(client.posted)| + |before.posts|;
        var result := ExecuteFunction(client, call.name, decoded.value);
        ghost var run := Executed(result, Posts(Route(JStr(call.name), decoded.value)));
        assert execute(k, call.name, decoded.value) == run;
        RunCallsStep(calls, i, execute, codec, |old(client.posted)|, call, k, decoded.value, run);
        results := results + [ToolResult(call.id, codec.dumps(result))];
        i := i + 1;
      }
      assert calls[..i] == calls;
    }

    /** `_call_openai`. */
    method CallOpenAi(messages: seq<Message>) returns (answer: Outcome<Option<string>>)
      modifies this`requests, client
      ensures var x := Converse(messages, model, |old(requests)|, client.server, client.loads, codec, |old(client.posted)|);
        && requests == old(requests) + x.requests
        && client.posted == old(client.posted) + x.posts
        && client.sessionOpen == (old(client.sessionOpen) || x.posts != [])
        && answer == x.answer
    {
      ghost var r := |requests|;
      ghost var n := |client.posted|;
      var first := ChatRequest(messages, true);
      var reply := model(|requests|, first);
      requests := requests + [first];
      match reply {
        case ChatOk(m) =>
          if m.toolCalls == [] {
            answer := Returned(DirectAnswer(m.content));
          } else {
            var results, failure := RunToolCalls(m.toolCalls);
            ghost var round := RunCalls(m.toolCalls, ChatExecutor(client.server, client.loads), codec, n);
            assert client.posted == old(client.posted) + round.posts;
            if failure.Some? {
              answer := Raised(failure.value);
              assert Converse(messages, model, r, client.server, client.loads, codec, n)
                == Exchange([first], round.posts, answer);
            } else {
              var second := ChatRequest(messages + [AssistantToolCalls(m)] + results, false);
              var reply2 := model(|requests|, second);
              requests := requests + [second];
              answer := FinalAnswer(reply2);
              assert Converse(messages, model, r, client.server, client.loads, codec, n)
                == Exchange([first, second], round.posts, answer);
            }
          }
        case _ =>
          answer := Raised(ReplyFailure(reply));
      }
    }

    /** `async_process`: one conversation turn. */
    method Process(text: string, supplied: Option<string>, generated: string) returns (result: TurnResult)
      requires Valid()
      modifies this, client
      ensures Valid()
      ensures result.conversationId == ChosenId(supplied, generated)
      ensures var id := ChosenId(supplied, generated);
        var h := HistoryOf(old(histories), id);
        var x := Converse(Prompt(h, text), model, |old(requests)|, client.server, client.loads, codec, |old(client.posted)|);
        && requests == old(requests) + x.requests
        && client.posted == old(client.posted) + x.posts
        && client.sessionOpen == (old(client.sessionOpen) || x.posts != [])
        && match x.answer
           case Returned(reply) =>
             result.response == Speech(reply) && histories == old(histories)[id := Remember(h, text, reply)]
           case Raised(m) =>
             result.response == ErrorSpeech(ErrorPrefix + m) && histories == old(histories)[id := h]
    {
      var id := ChosenId(supplied, generated);
      if id !in histories {
        histories := histories[id := []];
      }
      var history := histories[id];
      var answer := CallOpenAi(Prompt(history, text));
      match answer {
        case Returned(reply) =>
          RememberKeepsHistory(history, text, reply);
          histories := histories[id := Remember(history, text, reply)];
          result := TurnResult(Speech(reply), id);
        case Raised(m) =>
          result := TurnResult(ErrorSpeech(ErrorPrefix + m), id);
      }
    }
  }
}
