/** The handler of one OpenAI realtime session (`RealtimeAPIHandler`): its
    connection state, the events it sends, and how it reacts to the events
    the API sends back. The socket, the session and the receive task are
    reduced to what the handler can observe of them; everything it sends is
    recorded in `sent`, and every callback invocation in `delivered`. */
module Realtime {
  import opened Base
  import opened Json
  import opened McpClient
  import opened Dispatch

  /** `_ws`: no socket, an open one, or one the peer has closed. */
  datatype Socket = NoSocket | Open | Closed

  /** The events sent to the API, by their `type`. */
  datatype Event =
    | SessionUpdate                                // `session.update` with instructions and the catalog
    | AudioAppend(audio: string)                   // `input_audio_buffer.append`, base64 text
    | AudioCommit                                  // `input_audio_buffer.commit`
    | ResponseCreate                               // `response.create`
    | UserText(text: Json)                         // `conversation.item.create` with a user `input_text`
    | FunctionOutput(callId: Json, output: string) // `conversation.item.create` with a `function_call_output`

  /** One invocation of the audio or transcript callback. */
  datatype Delivery = AudioDelta(audio: seq<byte>) | TranscriptDelta(text: Json)

  /** How far `connect` gets: the handshake fails, the socket opens but the
      `session.update` cannot be sent, or both succeed. */
  datatype ConnectStep = HandshakeFailed | ConfigureFailed | Established

  /** A message read from the socket; `OtherMessage` is any kind the loop
      ignores (binary, ping, pong). */
  datatype Inbound = TextMessage(data: string) | OtherMessage | ErrorMessage | ClosedMessage

  /** The callbacks given to the constructor; a function call is abstracted
      as a value of the shape of `Dispatch.RelayExecutor`. */
  datatype Hooks = Hooks(audio: bool, transcript: bool, call: Option<(nat, Json, Json) -> Relayed>)

  /** What handling messages does: events sent, callbacks invoked, bodies
      POSTed by function calls, and the exception that ended it, if any. */
  datatype Effect = Effect(sent: seq<Event>, delivered: seq<Delivery>, posts: seq<Json>, failure: Option<string>)

  const NoEffect := Effect([], [], [], None)

  function Failed(message: string): Effect {
    Effect([], [], [], Some(message))
  }

  /** `a` followed by `b`. */
  function Then(a: Effect, b: Effect): Effect {
    Effect(a.sent + b.sent, a.delivered + b.delivered, a.posts + b.posts, b.failure)
  }

  /** The output text of a function result: `json.dumps` for a dict, `str`
      for anything else. */
  function ResultText(result: Json, codec: Codec): string {
    if result.JObj? then codec.dumps(result) else PyStr(result, codec)
  }

  /** What `_send_function_result` sends while connected or not. */
  function ResultEvents(callId: Json, result: Json, live: bool, codec: Codec): seq<Event> {
    if live then [FunctionOutput(callId, ResultText(result, codec)), ResponseCreate] else []
  }

  /** `json.loads(arguments_str)` with `JSONDecodeError` turned into `{}`;
      a value that is not a str raises a `TypeError`, which is not caught. */
  function DecodeArguments(v: Json, codec: Codec): Outcome<Json> {
    match v
    case JStr(s) =>
      (match codec.loads(s)
       case Returned(a) => Returned(a)
       case Raised(_) => Returned(EmptyObject))
    case _ => Raised("the JSON object must be str, bytes or bytearray, not " + TypeName(v))
  }

  /** `base64.b64decode(v)`: a str is decoded, anything else raises. */
  function B64Decode(v: Json, codec: Codec): Outcome<seq<byte>> {
    if v.JStr? then codec.b64decode(v.s)
    else Raised("argument should be a bytes-like object or ASCII string, not '" + TypeName(v) + "'")
  }

  /** `_handle_function_call` on an event's fields; `n` POSTs were made before. */
  function FunctionCallEffect(fields: map<string, Json>, live: bool, call: Option<(nat, Json, Json) -> Relayed>,
                              codec: Codec, n: nat): Effect
  {
    var callId := Lookup(fields, "call_id", JStr(""));
    var name := Lookup(fields, "name", JStr(""));
    match DecodeArguments(Lookup(fields, "arguments", JStr("{}")), codec)
    case Raised(m) => Failed(m)
    case Returned(args) =>
      match call
      case None => NoEffect
      case Some(execute) =>
        var run := execute(n, name, args);
        var result := match run.answer case Returned(j) => j case Raised(m) => ErrorText(m);
        Effect(if result.JNull? then [] else ResultEvents(callId, result, live, codec), [], run.posts, None)
  }

  /** The event types `_handle_message` does more with than log. */
  const ActedOn: set<Json> := {JStr("session.created"), JStr("response.audio.delta"),
                               JStr("response.audio_transcript.delta"), JStr("response.function_call_arguments.done")}

  /** `_handle_message` on a decoded event. */
  function MessageEffect(message: Json, live: bool, hooks: Hooks, codec: Codec, n: nat): Effect {
    match Get(message, "type", JStr(""))
    case Raised(m) => Failed(m)
    case Returned(kind) =>
      if kind == JStr("session.created") then
        (match Get(Lookup(message.fields, "session", EmptyObject), "id", JNull)
         case Raised(m) => Failed(m)
         case Returned(_) => NoEffect)
      else if kind == JStr("response.audio.delta") then
        var delta := Lookup(message.fields, "delta", JStr(""));
        if Truthy(delta) && hooks.audio then
          (match B64Decode(delta, codec)
           case Raised(m) => Failed(m)
           case Returned(audio) => Effect([], [AudioDelta(audio)], [], None))
        else NoEffect
      else if kind == JStr("response.audio_transcript.delta") then
        var delta := Lookup(message.fields, "delta", JStr(""));
        if Truthy(delta) && hooks.transcript then Effect([], [TranscriptDelta(delta)], [], None)
        else NoEffect
      else if kind == JStr("response.function_call_arguments.done") then
        FunctionCallEffect(message.fields, live, hooks.call, codec, n)
      else NoEffect
  }

  /** `_handle_message` as a value: the effect of a decoded event when `n`
      POSTs were made before. */
  function MessageHandler(live: bool, hooks: Hooks, codec: Codec): (Json, nat) -> Effect {
    (message: Json, n: nat) => MessageEffect(message, live, hooks, codec, n)
  }

  /** `handle` behaves as `_handle_message` of a handler whose connection
      state is `live`. */
  ghost predicate Handles(handle: (Json, nat) -> Effect, live: bool, hooks: Hooks, codec: Codec) {
    forall m: Json, k: nat {:trigger MessageEffect(m, live, hooks, codec, k)} ::
      handle(m, k) == MessageEffect(m, live, hooks, codec, k)
  }

  lemma HandlerHandles(live: bool, hooks: Hooks, codec: Codec)
    ensures Handles(MessageHandler(live, hooks, codec), live, hooks, codec)
  {
  }

  /** The effect of one message read by `_receive_loop`, and whether the
      loop goes on: a text message is decoded and handled, other kinds are
      skipped, an error or close message ends the loop, and so does an
      exception. */
  datatype Stepped = Stepped(effect: Effect, goOn: bool)

  function Step(item: Inbound, handle: (Json, nat) -> Effect, loads: string -> Outcome<Json>, n: nat): Stepped {
    match item
    case ErrorMessage => Stepped(NoEffect, false)
    case ClosedMessage => Stepped(NoEffect, false)
    case OtherMessage => Stepped(NoEffect, true)
    case TextMessage(data) =>
      match loads(data)
      case Raised(m) => Stepped(Failed(m), false)
      case Returned(message) =>
        var e := handle(message, n);
        Stepped(e, e.failure.None?)
  }

  /** `_receive_loop` over the messages the socket yields until it stops. */
  function Receive(inbound: seq<Inbound>, handle: (Json, nat) -> Effect, loads: string -> Outcome<Json>, n: nat): Effect
    decreases |inbound|
  {
    if inbound == [] then NoEffect
    else
      var s := Step(inbound[0], handle, loads, n);
      if s.goOn then Then(s.effect, Receive(inbound[1..], handle, loads, n + |s.effect.posts|)) else s.effect
  }

  /** Whether `_receive_loop` stops at a `CLOSED` message, after which the
      socket reports itself closed. */
  function EndsOnClose(inbound: seq<Inbound>, handle: (Json, nat) -> Effect, loads: string -> Outcome<Json>, n: nat): bool
    decreases |inbound|
  {
    if inbound == [] then false
    else
      var s := Step(inbound[0], handle, loads, n);
      if s.goOn then EndsOnClose(inbound[1..], handle, loads, n + |s.effect.posts|) else inbound[0].ClosedMessage?
  }

  /* ---------------------------------------------------------------------- */
  /* Properties of message handling                                          */

  /** Malformed argument text becomes `{}`; only a value that is not a str
      makes the decoding raise. */
  lemma MalformedArgumentsBecomeEmpty(v: Json, codec: Codec)
    ensures v.JStr? && codec.loads(v.s).Raised? ==> DecodeArguments(v, codec) == Returned(EmptyObject)
    ensures v.JStr? && codec.loads(v.s).Returned? ==> DecodeArguments(v, codec) == codec.loads(v.s)
    ensures DecodeArguments(v, codec).Raised? <==> !v.JStr?
  {
  }

  /** A function-call event sends either nothing or exactly the output for
      its own `call_id` followed by `response.create`, and the latter only
      while connected; an exception leaves no trace. */
  lemma FunctionCallSendsOnePair(fields: map<string, Json>, live: bool, call: Option<(nat, Json, Json) -> Relayed>, codec: Codec, n: nat)
    ensures var e := FunctionCallEffect(fields, live, call, codec, n);
      && e.delivered == []
      && (e.sent == [] || (live && |e.sent| == 2 && e.sent[0].FunctionOutput?
                           && e.sent[0].callId == Lookup(fields, "call_id", JStr("")) && e.sent[1] == ResponseCreate))
      && (e.failure.Some? ==> e.sent == [] && e.posts == [])
  {
  }

  /** Without a handler nothing is sent or POSTed; a handler answering
      `None` sends nothing either. */
  lemma SilentFunctionCalls(fields: map<string, Json>, live: bool, execute: (nat, Json, Json) -> Relayed, codec: Codec, n: nat, args: Json)
    ensures FunctionCallEffect(fields, live, None, codec, n).sent == []
    ensures FunctionCallEffect(fields, live, None, codec, n).posts == []
    ensures DecodeArguments(Lookup(fields, "arguments", JStr("{}")), codec) == Returned(args)
            && execute(n, Lookup(fields, "name", JStr("")), args).answer == Returned(JNull)
        ==> FunctionCallEffect(fields, live, Some(execute), codec, n).sent == []
  {
  }

  /** A handler's exception is sent back as `{"error": str(err)}`, encoded
      as JSON. */
  lemma HandlerErrorIsReported(fields: map<string, Json>, execute: (nat, Json, Json) -> Relayed, codec: Codec, n: nat, args: Json, m: string)
    requires DecodeArguments(Lookup(fields, "arguments", JStr("{}")), codec) == Returned(args)
    requires execute(n, Lookup(fields, "name", JStr("")), args).answer == Raised(m)
    ensures FunctionCallEffect(fields, true, Some(execute), codec, n).sent
      == [FunctionOutput(Lookup(fields, "call_id", JStr("")), codec.dumps(ErrorText(m))), ResponseCreate]
    ensures FunctionCallEffect(fields, true, Some(execute), codec, n).failure.None?
  {
  }

  /** Event types other than the four acted on change nothing, and an event
      that is not a dict raises at `message.get`. */
  lemma OtherEventsHaveNoEffect(message: Json, live: bool, hooks: Hooks, codec: Codec, n: nat)
    ensures message.JObj? && Lookup(message.fields, "type", JStr("")) !in ActedOn ==>
      MessageEffect(message, live, hooks, codec, n) == NoEffect
    ensures !message.JObj? ==> MessageEffect(message, live, hooks, codec, n) == Failed(NoAttribute(message, "get"))
  {
  }

  /** An audio delta reaches the callback, decoded, exactly when it is
      truthy, a callback is set and the decoding succeeds. */
  lemma AudioDeltaDelivery(fields: map<string, Json>, live: bool, hooks: Hooks, codec: Codec, n: nat)
    requires Lookup(fields, "type", JStr("")) == JStr("response.audio.delta")
    ensures var delta := Lookup(fields, "delta", JStr(""));
      var e := MessageEffect(JObj(fields), live, hooks, codec, n);
      && e.sent == [] && e.posts == []
      && (e.delivered != [] <==> Truthy(delta) && hooks.audio && B64Decode(delta, codec).Returned?)
      && (e.delivered != [] ==> e.delivered == [AudioDelta(B64Decode(delta, codec).value)])
  {
  }

  /** `s` is a run of (function output, `response.create`) pairs. */
  predicate Paired(s: seq<Event>)
    decreases |s|
  {
    s == [] || (|s| >= 2 && s[0].FunctionOutput? && s[1] == ResponseCreate && Paired(s[2..]))
  }

  lemma {:induction false} PairedAppend(a: seq<Event>, b: seq<Event>)
    requires Paired(a) && Paired(b)
    ensures Paired(a + b)
    decreases |a|
  {
    if a != [] {
      PairedAppend(a[2..], b);
      assert |a + b| >= 2 && (a + b)[0] == a[0] && (a + b)[1] == a[1];
      assert (a + b)[2..] == a[2..] + b;
      assert Paired((a + b)[2..]);
    } else {
      assert a + b == b;
    }
  }

  /** Handling one event sends nothing but (output, `response.create`)
      pairs, nothing while disconnected, and nothing without a handler. */
  lemma MessageSends(message: Json, live: bool, hooks: Hooks, codec: Codec, n: nat)
    ensures var e := MessageEffect(message, live, hooks, codec, n);
      && Paired(e.sent)
      && (!live ==> e.sent == [])
      && (hooks.call.None? ==> e.sent == [] && e.posts == [])
      && (e.failure.Some? ==> e.sent == [] && e.delivered == [] && e.posts == [])
  {
    if message.JObj? && Lookup(message.fields, "type", JStr("")) == JStr("response.function_call_arguments.done") {
      FunctionCallSendsOnePair(message.fields, live, hooks.call, codec, n);
      var e := MessageEffect(message, live, hooks, codec, n);
      if e.sent != [] {
        assert e.sent[2..] == [];
      }
    }
  }

  /** The concrete handler, quantified over every event. */
  lemma MessageHandlerSends(live: bool, hooks: Hooks, codec: Codec)
    ensures forall m: Json, k: nat :: Paired(MessageHandler(live, hooks, codec)(m, k).sent)
    ensures !live ==> forall m: Json, k: nat :: MessageHandler(live, hooks, codec)(m, k).sent == []
    ensures hooks.call.None? ==> forall m: Json, k: nat :: MessageHandler(live, hooks, codec)(m, k).posts == []
  {
    forall m: Json, k: nat
      ensures var e := MessageHandler(live, hooks, codec)(m, k);
        Paired(e.sent) && (!live ==> e.sent == []) && (hooks.call.None? ==> e.posts == [])
    {
      MessageSends(m, live, hooks, codec, k);
    }
  }

  /** The loop sends what its handler sends, and POSTs what it POSTs: only
      pairs if the handler sends only pairs, and nothing if it sends or
      POSTs nothing. */
  lemma {:induction false} ReceiveSends(inbound: seq<Inbound>, handle: (Json, nat) -> Effect, loads: string -> Outcome<Json>, n: nat)
    ensures (forall m: Json, k: nat :: Paired(handle(m, k).sent)) ==> Paired(Receive(inbound, handle, loads, n).sent)
    ensures (forall m: Json, k: nat :: handle(m, k).sent == []) ==> Receive(inbound, handle, loads, n).sent == []
    ensures (forall m: Json, k: nat :: handle(m, k).posts == []) ==> Receive(inbound, handle, loads, n).posts == []
    decreases |inbound|
  {
    if inbound != [] {
      var s := Step(inbound[0], handle, loads, n);
      if s.goOn {
        ReceiveSends(inbound[1..], handle, loads, n + |s.effect.posts|);
        if forall m: Json, k: nat :: Paired(handle(m, k).sent) {
          PairedAppend(s.effect.sent, Receive(inbound[1..], handle, loads, n + |s.effect.posts|).sent);
        }
      }
    }
  }

  /** The realtime receive loop sends only (output, `response.create`)
      pairs; nothing at all while disconnected; nothing and no POST without
      a function-call handler. */
  lemma ReceiveLoopSends(inbound: seq<Inbound>, live: bool, hooks: Hooks, codec: Codec, n: nat)
    ensures var e := Receive(inbound, MessageHandler(live, hooks, codec), codec.loads, n);
      && Paired(e.sent)
      && (!live ==> e.sent == [])
      && (hooks.call.None? ==> e.sent == [] && e.posts == [])
  {
    MessageHandlerSends(live, hooks, codec);
    ReceiveSends(inbound, MessageHandler(live, hooks, codec), codec.loads, n);
  }

  /** An error or close message ends the loop: nothing after it is read. */
  lemma {:induction false} ReceiveStopsAtError(inbound: seq<Inbound>, i: nat, handle: (Json, nat) -> Effect, loads: string -> Outcome<Json>, n: nat)
    requires i < |inbound| && (inbound[i].ErrorMessage? || inbound[i].ClosedMessage?)
    ensures Receive(inbound, handle, loads, n) == Receive(inbound[..i], handle, loads, n)
    decreases i
  {
    if i > 0 {
      assert inbound[..i][0] == inbound[0];
      assert inbound[..i][1..] == inbound[1..][..i - 1];
      var s := Step(inbound[0], handle, loads, n);
      if s.goOn {
        ReceiveStopsAtError(inbound[1..], i - 1, handle, loads, n + |s.effect.posts|);
      }
    }
  }

  /** Only a `CLOSED` message leaves the socket closed. */
  lemma {:induction false} EndsOnCloseNeedsACloseMessage(inbound: seq<Inbound>, handle: (Json, nat) -> Effect, loads: string -> Outcome<Json>, n: nat)
    ensures EndsOnClose(inbound, handle, loads, n) ==> ClosedMessage in inbound
    decreases |inbound|
  {
    if inbound != [] {
      var s := Step(inbound[0], handle, loads, n);
      if s.goOn {
        EndsOnCloseNeedsACloseMessage(inbound[1..], handle, loads, n + |s.effect.posts|);
        assert EndsOnClose(inbound, handle, loads, n) ==> ClosedMessage in inbound[1..];
      }
    }
  }

  /** A `CLOSED` message after messages the loop skips ends it with the
      socket closed. */
  lemma {:induction false} CloseAfterSkippedMessages(inbound: seq<Inbound>, i: nat, handle: (Json, nat) -> Effect, loads: string -> Outcome<Json>, n: nat)
    requires i < |inbound| && inbound[i].ClosedMessage?
    requires forall k :: 0 <= k < i ==> inbound[k].OtherMessage?
    ensures EndsOnClose(inbound, handle, loads, n)
    decreases i
  {
    if i > 0 {
      CloseAfterSkippedMessages(inbound[1..], i - 1, handle, loads, n);
    }
  }

  /** One step of `EndsOnClose` at position `i`. */
  lemma CloseFold(inbound: seq<Inbound>, i: nat, handle: (Json, nat) -> Effect, loads: string -> Outcome<Json>, n: nat, s: Stepped)
    requires i < |inbound|
    requires s == Step(inbound[i], handle, loads, n)
    ensures EndsOnClose(inbound[i..], handle, loads, n)
      == if s.goOn then EndsOnClose(inbound[i + 1..], handle, loads, n + |s.effect.posts|) else inbound[i].ClosedMessage?
  {
    assert inbound[i..][0] == inbound[i] && inbound[i..][1..] == inbound[i + 1..];
  }

  /** One step of `Receive` at position `i`, after the effect `done` of the
      messages before it. */
  lemma ReceiveFold(inbound: seq<Inbound>, i: nat, handle: (Json, nat) -> Effect, loads: string -> Outcome<Json>,
                    done: Effect, n: nat, s: Stepped)
    requires i < |inbound|
    requires Then(done, Receive(inbound[i..], handle, loads, n + |done.posts|)) == Receive(inbound, handle, loads, n)
    requires s == Step(inbound[i], handle, loads, n + |done.posts|)
    ensures s.goOn ==>
      Then(Then(done, s.effect), Receive(inbound[i + 1..], handle, loads, n + |Then(done, s.effect).posts|))
        == Receive(inbound, handle, loads, n)
    ensures !s.goOn ==> Then(done, s.effect) == Receive(inbound, handle, loads, n)
  {
    assert inbound[i..][0] == inbound[i] && inbound[i..][1..] == inbound[i + 1..];
    ThenAssociates(done, s.effect, Receive(inbound[i + 1..], handle, loads, n + |done.posts| + |s.effect.posts|));
  }

  /** Handling the rest after an effect-free prefix: the fold the loop of
      `ReceiveLoop` keeps. */
  lemma ThenAssociates(a: Effect, b: Effect, c: Effect)
    ensures Then(Then(a, b), c) == Then(a, Then(b, c))
  {
    assert (a.sent + b.sent) + c.sent == a.sent + (b.sent + c.sent);
    assert (a.delivered + b.delivered) + c.delivered == a.delivered + (b.delivered + c.delivered);
    assert (a.posts + b.posts) + c.posts == a.posts + (b.posts + c.posts);
  }

  /* ---------------------------------------------------------------------- */
  /* The handler object                                                      */

  /** `RealtimeAPIHandler`. `flag` is `_connected`, `sessionOpen` says an
      HTTP session is held, `receiving` that a receive task is held. The
      function-call callback, when there is one, is a value of the shape of
      `Dispatch.RelayExecutor`: its answer depends on the number of POSTs it
      made before, and `posted` records the bodies it POSTs. */
  class Handler {
    const apiKey: string
    const codec: Codec
    const onAudioDelta: bool
    const onTranscript: bool
    const onFunctionCall: Option<(nat, Json, Json) -> Relayed>
    var flag: bool
    var ws: Socket
    var sessionOpen: bool
    var receiving: bool
    var sent: seq<Event>
    var delivered: seq<Delivery>
    var posted: seq<Json>

    /** The handler's own flag is only set while the socket is open, a
        session is held and a receive task runs. */
    predicate Valid()
      reads this
    {
      flag ==> ws == Open && sessionOpen && receiving
    }

    function HooksOf(): Hooks {
      Hooks(onAudioDelta, onTranscript, onFunctionCall)
    }

    constructor (apiKey: string, codec: Codec, onAudioDelta: bool, onTranscript: bool,
                 onFunctionCall: Option<(nat, Json, Json) -> Relayed>)
      ensures Valid()
      ensures this.apiKey == apiKey && this.codec == codec && this.onFunctionCall == onFunctionCall
      ensures this.onAudioDelta == onAudioDelta && this.onTranscript == onTranscript
      ensures !flag && ws == NoSocket && !sessionOpen && !receiving && sent == [] && delivered == [] && posted == []
    {
      this.apiKey := apiKey;
      this.codec := codec;
      this.onAudioDelta := onAudioDelta;
      this.onTranscript := onTranscript;
      this.onFunctionCall := onFunctionCall;
      flag := false;
      ws := NoSocket;
      sessionOpen := false;
      receiving := false;
      sent := [];
      delivered := [];
      posted := [];
    }

    /** `connected`: the flag is set and the socket exists and is open. */
    predicate Connected()
      reads this
    {
      flag && ws == Open
    }

    /** Under the invariant the property reduces to the flag. */
    lemma ConnectedIsTheFlag()
      requires Valid()
      ensures Connected() <==> flag
      ensures Connected() ==> sessionOpen && receiving
    {
    }

    /** `connect`: a new session, then the handshake, then `session.update`;
        the answer says whether all three succeeded. */
    method Connect(step: ConnectStep) returns (ok: bool)
      requires Valid()
      modifies this`flag, this`ws, this`sessionOpen, this`receiving, this`sent
      ensures Valid()
      ensures ok == step.Established? && ok == Connected()
      ensures sessionOpen
      ensures ws == (if step.HandshakeFailed? then old(ws) else Open)
      ensures receiving == (old(receiving) || ok)
      ensures sent == old(sent) + (if ok then [SessionUpdate] else [])
    {
      sessionOpen := true;
      match step {
        case HandshakeFailed =>
          flag := false;
          ok := false;
        case ConfigureFailed =>
          ws := Open;
          flag := true;
          flag := false;
          ok := false;
        case Established =>
          ws := Open;
          flag := true;
          sent := sent + [SessionUpdate];
          receiving := true;
          ok := true;
      }
    }

    /** `disconnect`: clear the flag, drop the receive task, close an open
        socket (a socket the peer closed is kept) and the session. */
    method Disconnect()
      modifies this`flag, this`ws, this`sessionOpen, this`receiving
      ensures Valid() && !Connected()
      ensures !flag && !receiving && !sessionOpen
      ensures ws == (if old(ws) == Open then NoSocket else old(ws))
    {
      flag := false;
      receiving := false;
      if ws == Open {
        ws := NoSocket;
      }
      sessionOpen := false;
    }

    /** `send_audio`: one `input_audio_buffer.append` carrying the base64
        text, only while connected. */
    method SendAudio(audio: seq<byte>)
      modifies this`sent
      ensures sent == old(sent) + (if Connected() then [AudioAppend(codec.b64encode(audio))] else [])
    {
      if Connected() {
        sent := sent + [AudioAppend(codec.b64encode(audio))];
      }
    }

    /** `commit_audio`: commit, then ask for a response, only while connected. */
    method CommitAudio()
      modifies this`sent
      ensures sent == old(sent) + (if Connected() then [AudioCommit, ResponseCreate] else [])
    {
      if Connected() {
        sent := sent + [AudioCommit];
        sent := sent + [ResponseCreate];
      }
    }

    /** `send_text`: the user's text as a conversation item, then ask for a
        response, only while connected. */
    method SendText(text: Json)
      modifies this`sent
      ensures sent == old(sent) + (if Connected() then [UserText(text), ResponseCreate] else [])
    {
      if Connected() {
        sent := sent + [UserText(text)];
        sent := sent + [ResponseCreate];
      }
    }

    /** `_send_function_result`. */
    method SendFunctionResult(callId: Json, result: Json)
      modifies this`sent
      ensures sent == old(sent) + ResultEvents(callId, result, Connected(), codec)
    {
      if !Connected() {
        return;
      }
      var output := if result.JObj? then codec.dumps(result) else PyStr(result, codec);
      sent := sent + [FunctionOutput(callId, output)];
      sent := sent + [ResponseCreate];
    }

    /** `_handle_function_call`; the exception it lets through is returned. */
    method HandleFunctionCall(fields: map<string, Json>) returns (failure: Option<string>)
      modifies this`sent, this`posted
      ensures var e := FunctionCallEffect(fields, Connected(), HooksOf().call, codec, |old(posted)|);
        && sent == old(sent) + e.sent
        && failure == e.failure
        && posted == old(posted) + e.posts
    {
      var callId := Lookup(fields, "call_id", JStr(""));
      var name := Lookup(fields, "name", JStr(""));
      var decoded := DecodeArguments(Lookup(fields, "arguments", JStr("{}")), codec);
      if decoded.Raised? {
        return Some(decoded.message);
      }
      failure := None;
      var result := JNull;
      if onFunctionCall.Some? {
        var run := onFunctionCall.value(|posted|, name, decoded.value);
        posted := posted + run.posts;
        result := match run.answer case Returned(j) => j case Raised(m) => ErrorText(m);
      }
      if !result.JNull? {
        SendFunctionResult(callId, result);
      }
    }

    /** `_handle_message`; the exception it lets through is returned. */
    method HandleMessage(message: Json) returns (failure: Option<string>)
      modifies this`sent, this`delivered, this`posted
      ensures var e := MessageEffect(message, Connected(), HooksOf(), codec, |old(posted)|);
        && sent == old(sent) + e.sent
        && delivered == old(delivered) + e.delivered
        && failure == e.failure
        && posted == old(posted) + e.posts
    {
      var kind := Get(message, "type", JStr(""));
      if kind.Raised? {
        return Some(kind.message);
      }
      failure := None;
      if kind.value == JStr("session.created") {
        var id := Get(Lookup(message.fields, "session", EmptyObject), "id", JNull);
        if id.Raised? {
          failure := Some(id.message);
        }
      } else if kind.value == JStr("response.audio.delta") {
        var delta := Lookup(message.fields, "delta", JStr(""));
        if Truthy(delta) && onAudioDelta {
          var audio := B64Decode(delta, codec);
          if audio.Raised? {
            return Some(audio.message);
          }
          delivered := delivered + [AudioDelta(audio.value)];
        }
      } else if kind.value == JStr("response.audio_transcript.delta") {
        var delta := Lookup(message.fields, "delta", JStr(""));
        if Truthy(delta) && onTranscript {
          delivered := delivered + [TranscriptDelta(delta)];
        }
      } else if kind.value == JStr("response.function_call_arguments.done") {
        failure := HandleFunctionCall(message.fields);
      }
    }

    /** One message of `_receive_loop`: whether the loop goes on. */
    method HandleInbound(item: Inbound, ghost handle: (Json, nat) -> Effect, ghost n: nat) returns (goOn: bool, ghost step: Stepped)
      requires Handles(handle, Connected(), HooksOf(), codec) && n == |posted|
      modifies this`sent, this`delivered, this`posted
      ensures step == Step(item, handle, codec.loads, n)
      ensures goOn == step.goOn && (goOn ==> step.effect.failure.None?)
      ensures sent == old(sent) + step.effect.sent
      ensures delivered == old(delivered) + step.effect.delivered
      ensures posted == old(posted) + step.effect.posts
    {
      match item {
        case ErrorMessage => goOn := false;
        case ClosedMessage => goOn := false;
        case OtherMessage => goOn := true;
        case TextMessage(data) =>
          var decoded := codec.loads(data);
          if decoded.Raised? {
            goOn := false;
          } else {
            var failure := HandleMessage(decoded.value);
            goOn := failure.None?;
          }
      }
      step := Step(item, handle, codec.loads, n);
    }

    /** The `async for` of `_receive_loop`: handle messages until one ends
        the loop. */
    method Drain(inbound: seq<Inbound>, ghost handle: (Json, nat) -> Effect) returns (closed: bool)
      requires Handles(handle, Connected(), HooksOf(), codec)
      modifies this`sent, this`delivered, this`posted
      ensures var e := Receive(inbound, handle, codec.loads, |old(posted)|);
        && sent == old(sent) + e.sent
        && delivered == old(delivered) + e.delivered
        && posted == old(posted) + e.posts
      ensures closed == EndsOnClose(inbound, handle, codec.loads, |old(posted)|)
    {
      ghost var n0 := |posted|;
      ghost var done := NoEffect;
      ghost var start := Effect(sent, delivered, posted, None);
      assert Then(start, done) == start;
      var i := 0;
      while i < |inbound|
        invariant 0 <= i <= |inbound|
        invariant done.failure.None?
        invariant Then(done, Receive(inbound[i..], handle, codec.loads, n0 + |done.posts|))
          == Receive(inbound, handle, codec.loads, n0)
        invariant Effect(sent, delivered, posted, None) == Then(start, done)
        invariant EndsOnClose(inbound[i..], handle, codec.loads, n0 + |done.posts|) == EndsOnClose(inbound, handle, codec.loads, n0)
        decreases |inbound| - i
      {
        var goOn, s := HandleInbound(inbound[i], handle, n0 + |done.posts|);
        ReceiveFold(inbound, i, handle, codec.loads, done, n0, s);
        CloseFold(inbound, i, handle, codec.loads, n0 + |done.posts|, s);
        ThenAssociates(start, done, s.effect);
        done := Then(done, s.effect);
        if !goOn {
          return inbound[i].ClosedMessage?;
        }
        i := i + 1;
      }
      closed := false;
    }

    /** `_receive_loop`: without a socket it returns at once; otherwise it
        handles messages until one ends the loop, and the flag is cleared
        however it ends. A `CLOSED` message leaves the socket closed. */
    method ReceiveLoop(inbound: seq<Inbound>)
      requires Valid()
      modifies this`flag, this`ws, this`sent, this`delivered, this`posted
      ensures Valid()
      ensures ws == if old(ws) != NoSocket && EndsOnClose(inbound, MessageHandler(old(Connected()), HooksOf(), codec), codec.loads, |old(posted)|)
        then Closed else old(ws)
      ensures old(ws) == NoSocket ==> flag == old(flag) && sent == old(sent) && delivered == old(delivered) && posted == old(posted)
      ensures old(ws) != NoSocket ==>
        var e := Receive(inbound, MessageHandler(old(Connected()), HooksOf(), codec), codec.loads, |old(posted)|);
        && !flag
        && sent == old(sent) + e.sent
        && delivered == old(delivered) + e.delivered
        && posted == old(posted) + e.posts
    {
      if ws == NoSocket {
        return;
      }
      HandlerHandles(Connected(), HooksOf(), codec);
      var closed := Drain(inbound, MessageHandler(Connected(), HooksOf(), codec));
      flag := false;
      if closed {
        ws := Closed;
      }
    }
  }
}
