/** The browser-facing relay (`RohlikVoiceWebSocketView.get`): it connects a
    realtime handler, then turns every frame the browser sends into a call on
    that handler until the browser stops or an error frame arrives; and the
    two Home Assistant commands that read the cart and search. */
module Relay {
  import opened Base
  import opened Json
  import opened McpClient
  import opened Dispatch
  import opened Realtime

  /** A frame received from the browser; `OtherFrame` is any kind the loop
      does not look at. The end of the sequence is the end of the socket. */
  datatype Frame = Binary(bytes: seq<byte>) | Text(text: string) | ErrorFrame | OtherFrame

  /** What one frame asks of the relay. `Skip` covers a text frame that is
      not JSON, not a dict, or of a type the relay does not know: the error
      is logged inside the loop and the loop goes on. */
  datatype Command = Audio(data: seq<byte>) | Commit | Say(text: Json) | Ping | Skip

  /** `{"type": "connected"}`. */
  const ConnectedFrame: Json := JObj(map["type" := JStr("connected")])
  /** `{"type": "error", "message": "Failed to connect to OpenAI"}`. */
  const ConnectErrorFrame: Json := JObj(map["type" := JStr("error"), "message" := JStr("Failed to connect to OpenAI")])
  /** `{"type": "pong"}`. */
  const PongFrame: Json := JObj(map["type" := JStr("pong")])

  /** The command of a frame that is not an error frame. */
  function CommandOf(frame: Frame, loads: string -> Outcome<Json>): Command
    requires !frame.ErrorFrame?
  {
    match frame
    case Binary(data) => Audio(data)
    case OtherFrame => Skip
    case Text(data) =>
      match loads(data)
      case Raised(_) => Skip
      case Returned(message) =>
        if !message.JObj? then Skip
        else
          var kind := Lookup(message.fields, "type", JStr(""));
          if kind == JStr("audio_commit") then Commit
          else if kind == JStr("text") then Say(Lookup(message.fields, "text", JStr("")))
          else if kind == JStr("ping") then Ping
          else Skip
  }

  /** The commands of the frames before the first error frame. */
  function Plan(frames: seq<Frame>, loads: string -> Outcome<Json>): seq<Command>
    decreases |frames|
  {
    if frames == [] || frames[0].ErrorFrame? then []
    else [CommandOf(frames[0], loads)] + Plan(frames[1..], loads)
  }

  /** The events the handler sends for one command while connected. */
  function CommandEvents(c: Command, codec: Codec): seq<Event> {
    match c
    case Audio(data) => [AudioAppend(codec.b64encode(data))]
    case Commit => [AudioCommit, ResponseCreate]
    case Say(text) => [UserText(text), ResponseCreate]
    case Ping => []
    case Skip => []
  }

  /** The events sent for a run of commands, in order. */
  function Events(cmds: seq<Command>, codec: Codec): seq<Event>
    decreases |cmds|
  {
    if cmds == [] then [] else Events(cmds[..|cmds| - 1], codec) + CommandEvents(cmds[|cmds| - 1], codec)
  }

  /** The frames sent back to the browser for a run of commands: one pong per
      ping. */
  function Replies(cmds: seq<Command>): seq<Json>
    decreases |cmds|
  {
    if cmds == [] then [] else Replies(cmds[..|cmds| - 1]) + (if cmds[|cmds| - 1].Ping? then [PongFrame] else [])
  }

  function CountPings(cmds: seq<Command>): nat
    decreases |cmds|
  {
    if cmds == [] then 0 else (if cmds[0].Ping? then 1 else 0) + CountPings(cmds[1..])
  }

  /* ---------------------------------------------------------------------- */
  /* Properties of the frame dispatch                                        */

  /** Binary frames are audio; a text frame's `type` picks commit, text (its
      `text` or the empty string) or ping; anything else is skipped. */
  lemma TextFrameDispatch(fields: map<string, Json>, data: string, loads: string -> Outcome<Json>)
    requires loads(data) == Returned(JObj(fields))
    ensures var kind := Lookup(fields, "type", JStr(""));
      && (kind == JStr("audio_commit") <==> CommandOf(Text(data), loads) == Commit)
      && (kind == JStr("ping") <==> CommandOf(Text(data), loads) == Ping)
      && (kind == JStr("text") <==> CommandOf(Text(data), loads).Say?)
      && (kind == JStr("text") && "text" !in fields ==> CommandOf(Text(data), loads) == Say(JStr("")))
      && (kind !in {JStr("audio_commit"), JStr("text"), JStr("ping")} <==> CommandOf(Text(data), loads) == Skip)
  {
  }

  /** A text frame that is not JSON, or whose JSON is not a dict, changes
      nothing and does not stop the loop. */
  lemma MalformedFramesAreSkipped(data: string, loads: string -> Outcome<Json>)
    requires loads(data).Raised? || !loads(data).value.JObj?
    ensures CommandOf(Text(data), loads) == Skip
  {
  }

  /** An error frame ends the loop: nothing after it is relayed. */
  lemma {:induction false} PlanStopsAtError(frames: seq<Frame>, i: nat, loads: string -> Outcome<Json>)
    requires i < |frames| && frames[i].ErrorFrame?
    ensures Plan(frames, loads) == Plan(frames[..i], loads)
    decreases i
  {
    if i > 0 {
      assert frames[..i][0] == frames[0];
      assert frames[..i][1..] == frames[1..][..i - 1];
      PlanStopsAtError(frames[1..], i - 1, loads);
    }
  }

  /** Frames without an error frame are relayed one command each, and a run
      of frames is relayed as its parts are. */
  lemma {:induction false} PlanAppends(a: seq<Frame>, b: seq<Frame>, loads: string -> Outcome<Json>)
    requires forall k :: 0 <= k < |a| ==> !a[k].ErrorFrame?
    ensures Plan(a + b, loads) == Plan(a, loads) + Plan(b, loads)
    ensures |Plan(a, loads)| == |a|
    decreases |a|
  {
    if a != [] {
      assert (a + b)[0] == a[0];
      assert (a + b)[1..] == a[1..] + b;
      PlanAppends(a[1..], b, loads);
    } else {
      assert a + b == b;
    }
  }

  /** At most one command per frame. */
  lemma {:induction false} PlanIsBounded(frames: seq<Frame>, loads: string -> Outcome<Json>)
    ensures |Plan(frames, loads)| <= |frames|
    decreases |frames|
  {
    if frames != [] && !frames[0].ErrorFrame? {
      PlanIsBounded(frames[1..], loads);
    }
  }

  /** The events of consecutive runs of commands are concatenated. */
  lemma {:induction false} EventsAppend(a: seq<Command>, b: seq<Command>, codec: Codec)
    ensures Events(a + b, codec) == Events(a, codec) + Events(b, codec)
    decreases |b|
  {
    if b == [] {
      assert a + b == a;
    } else {
      var b' := b[..|b| - 1];
      assert (a + b)[..|a + b| - 1] == a + b';
      assert (a + b)[|a + b| - 1] == b[|b| - 1];
      EventsAppend(a, b', codec);
    }
  }

  /** So are the replies. */
  lemma {:induction false} RepliesAppend(a: seq<Command>, b: seq<Command>)
    ensures Replies(a + b) == Replies(a) + Replies(b)
    decreases |b|
  {
    if b == [] {
      assert a + b == a;
    } else {
      var b' := b[..|b| - 1];
      assert (a + b)[..|a + b| - 1] == a + b';
      assert (a + b)[|a + b| - 1] == b[|b| - 1];
      RepliesAppend(a, b');
    }
  }

  /** The browser gets exactly one pong per ping command, and nothing else. */
  lemma {:induction false} OnePongPerPing(cmds: seq<Command>)
    ensures |Replies(cmds)| == CountPings(cmds)
    ensures forall k :: 0 <= k < |Replies(cmds)| ==> Replies(cmds)[k] == PongFrame
    decreases |cmds|
  {
    if cmds != [] {
      RepliesAppend([cmds[0]], cmds[1..]);
      assert [cmds[0]] + cmds[1..] == cmds;
      assert [cmds[0]][..0] == [];
      OnePongPerPing(cmds[1..]);
    }
  }

  /** Every commit and every text command is followed by `response.create`:
      the events of a run of commands end with one whenever the last command
      is a commit or a text. */
  lemma ResponseFollowsCommitAndText(cmds: seq<Command>, codec: Codec)
    requires cmds != [] && (cmds[|cmds| - 1].Commit? || cmds[|cmds| - 1].Say?)
    ensures |Events(cmds, codec)| >= 2
    ensures Events(cmds, codec)[|Events(cmds, codec)| - 1] == ResponseCreate
  {
  }

  /** The function-call callback the relay installs: `on_function_call`
      over the integration's client, whose POSTs are counted from `base`,
      the number the client made before. */
  function RelayCallback(client: Client, codec: Codec, base: nat): (nat, Json, Json) -> Relayed
    reads client
  {
    var server := client.server;
    var loads := client.loads;
    (k: nat, name: Json, args: Json) => RelayExecutor(server, loads, codec)(base + k, name, args)
  }

  /* ---------------------------------------------------------------------- */
  /* The view and the commands                                               */

  /** `get`: connect a handler with all three callbacks; on failure send the
      error frame and close; otherwise send `connected` and relay frames until
      the browser stops or an error frame arrives. The handler is
      disconnected on every path. The handler's receive task runs
      concurrently and is `Realtime.Handler.ReceiveLoop`; it is not part of
      this loop. */
  method Serve(client: Client, apiKey: string, codec: Codec, step: ConnectStep, frames: seq<Frame>)
    returns (out: seq<Json>, closed: bool, rt: Handler)
    ensures closed <==> !step.Established?
    ensures !step.Established? ==> out == [ConnectErrorFrame] && rt.sent == []
    ensures step.Established? ==>
      var cmds := Plan(frames, codec.loads);
      && out == [ConnectedFrame] + Replies(cmds)
      && rt.sent == [SessionUpdate] + Events(cmds, codec)
    ensures rt.codec == codec && rt.apiKey == apiKey
    ensures rt.onFunctionCall == Some(RelayCallback(client, codec, |client.posted|))
    ensures rt.onAudioDelta && rt.onTranscript
    ensures !rt.Connected() && !rt.sessionOpen && !rt.receiving
    ensures rt.delivered == [] && rt.posted == []
  {
    rt := new Handler(apiKey, codec, true, true, Some(RelayCallback(client, codec, |client.posted|)));
    var connected := rt.Connect(step);
    if !connected {
      out := [ConnectErrorFrame];
      closed := true;
      rt.Disconnect();
      return;
    }
    closed := false;
    out := Pump(rt, codec, frames);
    rt.Disconnect();
  }

  /** One frame of the `async for`, on a connected handler: the handler call
      it makes and the frames it sends back. */
  method RelayFrame(rt: Handler, frame: Frame) returns (reply: seq<Json>)
    requires rt.Connected() && !frame.ErrorFrame?
    modifies rt`sent
    ensures var c := CommandOf(frame, rt.codec.loads);
      && rt.sent == old(rt.sent) + CommandEvents(c, rt.codec)
      && reply == (if c.Ping? then [PongFrame] else [])
  {
    reply := [];
    match frame {
      case Binary(data) =>
        rt.SendAudio(data);
      case Text(_) =>
        var c := CommandOf(frame, rt.codec.loads);
        match c {
          case Commit => rt.CommitAudio();
          case Say(text) => rt.SendText(text);
          case Ping => reply := [PongFrame];
          case _ =>
        }
      case OtherFrame =>
    }
  }

  /** The `async for` of `get`: relay frames until the browser stops or an
      error frame arrives; `out` starts with `connected`. */
  method Pump(rt: Handler, codec: Codec, frames: seq<Frame>) returns (out: seq<Json>)
    requires rt.Connected() && rt.codec == codec
    modifies rt`sent
    ensures var cmds := Plan(frames, codec.loads);
      && out == [ConnectedFrame] + Replies(cmds)
      && rt.sent == old(rt.sent) + Events(cmds, codec)
  {
    out := [ConnectedFrame];
    ghost var done: seq<Command> := [];
    var i := 0;
    while i < |frames| && !frames[i].ErrorFrame?
      invariant 0 <= i <= |frames|
      invariant done + Plan(frames[i..], codec.loads) == Plan(frames, codec.loads)
      invariant out == [ConnectedFrame] + Replies(done)
      invariant rt.sent == old(rt.sent) + Events(done, codec)
      decreases |frames| - i
    {
      var reply := RelayFrame(rt, frames[i]);
      PumpStep(frames, i, done, codec, old(rt.sent), reply);
      out := out + reply;
      done := done + [CommandOf(frames[i], codec.loads)];
      i := i + 1;
    }
    PumpEnd(frames, i, done, codec.loads);
  }

  lemma PlanStep(frames: seq<Frame>, i: nat, loads: string -> Outcome<Json>)
    requires i < |frames| && !frames[i].ErrorFrame?
    ensures Plan(frames[i..], loads) == [CommandOf(frames[i], loads)] + Plan(frames[i + 1..], loads)
  {
    assert frames[i..][0] == frames[i] && frames[i..][1..] == frames[i + 1..];
  }

  lemma LastCommand(done: seq<Command>, c: Command, codec: Codec)
    ensures Events(done + [c], codec) == Events(done, codec) + CommandEvents(c, codec)
    ensures Replies(done + [c]) == Replies(done) + (if c.Ping? then [PongFrame] else [])
  {
    assert (done + [c])[..|done|] == done;
  }

  /** What one turn of `Pump` adds to the fold it keeps. */
  lemma PumpStep(frames: seq<Frame>, i: nat, done: seq<Command>, codec: Codec, start: seq<Event>, reply: seq<Json>)
    requires i < |frames| && !frames[i].ErrorFrame?
    requires done + Plan(frames[i..], codec.loads) == Plan(frames, codec.loads)
    requires reply == (if CommandOf(frames[i], codec.loads).Ping? then [PongFrame] else [])
    ensures var c := CommandOf(frames[i], codec.loads);
      && (done + [c]) + Plan(frames[i + 1..], codec.loads) == Plan(frames, codec.loads)
      && start + Events(done, codec) + CommandEvents(c, codec) == start + Events(done + [c], codec)
      && [ConnectedFrame] + Replies(done) + reply == [ConnectedFrame] + Replies(done + [c])
  {
    var c := CommandOf(frames[i], codec.loads);
    PlanStep(frames, i, codec.loads);
    assert (done + [c]) + Plan(frames[i + 1..], codec.loads) == done + ([c] + Plan(frames[i + 1..], codec.loads));
    LastCommand(done, c, codec);
    var e := Events(done, codec);
    assert start + e + CommandEvents(c, codec) == start + (e + CommandEvents(c, codec));
    var r := Replies(done);
    assert [ConnectedFrame] + r + reply == [ConnectedFrame] + (r + reply);
  }

  /** When `Pump` stops, the commands it handled are the whole plan. */
  lemma PumpEnd(frames: seq<Frame>, i: nat, done: seq<Command>, loads: string -> Outcome<Json>)
    requires i <= |frames| && (i < |frames| ==> frames[i].ErrorFrame?)
    requires done + Plan(frames[i..], loads) == Plan(frames, loads)
    ensures done == Plan(frames, loads)
  {
    assert i == |frames| ==> frames[i..] == [];
    assert done + [] == done;
  }

  /** The `rohlik_voice/get_cart` command: the client's answer, unchanged. */
  method GetCartCommand(client: Client) returns (result: Outcome<Json>)
    modifies client
    ensures client.posted == old(client.posted) + [Request(ViewCart)]
    ensures result == Answer(client.server, client.loads, |old(client.posted)|, ViewCart)
  {
    result := client.GetCart();
  }

  /** The `rohlik_voice/search` command: the client's answer for the given
      keyword, unchanged. */
  method SearchCommand(client: Client, keyword: string) returns (result: Outcome<Json>)
    modifies client
    ensures client.posted == old(client.posted) + [Request(Search(JStr(keyword)))]
    ensures result == Answer(client.server, client.loads, |old(client.posted)|, Search(JStr(keyword)))
  {
    result := client.SearchProducts(JStr(keyword));
  }

  /** The search command and a relayed `search_products` call with the same
      keyword POST the same request and get the same answer. */
  lemma SearchCommandMatchesRelayedCall(server: (nat, Json) -> Reply, loads: string -> Outcome<Json>, n: nat,
                                        codec: Codec, keyword: string)
    ensures var args := JObj(map["keyword" := JStr(keyword)]);
      && Posts(Route(JStr("search_products"), args)) == [Request(Search(JStr(keyword)))]
      && RelayAnswer(server, loads, n, codec, JStr("search_products"), args) == Answer(server, loads, n, Search(JStr(keyword)))
  {
  }
}
