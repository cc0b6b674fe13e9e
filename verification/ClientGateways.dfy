/** The SSE and the streamable HTTP client gateways: both run the handshake machine. */
module ClientGateways {
  import opened Wrappers
  import opened JsonRpc
  import opened Handshake
  import SseParsing

  datatype StdinAction = Post(msgs: seq<RawMessage>) | PostInit(msg: RawMessage) | Buffered

  function PostsOf(action: StdinAction): seq<RawMessage> {
    match action
    case Post(msgs) => msgs
    case PostInit(msg) => [msg]
    case Buffered => []
  }

  /** Take the first answer out of a batch. */
  method Absorb(msgs: seq<RawMessage>, initId: string) returns (stdout: seq<RawMessage>, found: bool)
    ensures found <==> FindAnswer(msgs, initId).Some?
    ensures stdout == if found then Without(msgs, FindAnswer(msgs, initId).value) else msgs
  {
    stdout, found := [], false;
    var i := 0;
    while i < |msgs|
      invariant i <= |msgs|
      invariant !found ==> stdout == msgs[..i] && forall j :: 0 <= j < i ==> !AnswersInit(msgs[j], initId)
      invariant found ==>
        var at := FindAnswer(msgs, initId); at.Some? && at.value < i && stdout == msgs[..at.value] + msgs[at.value + 1..i]
    {
      if !found && msgs[i].IsResponse() && TrimQuotes(msgs[i].id.value) == initId {
        found := true;
      } else {
        stdout := stdout + [msgs[i]];
      }
      i := i + 1;
    }
    assert msgs[..i] == msgs;
  }

  method HasAnswer(msgs: seq<RawMessage>, initId: string) returns (found: bool)
    ensures found <==> FindAnswer(msgs, initId).Some?
  {
    found := false;
    var i := 0;
    while i < |msgs|
      invariant i <= |msgs|
      invariant !found ==> forall j :: 0 <= j < i ==> !AnswersInit(msgs[j], initId)
      invariant found ==> FindAnswer(msgs, initId).Some?
    {
      if msgs[i].IsResponse() {
        if TrimQuotes(msgs[i].id.value) == initId {
          found := true;
          break;
        }
      }
      i := i + 1;
    }
  }

  class SseToStdioGateway {
    const cfg: Config
    const sseUrl: string
    const parse: string -> Option<seq<RawMessage>>
    const resolve: (string, string) -> string
    var endpointUrl: Option<string>
    var phase: Phase
    var pending: seq<RawMessage>

    function View(): Machine
      reads this
    {
      Machine(phase, pending)
    }

    constructor (cfg: Config, sseUrl: string, parse: string -> Option<seq<RawMessage>>,
                 resolve: (string, string) -> string)
      ensures View() == START.m && endpointUrl == None
      ensures this.cfg == cfg && this.sseUrl == sseUrl && this.parse == parse && this.resolve == resolve
    {
      this.cfg, this.sseUrl, this.parse, this.resolve := cfg, sseUrl, parse, resolve;
      endpointUrl, phase, pending := None, Pending, [];
    }

    /** A message event whose data is JSON-RPC is a server call of the machine; an endpoint event
        sets the URL; any other changes nothing. */
    method HandleSseEvent(event: SseParsing.Event) returns (e: Effects)
      modifies this
      ensures if event.eventType == "message" && parse(event.data).Some?
        then (View(), e) == OnServer(old(View()), parse(event.data).value)
        else View() == old(View()) && e == Effects([], [])
      ensures endpointUrl == if event.eventType == "endpoint" then Some(resolve(sseUrl, event.data)) else old(endpointUrl)
    {
      if event.eventType == "endpoint" {
        endpointUrl := Some(resolve(sseUrl, event.data));
        return Effects([], []);
      }
      if event.eventType != "message" {
        return Effects([], []);
      }
      var parsed := parse(event.data);
      if parsed.None? {
        return Effects([], []);
      }
      var msgs := parsed.value;
      match phase {
        case WaitingSyntheticInit(initId) =>
          var stdout, found := Absorb(msgs, initId);
          if found {
            phase := Ready;
            e := Effects(stdout, [InitializedNotification()] + pending);
            pending := [];
          } else {
            e := Effects(stdout, []);
          }
        case WaitingPassthroughInit(initId) =>
          var found := HasAnswer(msgs, initId);
          if found {
            phase := Ready;
            e := Effects(msgs, [] + pending);
            pending := [];
          } else {
            e := Effects(msgs, []);
          }
        case _ =>
          e := Effects(msgs, []);
      }
    }

    method HandleStdinMessage(msg: RawMessage, freshId: string) returns (action: StdinAction)
      modifies this`phase, this`pending
      ensures (View(), Effects([], PostsOf(action))) == OnStdin(cfg, old(View()), msg, freshId)
      ensures action.PostInit? <==> old(phase).Pending? && !msg.IsInitializeRequest()
      ensures action.Buffered? <==> old(phase).WaitingSyntheticInit? || old(phase).WaitingPassthroughInit?
    {
      match phase {
        case Pending =>
          if msg.IsInitializeRequest() {
            phase := WaitingPassthroughInit(TrimmedId(msg));
            action := Post([cfg.intercept(msg)]);
          } else {
            phase := WaitingSyntheticInit(freshId);
            pending := pending + [msg];
            action := PostInit(FallbackInit(cfg, freshId));
          }
        case Ready =>
          action := Post([msg]);
        case _ =>
          pending := pending + [msg];
          action := Buffered;
      }
    }
  }

  class HttpToStdioGateway {
    const cfg: Config
    var phase: Phase
    var pending: seq<RawMessage>

    function View(): Machine
      reads this
    {
      Machine(phase, pending)
    }

    constructor (cfg: Config)
      ensures View() == START.m && this.cfg == cfg
    {
      this.cfg := cfg;
      phase, pending := Pending, [];
    }

    method HandleStdinMessage(msg: RawMessage, freshId: string) returns (action: StdinAction)
      modifies this
      ensures (View(), Effects([], PostsOf(action))) == OnStdin(cfg, old(View()), msg, freshId)
      ensures action.PostInit? <==> old(phase).Pending? && !msg.IsInitializeRequest()
      ensures action.Buffered? <==> old(phase).WaitingSyntheticInit? || old(phase).WaitingPassthroughInit?
    {
      match phase {
        case Pending =>
          if msg.IsInitializeRequest() {
            phase := WaitingPassthroughInit(TrimmedId(msg));
            action := Post([cfg.intercept(msg)]);
          } else {
            phase := WaitingSyntheticInit(freshId);
            pending := pending + [msg];
            action := PostInit(FallbackInit(cfg, freshId));
          }
        case Ready =>
          action := Post([msg]);
        case _ =>
          pending := pending + [msg];
          action := Buffered;
      }
    }

    method HandleResponseMessages(msgs: seq<RawMessage>) returns (e: Effects)
      modifies this
      ensures (View(), e) == OnServer(old(View()), msgs)
    {
      match phase {
        case WaitingSyntheticInit(initId) =>
          var stdout, found := Absorb(msgs, initId);
          if found {
            phase := Ready;
            e := Effects(stdout, [InitializedNotification()] + pending);
            pending := [];
          } else {
            e := Effects(stdout, []);
          }
        case WaitingPassthroughInit(initId) =>
          var found := HasAnswer(msgs, initId);
          if found {
            phase := Ready;
            e := Effects(msgs, [] + pending);
            pending := [];
          } else {
            e := Effects(msgs, []);
          }
        case _ =>
          e := Effects(msgs, []);
      }
    }
  }
}
