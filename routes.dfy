/** The `/client-config` and `/chat` handlers of server.js: straight-line
    gate sequences over the registry snapshot and the rate limiter. */
module Routes {
  import opened Wrappers
  import opened Clients
  import opened Admission
  import opened RateLimit

  const DefaultRpm: int := 30
  const DefaultModel: string := "gpt-4.1-mini"
  const RateLimitedError: string := "Rate limit exceeded. Please try again soon."

  /** The JSON body of a response. */
  datatype Body = ErrorBody(error: string) | ReplyBody(reply: string) | ConfigBody(ui: Ui)

  datatype Response = Response(status: int, body: Body)

  /** The fields of a `/chat` request the handler reads: `clientId` and
      `message` from the JSON body and the `Origin` header. A missing or
      non-string message is `None`. */
  datatype ChatRequest = ChatRequest(clientId: Option<string>, message: Option<string>, origin: Option<string>)

  /** The model call the handler makes: model name, system prompt, user message. */
  datatype LlmCall = LlmCall(model: string, system: string, user: string)

  /** What the model call does: it throws, or returns a possibly absent `output_text`. */
  datatype LlmResult = Threw | Returned(outputText: Option<string>)

  /** The client's `limits.rpm`, or `DefaultRpm` when `limits` or `rpm` is absent; 0 is kept. */
  function RpmOf(client: Client): int {
    if client.limits.Some? && client.limits.value.rpm.Some? then client.limits.value.rpm.value
    else DefaultRpm
  }

  /** The client's model name, or `DefaultModel` when it is absent or empty. */
  function ModelOf(client: Client): string {
    if Present(client.model) then client.model.value else DefaultModel
  }

  /** A template-literal interpolation; an absent field prints as "undefined". */
  function Render(s: Option<string>): string {
    s.GetOr("undefined")
  }

  /** The base prompt fragment, a blank line, then the client-specific fragment. */
  function SystemPrompt(client: Client): string {
    Render(client.promptBase) + "\n\n" + Render(client.promptClient)
  }

  /** The model's output text, or the empty string when it is absent. */
  function ReplyText(outputText: Option<string>): string {
    outputText.GetOr("")
  }

  /** Both the client gate and the origin gate admit the request. */
  predicate PassesGates(clients: map<string, Client>, clientId: Option<string>, origin: Option<string>) {
    ResolveClient(clients, clientId).Success? && EnforceOrigin(origin, ResolveClient(clients, clientId).value).Admit?
  }

  function RejectionResponse(rej: Rejection): Response {
    Response(rej.status, ErrorBody(rej.error))
  }

  /** The module-level state the handlers share. */
  class Server {
    const registry: Registry
    const limiter: Limiter

    ghost predicate Valid()
      reads this, registry, limiter
    {
      registry.Valid() && limiter.Valid()
    }

    constructor(doc: Document)
      ensures Valid() && fresh(registry) && fresh(limiter)
      ensures registry.clients == BuildRegistry(Entries(doc)) && limiter.buckets == map[]
    {
      registry := new Registry(doc);
      limiter := new Limiter();
    }

    /** `GET /client-config`: the client and origin gates, no rate limit, and
        on success only the client's `ui` (or `{}`). */
    method ClientConfig(clientId: Option<string>, origin: Option<string>) returns (resp: Response)
      ensures ResolveClient(registry.clients, clientId).Failure?
              ==> resp == RejectionResponse(ResolveClient(registry.clients, clientId).error)
      ensures ResolveClient(registry.clients, clientId).Success?
              && EnforceOrigin(origin, ResolveClient(registry.clients, clientId).value).Reject?
              ==> resp == Response(403, ErrorBody(EnforceOrigin(origin, ResolveClient(registry.clients, clientId).value).reason))
      ensures resp.status == 200 <==> PassesGates(registry.clients, clientId, origin)
      ensures resp.status == 200 ==> resp.body == ConfigBody(registry.clients[clientId.value].ui.GetOr(map[]))
    {
      var resolved := ResolveClient(registry.clients, clientId);
      if resolved.Failure? {
        return RejectionResponse(resolved.error);
      }
      var client := resolved.value;
      var originCheck := EnforceOrigin(origin, client);
      if originCheck.Reject? {
        return Response(403, ErrorBody(originCheck.reason));
      }
      return Response(200, ConfigBody(client.ui.GetOr(map[])));
    }

    /** `POST /chat` at time `now`, where `llm` is what the model call would
        do. Returns the response and the model call made, if any. */
    method Chat(req: ChatRequest, now: int, llm: LlmResult) returns (resp: Response, call: Option<LlmCall>)
      requires Valid()
      modifies limiter
      ensures Valid()
      // Gate 1, client resolution: its rejection is returned as is.
      ensures ResolveClient(registry.clients, req.clientId).Failure?
              ==> resp == RejectionResponse(ResolveClient(registry.clients, req.clientId).error)
      // Gate 2, origin: 403 with the guard's reason.
      ensures ResolveClient(registry.clients, req.clientId).Success?
              && EnforceOrigin(req.origin, ResolveClient(registry.clients, req.clientId).value).Reject?
              ==> resp == Response(403, ErrorBody(EnforceOrigin(req.origin, ResolveClient(registry.clients, req.clientId).value).reason))
      // A request stopped by the first two gates consumes no rate-limit slot.
      ensures !PassesGates(registry.clients, req.clientId, req.origin)
              ==> limiter.buckets == old(limiter.buckets) && call.None?
      // A request past them consumes one, whatever the later gates decide.
      ensures PassesGates(registry.clients, req.clientId, req.origin)
              ==> limiter.buckets == old(limiter.buckets)[req.clientId.value := Tick(Lookup(old(limiter.buckets), req.clientId.value), now)]
      ensures PassesGates(registry.clients, req.clientId, req.origin)
              ==> var client := registry.clients[req.clientId.value];
                  var admitted := Admits(limiter.buckets[req.clientId.value], RpmOf(client));
                  var validMessage := Present(req.message);
                  // Gate 3, rate limit against `limits.rpm`, 30 by default.
                  (!admitted ==> resp == Response(429, ErrorBody(RateLimitedError)) && call.None?)
                  // Gate 4, the message must be a non-empty string.
                  && (admitted && !validMessage ==> resp == Response(400, ErrorBody("message required")) && call.None?)
                  // Past every gate: one model call, with the composed system prompt.
                  && (admitted && validMessage
                      ==> call == Some(LlmCall(ModelOf(client), SystemPrompt(client), req.message.value))
                          && resp == match llm
                                     case Threw => Response(500, ErrorBody("Server error"))
                                     case Returned(text) => Response(200, ReplyBody(ReplyText(text))))
      // The model is called exactly when the response is a reply or a server error.
      ensures call.Some? <==> resp.status in {200, 500}
    {
      var resolved := ResolveClient(registry.clients, req.clientId);
      if resolved.Failure? {
        return RejectionResponse(resolved.error), None;
      }
      var client := resolved.value;
      var originCheck := EnforceOrigin(req.origin, client);
      if originCheck.Reject? {
        return Response(403, ErrorBody(originCheck.reason)), None;
      }
      var rpm := RpmOf(client);
      var admitted := limiter.RateLimit(req.clientId.value, rpm, now);
      if !admitted {
        return Response(429, ErrorBody(RateLimitedError)), None;
      }
      if !Present(req.message) {
        return Response(400, ErrorBody("message required")), None;
      }
      var systemPrompt := SystemPrompt(client);
      call := Some(LlmCall(ModelOf(client), systemPrompt, req.message.value));
      match llm {
        case Threw =>
          resp := Response(500, ErrorBody("Server error"));
        case Returned(text) =>
          resp := Response(200, ReplyBody(ReplyText(text)));
      }
    }
  }

  /** The system prompt starts with the base fragment and ends with the
      client fragment, with one blank line between them. */
  lemma SystemPromptParts(client: Client, base: string, specific: string)
    requires client.promptBase == Some(base) && client.promptClient == Some(specific)
    ensures |SystemPrompt(client)| == |base| + 2 + |specific|
    ensures SystemPrompt(client)[..|base|] == base
    ensures SystemPrompt(client)[|base|..|base| + 2] == "\n\n"
    ensures SystemPrompt(client)[|base| + 2..] == specific
  {
  }

  /** Two scenarios whose responses the verifier derives from the contracts:
      a client `demo` allowing rpm = 2 answers two chats within a minute and
      rejects the third with 429; a disabled client is refused with 403 on
      both endpoints whatever its origin. */
  method DemoScenario() {
    var demo := Client("demo", true, Some(["https://example.com"]), Some(map["title" := "Demo"]),
                       Some("Be helpful."), Some("You work for Demo."), None, Some(Limits(Some(2))));
    var off := demo.(clientId := "off", enabled := false);
    var doc := Document(Some([demo, off]));
    var server := new Server(doc);
    assert BuildRegistry([demo, off]) == map["demo" := demo, "off" := off] by {
      assert [demo][..0] == [];
      assert BuildRegistry([demo]) == map["demo" := demo];
      assert [demo, off][..1] == [demo];
      assert BuildRegistry([demo, off]) == BuildRegistry([demo])["off" := off];
    }
    var req := ChatRequest(Some("demo"), Some("hi"), Some("https://example.com"));
    var r1, c1 := server.Chat(req, 0, Returned(Some("hello")));
    assert r1 == Response(200, ReplyBody("hello"));
    assert c1 == Some(LlmCall(DefaultModel, "Be helpful." + "\n\n" + "You work for Demo.", "hi"));
    var r2, c2 := server.Chat(req, 1_000, Returned(None));
    assert r2 == Response(200, ReplyBody(""));
    var r3, c3 := server.Chat(req, 2_000, Returned(Some("again")));
    assert r3 == Response(429, ErrorBody(RateLimitedError)) && c3.None?;
    var cfg := server.ClientConfig(Some("demo"), Some("https://example.com"));
    assert cfg == Response(200, ConfigBody(map["title" := "Demo"]));
    var elsewhere := server.ClientConfig(Some("demo"), Some("https://evil.example"));
    assert elsewhere == Response(403, ErrorBody("Origin not allowed: " + "https://evil.example"));
    var r4, _ := server.Chat(req.(clientId := Some("off")), 3_000, Returned(Some("x")));
    assert r4 == Response(403, ErrorBody("Client disabled"));
    var cfgOff := server.ClientConfig(Some("off"), Some("https://example.com"));
    assert cfgOff == Response(403, ErrorBody("Client disabled"));
    var unknown := server.ClientConfig(Some("nobody"), None);
    assert unknown == Response(404, ErrorBody("Unknown client"));
  }
}
