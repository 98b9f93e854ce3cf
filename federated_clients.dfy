/** The federated-intelligence provider clients: how each client turns a consultation
    request into what it sends, and the factory that builds one client per provider
    and keeps it. What a provider answers is not modelled here; the handlers take it
    as a parameter. */
module FederatedClients {
  import opened Common

  const Providers: set<string> := {"ollama", "openai", "openrouter", "google"}
  const DefaultOllamaUrl: string := "http://localhost:11434/api"
  const OpenRouterUrl: string := "https://openrouter.ai/api/v1"

  /** Python truthiness of an optional string: present and non-empty. */
  predicate Truthy(s: Option<string>)
  {
    s.Some? && s.value != ""
  }

  /** A message in the `{"role": ..., "content": ...}` form. */
  datatype ChatMessage = ChatMessage(role: string, content: string)

  /** `ConsultationRequest`. */
  datatype Request = Request(
    provider: string,
    model: string,
    query: string,
    systemPrompt: Option<string>,
    temperature: Option<real>,
    sessionId: Option<string>,
    messages: Option<seq<ChatMessage>>)

  /** `if request.messages:`, a present and non-empty list. */
  predicate HasMessages(req: Request)
  {
    req.messages.Some? && req.messages.value != []
  }

  // ---------------------------------------------------------------------------
  // Ollama and OpenAI-compatible clients
  // ---------------------------------------------------------------------------

  /** The message list `OllamaClient.consult` and `OpenAIClient.consult` both build: the
      request's messages as given, or else an optional system message and the query. */
  function ChatMessages(req: Request): (r: seq<ChatMessage>)
    ensures HasMessages(req) ==> r == req.messages.value
    ensures !HasMessages(req) ==> |r| == (if Truthy(req.systemPrompt) then 2 else 1)
    ensures !HasMessages(req) ==> r[|r| - 1] == ChatMessage("user", req.query)
    ensures !HasMessages(req) && Truthy(req.systemPrompt) ==> r[0] == ChatMessage("system", req.systemPrompt.value)
  {
    if HasMessages(req) then req.messages.value
    else (if Truthy(req.systemPrompt) then [ChatMessage("system", req.systemPrompt.value)] else [])
         + [ChatMessage("user", req.query)]
  }

  /** `base_url.rstrip("/")`. */
  function TrimSlashes(s: string): (r: string)
    ensures |r| <= |s| && r == s[..|r|]
    ensures r == [] || r[|r| - 1] != '/'
    ensures forall i :: |r| <= i < |s| ==> s[i] == '/'
  {
    if s == [] || s[|s| - 1] != '/' then s else TrimSlashes(s[..|s| - 1])
  }

  lemma TrimSlashesIdempotent(s: string)
    ensures TrimSlashes(TrimSlashes(s)) == TrimSlashes(s)
  {
  }

  /** The body of the Ollama `/chat` request; `temperature` is `None` when the options
      dictionary stays empty. */
  datatype OllamaPayload = OllamaPayload(model: string, messages: seq<ChatMessage>, stream: bool, temperature: Option<real>)

  function OllamaPayloadOf(req: Request): (p: OllamaPayload)
    ensures !p.stream && p.model == req.model && p.messages == ChatMessages(req)
    ensures p.temperature.Some? <==> req.temperature.Some?
    ensures p.temperature.Some? ==> p.temperature.value == req.temperature.value
  {
    OllamaPayload(req.model, ChatMessages(req), false, req.temperature)
  }

  /** The arguments of `chat.completions.create`. */
  datatype OpenAIPayload = OpenAIPayload(model: string, messages: seq<ChatMessage>, temperature: real)

  /** `temperature=request.temperature or 0.7`: a missing and a zero temperature are
      both sent as 0.7. */
  function OpenAIPayloadOf(req: Request): (p: OpenAIPayload)
    ensures p.model == req.model && p.messages == ChatMessages(req)
    ensures p.temperature != 0.0
    ensures req.temperature == None || req.temperature == Some(0.0) ==> p.temperature == 0.7
    ensures req.temperature.Some? && req.temperature.value != 0.0 ==> p.temperature == req.temperature.value
  {
    OpenAIPayload(req.model, ChatMessages(req),
                  if req.temperature.None? || req.temperature.value == 0.0 then 0.7 else req.temperature.value)
  }

  // ---------------------------------------------------------------------------
  // Gemini client
  // ---------------------------------------------------------------------------

  /** A Gemini chat turn: role "user" or "model" and its one part. */
  datatype Turn = Turn(role: string, part: string)

  /** The conversion in `GoogleClient.consult`: system messages and unknown roles are
      dropped, "assistant" becomes "model", the order is kept. */
  function GeminiTurns(msgs: seq<ChatMessage>): (r: seq<Turn>)
    ensures |r| <= |msgs|
    ensures forall t :: t in r ==> t.role == "user" || t.role == "model"
  {
    if msgs == [] then []
    else
      var m := msgs[|msgs| - 1];
      GeminiTurns(msgs[..|msgs| - 1])
      + (if m.role == "user" then [Turn("user", m.content)]
         else if m.role == "assistant" then [Turn("model", m.content)]
         else [])
  }

  /** The messages the conversion keeps. */
  function Conversational(msgs: seq<ChatMessage>): (r: seq<ChatMessage>)
    ensures forall m :: m in r <==> m in msgs && (m.role == "user" || m.role == "assistant")
  {
    if msgs == [] then []
    else
      var m := msgs[|msgs| - 1];
      Conversational(msgs[..|msgs| - 1]) + (if m.role == "user" || m.role == "assistant" then [m] else [])
  }

  /** A Gemini turn read back as an OpenAI-style message. */
  function MessageOf(t: Turn): ChatMessage
  {
    ChatMessage(if t.role == "model" then "assistant" else t.role, t.part)
  }

  function MessagesOf(ts: seq<Turn>): (r: seq<ChatMessage>)
    ensures |r| == |ts| && forall i :: 0 <= i < |ts| ==> r[i] == MessageOf(ts[i])
  {
    if ts == [] then [] else MessagesOf(ts[..|ts| - 1]) + [MessageOf(ts[|ts| - 1])]
  }

  /** The conversion loses exactly the system messages and unknown roles: reading the
      turns back gives the user and assistant messages, in order. */
  lemma {:induction false} GeminiTurnsRoundTrip(msgs: seq<ChatMessage>)
    ensures MessagesOf(GeminiTurns(msgs)) == Conversational(msgs)
  {
    if msgs != [] {
      var p := msgs[..|msgs| - 1];
      GeminiTurnsRoundTrip(p);
      var ts := GeminiTurns(p);
      var m := msgs[|msgs| - 1];
      if m.role == "user" || m.role == "assistant" {
        var t := if m.role == "user" then Turn("user", m.content) else Turn("model", m.content);
        assert GeminiTurns(msgs) == ts + [t];
        assert MessagesOf(ts + [t]) == MessagesOf(ts) + [MessageOf(t)] by {
          assert (ts + [t])[..|ts|] == ts;
        }
      }
    }
  }

  /** The conversion works message by message. */
  lemma {:induction false} GeminiTurnsAppend(a: seq<ChatMessage>, b: seq<ChatMessage>)
    ensures GeminiTurns(a + b) == GeminiTurns(a) + GeminiTurns(b)
  {
    if b != [] {
      assert (a + b)[..|a + b| - 1] == a + b[..|b| - 1];
      GeminiTurnsAppend(a, b[..|b| - 1]);
    } else {
      assert a + b == a;
    }
  }

  /** The history loop of `GoogleClient.consult`. */
  method ConvertHistory(msgs: seq<ChatMessage>) returns (history: seq<Turn>)
    ensures history == GeminiTurns(msgs)
  {
    history := [];
    var i := 0;
    while i < |msgs|
      invariant 0 <= i <= |msgs|
      invariant history == GeminiTurns(msgs[..i])
    {
      var m := msgs[i];
      if m.role == "system" {
      } else if m.role == "user" {
        history := history + [Turn("user", m.content)];
      } else if m.role == "assistant" {
        history := history + [Turn("model", m.content)];
      }
      assert msgs[..i + 1][..i] == msgs[..i];
      i := i + 1;
    }
    assert msgs[..i] == msgs;
  }

  /** What the Gemini client sends: a chat started on a history with one message sent,
      or a single prompt. */
  datatype GeminiCall =
    | Chat(history: seq<Turn>, send: string, temperature: Option<real>)
    | Generate(prompt: string, temperature: Option<real>)

  datatype ClientError = NotConfigured(provider: string) | UnknownProvider(name: string) | KeyNotConfigured

  /** The single-turn prompt: the system prompt, when given, is written in front. */
  function SingleTurnPrompt(req: Request): (p: string)
    ensures !Truthy(req.systemPrompt) ==> p == req.query
    ensures Truthy(req.systemPrompt) ==> EndsWith(p, req.query) && StartsWith(p, "System: " + req.systemPrompt.value)
  {
    if Truthy(req.systemPrompt) then "System: " + req.systemPrompt.value + "\n\nUser: " + req.query else req.query
  }

  /** `GoogleClient.consult` up to the call: no key is an error; with messages, a final
      user turn is popped off the history and sent, otherwise the query is sent on the
      whole history; without messages, a single prompt. */
  function GeminiCallOf(available: bool, req: Request): (r: Result<GeminiCall, ClientError>)
    ensures r.Failure? <==> !available
    ensures r.Success? ==> (r.value.Chat? <==> HasMessages(req))
    ensures r.Success? && r.value.Chat? ==>
              var turns := GeminiTurns(req.messages.value);
              if turns != [] && turns[|turns| - 1].role == "user"
              then r.value.history + [Turn("user", r.value.send)] == turns
              else r.value.history == turns && r.value.send == req.query
  {
    if !available then Failure(KeyNotConfigured)
    else if HasMessages(req) then
      var turns := GeminiTurns(req.messages.value);
      if turns != [] && turns[|turns| - 1].role == "user"
      then Success(Chat(turns[..|turns| - 1], turns[|turns| - 1].part, req.temperature))
      else Success(Chat(turns, req.query, req.temperature))
    else Success(Generate(SingleTurnPrompt(req), req.temperature))
  }

  /** `GoogleClient.consult` as written: the history loop, then the pop. */
  method GeminiShape(available: bool, req: Request) returns (r: Result<GeminiCall, ClientError>)
    ensures r == GeminiCallOf(available, req)
  {
    if !available {
      return Failure(KeyNotConfigured);
    }
    if req.messages.Some? && req.messages.value != [] {
      var history := ConvertHistory(req.messages.value);
      if history != [] && history[|history| - 1].role == "user" {
        var current := history[|history| - 1];
        history := history[..|history| - 1];
        r := Success(Chat(history, current.part, req.temperature));
      } else {
        r := Success(Chat(history, req.query, req.temperature));
      }
    } else {
      r := Success(Generate(SingleTurnPrompt(req), req.temperature));
    }
  }

  // ---------------------------------------------------------------------------
  // Clients and the factory
  // ---------------------------------------------------------------------------

  datatype Client =
    | Ollama(baseUrl: string)
    | OpenAI(apiKey: Option<string>, endpoint: Option<string>, providerLabel: string)
    | Google(available: bool)

  /** The `provider` a client puts in its responses. */
  function Label(c: Client): string
  {
    match c
    case Ollama(_) => "ollama"
    case OpenAI(_, _, providerLabel) => providerLabel
    case Google(_) => "google"
  }

  /** What a client puts on the wire for a request. */
  datatype Wire = OllamaChat(url: string, ollama: OllamaPayload) | Completion(openai: OpenAIPayload) | Gemini(call: GeminiCall)

  function WireOf(c: Client, req: Request): (r: Result<Wire, ClientError>)
    ensures r.Failure? <==> c.Google? && !c.available
    ensures r.Success? && !c.Google? ==> (r.value.OllamaChat? && r.value.ollama.messages == ChatMessages(req))
                                         || (r.value.Completion? && r.value.openai.messages == ChatMessages(req))
  {
    match c
    case Ollama(base) => Success(OllamaChat(base + "/chat", OllamaPayloadOf(req)))
    case OpenAI(_, _, _) => Success(Completion(OpenAIPayloadOf(req)))
    case Google(available) =>
      match GeminiCallOf(available, req)
      case Failure(e) => Failure(e)
      case Success(call) => Success(Gemini(call))
  }

  datatype ProviderConfig = ProviderConfig(enabled: bool, baseUrl: Option<string>, defaultModel: Option<string>, apiKey: Option<string>)

  /** `ServerConfig.providers`, a dictionary kept in insertion order. */
  datatype ServerConfig = ServerConfig(providers: map<string, ProviderConfig>, order: seq<string>)

  ghost predicate ConfigOk(cfg: ServerConfig)
  {
    && (forall i, j :: 0 <= i < j < |cfg.order| ==> cfg.order[i] != cfg.order[j])
    && (forall p :: p in cfg.providers <==> p in cfg.order)
  }

  /** The client `get_client` builds for a provider it has not seen. */
  function BuildClient(provider: string, cfg: ServerConfig): (r: Result<Client, ClientError>)
    ensures provider !in cfg.providers ==> r == Failure(NotConfigured(provider))
    ensures r.Success? <==> provider in cfg.providers && provider in Providers
    ensures r.Success? ==> Label(r.value) == provider
    ensures r.Success? && provider == "ollama" ==> r.value.Ollama? && (r.value.baseUrl == [] || r.value.baseUrl[|r.value.baseUrl| - 1] != '/')
    ensures r.Success? && provider == "google" ==> r.value == Google(Truthy(cfg.providers[provider].apiKey))
  {
    if provider !in cfg.providers then Failure(NotConfigured(provider))
    else
      var p := cfg.providers[provider];
      if provider == "ollama" then Success(Ollama(TrimSlashes(if Truthy(p.baseUrl) then p.baseUrl.value else DefaultOllamaUrl)))
      else if provider == "openai" then Success(OpenAI(p.apiKey, None, "openai"))
      else if provider == "openrouter" then Success(OpenAI(p.apiKey, Some(OpenRouterUrl), "openrouter"))
      else if provider == "google" then Success(Google(Truthy(p.apiKey)))
      else Failure(UnknownProvider(provider))
  }

  /** What `get_client` answers for a provider, given the instances cached so far. */
  function Lookup(instances: map<string, Client>, provider: string, cfg: ServerConfig): (r: Result<Client, ClientError>)
    ensures provider in instances ==> r == Success(instances[provider])
    ensures provider !in instances ==> r == BuildClient(provider, cfg)
  {
    if provider in instances then Success(instances[provider]) else BuildClient(provider, cfg)
  }

  /** The instances cached after that call: a built client is added, a failure adds nothing. */
  function Cached(instances: map<string, Client>, provider: string, cfg: ServerConfig): (r: map<string, Client>)
    ensures Lookup(instances, provider, cfg).Success? ==> r == instances[provider := Lookup(instances, provider, cfg).value]
    ensures Lookup(instances, provider, cfg).Failure? ==> r == instances
  {
    match Lookup(instances, provider, cfg)
    case Success(c) => instances[provider := c]
    case Failure(_) => instances
  }

  /** Asking again gives the same client and caches nothing more, whatever the
      configuration says by then. */
  lemma LookupMemo(instances: map<string, Client>, provider: string, cfg: ServerConfig, later: ServerConfig)
    requires Lookup(instances, provider, cfg).Success?
    ensures Lookup(Cached(instances, provider, cfg), provider, later) == Lookup(instances, provider, cfg)
    ensures Cached(Cached(instances, provider, cfg), provider, later) == Cached(instances, provider, cfg)
  {
  }

  /** `ClientFactory`: the class-level `_instances` dictionary. */
  class ClientFactory {
    var instances: map<string, Client>

    /** Every cached client was built for its key. */
    ghost predicate Valid()
      reads this
    {
      forall p :: p in instances ==> p in Providers && Label(instances[p]) == p
    }

    constructor ()
      ensures Valid() && instances == map[]
    {
      instances := map[];
    }

    /** `ClientFactory.get_client`. */
    method GetClient(provider: string, cfg: ServerConfig) returns (r: Result<Client, ClientError>)
      requires Valid()
      modifies this
      ensures Valid()
      ensures r == Lookup(old(instances), provider, cfg)
      ensures instances == Cached(old(instances), provider, cfg)
      ensures r.Success? ==> Label(r.value) == provider
    {
      if provider in instances {
        return Success(instances[provider]);
      }
      r := BuildClient(provider, cfg);
      if r.Success? {
        instances := instances[provider := r.value];
      }
    }
  }
}
