/** The federated-intelligence tool handlers: consult one model (optionally inside a
    stored chat session), create and list sessions, check the providers' health, and
    dispatch by tool name. The provider's answer is a parameter: a function from what a
    client puts on the wire to the reply text, or nothing when the call fails. */
module FederatedTools {
  import opened Common
  import opened FederatedSessions
  import opened FederatedClients

  /** The arguments of `tool_consult_model`; an optional key is `None` when missing. */
  datatype ConsultArgs = ConsultArgs(
    provider: string,
    query: string,
    model: Option<string>,
    systemPrompt: Option<string>,
    sessionId: Option<string>,
    temperature: Option<real>)

  datatype FedError =
    | NoModel(provider: string)
    | SessionNotFound(sessionId: string)
    | ConsultationFailed(provider: string, model: string)

  function Code(e: FedError): string
  {
    match e
    case NoModel(_) => "no_model"
    case SessionNotFound(_) => "session_not_found"
    case ConsultationFailed(_, _) => "consultation_failed"
  }

  /** The success payload; `sessionId` is present only for a session consultation. */
  datatype ConsultReply = ConsultReply(sessionId: Option<string>, response: string, provider: string, model: string, timestamp: string)

  // ---------------------------------------------------------------------------
  // consult_model
  // ---------------------------------------------------------------------------

  /** The model: the argument when it is non-empty, otherwise the provider's configured
      default when that is non-empty, otherwise none. */
  function ModelFor(cfg: ServerConfig, a: ConsultArgs): (r: Option<string>)
    ensures r.Some? ==> r.value != ""
    ensures Truthy(a.model) ==> r == a.model
    ensures !Truthy(a.model) ==>
              (r.Some? <==> a.provider in cfg.providers && Truthy(cfg.providers[a.provider].defaultModel))
    ensures !Truthy(a.model) && r.Some? ==> r == cfg.providers[a.provider].defaultModel
  {
    if Truthy(a.model) then a.model
    else if a.provider in cfg.providers && Truthy(cfg.providers[a.provider].defaultModel) then cfg.providers[a.provider].defaultModel
    else None
  }

  /** The messages forwarded for a session: its messages as `{role, content}`, with the
      system prompt, when given, inserted at index 0. */
  function Forwarded(systemPrompt: Option<string>, msgs: seq<Message>): (r: seq<ChatMessage>)
    ensures |r| == |msgs| + (if Truthy(systemPrompt) then 1 else 0)
    ensures Truthy(systemPrompt) ==> r[0] == ChatMessage("system", systemPrompt.value)
    ensures var k := if Truthy(systemPrompt) then 1 else 0;
            forall i :: 0 <= i < |msgs| ==> r[i + k] == ChatMessage(msgs[i].role, msgs[i].content)
  {
    (if Truthy(systemPrompt) then [ChatMessage("system", systemPrompt.value)] else []) + ChatOf(msgs)
  }

  function ChatOf(msgs: seq<Message>): (r: seq<ChatMessage>)
    ensures |r| == |msgs| && forall i :: 0 <= i < |msgs| ==> r[i] == ChatMessage(msgs[i].role, msgs[i].content)
  {
    if msgs == [] then [] else ChatOf(msgs[..|msgs| - 1]) + [ChatMessage(msgs[|msgs| - 1].role, msgs[|msgs| - 1].content)]
  }

  function RequestOf(a: ConsultArgs, model: string, messages: Option<seq<ChatMessage>>): Request
  {
    Request(a.provider, model, a.query, a.systemPrompt, a.temperature, a.sessionId, messages)
  }

  /** The provider call: a client that refuses the request (Gemini without a key) fails
      like a failed call. */
  function Answer(c: Client, req: Request, answer: Wire -> Option<string>): (r: Option<string>)
    ensures c.Google? && !c.available ==> r == None
  {
    match WireOf(c, req)
    case Failure(_) => None
    case Success(w) => answer(w)
  }

  /** What `tool_consult_model` answers and the session directory afterwards. */
  datatype Outcome = Outcome(reply: Result<ConsultReply, FedError>, files: map<string, SessionFile>)

  /** `tool_consult_model` on the cached clients and the directory it starts from, in the
      order the handler works: the model, the client, the session (the user message is
      stored before the call, the forwarded history is the session as read before that),
      the call, and the stored reply. */
  function Consult(cfg: ServerConfig, instances: map<string, Client>, files: map<string, SessionFile>,
                   a: ConsultArgs, now: string, answer: Wire -> Option<string>): (o: Outcome)
    ensures ModelFor(cfg, a).None? ==> o == Outcome(Failure(NoModel(a.provider)), files)
    ensures !Truthy(a.sessionId) ==> o.files == files
    ensures o.reply.Success? ==> ModelFor(cfg, a).Some? && o.reply.value.model == ModelFor(cfg, a).value
    ensures o.reply.Success? ==> Lookup(instances, a.provider, cfg).Success? && o.reply.value.provider == Label(Lookup(instances, a.provider, cfg).value)
    ensures o.reply.Success? ==> o.reply.value.sessionId == (if Truthy(a.sessionId) then a.sessionId else None)
    ensures (ModelFor(cfg, a).Some? && Lookup(instances, a.provider, cfg).Success? && Truthy(a.sessionId) && Read(files, a.sessionId.value).None?)
              ==> o == Outcome(Failure(SessionNotFound(a.sessionId.value)), files)
  {
    match ModelFor(cfg, a)
    case None => Outcome(Failure(NoModel(a.provider)), files)
    case Some(model) =>
      match Lookup(instances, a.provider, cfg)
      case Failure(_) => Outcome(Failure(ConsultationFailed(a.provider, model)), files)
      case Success(client) =>
        if Truthy(a.sessionId) then
          var id := a.sessionId.value;
          match Read(files, id)
          case None => Outcome(Failure(SessionNotFound(id)), files)
          case Some(s) =>
            var stored := AfterAdd(files, id, Message("user", a.query, now), now);
            var req := RequestOf(a, model, Some(Forwarded(a.systemPrompt, s.messages)));
            match Answer(client, req, answer)
            case None => Outcome(Failure(ConsultationFailed(a.provider, model)), stored)
            case Some(text) =>
              Outcome(Success(ConsultReply(a.sessionId, text, Label(client), model, now)),
                      AfterAdd(stored, id, Message("assistant", text, now), now))
        else
          match Answer(client, RequestOf(a, model, None), answer)
          case None => Outcome(Failure(ConsultationFailed(a.provider, model)), files)
          case Some(text) => Outcome(Success(ConsultReply(None, text, Label(client), model, now)), files)
  }

  /** The request a session consultation sends, when it gets that far. */
  function SessionRequest(a: ConsultArgs, model: string, s: Session): Request
  {
    RequestOf(a, model, Some(Forwarded(a.systemPrompt, s.messages)))
  }

  /** A session consultation stores the query, and the reply after it when the call
      succeeds; a failed call leaves the query stored. */
  lemma ConsultStoresTurns(cfg: ServerConfig, instances: map<string, Client>, files: map<string, SessionFile>,
                           a: ConsultArgs, now: string, answer: Wire -> Option<string>)
    requires Truthy(a.sessionId) && Read(files, a.sessionId.value).Some? && Read(files, a.sessionId.value).value.id == a.sessionId.value
    requires ModelFor(cfg, a).Some? && Lookup(instances, a.provider, cfg).Success?
    ensures
      var id := a.sessionId.value;
      var s := Read(files, id).value;
      var o := Consult(cfg, instances, files, a, now, answer);
      var sent := Answer(Lookup(instances, a.provider, cfg).value, SessionRequest(a, ModelFor(cfg, a).value, s), answer);
      && Read(o.files, id).Some?
      && (sent.None? ==> o.reply == Failure(ConsultationFailed(a.provider, ModelFor(cfg, a).value))
                         && Read(o.files, id).value.messages == s.messages + [Message("user", a.query, now)])
      && (sent.Some? ==> o.reply.Success? && o.reply.value.response == sent.value
                         && Read(o.files, id).value.messages
                              == s.messages + [Message("user", a.query, now), Message("assistant", sent.value, now)])
  {
    var id := a.sessionId.value;
    var s := Read(files, id).value;
    var user := Message("user", a.query, now);
    var stored := AfterAdd(files, id, user, now);
    AddMessageReadBack(files, id, user, now);
    var sent := Answer(Lookup(instances, a.provider, cfg).value, SessionRequest(a, ModelFor(cfg, a).value, s), answer);
    if sent.Some? {
      var reply := Message("assistant", sent.value, now);
      AddMessageReadBack(stored, id, reply, now);
      assert s.messages + [user] + [reply] == s.messages + [user, reply];
    }
  }

  /** The forwarded history is stale: it is the session as read before the query was
      stored, so it is the stored history without its last message, the query. */
  lemma StaleHistory(systemPrompt: Option<string>, s: Session, query: string, now: string)
    ensures
      var after := Appended(s, Message("user", query, now), now);
      && Forwarded(systemPrompt, s.messages) == Forwarded(systemPrompt, after.messages)[..|after.messages| + (if Truthy(systemPrompt) then 0 else -1)]
      && |Forwarded(systemPrompt, s.messages)| + 1 == |Forwarded(systemPrompt, after.messages)|
  {
    var after := Appended(s, Message("user", query, now), now);
    var k := if Truthy(systemPrompt) then 1 else 0;
    var f := Forwarded(systemPrompt, s.messages);
    var g := Forwarded(systemPrompt, after.messages);
    assert |g| == |f| + 1;
    forall i | 0 <= i < |f| ensures f[i] == g[i] {
      if i >= k {
        assert after.messages[i - k] == s.messages[i - k];
      }
    }
  }

  /** On a session without messages and with a system prompt, the Ollama and OpenAI
      clients send only the system message: the query is not sent at all. The Gemini
      client, finding no user turn, sends the query on an empty history. */
  lemma FreshSessionDropsQuery(a: ConsultArgs, model: string, s: Session, c: Client)
    requires s.messages == [] && Truthy(a.systemPrompt)
    ensures var req := SessionRequest(a, model, s);
            && HasMessages(req)
            && ChatMessages(req) == [ChatMessage("system", a.systemPrompt.value)]
            && (c.Google? && c.available ==> WireOf(c, req) == Success(Gemini(Chat([], a.query, a.temperature))))
  {
    var req := SessionRequest(a, model, s);
    assert GeminiTurns(req.messages.value) == [] by {
      assert req.messages.value == [ChatMessage("system", a.systemPrompt.value)];
      assert req.messages.value[..0] == [];
    }
  }

  /** Without a system prompt on a session without messages, the forwarded list is empty,
      so the clients fall back to the single user query. */
  lemma FreshSessionSendsQuery(a: ConsultArgs, model: string, s: Session)
    requires s.messages == [] && !Truthy(a.systemPrompt)
    ensures ChatMessages(SessionRequest(a, model, s)) == [ChatMessage("user", a.query)]
  {
  }

  // ---------------------------------------------------------------------------
  // health_check
  // ---------------------------------------------------------------------------

  datatype Health = Disabled | Ok | Unreachable | Failed(error: ClientError)

  /** The Gemini client answers from its key alone; the others ask the network. */
  function Probe(c: Client, alive: Client -> bool): bool
  {
    if c.Google? then c.available else alive(c)
  }

  /** One provider's entry: disabled without a client; otherwise the client's probe, or
      an error when no client can be built. */
  function HealthOf(cfg: ServerConfig, instances: map<string, Client>, p: string, alive: Client -> bool): (h: Health)
    requires p in cfg.providers
    ensures h == Disabled <==> !cfg.providers[p].enabled
    ensures h.Failed? <==> cfg.providers[p].enabled && Lookup(instances, p, cfg).Failure?
  {
    if !cfg.providers[p].enabled then Disabled
    else match Lookup(instances, p, cfg)
      case Failure(e) => Failed(e)
      case Success(c) => if Probe(c, alive) then Ok else Unreachable
  }

  /** The cached clients after checking the providers `names` in order. */
  function CachedAll(cfg: ServerConfig, instances: map<string, Client>, names: seq<string>): map<string, Client>
    requires forall n :: n in names ==> n in cfg.providers
  {
    if names == [] then instances
    else
      var p := names[|names| - 1];
      var before := CachedAll(cfg, instances, names[..|names| - 1]);
      if cfg.providers[p].enabled then Cached(before, p, cfg) else before
  }

  /** The `results` dictionary after checking `names` in order, each against the clients
      cached by then. */
  function HealthMap(cfg: ServerConfig, instances: map<string, Client>, names: seq<string>, alive: Client -> bool): map<string, Health>
    requires forall n :: n in names ==> n in cfg.providers
  {
    if names == [] then map[]
    else
      var p := names[|names| - 1];
      HealthMap(cfg, instances, names[..|names| - 1], alive)[p := HealthOf(cfg, CachedAll(cfg, instances, names[..|names| - 1]), p, alive)]
  }

  /** Checking other providers leaves a provider's cache entry alone. */
  lemma {:induction false} CachedAllElsewhere(cfg: ServerConfig, instances: map<string, Client>, names: seq<string>, p: string)
    requires forall n :: n in names ==> n in cfg.providers
    requires p !in names
    ensures p in CachedAll(cfg, instances, names) <==> p in instances
    ensures p in instances ==> CachedAll(cfg, instances, names)[p] == instances[p]
  {
    if names != [] {
      CachedAllElsewhere(cfg, instances, names[..|names| - 1], p);
    }
  }

  /** With distinct provider names, the report has exactly one entry per provider, and
      each is what checking that provider alone on the starting cache gives. */
  lemma {:induction false} HealthMapEntries(cfg: ServerConfig, instances: map<string, Client>, names: seq<string>, alive: Client -> bool)
    requires forall n :: n in names ==> n in cfg.providers
    requires forall i, j :: 0 <= i < j < |names| ==> names[i] != names[j]
    ensures forall p :: p in HealthMap(cfg, instances, names, alive) <==> p in names
    ensures forall p :: p in names ==> HealthMap(cfg, instances, names, alive)[p] == HealthOf(cfg, instances, p, alive)
  {
    if names != [] {
      var prefix := names[..|names| - 1];
      var p := names[|names| - 1];
      forall k | 0 <= k < |prefix| ensures prefix[k] != p {
        assert prefix[k] == names[k];
      }
      HealthMapEntries(cfg, instances, prefix, alive);
      CachedAllElsewhere(cfg, instances, prefix, p);
      assert Lookup(CachedAll(cfg, instances, prefix), p, cfg) == Lookup(instances, p, cfg);
      forall q | q in names ensures q in prefix || q == p {
        var k :| 0 <= k < |names| && names[k] == q;
        if k < |names| - 1 {
          assert prefix[k] == q;
        }
      }
    }
  }

  // ---------------------------------------------------------------------------
  // Dispatch
  // ---------------------------------------------------------------------------

  const ToolNames: set<string> := {
    "consult_model", "consult_multiple_models", "create_session",
    "list_sessions", "list_models", "health_check"
  }

  /** A handler either replies (with or without an error) or lets an exception escape. */
  datatype HandlerOutcome = Replied(error: Option<FedError>) | Raised

  /** `Propagated`: the exception leaves `handle_call_tool`, which does not catch it. */
  datatype Envelope = SuccessEnvelope | ErrorEnvelope(error: string) | Propagated

  /** `handle_call_tool`: an unknown name is refused before any handler runs. */
  function HandleCallTool(name: string, outcome: HandlerOutcome): (e: Envelope)
    ensures name !in ToolNames ==> e == ErrorEnvelope("unknown_tool")
    ensures name in ToolNames ==> (e.SuccessEnvelope? <==> outcome == Replied(None))
    ensures name in ToolNames ==> (e.Propagated? <==> outcome.Raised?)
  {
    if name !in ToolNames then ErrorEnvelope("unknown_tool")
    else match outcome
      case Raised => Propagated
      case Replied(None) => SuccessEnvelope
      case Replied(Some(err)) => ErrorEnvelope(Code(err))
  }

  // ---------------------------------------------------------------------------
  // The server
  // ---------------------------------------------------------------------------

  class FederatedServer {
    const cfg: ServerConfig
    const store: SessionManager
    const factory: ClientFactory

    /** The directory holds only files the store wrote, each named by its session id. */
    ghost predicate Valid()
      reads this, store, factory
    {
      ConfigOk(cfg) && store.Valid() && store.NamedByIds() && factory.Valid()
    }

    constructor (cfg: ServerConfig, store: SessionManager, factory: ClientFactory)
      requires ConfigOk(cfg) && store.Valid() && store.NamedByIds() && factory.Valid()
      ensures Valid()
      ensures this.cfg == cfg && this.store == store && this.factory == factory
    {
      this.cfg := cfg;
      this.store := store;
      this.factory := factory;
    }

    /** `tool_consult_model`; `now` is every clock reading of the call. */
    method ConsultModel(a: ConsultArgs, now: string, answer: Wire -> Option<string>) returns (r: Result<ConsultReply, FedError>)
      requires Valid()
      modifies store, factory
      ensures Valid()
      ensures r == Consult(cfg, old(factory.instances), old(store.files), a, now, answer).reply
      ensures store.files == Consult(cfg, old(factory.instances), old(store.files), a, now, answer).files
      ensures store.names == old(store.names)
      ensures factory.instances == if ModelFor(cfg, a).None? then old(factory.instances) else Cached(old(factory.instances), a.provider, cfg)
      ensures r.Success? ==> r.value.provider == a.provider
    {
      var model := ModelFor(cfg, a);
      if model.None? {
        return Failure(NoModel(a.provider));
      }
      var client := factory.GetClient(a.provider, cfg);
      if client.Failure? {
        return Failure(ConsultationFailed(a.provider, model.value));
      }
      if a.sessionId.Some? && a.sessionId.value != "" {
        r := ConsultInSession(a, model.value, client.value, now, answer);
      } else {
        var text := Answer(client.value, RequestOf(a, model.value, None), answer);
        if text.None? {
          return Failure(ConsultationFailed(a.provider, model.value));
        }
        r := Success(ConsultReply(None, text.value, Label(client.value), model.value, now));
      }
    }

    /** The session branch of `tool_consult_model`: read the session, store the query,
        call with the history as read, store the reply. */
    method ConsultInSession(a: ConsultArgs, model: string, client: Client, now: string, answer: Wire -> Option<string>)
      returns (r: Result<ConsultReply, FedError>)
      requires Valid() && Truthy(a.sessionId)
      modifies store
      ensures Valid()
      ensures store.names == old(store.names)
      ensures
        var id := a.sessionId.value;
        match Read(old(store.files), id)
        case None => r == Failure(SessionNotFound(id)) && store.files == old(store.files)
        case Some(s) =>
          var stored := AfterAdd(old(store.files), id, Message("user", a.query, now), now);
          match Answer(client, SessionRequest(a, model, s), answer)
          case None => r == Failure(ConsultationFailed(a.provider, model)) && store.files == stored
          case Some(text) =>
            && r == Success(ConsultReply(a.sessionId, text, Label(client), model, now))
            && store.files == AfterAdd(stored, id, Message("assistant", text, now), now)
    {
      var id := a.sessionId.value;
      var session := store.GetSession(id);
      if session.None? {
        return Failure(SessionNotFound(id));
      }
      var added := store.AddMessage(id, "user", a.query, now);
      var messages := Forwarded(a.systemPrompt, session.value.messages);
      var req := RequestOf(a, model, Some(messages));
      var text := Answer(client, req, answer);
      if text.None? {
        return Failure(ConsultationFailed(a.provider, model));
      }
      added := store.AddMessage(id, "assistant", text.value, now);
      r := Success(ConsultReply(a.sessionId, text.value, Label(client), model, now));
    }

    /** `tool_create_session`: the new session's id and creation time. */
    method CreateSessionTool(metadata: Option<Metadata>, newId: string, now: string) returns (id: string, createdAt: string)
      requires Valid()
      modifies store
      ensures Valid()
      ensures id == newId && createdAt == now
      ensures store.GetSession(newId) == Some(Session(newId, [], Some(now), Some(now), Some(if metadata.Some? then metadata.value else map[])))
    {
      var s := store.CreateSession(metadata, newId, now);
      id := s.id;
      createdAt := now;
    }

    /** `tool_list_sessions`: the sorted rows and their count, or nothing when the sort
        raises. */
    method ListSessionsTool() returns (r: Option<(seq<ListEntry>, nat)>)
      requires Valid()
      ensures r.None? <==> Listed(Entries(store.names, store.files)).None?
      ensures r.Some? ==> r.value.0 == Listed(Entries(store.names, store.files)).value && r.value.1 == |r.value.0|
    {
      var rows := store.ListSessions();
      if rows.None? {
        return None;
      }
      r := Some((rows.value, |rows.value|));
    }

    /** `tool_health_check`: one entry per configured provider, in order; `alive` is what
        the network says of a client. */
    method HealthCheck(alive: Client -> bool) returns (results: map<string, Health>)
      requires Valid()
      modifies factory
      ensures Valid()
      ensures results == HealthMap(cfg, old(factory.instances), cfg.order, alive)
      ensures factory.instances == CachedAll(cfg, old(factory.instances), cfg.order)
    {
      results := map[];
      var i := 0;
      while i < |cfg.order|
        invariant 0 <= i <= |cfg.order|
        invariant factory.Valid()
        invariant results == HealthMap(cfg, old(factory.instances), cfg.order[..i], alive)
        invariant factory.instances == CachedAll(cfg, old(factory.instances), cfg.order[..i])
      {
        var p := cfg.order[i];
        assert cfg.order[..i + 1][..i] == cfg.order[..i];
        if cfg.providers[p].enabled {
          var client := factory.GetClient(p, cfg);
          if client.Failure? {
            results := results[p := Failed(client.error)];
          } else if Probe(client.value, alive) {
            results := results[p := Ok];
          } else {
            results := results[p := Unreachable];
          }
        } else {
          results := results[p := Disabled];
        }
        i := i + 1;
      }
      assert cfg.order[..i] == cfg.order;
    }
  }

  /** The report of a health check: every configured provider, disabled ones as
      disabled, each enabled one by its own client. */
  lemma HealthReport(cfg: ServerConfig, instances: map<string, Client>, alive: Client -> bool)
    requires ConfigOk(cfg)
    ensures forall p :: p in HealthMap(cfg, instances, cfg.order, alive) <==> p in cfg.providers
    ensures forall p :: p in cfg.providers ==> HealthMap(cfg, instances, cfg.order, alive)[p] == HealthOf(cfg, instances, p, alive)
  {
    HealthMapEntries(cfg, instances, cfg.order, alive);
  }
}
