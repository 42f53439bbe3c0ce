/** The worker's decisions (agent_worker.py): which agent id a room belongs
    to, which configuration to use when the web server cannot answer, and
    the speech, language-model and greeting parameters derived from that
    configuration. The session objects themselves are external; a
    `SessionPlan` records the parameters they are built with. */
module AgentWorker {
  import opened Wrappers
  import opened Text
  import opened ConfigCache
  import TokenIssuer

  /** What `json.loads` makes of the room metadata: not JSON at all, JSON
      that is not an object (so `.get` fails), or an object whose
      `agent_id` key may be missing. */
  datatype MetadataJson = Malformed | NotAnObject | Object(agentId: Option<string>)

  /** The agent id for a room. The metadata rule runs first; any failure
      in it leaves "default". Then a room named `test-...` overrides it
      with the second hyphen-separated piece of the name. */
  function ExtractAgentId(metadata: string, parsed: MetadataJson, roomName: string): (id: string)
    ensures StartsWith(roomName, "test-") ==>
      |Split(roomName, '-')| >= 2 && id == Split(roomName, '-')[1]
    ensures !StartsWith(roomName, "test-") && metadata != "" && parsed.Object? && parsed.agentId.Some? ==>
      id == parsed.agentId.value
    ensures !StartsWith(roomName, "test-") && !(metadata != "" && parsed.Object? && parsed.agentId.Some?) ==>
      id == "default"
  {
    var fromMetadata :=
      if metadata != "" then
        match parsed
        case Object(v) => v.GetOr("default")
        case _ => "default"
      else "default";
    if StartsWith(roomName, "test-") then
      assert roomName == "test" + ['-'] + roomName[5..];
      SplitAtSeparator("test", roomName[5..], '-');
      var parts := Split(roomName, '-');
      if |parts| >= 2 then parts[1] else fromMetadata
    else fromMetadata
  }

  /** The environment variables the worker reads. */
  datatype WorkerEnv = WorkerEnv(
    webServerUrl: Option<string>,
    defaultLanguage: Option<string>,
    defaultVoice: Option<string>,
    llmProvider: Option<string>,
    llmModel: Option<string>,
    groqApiKey: Option<string>,
    openaiApiKey: Option<string>)

  /** The web server's configuration endpoint for one agent. */
  function ConfigUrl(env: WorkerEnv, agentId: string): (url: string)
    ensures StartsWith(url, env.webServerUrl.GetOr("http://localhost:3000"))
    ensures |url| == |env.webServerUrl.GetOr("http://localhost:3000")| + 12 + |agentId|
    ensures url[|url| - |agentId| - 12..] == "/api/config/" + agentId
  {
    env.webServerUrl.GetOr("http://localhost:3000") + "/api/config/" + agentId
  }

  const WorkerDefaultPrompt: string :=
    "You are a friendly lead nurturing agent for real estate.\n\n"
    + "Your role:\n"
    + "- Greet callers warmly in Hindi or their preferred language\n"
    + "- Understand their property requirements\n"
    + "- Qualify leads by asking about budget, location, timeline\n"
    + "- Schedule property visits\n\n"
    + "Guidelines:\n"
    + "- Be warm, professional, and patient\n"
    + "- Use Hinglish (Hindi + English mix) naturally\n"
    + "- Always confirm information before ending"

  /** The worker's built-in configuration dict. */
  function DefaultConfig(env: WorkerEnv): (c: ProfileJson)
    ensures c.id == Some("default") && Truthy(c.greeting)
    ensures c.language == Some(env.defaultLanguage.GetOr("hi-IN"))
    ensures c.voice == Some(env.defaultVoice.GetOr("arya"))
    ensures c.qualificationQuestions.None? && c.transferKeywords.None?
  {
    ProfileJson(
      Some("default"), Some("Lead Nurturing Agent"),
      Some(env.defaultLanguage.GetOr("hi-IN")), Some(env.defaultVoice.GetOr("arya")),
      Some(WorkerDefaultPrompt), Some(DefaultGreeting),
      None, None, Some(DefaultFallbackMessage))
  }

  /** `get_agent_config`: the server's body on a 200 reply whose body is
      JSON; the built-in dict on any other status and on any failure. */
  function GetAgentConfig(reply: FetchOutcome, env: WorkerEnv): (c: ProfileJson)
    ensures reply.Response? && reply.status == 200 && reply.body.Some? ==> c == reply.body.value
    ensures !(reply.Response? && reply.status == 200 && reply.body.Some?) ==>
      c == DefaultConfig(env) && c.id == Some("default")
  {
    match reply
    case Response(200, Some(body)) => body
    case _ => DefaultConfig(env)
  }

  /** `config.get("language", "hi-IN")`. */
  function ConfigLanguage(c: ProfileJson): (l: string)
    ensures c.language.Some? ==> l == c.language.value
    ensures c.language.None? ==> l == "hi-IN"
  {
    c.language.GetOr("hi-IN")
  }

  /** The speech-to-text language: the configuration's language, with the
      auto-detect sentinel passed through unchanged. */
  function SttLanguage(c: ProfileJson): (l: string)
    ensures l == ConfigLanguage(c)
  {
    var language := ConfigLanguage(c);
    if language != "unknown" then language else "unknown"
  }

  /** The text-to-speech language: never the auto-detect sentinel, which
      becomes Hindi; any other language is kept. */
  function TtsLanguage(c: ProfileJson): (l: string)
    ensures l != "unknown"
    ensures ConfigLanguage(c) != "unknown" ==> l == ConfigLanguage(c)
    ensures ConfigLanguage(c) == "unknown" ==> l == "hi-IN"
  {
    var language := ConfigLanguage(c);
    if language != "unknown" then language else "hi-IN"
  }

  /** The text-to-speech speaker: the configured voice, "arya" if none. */
  function TtsSpeaker(c: ProfileJson): (s: string)
    ensures c.voice.Some? ==> s == c.voice.value
    ensures c.voice.None? ==> s == "arya"
  {
    c.voice.GetOr("arya")
  }

  /** The agent's instructions: the configured prompt, "" if none. */
  function Instructions(c: ProfileJson): (s: string)
    ensures c.systemPrompt.Some? ==> s == c.systemPrompt.value
    ensures c.systemPrompt.None? ==> s == ""
  {
    c.systemPrompt.GetOr("")
  }

  const GroqBaseUrl: string := "https://api.groq.com/openai/v1"

  datatype LlmSettings = LlmSettings(model: string, baseUrl: Option<string>, apiKey: Option<string>)

  /** The language-model client: Groq's endpoint exactly when the provider
      is "groq" (the default), otherwise the OpenAI default endpoint; the
      model is `LLM_MODEL` when set and the provider's default otherwise. */
  function SelectLlm(env: WorkerEnv): (s: LlmSettings)
    ensures s.baseUrl.Some? <==> env.llmProvider.GetOr("groq") == "groq"
    ensures s.baseUrl.Some? ==> s.baseUrl.value == GroqBaseUrl && s.apiKey == env.groqApiKey
    ensures s.baseUrl.None? ==> s.apiKey == env.openaiApiKey
    ensures env.llmModel.Some? ==> s.model == env.llmModel.value
    ensures env.llmModel.None? ==>
      s.model == (if s.baseUrl.Some? then "llama-3.3-70b-versatile" else "gpt-4o-mini")
  {
    if env.llmProvider.GetOr("groq") == "groq" then
      LlmSettings(env.llmModel.GetOr("llama-3.3-70b-versatile"), Some(GroqBaseUrl), env.groqApiKey)
    else
      LlmSettings(env.llmModel.GetOr("gpt-4o-mini"), None, env.openaiApiKey)
  }

  /** `on_enter`: the utterances spoken on entering the room. There is one,
      the greeting, exactly when the configuration has a non-empty one. */
  function OnEnter(c: ProfileJson): (said: seq<string>)
    ensures |said| <= 1
    ensures |said| == 1 <==> Truthy(c.greeting)
    ensures |said| == 1 ==> said[0] == c.greeting.value
  {
    if Truthy(c.greeting) then [c.greeting.value] else []
  }

  datatype SttSettings = SttSettings(language: string, model: string)

  datatype TtsSettings = TtsSettings(model: string, speaker: string, targetLanguage: string)

  /** Everything the worker decides for one room. */
  datatype SessionPlan = SessionPlan(
    agentId: string,
    configUrl: string,
    config: ProfileJson,
    stt: SttSettings,
    tts: TtsSettings,
    llm: LlmSettings,
    turnDetection: string,
    instructions: string,
    greeting: seq<string>)

  /** `agent_entrypoint`: `reply` is what the web server answers to the
      configuration request for the extracted id. */
  function PlanSession(
    metadata: string, parsed: MetadataJson, roomName: string,
    reply: FetchOutcome, env: WorkerEnv): (plan: SessionPlan)
    ensures plan.agentId == ExtractAgentId(metadata, parsed, roomName)
    ensures plan.configUrl == ConfigUrl(env, plan.agentId)
    ensures plan.config == GetAgentConfig(reply, env)
    ensures plan.tts.speaker == TtsSpeaker(plan.config)
    ensures plan.instructions == Instructions(plan.config)
    ensures plan.llm == SelectLlm(env)
    ensures plan.greeting == OnEnter(plan.config)
    ensures plan.stt == SttSettings(SttLanguage(plan.config), "saaras:v3")
    ensures plan.tts == TtsSettings("bulbul:v2", TtsSpeaker(plan.config), TtsLanguage(plan.config))
    ensures plan.turnDetection == "stt"
    ensures plan.stt.language == ConfigLanguage(plan.config)
    ensures plan.tts.targetLanguage != "unknown"
    ensures plan.stt.language == plan.tts.targetLanguage || plan.stt.language == "unknown"
    ensures |plan.greeting| <= 1
  {
    var agentId := ExtractAgentId(metadata, parsed, roomName);
    var config := GetAgentConfig(reply, env);
    SessionPlan(
      agentId,
      ConfigUrl(env, agentId),
      config,
      SttSettings(SttLanguage(config), "saaras:v3"),
      TtsSettings("bulbul:v2", TtsSpeaker(config), TtsLanguage(config)),
      SelectLlm(env),
      "stt",
      Instructions(config),
      OnEnter(config))
  }

  /** The token endpoint and the worker agree on the agent id exactly when
      the id has no hyphen; otherwise the worker sees only the part before
      the first hyphen. Metadata plays no part for such rooms. */
  lemma RoomNameRoundTrip(agentId: string, timestamp: nat, metadata: string, parsed: MetadataJson)
    ensures ExtractAgentId(metadata, parsed, TokenIssuer.RoomName(agentId, timestamp))
      == Split(agentId, '-')[0]
    ensures ExtractAgentId(metadata, parsed, TokenIssuer.RoomName(agentId, timestamp)) == agentId
      <==> '-' !in agentId
  {
    var name := TokenIssuer.RoomName(agentId, timestamp);
    assert Split(name, '-')[1] == Split(agentId, '-')[0];
    SplitFirstPiece(agentId, '-');
  }

  /** A session for a room issued by the token endpoint asks the server
      for the right agent's configuration, provided the id has no hyphen. */
  lemma TokenRoomFetchesItsAgent(
    agentId: string, timestamp: nat, metadata: string, parsed: MetadataJson,
    reply: FetchOutcome, env: WorkerEnv)
    requires '-' !in agentId
    ensures PlanSession(metadata, parsed, TokenIssuer.RoomName(agentId, timestamp), reply, env).configUrl
      == env.webServerUrl.GetOr("http://localhost:3000") + "/api/config/" + agentId
  {
    RoomNameRoundTrip(agentId, timestamp, metadata, parsed);
  }

  /** A profile served by the web server drives the session: its language,
      voice, prompt and greeting are the ones used. */
  lemma ServedProfileDrivesSession(
    p: AgentProfile, metadata: string, parsed: MetadataJson, roomName: string, env: WorkerEnv)
    ensures var plan := PlanSession(metadata, parsed, roomName, Response(200, Some(ToJson(p))), env);
      && plan.stt.language == p.language
      && plan.tts.speaker == p.voice
      && plan.tts.targetLanguage == (if p.language == "unknown" then "hi-IN" else p.language)
      && plan.instructions == p.systemPrompt
      && plan.greeting == (if p.greeting == "" then [] else [p.greeting])
  {
  }

  /** When the server cannot answer, the session runs on the built-in
      configuration and always greets. */
  lemma FallbackSessionGreets(
    metadata: string, parsed: MetadataJson, roomName: string, reply: FetchOutcome, env: WorkerEnv)
    requires !(reply.Response? && reply.status == 200 && reply.body.Some?)
    ensures var plan := PlanSession(metadata, parsed, roomName, reply, env);
      && plan.config.id == Some("default")
      && plan.greeting == [DefaultGreeting]
      && plan.stt.language == env.defaultLanguage.GetOr("hi-IN")
      && plan.tts.speaker == env.defaultVoice.GetOr("arya")
      && plan.instructions == WorkerDefaultPrompt
  {
  }

  /** Any room named `test-<id>-<rest>` with a hyphen-free id belongs to
      that id, whatever the metadata says. */
  lemma TestRoomNamesAgent(agentId: string, rest: string, metadata: string, parsed: MetadataJson)
    requires '-' !in agentId
    ensures ExtractAgentId(metadata, parsed, "test-" + agentId + "-" + rest) == agentId
  {
    var room := "test-" + agentId + "-" + rest;
    var tail := agentId + ['-'] + rest;
    assert room == "test" + ['-'] + tail;
    assert room[5..] == tail;
    SplitAtSeparator("test", tail, '-');
    SplitAtSeparator(agentId, rest, '-');
    SplitWithoutSeparator("test", '-');
    SplitWithoutSeparator(agentId, '-');
  }

  /** `test-acme-1700000000` with no metadata belongs to "acme". */
  lemma ExampleTestRoom()
    ensures ExtractAgentId("", Malformed, "test-acme-1700000000") == "acme"
  {
    assert "test-acme-1700000000" == "test-" + "acme" + "-" + "1700000000";
    TestRoomNamesAgent("acme", "1700000000", "", Malformed);
  }

  /** Metadata names the agent of a room not named by the test convention;
      malformed metadata falls back to "default". */
  lemma ExampleMetadata()
    ensures ExtractAgentId("{\"agent_id\":\"zeta\"}", Object(Some("zeta")), "anything") == "zeta"
    ensures ExtractAgentId("not json", Malformed, "randomroom") == "default"
    ensures ExtractAgentId("[1]", NotAnObject, "randomroom") == "default"
    ensures ExtractAgentId("{}", Object(None), "randomroom") == "default"
  {
    assert !StartsWith("anything", "test-") by { assert "anything"[0] != "test-"[0]; }
    assert !StartsWith("randomroom", "test-") by { assert "randomroom"[0] != "test-"[0]; }
  }

  /** The room-name rule overrides an id given in metadata. */
  lemma ExampleRoomNameWins()
    ensures ExtractAgentId("{\"agent_id\":\"zeta\"}", Object(Some("zeta")), "test-acme-1") == "acme"
  {
    assert "test-acme-1" == "test-" + "acme" + "-" + "1";
    TestRoomNamesAgent("acme", "1", "{\"agent_id\":\"zeta\"}", Object(Some("zeta")));
  }
}
