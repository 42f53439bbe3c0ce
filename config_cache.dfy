/** The web server's agent-profile cache (main.py): the profile record, its
    JSON shape, the built-in default profile, and `ConfigManager`, which keeps
    fetched profiles in a map keyed by the requested agent id and falls back
    to the default whenever the workflow webhook cannot supply one. */
module ConfigCache {
  import opened Wrappers
  import opened Text

  /** One conversational persona. */
  datatype AgentProfile = AgentProfile(
    id: string,
    name: string,
    language: string,
    voice: string,
    systemPrompt: string,
    greeting: string,
    qualificationQuestions: seq<string>,
    transferKeywords: seq<string>,
    fallbackMessage: string)

  /** A JSON object with the profile's keys, each possibly missing. The
      webhook's reply body, the server's serialized profile and the worker's
      configuration dict all have this shape. */
  datatype ProfileJson = ProfileJson(
    id: Option<string>,
    name: Option<string>,
    language: Option<string>,
    voice: Option<string>,
    systemPrompt: Option<string>,
    greeting: Option<string>,
    qualificationQuestions: Option<seq<string>>,
    transferKeywords: Option<seq<string>>,
    fallbackMessage: Option<string>)

  const EmptyJson: ProfileJson :=
    ProfileJson(None, None, None, None, None, None, None, None, None)

  /** The values the profile record declares for fields a caller leaves out. */
  const FieldDefaults: AgentProfile :=
    AgentProfile("default", "Lead Nurturing Agent", "hi-IN", "arya", "", "", [], [], "")

  /** A field built from an optional key: the key's value when present,
      the declared default otherwise. */
  predicate TakenOr<T(==)>(key: Option<T>, field: T, default: T) {
    (key.Some? ==> field == key.value) && (key.None? ==> field == default)
  }

  /** Building a profile from a JSON object: every key present is taken,
      every missing key gets its declared default. */
  function FromJson(j: ProfileJson): (p: AgentProfile)
    ensures TakenOr(j.id, p.id, FieldDefaults.id)
    ensures TakenOr(j.name, p.name, FieldDefaults.name)
    ensures TakenOr(j.language, p.language, FieldDefaults.language)
    ensures TakenOr(j.voice, p.voice, FieldDefaults.voice)
    ensures TakenOr(j.systemPrompt, p.systemPrompt, FieldDefaults.systemPrompt)
    ensures TakenOr(j.greeting, p.greeting, FieldDefaults.greeting)
    ensures TakenOr(j.qualificationQuestions, p.qualificationQuestions, FieldDefaults.qualificationQuestions)
    ensures TakenOr(j.transferKeywords, p.transferKeywords, FieldDefaults.transferKeywords)
    ensures TakenOr(j.fallbackMessage, p.fallbackMessage, FieldDefaults.fallbackMessage)
    ensures j == EmptyJson ==> p == FieldDefaults
    ensures j.id.None? ==> p.id == "default"
  {
    AgentProfile(
      j.id.GetOr(FieldDefaults.id),
      j.name.GetOr(FieldDefaults.name),
      j.language.GetOr(FieldDefaults.language),
      j.voice.GetOr(FieldDefaults.voice),
      j.systemPrompt.GetOr(FieldDefaults.systemPrompt),
      j.greeting.GetOr(FieldDefaults.greeting),
      j.qualificationQuestions.GetOr(FieldDefaults.qualificationQuestions),
      j.transferKeywords.GetOr(FieldDefaults.transferKeywords),
      j.fallbackMessage.GetOr(FieldDefaults.fallbackMessage))
  }

  /** Serializing a profile: every key is present. */
  function ToJson(p: AgentProfile): (j: ProfileJson)
    ensures FromJson(j) == p
    ensures j.id.Some? && j.name.Some? && j.language.Some? && j.voice.Some?
      && j.systemPrompt.Some? && j.greeting.Some?
      && j.qualificationQuestions.Some? && j.transferKeywords.Some?
      && j.fallbackMessage.Some?
  {
    ProfileJson(
      Some(p.id), Some(p.name), Some(p.language), Some(p.voice),
      Some(p.systemPrompt), Some(p.greeting),
      Some(p.qualificationQuestions), Some(p.transferKeywords),
      Some(p.fallbackMessage))
  }

  /** Serializing loses nothing: distinct profiles have distinct JSON. */
  lemma ToJsonInjective(p: AgentProfile, q: AgentProfile)
    ensures ToJson(p) == ToJson(q) ==> p == q
  {
    if ToJson(p) == ToJson(q) {
      assert FromJson(ToJson(p)) == FromJson(ToJson(q));
    }
  }

  const DefaultPrompt: string :=
    "You are a friendly lead nurturing agent for real estate.\n\n"
    + "Your role:\n"
    + "- Greet callers warmly in Hindi or their preferred language\n"
    + "- Understand their property requirements\n"
    + "- Qualify leads by asking about budget, location, timeline\n"
    + "- Schedule property visits\n\n"
    + "Guidelines:\n"
    + "- Be warm, professional, and patient\n"
    + "- Use Hinglish (Hindi + English mix) naturally\n"
    + "- Always confirm information before ending\n\n"
    + "Collect these details:\n"
    + "1. Name\n"
    + "2. Budget range\n"
    + "3. Preferred location/area\n"
    + "4. Property type (apartment/villa/plot)\n"
    + "5. Timeline to buy\n"
    + "6. Best time for site visit"

  const DefaultGreeting: string :=
    "नमस्ते! RAA Estate में आपका स्वागत है। मैं आपकी कैसे मदद कर सकता हूं?"

  const DefaultFallbackMessage: string :=
    "माफ कीजिए, मैं समझ नहीं पाया। क्या आप दोबारा बता सकते हैं?"

  const DefaultQuestions: seq<string> := [
    "आपका बजट क्या है?",
    "आप किस एरिया में प्रॉपर्टी देख रहे हैं?",
    "कब तक खरीदना चाहते हैं?"
  ]

  const DefaultTransferKeywords: seq<string> := ["manager", "human", "complaint"]

  /** `_create_default`: the built-in profile, with language and voice
      taken from the environment. */
  function CreateDefault(language: string, voice: string): (p: AgentProfile)
    ensures p.id == "default" && p.language == language && p.voice == voice
    ensures p.greeting != "" && p.systemPrompt != ""
    ensures |p.qualificationQuestions| == 3
  {
    AgentProfile("default", "Lead Nurturing Agent", language, voice,
      DefaultPrompt, DefaultGreeting, DefaultQuestions,
      DefaultTransferKeywords, DefaultFallbackMessage)
  }

  /** What the webhook would answer to one request. `Failed` stands for a
      network error or timeout; `body == None` for a body that is not JSON
      or does not validate against the profile record. */
  datatype FetchOutcome = Failed | Response(status: int, body: Option<ProfileJson>)

  /** The one request a lookup sends: the webhook URL and the `agent_id`
      query parameter. */
  datatype FetchRequest = FetchRequest(url: string, agentId: string)

  /** The profile a fetch yields, if it yields one: only a 200 reply whose
      body parses. */
  function Accepted(outcome: FetchOutcome): (r: Option<AgentProfile>)
    ensures r.Some? <==> outcome.Response? && outcome.status == 200 && outcome.body.Some?
    ensures r.Some? ==> r.value == FromJson(outcome.body.value)
  {
    match outcome
    case Response(200, Some(j)) => Some(FromJson(j))
    case _ => None
  }

  /** The result of one `get_profile` call: the profile returned, the cache
      afterwards, and the request sent (if any). */
  datatype Resolution = Resolution(
    profile: AgentProfile,
    cache: map<string, AgentProfile>,
    request: Option<FetchRequest>)

  /** `get_profile` on values. The returned profile is the cache's entry
      for `agentId` when there is one afterwards and the fallback otherwise;
      the cache only ever gains the requested key, and only from a
      successful fetch; a request is sent exactly on a miss with a
      configured base URL. */
  function Resolve(
    cache: map<string, AgentProfile>, fallback: AgentProfile,
    base: string, endpoint: string, agentId: string, outcome: FetchOutcome): (r: Resolution)
    ensures agentId in r.cache ==> r.profile == r.cache[agentId]
    ensures agentId !in r.cache ==> r.profile == fallback
    ensures cache.Keys <= r.cache.Keys <= cache.Keys + {agentId}
    ensures forall k :: k in cache ==> r.cache[k] == cache[k]
    ensures r.request.Some? <==> agentId !in cache && base != ""
    ensures r.request.Some? ==> r.request.value == FetchRequest(base + endpoint, agentId)
    ensures agentId !in cache ==>
      (agentId in r.cache <==> r.request.Some? && Accepted(outcome).Some?)
    ensures agentId in r.cache && agentId !in cache ==>
      r.profile == FromJson(outcome.body.value)
  {
    if agentId in cache then Resolution(cache[agentId], cache, None)
    else if base == "" then Resolution(fallback, cache, None)
    else
      var request := Some(FetchRequest(base + endpoint, agentId));
      match Accepted(outcome)
      case Some(p) => Resolution(p, cache[agentId := p], request)
      case None => Resolution(fallback, cache, request)
  }

  /** `invalidate` on values: a truthy id removes that one key (if present)
      and keeps every other entry; `None` or the empty id clears the map. */
  function Invalidated(cache: map<string, AgentProfile>, agentId: Option<string>)
    : (r: map<string, AgentProfile>)
    ensures Truthy(agentId) ==> r.Keys == cache.Keys - {agentId.value}
    ensures forall k :: k in r ==> k in cache && r[k] == cache[k]
    ensures !Truthy(agentId) ==> |r| == 0
  {
    if Truthy(agentId) then cache - {agentId.value} else map[]
  }

  /** The environment variables the server reads at start-up. */
  datatype ServerEnv = ServerEnv(
    n8nBaseUrl: Option<string>,
    configWebhook: Option<string>,
    leadCaptureWebhook: Option<string>,
    defaultLanguage: Option<string>,
    defaultVoice: Option<string>)

  class ConfigManager {
    var n8nBase: string
    var configEndpoint: string
    var leadCaptureEndpoint: string
    var cache: map<string, AgentProfile>
    var defaultProfile: AgentProfile

    /** The fallback is the built-in profile, which the cache never holds
        and no operation replaces. */
    ghost predicate Valid()
      reads this
    {
      defaultProfile.id == "default"
    }

    constructor (env: ServerEnv)
      ensures Valid()
      ensures n8nBase == env.n8nBaseUrl.GetOr("")
      ensures configEndpoint == env.configWebhook.GetOr("/webhook/agent-config")
      ensures leadCaptureEndpoint == env.leadCaptureWebhook.GetOr("/webhook/lead-capture")
      ensures cache == map[]
      ensures defaultProfile ==
        CreateDefault(env.defaultLanguage.GetOr("hi-IN"), env.defaultVoice.GetOr("arya"))
    {
      n8nBase := env.n8nBaseUrl.GetOr("");
      configEndpoint := env.configWebhook.GetOr("/webhook/agent-config");
      leadCaptureEndpoint := env.leadCaptureWebhook.GetOr("/webhook/lead-capture");
      cache := map[];
      defaultProfile :=
        CreateDefault(env.defaultLanguage.GetOr("hi-IN"), env.defaultVoice.GetOr("arya"));
    }

    /** `get_profile(agent_id)`, where `outcome` is what the webhook would
        answer if asked; `request` is the request actually sent. */
    method GetProfile(agentId: string, outcome: FetchOutcome)
      returns (profile: AgentProfile, request: Option<FetchRequest>)
      requires Valid()
      modifies this`cache
      ensures Valid()
      ensures Resolution(profile, cache, request)
        == Resolve(old(cache), defaultProfile, n8nBase, configEndpoint, agentId, outcome)
    {
      request := None;
      if agentId in cache {
        profile := cache[agentId];
        return;
      }
      if n8nBase != "" {
        request := Some(FetchRequest(n8nBase + configEndpoint, agentId));
        if outcome.Response? && outcome.status == 200 && outcome.body.Some? {
          profile := FromJson(outcome.body.value);
          cache := cache[agentId := profile];
          return;
        }
      }
      profile := defaultProfile;
    }

    /** `invalidate(agent_id)`: drop one entry, or all of them when the
        argument is falsy. The fallback and the endpoints stay as they are. */
    method Invalidate(agentId: Option<string>)
      requires Valid()
      modifies this`cache
      ensures Valid()
      ensures cache == Invalidated(old(cache), agentId)
      ensures defaultProfile == old(defaultProfile)
    {
      if Truthy(agentId) {
        cache := cache - {agentId.value};
      } else {
        cache := map[];
      }
    }
  }

  /** A successful fetch is remembered: the next lookup of the same id
      returns the identical profile and sends nothing, whatever the webhook
      would say. */
  lemma FetchedProfileIsCached(
    cache: map<string, AgentProfile>, fallback: AgentProfile, base: string,
    endpoint: string, agentId: string, first: FetchOutcome, second: FetchOutcome)
    requires agentId !in cache && base != "" && Accepted(first).Some?
    ensures var r1 := Resolve(cache, fallback, base, endpoint, agentId, first);
      && r1.profile == Accepted(first).value
      && r1.cache == cache[agentId := r1.profile]
      && Resolve(r1.cache, fallback, base, endpoint, agentId, second)
         == Resolution(r1.profile, r1.cache, None)
  {
  }

  /** A failed fetch is not remembered: it returns the fallback, leaves the
      cache alone, and the next lookup of that id asks the webhook again. */
  lemma FailedFetchIsRetried(
    cache: map<string, AgentProfile>, fallback: AgentProfile, base: string,
    endpoint: string, agentId: string, first: FetchOutcome, second: FetchOutcome)
    requires agentId !in cache && base != "" && Accepted(first).None?
    ensures var r1 := Resolve(cache, fallback, base, endpoint, agentId, first);
      && r1 == Resolution(fallback, cache, Some(FetchRequest(base + endpoint, agentId)))
      && Resolve(r1.cache, fallback, base, endpoint, agentId, second).request
         == Some(FetchRequest(base + endpoint, agentId))
  {
  }

  /** After invalidating one id, the next lookup of it sends exactly one
      request again. */
  lemma InvalidateForcesRefetch(
    cache: map<string, AgentProfile>, fallback: AgentProfile, base: string,
    endpoint: string, agentId: string, outcome: FetchOutcome)
    requires agentId != "" && base != ""
    ensures Resolve(Invalidated(cache, Some(agentId)), fallback, base, endpoint, agentId, outcome).request
      == Some(FetchRequest(base + endpoint, agentId))
  {
  }

  /** After a full clear and without a webhook, every id resolves to the
      fallback. */
  lemma ClearedCacheServesDefault(
    cache: map<string, AgentProfile>, fallback: AgentProfile, endpoint: string,
    agentId: Option<string>, lookup: string, outcome: FetchOutcome)
    requires !Truthy(agentId)
    ensures Resolve(Invalidated(cache, agentId), fallback, "", endpoint, lookup, outcome)
      == Resolution(fallback, map[], None)
  {
  }

  /** The webhook's 404 for one id: that lookup and the next both fall back
      and both ask again. */
  method NotFoundIsNotCached(env: ServerEnv)
    requires Truthy(env.n8nBaseUrl)
  {
    var manager := new ConfigManager(env);
    var p1, req1 := manager.GetProfile("ghost", Response(404, None));
    assert p1 == manager.defaultProfile && p1.id == "default";
    assert "ghost" !in manager.cache;
    var p2, req2 := manager.GetProfile("ghost", Failed);
    assert req2 == req1 && req1.Some?;
    var p3, _ := manager.GetProfile("acme", Response(200, Some(EmptyJson)));
    assert "acme" in manager.cache && p3 == FieldDefaults;
    manager.Invalidate(Some(""));
    assert manager.cache == map[];
  }
}
