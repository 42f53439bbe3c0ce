# Voice agent configuration core, in Dafny

This project models the two sequential cores of a voice-agent deployment.
A web server hands out room tokens and serves per-agent configuration. A
worker process joins each room and builds a speech session from that
configuration.

- **Web server (main.py).** `ConfigManager` keeps a map from agent id to
  `AgentProfile`. The built-in default profile is held outside that map. A
  lookup answers from the map when it can. On a miss it asks the workflow
  webhook once, but only if a base URL is configured. It stores the profile
  only when the reply is a 200 with a body that parses, and it stores it
  under the id that was asked for. Every other outcome returns the default
  and leaves the map alone. `invalidate` drops one key, or clears the map
  when its argument is falsy (`None` or `""`). The token endpoint names
  rooms `test-<agentId>-<seconds>`, with `agentId` defaulting to
  `"default"`. It fails with status 500 when either signing credential is
  missing or empty, before any token is built.
- **Worker (agent_worker.py).** The worker takes the agent id from the room
  metadata and then from the room name. The room-name rule runs second, so
  it wins. The worker falls back to its own configuration dict when the
  server does not answer 200. It maps the configured language to STT and TTS
  settings, where the auto-detect value `"unknown"` becomes `"hi-IN"` for
  TTS. It picks the language-model provider and model, and it says the
  greeting only when the greeting is non-empty.

Modules: `Wrappers` (Option, Result), `Text` (the Python string behaviour
the code depends on: `split('-')`, `startswith`, integer rendering,
truthiness), `ConfigCache` (main.py's profile record and `ConfigManager`
class), `TokenIssuer` (main.py's `generate_token`), and `AgentWorker`
(agent_worker.py).

The webhook and the web server are never called. What they would answer is
a `FetchOutcome` parameter: `Failed` for a network error or timeout, or
`Response(status, body)` where `body == None` means the body was not JSON
or did not validate. `ConfigManager.GetProfile` also returns the request it
sends (`Option<FetchRequest>`), so "no fetch was attempted" is part of its
contract. Environment variables, clock readings and the JSON verdict on the
room metadata are parameters as well.

The room-name rule runs after the metadata rule, so for any room named
`test-...` the name wins, even over an `agent_id` in the metadata
(agent_worker.py:94-107). See `AgentWorker.ExtractAgentId` and
`AgentWorker.ExampleRoomNameWins`.

`ConfigCache.NotFoundIsNotCached` is an example client of `ConfigManager`.
It is a method without a contract whose assertions replay a 404 for
`"ghost"`, a retry, a successful fetch, and a clear by `""`.

## Model

| member | source | states |
|---|---|---|
| `Text.StartsWith` | agent_worker.py:104 | `startswith("test-")` holds exactly when the string is at least as long as the prefix and its first characters are the prefix |
| `Text.Truthy` | main.py:120 | an optional string is falsy exactly when it is `None` or `""`; a truthy one has at least one character |
| `Text.Split` | agent_worker.py:105 | `split("-")` always gives at least one piece, no piece contains the separator, and joining the pieces with the separator gives back the input |
| `Text.SplitWithoutSeparator` | agent_worker.py:105 | a string with no separator splits into exactly itself |
| `Text.SplitAtSeparator` | agent_worker.py:105 | splitting `a + "-" + b` is splitting `a` followed by splitting `b` |
| `Text.SplitUnique` | agent_worker.py:105 | any non-empty list of separator-free pieces is what splitting their join gives back, so `Split` is the only such decomposition |
| `Text.SplitFirstPiece` | agent_worker.py:105-107 | there is one piece exactly when there is no hyphen; the first piece is the whole string exactly when there is no hyphen; the first piece is always a prefix of the string, and a proper one when there is a hyphen |
| `Text.Decimal` | main.py:156 | rendering a non-negative second count gives a non-empty string of digits with no leading zero (except "0" itself), and those digits denote the number |
| `Text.DecimalInjective` | main.py:156 | different second counts render differently, so room names from different seconds differ |
| `ConfigCache.FromJson` | main.py:36-46 | every key present in the JSON object supplies its field, and every missing key gives the field's declared default (`id` `"default"`, language `"hi-IN"`, voice `"arya"`, empty text and lists); an object with no keys gives exactly the declared defaults |
| `ConfigCache.ToJson` | main.py:195 | every key of the serialized profile is present, and reading it back gives the same profile |
| `ConfigCache.ToJsonInjective` | main.py:195 | distinct profiles serialize differently |
| `ConfigCache.CreateDefault` | main.py:63-97 | the built-in profile has id `"default"`, takes language and voice from the environment, and has a non-empty greeting and prompt and three qualification questions |
| `ConfigCache.Accepted` | main.py:108-110 | a fetch yields a profile exactly on status 200 with a body that parses, and that profile is built from the body |
| `ConfigCache.Resolve` | main.py:99-117 | the returned profile is the cache entry for the id when one exists afterwards and the default otherwise; existing entries are kept unchanged and only the requested key can be added; a request goes out exactly on a miss with a non-empty base URL, to base + endpoint with the requested id; on a miss the key is added exactly when that fetch is accepted |
| `ConfigCache.Invalidated` | main.py:119-123 | a truthy id removes that key and no other, and keeps every other entry; `None` or `""` empties the map |
| `ConfigCache.ConfigManager.constructor` | main.py:51-56 | environment values or their defaults for base URL and webhook paths, an empty cache, and the built-in default profile (id `"default"`) |
| `ConfigCache.ConfigManager.GetProfile` | main.py:99-117 | the returned profile, the request sent and the new cache are exactly those of `Resolve` on the old cache; only the cache may change, and the default profile's id stays `"default"` |
| `ConfigCache.ConfigManager.Invalidate` | main.py:119-123 | the new cache is `Invalidated` of the old one; the default profile is unchanged |
| `ConfigCache.FetchedProfileIsCached` | main.py:100-113 | after an accepted fetch the profile is stored under the requested key. The next lookup of that id returns the identical profile, sends nothing and leaves the cache as it is, whatever the webhook would answer |
| `ConfigCache.FailedFetchIsRetried` | main.py:103-117 | a failed fetch (any status other than 200, a bad body, or a network failure) returns the default and leaves the cache unchanged, and the next lookup of that id sends the request again |
| `ConfigCache.InvalidateForcesRefetch` | main.py:119-121 | after invalidating a non-empty id with a webhook configured, the next lookup of it sends exactly one request |
| `ConfigCache.ClearedCacheServesDefault` | main.py:99-123 | after `invalidate(None)` or `invalidate("")` with no webhook configured, every id resolves to the default and the cache stays empty |
| `TokenIssuer.RoomName` | main.py:156 | the room name starts with `test-` and splits on `-` into `"test"`, the pieces of the agent id, and the timestamp's digits |
| `TokenIssuer.CredentialsPresent` | main.py:158-161 | the credential guard rejects exactly when the API key or the API secret is missing or empty |
| `TokenIssuer.GenerateToken` | main.py:146-189 | the call fails exactly when the body is unreadable or a credential is missing or empty. An unreadable body fails with the bad-body error, a readable body with missing credentials fails with the credentials error, and every failure has status 500. On success the room name is built from the agent id (default `"default"`), the grant covers exactly that room with join, publish and subscribe, the identity and name are the user name (default `Tester-<seconds>`), and the second `-` piece of the room name is the first piece of the agent id |
| `TokenIssuer.AcmeRoomShape` | main.py:151-156 | a request for `"acme"` with credentials succeeds, and its room name splits into `test`, `acme` and a run of digits |
| `TokenIssuer.MissingAgentIdIsDefault` | main.py:151 | a request with no `agentId` is issued for agent `"default"` and a room `test-default-<digits>` |
| `AgentWorker.ExtractAgentId` | agent_worker.py:93-107 | For a room named `test-...` the name has at least two pieces and the id is the second one, whatever the metadata. Otherwise the id is the metadata's `agent_id` when the metadata is non-empty JSON with that key. In every other case it is `"default"`, including malformed or non-object metadata |
| `AgentWorker.DefaultConfig` | agent_worker.py:50-70 | the built-in dict has id `"default"`, a non-empty greeting, and the environment's language and voice or `"hi-IN"` and `"arya"` |
| `AgentWorker.GetAgentConfig` | agent_worker.py:39-70 | The configuration is the server's body on a 200 reply whose body is JSON. On any other status and on any failure it is the built-in dict, whose id is `"default"` |
| `AgentWorker.ConfigUrl` | agent_worker.py:43 | the request URL is exactly `WEB_SERVER_URL` (default `http://localhost:3000`) followed by `/api/config/` and the agent id: it has that prefix and that suffix, and its length is their sum, so nothing lies between them and they do not overlap |
| `AgentWorker.ConfigLanguage` | agent_worker.py:118 | the configured language when the key is present, `"hi-IN"` otherwise |
| `AgentWorker.SttLanguage` | agent_worker.py:118-122 | the STT language always equals the configured language (default `"hi-IN"`), `"unknown"` included |
| `AgentWorker.TtsLanguage` | agent_worker.py:124-130 | the TTS language is never `"unknown"`; it is the configured language unless that is `"unknown"`, in which case it is `"hi-IN"` |
| `AgentWorker.TtsSpeaker` | agent_worker.py:128 | the TTS speaker is the configured voice when present, `"arya"` otherwise |
| `AgentWorker.Instructions` | agent_worker.py:81 | the agent's instructions are the configured system prompt when present, `""` otherwise |
| `AgentWorker.SelectLlm` | agent_worker.py:133-144 | The Groq base URL and key are used exactly when the provider is `"groq"` (also the default); any other provider uses no base URL and the OpenAI key. The model is `LLM_MODEL` when set, otherwise `llama-3.3-70b-versatile` for Groq or `gpt-4o-mini` |
| `AgentWorker.OnEnter` | agent_worker.py:83-87 | at most one utterance; exactly one when the configured greeting is present and non-empty, and then it is that greeting |
| `AgentWorker.PlanSession` | agent_worker.py:89-157 | The plan's agent id is the one extracted from the room, and its configuration is what `get_agent_config` gives for the reply. The URL requested is the one for that id. STT is `saaras:v3` on the language from `SttLanguage`, which is the configured one. TTS is `bulbul:v2` with the speaker from `TtsSpeaker` and the language from `TtsLanguage`, so `"unknown"` becomes `"hi-IN"` there. Turn detection is `"stt"`. The instructions, language model and greeting come from their selection rules, and there is at most one greeting |
| `AgentWorker.TestRoomNamesAgent` | agent_worker.py:103-107 | any room `test-<id>-<rest>` with a hyphen-free id belongs to that id, whatever the metadata |
| `AgentWorker.RoomNameRoundTrip` | agent_worker.py:103-107 | the worker extracts, from the name the token endpoint builds, the first hyphen piece of the agent id; that equals the id exactly when the id has no hyphen |
| `AgentWorker.TokenRoomFetchesItsAgent` | agent_worker.py:103-112 | for a hyphen-free agent id, the worker asks `<WEB_SERVER_URL>/api/config/<id>` for the room the token endpoint named |
| `AgentWorker.ServedProfileDrivesSession` | agent_worker.py:81-130 | a profile served with status 200 supplies the STT language, the TTS speaker and language (`"unknown"` becoming `"hi-IN"`), the instructions, and the greeting (none when it is empty) |
| `AgentWorker.FallbackSessionGreets` | agent_worker.py:39-130 | without a usable reply the session runs on the built-in dict. It has id `"default"`, the built-in greeting and prompt, and the environment language and voice (default `"hi-IN"` and `"arya"`) |
| `AgentWorker.ExampleTestRoom` | agent_worker.py:103-107 | no metadata and room `test-acme-1700000000` give `"acme"` |
| `AgentWorker.ExampleMetadata` | agent_worker.py:94-100 | Metadata `{"agent_id":"zeta"}` with room `anything` gives `"zeta"`. Malformed metadata, non-object JSON and an object without the key give `"default"` |
| `AgentWorker.ExampleRoomNameWins` | agent_worker.py:94-107 | metadata naming `"zeta"` is overridden by room `test-acme-1`, giving `"acme"` |

## Left out

- Outbound HTTP to the workflow webhook and to the web server: network I/O. The reply is the `FetchOutcome` parameter, and the 5-second timeout is one way of getting `Failed`.
- Pydantic validation: a foreign library. A body that does not validate (a wrong field type, a non-object) is `body == None`. Extra keys and non-string values are not represented in `ProfileJson`.
- `json.loads` on the room metadata: a foreign library. Its verdict is the `MetadataJson` parameter, which is not tied to the metadata text. A non-string `agent_id` value (a number, `null`) is not modelled; the code would use its string form.
- `AgentWorker.GetAgentConfig`: a 200 body that is JSON but not an object would be returned by the code and fail later at `.get`. Here every JSON body has the profile's shape.
- `TokenIssuer.GenerateToken`: does not model an `agentId` or `userName` present in the body with a non-string JSON value (a number, `null`, a list, …). The f-string would render it, as `test-5-<seconds>` or `test-None-<seconds>`, and the response would return the raw value as `agentId` (main.py:151, 156, 183). It does not model the text of an unexpected exception either; such failures are `BadRequestBody`, status 500.
- LiveKit token signing (JWT): an opaque library. The token is the set of claims the signer would receive.
- `TokenIssuer.GenerateToken`: signing (`to_jwt`, main.py:177) is assumed to succeed. An error the signing library raises would be caught and returned as a 500 (main.py:187-189), and that path is not modelled. So the "fails exactly when" clause covers only the failures main.py decides itself: an unreadable body and missing credentials.
- The `language` and `voice` fields of the token request: the code reads them but uses neither.
- The clocks: `generate_token` reads the clock twice, once for the default user name and once for the room name. These are two `nat` parameters in whole seconds, and pre-1970 (negative) timestamps are not modelled.
- FastAPI routing, CORS, the exception-to-500 wrapping beyond the token endpoint, `/health`, the static `/api/languages` catalog, the embedded HTML/JS UI, uvicorn start-up and logging: framework plumbing with no decisions of the core.
- The lead-capture webhook path: `ConfigManager` records it but no operation uses it.
- Concurrency: each `GetProfile` runs atomically. The code can interleave two fetches for the same uncached id across its `await`, and the last writer wins. That is not modelled.
- Session construction, `session.start`, `session.say`, the room connection, and the float `min_endpointing_delay`: external services. Only the chosen parameters (`SessionPlan`) are modelled.
- `get_profile`'s default argument `"default"`: every caller in the code passes an id.
