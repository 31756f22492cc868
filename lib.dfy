/** The library: providers and models, the per-provider request, the credential
    fallback, the request body, the HTTP headers, the decoding of the two response
    shapes, and `exec_tool` / `submit_prompt`, which tie them together.

    The outside world is a parameter (`Env`): the merged configuration map, the
    secrets-file path, the elapsed time already formatted in milliseconds, JSON
    parsing and pretty-printing, and a `send` function that performs the POST. */
module Cai {
  import opened Wrappers
  import opened Strings
  import opened Tables
  import opened Json
  import Models

  // ---------------------------------------------------------------------------
  // Providers and models

  datatype Provider = Anthropic | Groq | OpenAI | Llamafile | Ollama

  /** The name `Display` prints for a provider. */
  function ProviderName(p: Provider): string {
    match p
    case Anthropic => "Anthropic"
    case Groq => "Groq"
    case OpenAI => "OpenAI"
    case Llamafile => "Llamafile"
    case Ollama => "Ollama"
  }

  /** No provider's name is a prefix of another's (so a label determines its provider). */
  lemma ProviderNamesPrefixFree(p: Provider, q: Provider)
    requires p != q
    ensures !(ProviderName(p) <= ProviderName(q))
  {
    var a, b := ProviderName(p), ProviderName(q);
    if a[0] != b[0] {
      DifferAt(a, b, 0);
    } else {
      DifferAt(a, b, 1);
    }
  }

  predicate IsLocal(p: Provider) {
    p == Llamafile || p == Ollama
  }

  datatype Model = Model(provider: Provider, modelId: string)

  /** `Model::default()`. */
  const DefaultModel := Model(Groq, "llama-3.1-8b-instant")

  /** `Display` for a model: the provider name, then the id after one space unless
      the id is empty. */
  function ModelLabel(m: Model): (r: string)
    ensures ProviderName(m.provider) <= r
    ensures r == ProviderName(m.provider) <==> m.modelId == ""
    ensures m.modelId != "" ==> r[|ProviderName(m.provider)|..] == " " + m.modelId
  {
    if m.modelId == "" then ProviderName(m.provider)
    else ProviderName(m.provider) + " " + m.modelId
  }

  /** Two models print alike only if they are the same model. */
  lemma ModelLabelInjective(m1: Model, m2: Model)
    requires ModelLabel(m1) == ModelLabel(m2)
    ensures m1 == m2
  {
    var l := ModelLabel(m1);
    var n1, n2 := ProviderName(m1.provider), ProviderName(m2.provider);
    if m1.provider != m2.provider {
      if |n1| <= |n2| {
        assert n1 == l[..|n1|] == n2[..|n1|];
        ProviderNamesPrefixFree(m1.provider, m2.provider);
      } else {
        assert n2 == l[..|n2|] == n1[..|n2|];
        ProviderNamesPrefixFree(m2.provider, m1.provider);
      }
    } else if m1.modelId != "" && m2.modelId != "" {
      assert " " + m1.modelId == l[|n1|..] == " " + m2.modelId;
      assert m1.modelId == (" " + m1.modelId)[1..];
      assert m2.modelId == (" " + m2.modelId)[1..];
    }
  }

  /** The model id a provider actually uses for `modelId`: its alias table is
      consulted, except for Llamafile, which takes the id as it is. */
  function ResolvedModelId(p: Provider, modelId: string): (r: string)
    ensures p != Groq && p != Ollama ==> r == modelId
  {
    match p
    case Groq => Models.GetGroqModel(modelId)
    case OpenAI => Models.GetOpenaiModel(modelId)
    case Anthropic => Models.GetAnthropicModel(modelId)
    case Llamafile => modelId
    case Ollama => Models.GetOllamaModel(modelId)
  }

  /** Resolution never turns a real id into the empty one. */
  lemma ResolvedNonEmpty(p: Provider, modelId: string)
    requires modelId != ""
    ensures ResolvedModelId(p, modelId) != ""
  {
    match p
    case Groq =>
      assert forall i :: 0 <= i < |Models.GroqModelMapping| ==> Models.GroqModelMapping[i].1 != "";
    case Ollama =>
      assert forall i :: 0 <= i < |Models.OllamaModelMapping| ==> Models.OllamaModelMapping[i].1 != "";
    case _ =>
  }

  /** Resolving an id that is already resolved changes nothing. */
  lemma ResolvedIdempotent(p: Provider, modelId: string)
    ensures ResolvedModelId(p, ResolvedModelId(p, modelId)) == ResolvedModelId(p, modelId)
  {
    match p
    case Groq => Models.GroqIdempotent(modelId);
    case Ollama => Models.OllamaIdempotent(modelId);
    case _ =>
  }

  /** The label `get_used_model` prints: the `Display` of the model with its id
      resolved (the bold markup and the leading emoji are not modelled). */
  function UsedModelLabel(m: Model): (r: string)
    ensures r == ModelLabel(Model(m.provider, if m.modelId == "" then "" else ResolvedModelId(m.provider, m.modelId)))
  {
    if m.modelId == "" then ProviderName(m.provider)
    else
      ResolvedNonEmpty(m.provider, m.modelId);
      ProviderName(m.provider) + " " + ResolvedModelId(m.provider, m.modelId)
  }

  // ---------------------------------------------------------------------------
  // Requests

  datatype AiRequest = AiRequest(
    provider: Provider,
    url: string,
    model: string,
    prompt: string,
    maxTokens: nat,
    apiKey: string)

  /** `AiRequest::default()`: everything empty, 4096 tokens, the default provider. */
  const DefaultAiRequest := AiRequest(Anthropic, "", "", "", 4096, "")

  /** How a provider is reached: hosted APIs over HTTPS, local servers on localhost. */
  function Scheme(p: Provider): string {
    if IsLocal(p) then "http://localhost:" else "https://api."
  }

  /** What follows the scheme: the rest of a hosted API's host (and Groq's path
      prefix), or a local server's port. */
  function Address(p: Provider): string {
    match p
    case Groq => "groq.com/openai"
    case OpenAI => "openai.com"
    case Anthropic => "anthropic.com"
    case Llamafile => "8080"
    case Ollama => "11434"
  }

  const ChatPath := "/v1/chat/completions"

  /** Anthropic's messages API, or the chat-completions API everyone else speaks. */
  function ApiPath(p: Provider): string {
    if p == Anthropic then "/v1/messages" else ChatPath
  }

  /** The URL a provider's requests are posted to. */
  function Endpoint(p: Provider): string {
    Scheme(p) + Address(p) + ApiPath(p)
  }

  /** The characters that tell endpoints apart: the fifth, which is where the two
      schemes part, and the first one after the scheme. */
  lemma EndpointChars(p: Provider)
    ensures |Scheme(p)| < |Endpoint(p)|
    ensures Endpoint(p)[4] == Scheme(p)[4]
    ensures Endpoint(p)[|Scheme(p)|] == Address(p)[0]
  {
    assert Endpoint(p) == Scheme(p) + (Address(p) + ApiPath(p));
  }

  /** Each provider has its own endpoint. */
  lemma EndpointInjective(p: Provider, q: Provider)
    ensures Endpoint(p) == Endpoint(q) <==> p == q
  {
    if p != q {
      EndpointChars(p);
      EndpointChars(q);
      if IsLocal(p) != IsLocal(q) {
        assert Endpoint(p)[4] != Endpoint(q)[4];
      } else {
        assert Address(p)[0] != Address(q)[0];
      }
    }
  }

  /** A string starts with its own first part, and not with what differs from it. */
  lemma StartsWith(s: string, t: string, rest: string, k: nat)
    requires k < |s| && k < |t| && s[k] != t[k]
    ensures s <= s + rest && !(t <= s + rest)
  {
    assert (s + rest)[k] == s[k];
  }

  /** Local providers are reached over plain HTTP on localhost, the others over HTTPS. */
  lemma EndpointScheme(p: Provider)
    ensures IsLocal(p) <==> "http://localhost:" <= Endpoint(p)
    ensures !IsLocal(p) <==> "https://api." <= Endpoint(p)
  {
    var rest := Address(p) + ApiPath(p);
    assert Endpoint(p) == Scheme(p) + rest;
    if IsLocal(p) {
      StartsWith("http://localhost:", "https://api.", rest, 4);
    } else {
      StartsWith("https://api.", "http://localhost:", rest, 4);
    }
  }

  /** Every provider but Anthropic speaks the chat-completions protocol. */
  lemma EndpointPath(p: Provider)
    ensures p != Anthropic ==> EndsWith(Endpoint(p), ChatPath)
    ensures p == Anthropic ==> EndsWith(Endpoint(p), "/v1/messages")
  {
    assert Endpoint(p)[|Endpoint(p)| - |ApiPath(p)|..] == ApiPath(p);
  }

  /** `default_req_for_model`: the provider's endpoint and its resolved model id,
      everything else defaulted. Llamafile's request carries no model id at all. */
  function DefaultReqForModel(m: Model): (r: AiRequest)
    ensures r.provider == m.provider && r.url == Endpoint(m.provider)
    ensures r.prompt == "" && r.apiKey == "" && r.maxTokens == DefaultAiRequest.maxTokens
    ensures m.provider != Llamafile ==> r.model == ResolvedModelId(m.provider, m.modelId)
    ensures m.provider == Llamafile ==> r.model == ""
  {
    var model := if m.provider == Llamafile then DefaultAiRequest.model
      else ResolvedModelId(m.provider, m.modelId);
    DefaultAiRequest.(provider := m.provider, url := Endpoint(m.provider), model := model)
  }

  /** For every provider but Llamafile, the label printed for a model names the id that
      is sent. A Llamafile label names the id as given, while its request sends none. */
  lemma UsedLabelNamesSentModel(m: Model)
    ensures m.provider != Llamafile ==>
      UsedModelLabel(m) == ModelLabel(Model(m.provider, DefaultReqForModel(m).model))
    ensures m.provider == Llamafile ==>
      UsedModelLabel(m) == ModelLabel(m) && DefaultReqForModel(m).model == ""
  {
    if m.provider == Llamafile {
    } else if m.modelId != "" {
      ResolvedNonEmpty(m.provider, m.modelId);
    } else {
      assert DefaultReqForModel(m).model == ResolvedModelId(m.provider, "");
      assert ResolvedModelId(m.provider, "") == "" by {
        match m.provider
        case Groq =>
          LookupPassThrough(Models.GroqModelMapping, "");
        case Ollama =>
          LookupPassThrough(Models.OllamaModelMapping, "");
        case _ =>
      }
    }
  }

  // ---------------------------------------------------------------------------
  // Credentials

  const DummyKey := "DUMMY_KEY"

  /** The configuration key that holds a provider's API key; local providers need none. */
  function ConfigKey(p: Provider): (r: Option<string>)
    ensures r.None? <==> IsLocal(p)
    ensures p == Groq ==> r == Some("groq_api_key")
    ensures p == OpenAI ==> r == Some("openai_api_key")
    ensures p == Anthropic ==> r == Some("anthropic_api_key")
  {
    match p
    case Groq => Some("groq_api_key")
    case OpenAI => Some("openai_api_key")
    case Anthropic => Some("anthropic_api_key")
    case Llamafile => None
    case Ollama => None
  }

  /** A configured key counts only when it is not empty. */
  predicate HasKey(config: map<string, string>, name: string) {
    name in config && config[name] != ""
  }

  predicate HasCredential(config: map<string, string>, p: Provider) {
    ConfigKey(p).None? || HasKey(config, ConfigKey(p).value)
  }

  const FileKeyNames := ["anthropic_api_key", "groq_api_key", "openai_api_key"]
  const CaiEnvNames := ["CAI_ANTHROPIC_API_KEY", "CAI_GROQ_API_KEY", "CAI_OPENAI_API_KEY"]
  const GenericEnvNames := ["ANTHROPIC_API_KEY", "GROQ_API_KEY", "OPENAI_API_KEY"]

  /** Three names, each between `quote`s, in parentheses, on a line of their own. */
  function KeyList(names: seq<string>, quote: string): string
    requires |names| == 3
  {
    Concat(KeyListParts(names, quote))
  }

  function KeyListParts(names: seq<string>, quote: string): seq<string>
    requires |names| == 3
  {
    ["(", quote, names[0], quote, ", ", quote, names[1], quote, ", ", quote, names[2], quote, ")\n"]
  }

  lemma KeyListNames(names: seq<string>, quote: string)
    requires |names| == 3
    ensures forall i :: 0 <= i < 3 ==> Contains(KeyList(names, quote), names[i])
  {
    var parts := KeyListParts(names, quote);
    forall i | 0 <= i < 3
      ensures Contains(KeyList(names, quote), names[i])
    {
      ContainsPrefix(names[i], names[i]);
      assert parts[4 * i + 2] == names[i];
      ContainsConcat(parts, 4 * i + 2, names[i]);
    }
  }

  const SetupIntro := "An API key must be provided. Use one of the following options:\n\n"
  const SetupFile := "1. Set one or more API keys in "
  const SetupCaiEnv := "2. Set one or more cai specific env variables\n"
  const SetupGenericEnv := "3. Set one or more generic env variables\n"

  /** `get_key_setup_msg`: the three ways to provide a key. It names the secrets file
      and every name a key can be given under: the file's keys, the cai-specific
      variables and the generic ones. */
  function KeySetupMsg(secretsPath: string): (r: string)
    ensures Contains(r, secretsPath)
    ensures forall i :: 0 <= i < 3 ==>
      Contains(r, FileKeyNames[i]) && Contains(r, CaiEnvNames[i]) && Contains(r, GenericEnvNames[i])
  {
    SetupMessageNames(secretsPath, FileKeyNames, CaiEnvNames, GenericEnvNames);
    SetupMessage(secretsPath, FileKeyNames, CaiEnvNames, GenericEnvNames)
  }

  /** The set-up message's layout, for any three lists of three names. */
  function SetupMessage(secretsPath: string, fileKeys: seq<string>, caiVars: seq<string>, genericVars: seq<string>): string
    requires |fileKeys| == 3 && |caiVars| == 3 && |genericVars| == 3
  {
    Concat(SetupParts(secretsPath, fileKeys, caiVars, genericVars))
  }

  function SetupParts(secretsPath: string, fileKeys: seq<string>, caiVars: seq<string>, genericVars: seq<string>): seq<string>
    requires |fileKeys| == 3 && |caiVars| == 3 && |genericVars| == 3
  {
    [SetupIntro, SetupFile, secretsPath, "\n", KeyList(fileKeys, "`"),
     SetupCaiEnv, KeyList(caiVars, ""),
     SetupGenericEnv, KeyList(genericVars, "")]
  }

  lemma SetupMessageNames(secretsPath: string, fileKeys: seq<string>, caiVars: seq<string>, genericVars: seq<string>)
    requires |fileKeys| == 3 && |caiVars| == 3 && |genericVars| == 3
    ensures Contains(SetupMessage(secretsPath, fileKeys, caiVars, genericVars), secretsPath)
    ensures forall i :: 0 <= i < 3 ==>
      Contains(SetupMessage(secretsPath, fileKeys, caiVars, genericVars), fileKeys[i])
      && Contains(SetupMessage(secretsPath, fileKeys, caiVars, genericVars), caiVars[i])
      && Contains(SetupMessage(secretsPath, fileKeys, caiVars, genericVars), genericVars[i])
  {
    var parts := SetupParts(secretsPath, fileKeys, caiVars, genericVars);
    ContainsPrefix(secretsPath, secretsPath);
    ContainsConcat(parts, 2, secretsPath);
    KeyListNames(fileKeys, "`");
    KeyListNames(caiVars, "");
    KeyListNames(genericVars, "");
    forall i | 0 <= i < 3
      ensures Contains(Concat(parts), fileKeys[i])
      ensures Contains(Concat(parts), caiVars[i])
      ensures Contains(Concat(parts), genericVars[i])
    {
      ContainsConcat(parts, 4, fileKeys[i]);
      ContainsConcat(parts, 6, caiVars[i]);
      ContainsConcat(parts, 8, genericVars[i]);
    }
  }

  /** The key a provider would use, if it has a usable one. */
  function ApiKey(config: map<string, string>, p: Provider): (r: Option<string>)
    ensures r.Some? <==> HasCredential(config, p)
    ensures r.Some? ==> r.value != ""
  {
    match ConfigKey(p)
    case None => Some(DummyKey)
    case Some(name) => if HasKey(config, name) then Some(config[name]) else None
  }

  /** `get_api_request`: the default request for the model, carrying the provider's
      key; without a usable key, the set-up message. */
  function GetApiRequest(config: map<string, string>, secretsPath: string, m: Model): (r: Result<AiRequest, string>)
    ensures r.Failure? <==> !HasCredential(config, m.provider)
    ensures r.Failure? ==> r.error == KeySetupMsg(secretsPath)
    ensures r.Success? ==> r.value == DefaultReqForModel(m).(apiKey := r.value.apiKey)
    ensures r.Success? ==> r.value.apiKey != ""
    ensures r.Success? && IsLocal(m.provider) ==> r.value.apiKey == DummyKey
    ensures r.Success? && !IsLocal(m.provider) ==> r.value.apiKey == config[ConfigKey(m.provider).value]
  {
    match ApiKey(config, m.provider)
    case None => Failure(KeySetupMsg(secretsPath))
    case Some(key) => Success(DefaultReqForModel(m).(apiKey := key))
  }

  /** A missing key is reported the same way whichever provider lacked it. */
  lemma MissingKeyMessageUniform(config: map<string, string>, secretsPath: string, m1: Model, m2: Model)
    requires GetApiRequest(config, secretsPath, m1).Failure?
    requires GetApiRequest(config, secretsPath, m2).Failure?
    ensures GetApiRequest(config, secretsPath, m1).error == GetApiRequest(config, secretsPath, m2).error
  {
  }

  /** Local providers always obtain a request. */
  lemma LocalNeedsNoKey(config: map<string, string>, secretsPath: string, m: Model)
    requires IsLocal(m.provider)
    ensures GetApiRequest(config, secretsPath, m).Success?
  {
  }

  /** `get_http_req`: with a model, that model's request and label; without one,
      the first of the default model, Groq's llama-3.1-8b-instant and OpenAI's
      gpt-4o-mini that has a key. */
  function GetHttpReq(optModel: Option<Model>, secretsPath: string, config: map<string, string>)
    : (r: Result<(string, AiRequest), string>)
    ensures r.Failure? ==> r.error == KeySetupMsg(secretsPath)
    ensures optModel.Some? ==> (r.Success? <==> HasCredential(config, optModel.value.provider))
    ensures optModel.Some? && r.Success? ==>
      r.value == (UsedModelLabel(optModel.value), GetApiRequest(config, secretsPath, optModel.value).value)
    ensures optModel.None? ==>
      (r.Failure? <==> !HasKey(config, "groq_api_key") && !HasKey(config, "openai_api_key"))
  {
    match optModel
    case Some(m) =>
      (match GetApiRequest(config, secretsPath, m)
       case Success(req) => Success((UsedModelLabel(m), req))
       case Failure(e) => Failure(e))
    case None =>
      var attempt := GetApiRequest(config, secretsPath, DefaultModel)
        .Or(GetApiRequest(config, secretsPath, Model(Groq, "llama-3.1-8b-instant")))
        .Or(GetApiRequest(config, secretsPath, Model(OpenAI, "gpt-4o-mini")));
      match attempt
      case Success(req) => Success((UsedModelLabel(Model(req.provider, req.model)), req))
      case Failure(e) => Failure(e)
  }

  /** Without a model: Groq is preferred, OpenAI's gpt-4o-mini comes next,
      Anthropic is never chosen, and the label names the request's own model. */
  lemma FallbackOrder(secretsPath: string, config: map<string, string>)
    ensures var r := GetHttpReq(None, secretsPath, config);
      r.Success? ==> r.value.1.provider == Groq || r.value.1.provider == OpenAI
    ensures var r := GetHttpReq(None, secretsPath, config);
      r.Success? ==> r.value.0 == ModelLabel(Model(r.value.1.provider, r.value.1.model))
    ensures HasKey(config, "groq_api_key") ==>
      GetHttpReq(None, secretsPath, config).value.1
        == DefaultReqForModel(DefaultModel).(apiKey := config["groq_api_key"])
    ensures !HasKey(config, "groq_api_key") && HasKey(config, "openai_api_key") ==>
      GetHttpReq(None, secretsPath, config).value.1
        == DefaultReqForModel(Model(OpenAI, "gpt-4o-mini")).(apiKey := config["openai_api_key"])
  {
    var r := GetHttpReq(None, secretsPath, config);
    Models.DefaultIdsPassThrough();
    if r.Success? {
      var req := r.value.1;
      assert req.model != "";
      ResolvedIdempotent(req.provider, req.model);
      assert ResolvedModelId(req.provider, req.model) == req.model;
    }
  }

  // ---------------------------------------------------------------------------
  // The request body

  datatype ExecOptions = ExecOptions(isRaw: bool, isJson: bool, jsonSchema: Option<Json>)

  /** The providers that accept a `response_format`. */
  predicate SupportsResponseFormat(p: Provider) {
    p == OpenAI || p == Groq || p == Ollama
  }

  function UnsupportedMessage(p: Provider, jsonMode: bool): string {
    ProviderName(p) + (if jsonMode then " doesn't support a JSON mode" else " doesn't support a JSON schema mode")
  }

  /** The single user message of a chat request. */
  function UserMessage(input: string): Json {
    JObject(map["role" := JString("user"), "content" := JString(input)])
  }

  /** The `response_format` object a JSON schema asks for. */
  function SchemaFormat(schema: Json): Json {
    JObject(map["type" := JString("json_schema"), "json_schema" := schema])
  }

  const JsonObjectFormat := JObject(map["type" := JString("json_object")])

  /** What `get_req_body_obj` produces: input that parses as JSON is the body as
      it is; otherwise a chat body, or the message with which a provider without
      JSON support makes the program stop. */
  function RequestBody(parse: string -> Option<Json>, opts: ExecOptions, req: AiRequest, input: string)
    : (r: Result<Json, string>)
    ensures parse(input).Some? ==> r == Success(parse(input).value)
    ensures parse(input).None? ==>
      (r.Failure? <==> (opts.isJson || opts.jsonSchema.Some?) && !SupportsResponseFormat(req.provider))
    ensures parse(input).None? && r.Failure? ==> r.error == UnsupportedMessage(req.provider, opts.isJson)
    ensures parse(input).None? && r.Success? ==>
      r.value.JObject?
      && r.value.fields.Keys == {"model", "max_tokens", "messages"}
        + (if opts.isJson || opts.jsonSchema.Some? then {"response_format"} else {})
      && r.value.fields["model"] == JString(req.model)
      && r.value.fields["max_tokens"] == JNumber(req.maxTokens)
      && r.value.fields["messages"] == JArray([UserMessage(input)])
    ensures parse(input).None? && r.Success? && opts.jsonSchema.Some? ==>
      r.value.fields["response_format"] == SchemaFormat(opts.jsonSchema.value)
    ensures parse(input).None? && r.Success? && opts.jsonSchema.None? && opts.isJson ==>
      r.value.fields["response_format"] == JsonObjectFormat
  {
    match parse(input)
    case Some(j) => Success(j)
    case None =>
      if opts.isJson && !SupportsResponseFormat(req.provider) then
        Failure(UnsupportedMessage(req.provider, true))
      else if opts.jsonSchema.Some? && !SupportsResponseFormat(req.provider) then
        Failure(UnsupportedMessage(req.provider, false))
      else
        var base := map["model" := JString(req.model), "max_tokens" := JNumber(req.maxTokens)];
        var withFormat :=
          if opts.jsonSchema.Some? then base["response_format" := SchemaFormat(opts.jsonSchema.value)]
          else if opts.isJson then base["response_format" := JsonObjectFormat]
          else base;
        Success(JObject(withFormat["messages" := JArray([UserMessage(input)])]))
  }

  /** The body carries exactly one message, from the user, whose content is
      exactly the input. */
  lemma OneUserMessage(parse: string -> Option<Json>, opts: ExecOptions, req: AiRequest, input: string)
    requires parse(input).None? && RequestBody(parse, opts, req, input).Success?
    ensures var msgs := Field(RequestBody(parse, opts, req, input).value, "messages");
      msgs.Some? && msgs.value.JArray? && |msgs.value.items| == 1
      && Field(msgs.value.items[0], "role") == Some(JString("user"))
      && Field(msgs.value.items[0], "content") == Some(JString(input))
  {
  }

  /** `get_req_body_obj`, building the object one insertion at a time. */
  method GetReqBodyObj(parse: string -> Option<Json>, opts: ExecOptions, req: AiRequest, input: string)
    returns (r: Result<Json, string>)
    ensures r == RequestBody(parse, opts, req, input)
  {
    var parsed := parse(input);
    if parsed.Some? {
      return Success(parsed.value);
    }
    var fields: map<string, Json> := map[];
    fields := fields["model" := JString(req.model)];
    fields := fields["max_tokens" := JNumber(req.maxTokens)];
    ghost var base := fields;
    if opts.isJson {
      if !SupportsResponseFormat(req.provider) {
        return Failure(UnsupportedMessage(req.provider, true));
      }
      fields := fields["response_format" := JsonObjectFormat];
    }
    if opts.jsonSchema.Some? {
      if !SupportsResponseFormat(req.provider) {
        return Failure(UnsupportedMessage(req.provider, false));
      }
      var schemaFormat: map<string, Json> := map[];
      schemaFormat := schemaFormat["type" := JString("json_schema")];
      schemaFormat := schemaFormat["json_schema" := opts.jsonSchema.value];
      fields := fields["response_format" := JObject(schemaFormat)];
      assert fields == base["response_format" := SchemaFormat(opts.jsonSchema.value)];
    }
    fields := fields["messages" := JArray([UserMessage(input)])];
    r := Success(JObject(fields));
  }

  // ---------------------------------------------------------------------------
  // Sending

  /** The headers of the POST: a JSON content type, then Anthropic's version and
      key headers, or a bearer token for everyone else. */
  function AuthHeaders(req: AiRequest): (h: Table)
    ensures ValueOf(h, "content-type") == Some("application/json")
    ensures ValueOf(h, "anthropic-version").Some? <==> req.provider == Anthropic
    ensures req.provider == Anthropic ==>
      ValueOf(h, "anthropic-version") == Some("2023-06-01")
      && ValueOf(h, "x-api-key") == Some(req.apiKey)
      && ValueOf(h, "authorization").None?
    ensures req.provider != Anthropic ==>
      ValueOf(h, "authorization") == Some("Bearer " + req.apiKey)
      && ValueOf(h, "x-api-key").None?
  {
    var h := if req.provider == Anthropic then
      [("content-type", "application/json"), ("anthropic-version", "2023-06-01"), ("x-api-key", req.apiKey)]
    else
      [("content-type", "application/json"), ("authorization", "Bearer " + req.apiKey)];
    ValueOfAt(h, "content-type", 0);
    if req.provider == Anthropic then
      ValueOfAt(h, "anthropic-version", 1);
      ValueOfAt(h, "x-api-key", 2);
      h
    else
      ValueOfAt(h, "authorization", 1);
      h
  }

  /** What a server reads back as the key: the `x-api-key` header, or else the
      token of a bearer `authorization` header. */
  function ApiKeyFromHeaders(h: Table): Option<string> {
    match ValueOf(h, "x-api-key")
    case Some(k) => Some(k)
    case None =>
      match ValueOf(h, "authorization")
      case Some(v) => if "Bearer " <= v then Some(v[7..]) else None
      case None => None
  }

  /** Whichever scheme a provider uses, its key is what the server receives. */
  lemma AuthHeadersCarryKey(req: AiRequest)
    ensures ApiKeyFromHeaders(AuthHeaders(req)) == Some(req.apiKey)
  {
    var h := AuthHeaders(req);
    if req.provider == Anthropic {
      ValueOfAt(h, "x-api-key", 2);
    } else {
      ValueOfAt(h, "authorization", 1);
      assert ("Bearer " + req.apiKey)[7..] == req.apiKey;
    }
  }

  datatype HttpPost = HttpPost(url: string, headers: Table, body: Json)

  datatype Response = Response(status: int, body: string)

  /** `StatusCode::is_success`. */
  predicate IsSuccessStatus(status: int) {
    200 <= status < 300
  }

  // ---------------------------------------------------------------------------
  // Decoding a reply

  datatype ToolError =
    | MissingCredential(message: string)
    | EmptyPrompt
    | Unsupported(message: string)
    | Transport(message: string)
    | Decode
    | ProviderError(message: string)
    | Panic(message: string)

  /** The text an error prints as. */
  function ErrorText(e: ToolError): string {
    match e
    case MissingCredential(m) => m
    case EmptyPrompt => "No prompt was provided"
    case Unsupported(m) => m
    case Transport(m) => m
    case Decode => "error decoding response body"
    case ProviderError(m) => m
    case Panic(m) => m
  }

  const EmptyIndexPanic := "index out of bounds: the len is 0 but the index is 0"

  /** The member that holds the reply's array: `content` for Anthropic, `choices` else. */
  function ArrayKey(p: Provider): string {
    if p == Anthropic then "content" else "choices"
  }

  /** The text of one element: `text` for Anthropic, `message.content` else. */
  function ItemText(p: Provider, item: Json): Option<string> {
    if p == Anthropic then
      match Field(item, "text")
      case Some(JString(s)) => Some(s)
      case _ => None
    else
      match Field(item, "message")
      case Some(message) =>
        (match Field(message, "content")
         case Some(JString(s)) => Some(s)
         case _ => None)
      case None => None
  }

  /** The reply deserialises into the provider's response type. */
  predicate WellShaped(p: Provider, body: Json) {
    var arr := Field(body, ArrayKey(p));
    arr.Some? && arr.value.JArray?
    && forall i :: 0 <= i < |arr.value.items| ==> ItemText(p, arr.value.items[i]).Some?
  }

  /** The reply's first text; a reply of the wrong shape is a decoding error, and an
      empty array makes the indexing panic. */
  function ExtractText(p: Provider, body: Json): (r: Result<string, ToolError>)
    ensures !WellShaped(p, body) ==> r == Failure(Decode)
    ensures WellShaped(p, body) && |Field(body, ArrayKey(p)).value.items| == 0 ==>
      r == Failure(Panic(EmptyIndexPanic))
    ensures WellShaped(p, body) && |Field(body, ArrayKey(p)).value.items| > 0 ==>
      r == Success(ItemText(p, Field(body, ArrayKey(p)).value.items[0]).value)
  {
    if !WellShaped(p, body) then Failure(Decode)
    else
      var items := Field(body, ArrayKey(p)).value.items;
      if |items| == 0 then Failure(Panic(EmptyIndexPanic))
      else Success(ItemText(p, items[0]).value)
  }

  /** A reply of the provider's own shape carrying the texts `texts`. */
  function Envelope(p: Provider, texts: seq<string>): Json {
    if p == Anthropic then
      JObject(map["content" := JArray(seq(|texts|, i requires 0 <= i < |texts| =>
        JObject(map["text" := JString(texts[i])])))])
    else
      JObject(map["choices" := JArray(seq(|texts|, i requires 0 <= i < |texts| =>
        JObject(map["message" := JObject(map["role" := JString("assistant"), "content" := JString(texts[i])])])))])
  }

  /** Decoding an envelope yields its first text, or panics when it has none. */
  lemma ExtractEnvelope(p: Provider, texts: seq<string>)
    ensures |texts| > 0 ==> ExtractText(p, Envelope(p, texts)) == Success(texts[0])
    ensures |texts| == 0 ==> ExtractText(p, Envelope(p, texts)) == Failure(Panic(EmptyIndexPanic))
  {
    var items := Field(Envelope(p, texts), ArrayKey(p)).value.items;
    assert forall i :: 0 <= i < |items| ==> ItemText(p, items[i]) == Some(texts[i]);
  }

  /** Anthropic's reply shape and the chat-completions shape do not decode as each other. */
  lemma ShapesDisjoint(p: Provider, q: Provider, texts: seq<string>)
    requires (p == Anthropic) != (q == Anthropic)
    ensures ExtractText(q, Envelope(p, texts)) == Failure(Decode)
  {
  }

  /** The text of a provider error: the timing and label line, a blank line, then the
      reply pretty-printed. */
  function ProviderErrorText(elapsedMs: string, usedModel: string, pretty: string): string {
    PadLeft(elapsedMs, 5) + " ms | " + usedModel + "\n\n" + pretty
  }

  /** The outcome of a reply: an error status reports the reply itself; otherwise the
      reply is decoded. */
  function HandleResponse(
    parse: string -> Option<Json>, pretty: Json -> string,
    elapsedMs: string, usedModel: string, p: Provider, resp: Response)
    : (r: Result<string, ToolError>)
    ensures parse(resp.body).None? ==> r == Failure(Decode)
    ensures parse(resp.body).Some? && !IsSuccessStatus(resp.status) ==>
      r.Failure? && r.error.ProviderError?
      && EndsWith(r.error.message, pretty(parse(resp.body).value))
      && Contains(r.error.message, usedModel)
    ensures parse(resp.body).Some? && IsSuccessStatus(resp.status) ==>
      r == ExtractText(p, parse(resp.body).value)
  {
    match parse(resp.body)
    case None => Failure(Decode)
    case Some(v) =>
      if !IsSuccessStatus(resp.status) then
        var text := ProviderErrorText(elapsedMs, usedModel, pretty(v));
        assert text == PadLeft(elapsedMs, 5) + " ms | " + usedModel + ("\n\n" + pretty(v));
        ContainsSplice(PadLeft(elapsedMs, 5) + " ms | ", usedModel, "\n\n" + pretty(v));
        Failure(ProviderError(text))
      else ExtractText(p, v)
  }

  // ---------------------------------------------------------------------------
  // Running a prompt

  datatype Env = Env(
    config: map<string, string>,
    secretsPath: string,
    elapsedMs: string,
    parse: string -> Option<Json>,
    pretty: Json -> string,
    send: HttpPost -> Result<Response, string>)

  /** What `exec_tool` ends with, as a function of its inputs: the request, then the
      empty-prompt check, then the body, the POST and the reply. On success it is the
      reply's text. */
  function ExecOutcome(env: Env, optModel: Option<Model>, opts: ExecOptions, input: string)
    : (r: Result<string, ToolError>)
    ensures input == "" ==> r.Failure? && (r.error == EmptyPrompt || r.error.MissingCredential?)
    ensures GetHttpReq(optModel, env.secretsPath, env.config).Failure? ==>
      r == Failure(MissingCredential(KeySetupMsg(env.secretsPath)))
  {
    match GetHttpReq(optModel, env.secretsPath, env.config)
    case Failure(e) => Failure(MissingCredential(e))
    case Success((usedModel, req)) =>
      if input == "" then Failure(EmptyPrompt)
      else
        match RequestBody(env.parse, opts, req, input)
        case Failure(m) => Failure(Unsupported(m))
        case Success(body) =>
          match env.send(HttpPost(req.url, AuthHeaders(req), body))
          case Failure(m) => Failure(Transport(m))
          case Success(resp) =>
            HandleResponse(env.parse, env.pretty, env.elapsedMs, usedModel, req.provider, resp)
  }

  /** A missing key is reported before anything else, even before an empty prompt. */
  lemma MissingKeyFirst(env: Env, optModel: Option<Model>, opts: ExecOptions, input: string)
    requires optModel.Some? ==> !HasCredential(env.config, optModel.value.provider)
    requires optModel.None? ==> !HasKey(env.config, "groq_api_key") && !HasKey(env.config, "openai_api_key")
    ensures ExecOutcome(env, optModel, opts, input) == Failure(MissingCredential(KeySetupMsg(env.secretsPath)))
  {
  }

  /** With a key, an empty prompt is rejected, and nothing is sent: the outcome does
      not depend on `send`. */
  lemma EmptyPromptRejected(env: Env, other: HttpPost -> Result<Response, string>, optModel: Option<Model>, opts: ExecOptions)
    requires GetHttpReq(optModel, env.secretsPath, env.config).Success?
    ensures ExecOutcome(env, optModel, opts, "") == Failure(EmptyPrompt)
    ensures ExecOutcome(env.(send := other), optModel, opts, "") == ExecOutcome(env, optModel, opts, "")
  {
  }

  /** The POST `exec_tool` sends for a model, once its request and body exist. */
  function PostFor(env: Env, m: Model, opts: ExecOptions, input: string): HttpPost
    requires HasCredential(env.config, m.provider)
    requires RequestBody(env.parse, opts, GetApiRequest(env.config, env.secretsPath, m).value, input).Success?
  {
    var req := GetApiRequest(env.config, env.secretsPath, m).value;
    HttpPost(req.url, AuthHeaders(req), RequestBody(env.parse, opts, req, input).value)
  }

  /** A prompt whose one POST is answered with a well-formed success reply yields
      that reply's first text. */
  lemma AnsweredPrompt(env: Env, m: Model, opts: ExecOptions, input: string, texts: seq<string>, resp: Response)
    requires HasCredential(env.config, m.provider) && input != "" && |texts| > 0
    requires RequestBody(env.parse, opts, GetApiRequest(env.config, env.secretsPath, m).value, input).Success?
    requires env.send(PostFor(env, m, opts, input)) == Success(resp)
    requires IsSuccessStatus(resp.status) && env.parse(resp.body) == Some(Envelope(m.provider, texts))
    ensures ExecOutcome(env, Some(m), opts, input) == Success(texts[0])
  {
    ExtractEnvelope(m.provider, texts);
  }

  /** `exec_tool`. */
  method ExecTool(env: Env, optModel: Option<Model>, opts: ExecOptions, input: string)
    returns (r: Result<string, ToolError>)
    ensures r == ExecOutcome(env, optModel, opts, input)
  {
    var httpReq := GetHttpReq(optModel, env.secretsPath, env.config);
    if httpReq.Failure? {
      return Failure(MissingCredential(httpReq.error));
    }
    var (usedModel, req) := httpReq.value;
    // Checked only now, so that a missing key is reported first.
    if input == "" {
      return Failure(EmptyPrompt);
    }
    var body := GetReqBodyObj(env.parse, opts, req, input);
    if body.Failure? {
      return Failure(Unsupported(body.error));
    }
    var resp := env.send(HttpPost(req.url, AuthHeaders(req), body.value));
    if resp.Failure? {
      return Failure(Transport(resp.error));
    }
    r := HandleResponse(env.parse, env.pretty, env.elapsedMs, usedModel, req.provider, resp.value);
  }

  /** Mirrors the crate's own test: an empty prompt to OpenAI's gpt-4o-mini fails,
      whatever the configuration. */
  method SubmitEmptyPrompt(env: Env) returns (r: Result<string, ToolError>)
    ensures r.Failure?
    ensures r.error == EmptyPrompt || r.error == MissingCredential(KeySetupMsg(env.secretsPath))
  {
    r := ExecTool(env, Some(Model(OpenAI, "gpt-4o-mini")), ExecOptions(false, false, None), "");
  }

  /** How `submit_prompt` ends: with the reply, or with an exit code and the text
      handed to `eprintln!`, which writes it followed by a newline. */
  datatype Exit = Completed(message: string) | Exited(code: int, stderr: string)

  /** The label `submit_prompt` puts above an error: the model as given, unresolved. */
  function SubmitLabel(optModel: Option<Model>): string {
    match optModel
    case Some(m) => ModelLabel(m)
    case None => ""
  }

  /** `submit_prompt`: a failure ends the process. An unsupported JSON mode exits
      from inside the body builder with its own message, a panic exits with Rust's
      panic status, and every other error is printed under the model's label. */
  method SubmitPrompt(env: Env, optModel: Option<Model>, opts: ExecOptions, input: string)
    returns (e: Exit)
    ensures var o := ExecOutcome(env, optModel, opts, input);
      (e.Completed? <==> o.Success?) && (o.Success? ==> e.message == o.value)
    ensures var o := ExecOutcome(env, optModel, opts, input);
      o.Failure? && o.error.Unsupported? ==> e == Exited(1, "ERROR: " + o.error.message)
    ensures var o := ExecOutcome(env, optModel, opts, input);
      o.Failure? && o.error.Panic? ==> e == Exited(101, o.error.message)
    ensures var o := ExecOutcome(env, optModel, opts, input);
      o.Failure? && !o.error.Unsupported? && !o.error.Panic? ==>
      e == Exited(1, SubmitLabel(optModel) + "\nERROR:\n" + ErrorText(o.error) + "\n")
  {
    var r := ExecTool(env, optModel, opts, input);
    match r
    case Success(message) =>
      e := Completed(message);
    case Failure(Unsupported(m)) =>
      e := Exited(1, "ERROR: " + m);
    case Failure(Panic(m)) =>
      e := Exited(101, m);
    case Failure(err) =>
      e := Exited(1, SubmitLabel(optModel) + "\nERROR:\n" + ErrorText(err) + "\n");
  }
}
