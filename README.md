# cai: requests, alias tables and command labels

`cai` is a command-line client for large language models. It sends a prompt to one of
several providers: Anthropic, Groq, OpenAI, or a local Llamafile or Ollama server.
This project models the part of it that decides what is sent and what comes back:

- **Alias tables** (`Models`): each provider has a table that maps a short alias to a
  model id. A lookup returns the value of the first entry whose key is the input, or
  the input itself when no key matches.
- **Build-time generation** (`Build`): the build script fills the tables into a
  template. The Groq table's aliases name model constants, and the script substitutes
  the constants' values. It also renders a help text for each table.
- **Requests** (`Cai`): the library takes a model, or none, and builds the request.
  That covers the provider's endpoint, the resolved model id, and the API key from
  the configuration. The request's `prompt` field is never set by the code and stays
  empty in the model too. Local providers use a placeholder key. Without a model the
  library falls back in a fixed order. It then builds the JSON body, with optional
  JSON-mode or JSON-schema output, and the HTTP headers. Finally it takes the text out
  of the provider's reply, or builds the error report.
- **Command labels** (`Types`): each subcommand has a context label, and the provider
  subcommands have none.
- **Front end** (`Cli`): maps the shortcut subcommands of the command-line front end to
  models, and capitalises the error texts it prints.

The outside world is a parameter, not a model. `Cai.Env` bundles:

- the merged configuration map and the secrets-file path;
- the elapsed time, already formatted;
- JSON parsing and pretty-printing;
- the function that performs the POST.

Files:

- `wrappers.dfy`: Option and Result.
- `strings.dfy`: the string operations the code relies on (`replace`, `join`, width
  padding), and a `split` that the code never calls but the lemmas use to state how
  rendered text falls into lines.
- `tables.dfy`: the first-match lookup.
- `build.dfy`: `build.rs`.
- `models.dfy`: `src_templates/models.rs` once the build has filled it in.
- `json.dfy`: a JSON value.
- `lib.dfy`: `src/lib.rs`.
- `types.dfy`: `src/types.rs`.
- `main.dfy`: `src/main.rs`.

Where the code and its documentation disagree, the model follows the code:

- **JSON-schema gating.** The JSON-schema mode is accepted for Groq as well as for
  OpenAI and Ollama, because the code checks the same three providers for both modes.
- **Fallback without a model.** The code tries the default model, which is Groq's
  llama-3.1-8b-instant. It then tries that same Groq model again, then OpenAI's
  gpt-4o-mini. Anthropic is never chosen.
- **Constants declared three times.** The template carries the `// {const_assignments}`
  marker three times, and every occurrence is replaced. So the generated file declares
  the model constants three times in one module (`Build.ConstMarkersAllReplaced`). Read
  as Rust, that file would declare the same `pub const` names repeatedly, which the
  compiler rejects as duplicate definitions (error E0428). The model does not check the
  generated text as Rust.
- **Llamafile label.** The label printed for a Llamafile model shows the model id the
  user gave, but the request sends an empty model id. Every other provider's label names
  the id that is sent (`Cai.UsedLabelNamesSentModel`).
- **Labels in `submit_prompt`.** `submit_prompt` prints its error label from the model
  as given, without resolving the alias, while `exec_tool` prints the resolved label.
- **Unsupported JSON mode.** The body builder itself ends the process, with
  `ERROR: <provider> doesn't support …`. The model makes that an `Unsupported` error,
  and `SubmitPrompt` turns it into the same exit.

Modelling notes:

- **A different revision of `src/main.rs`.** `src/main.rs` comes from another revision
  than `src/lib.rs`. It has its own local provider (`Local`) and calls `submit_prompt`
  and `exec_tool` with a model and a prompt only. `Cli` models it with its own
  `Provider` type.
- **Language subcommands.** The 29 language-context subcommands of `Commands` are one
  constructor, `Lang(language, prompt)`, over an enumeration `Language`. Each of their
  labels depends only on the language.

## Model

| member | source | states |
|---|---|---|
| Tables.Find | src_templates/models.rs:10-15 | the position `iter().find` stops at holds the key and no earlier entry does; no position exactly when no entry has the key |
| Tables.Lookup | src_templates/models.rs:11-14 | the result is the input or a value present in the table |
| Tables.ValueOf | build.rs:89-93 | the found value is absent exactly when no key matches, and is otherwise what the pass-through lookup returns |
| Tables.LookupFirstMatch | src_templates/models.rs:10-15 | the first entry with the key decides the result, whatever later entries say |
| Tables.ValueOfAt | build.rs:54-58 | the first entry with the key is what `find(..).unwrap()` yields |
| Tables.ValueOfDistinct | build.rs:5-18 | in a table with distinct keys every entry's key finds that entry's value |
| Tables.LookupPassThrough | src_templates/models.rs:14 | when no key equals the input the input comes back unchanged |
| Tables.LookupIdempotent | src_templates/models.rs:10-15 | when no value is a different key, resolving twice is resolving once |
| Tables.FindSameKeys | build.rs:84-97 | two tables with the same keys stop `find` at the same position, so replacing values keeps which alias matches |
| Models.GetAnthropicModel | src_templates/models.rs:5-15 | the table is never filled, so the lookup is the identity |
| Models.GetCerebrasModel | src_templates/models.rs:30-40 | the table is never filled, so the lookup is the identity |
| Models.GetDeepseekModel | src_templates/models.rs:55-65 | the table is never filled, so the lookup is the identity |
| Models.GetGoogleModel | src_templates/models.rs:78-88 | the table is never filled, so the lookup is the identity |
| Models.GetOpenaiModel | src_templates/models.rs:149-159 | the table is never filled, so the lookup is the identity |
| Models.GetXaiModel | src_templates/models.rs:172-182 | the table is never filled, so the lookup is the identity |
| Models.GetGroqModel | src_templates/models.rs:108-113 | the resolved id is the input or one of the generated Groq table's model ids |
| Models.GetOllamaModel | src_templates/models.rs:131-136 | the resolved id is the input or one of the Ollama table's model ids |
| Models.GroqNoChains | build.rs:20-33 | no value of the generated Groq table is a different alias |
| Models.OllamaNoChains | build.rs:35-47 | no value of the Ollama table is a different alias |
| Models.GroqIdempotent | src_templates/models.rs:108-113 | resolving a Groq id twice is resolving it once |
| Models.OllamaIdempotent | src_templates/models.rs:131-136 | resolving an Ollama id twice is resolving it once |
| Models.OllamaLlama2Fixed | build.rs:35-47 | "llama2" is an alias that resolves to itself |
| Models.GroqAliasThroughConstant | build.rs:84-97 | a Groq alias resolves to the value of the constant its source entry names; any other id passes through |
| Models.DefaultIdsPassThrough | src/lib.rs:277-293 | the two fallback model ids are not aliases, so resolution leaves them as they are |
| Build.ConstValue | build.rs:89-93 | the value found for a constant name is the value of an assignment with that name |
| Build.ExpandConstants | build.rs:84-97 | the expansion succeeds exactly when every referenced constant exists; it keeps the length and the aliases in order and gives each entry its constant's value |
| Build.PrettyPrintMapping | build.rs:49-65 | the help text exists exactly when every name that needs a lookup is found |
| Build.GenerateModelsRs | build.rs:67-113 | the `find(..).unwrap()` calls on the constant table never fail, whatever the template, so the generated text always exists |
| Build.GeneratePlainTemplate | build.rs:74-112 | a template without any of the five placeholders is copied unchanged |
| Build.OllamaHelpInPlace | build.rs:109-112 | the Ollama help text replaces its placeholder exactly where it stood, and the text around it is kept |
| Build.ConstNamesDistinct | build.rs:5-18 | the constant names are pairwise distinct |
| Build.ConstAt | build.rs:5-18 | each constant name finds its own value |
| Build.ExpandMatches | build.rs:84-97 | an entry-by-entry description of the expected table determines the expansion |
| Build.LookupExpanded | build.rs:84-97 | looking an alias up in the expanded table is looking its constant name up in the source and taking that constant's value |
| Build.GroqMappingGenerated | build.rs:20-33 | every constant the Groq source names exists, and the expansion is the table the generated file holds |
| Build.ConstAssignmentsSingleLine | build.rs:5-18 | no constant name or value contains a newline |
| Build.ConstNamesSingleLine | build.rs:5-18 | no constant name contains a newline |
| Build.ConstValuesSingleLine | build.rs:5-18 | no constant value contains a newline |
| Build.GroqSrcSingleLine | build.rs:20-33 | no Groq source entry contains a newline |
| Build.OllamaSrcSingleLine | build.rs:35-47 | no Ollama source entry contains a newline |
| Build.GroqMappingSingleLine | build.rs:20-33 | no entry of the generated Groq table contains a newline |
| Build.TableTextLines | build.rs:84-97 | a rendered table splits into one `("alias", "value"),` line per entry, in order, and nothing after the last newline |
| Build.GroqHashmapLines | build.rs:84-97 | the generated Groq code has exactly one line per source entry, in source order, holding the alias and the value of the constant it names |
| Build.OllamaHashmapLines | build.rs:102-108 | the generated Ollama code copies each source pair verbatim, one line each, in order |
| Build.ConstAssignmentsLines | build.rs:74-83 | one `pub const NAME: &str = "value";` line per assignment, in order |
| Build.PrettyPrintLines | build.rs:49-65 | exactly one help line per entry: two spaces, the alias padded to at least nine columns, an arrow, and the looked-up name (or the mapping's own value without lookup) |
| Build.ConstMarkersAllReplaced | build.rs:74-83 | every `// {const_assignments}` marker is replaced, so a template with three markers receives the declarations three times |
| Strings.PadRight | build.rs:62 | left-aligned padding: the result starts with the input, is at least the width long, and is filled with spaces |
| Strings.PadLeft | src/lib.rs:410-417 | right-aligned padding: the result ends with the input, is at least the width long, and starts with spaces |
| Strings.Replace | build.rs:74-112 | `str::replace`, defined by its left-to-right scan; what it does is stated by `Strings.ReplaceAbsent`, `Strings.ReplaceSplice` and `Strings.ReplaceJoin` |
| Strings.SplitJoin | src/main.rs:103 | joining pieces that do not contain the separator loses nothing: splitting gives them back |
| Strings.SplitUnlines | build.rs:79-82 | text made of newline-terminated lines without inner newlines splits back into those lines and an empty tail |
| Strings.ReplaceAbsent | build.rs:74-112 | replacing a pattern that does not occur changes nothing |
| Strings.ReplaceJoin | build.rs:74-112 | replacing a pattern that occurs only as the separator of a join gives the join with the replacement |
| Strings.ReplaceSplice | build.rs:74-112 | replacement takes the first occurrence and continues after it |
| Cai.ProviderName | src/lib.rs:36-46 | the name each provider displays as; `Cai.ProviderNamesPrefixFree` proves no name is a prefix of another |
| Cai.ProviderNamesPrefixFree | src/lib.rs:36-46 | no provider's name is a prefix of another's |
| Cai.ModelLabel | src/lib.rs:59-70 | the label starts with the provider name; it is only the name exactly when the id is empty, and otherwise the name, a space, and the id |
| Cai.ModelLabelInjective | src/lib.rs:59-70 | two models print alike only if they are the same model |
| Cai.ResolvedModelId | src/lib.rs:127-161 | only Groq and Ollama change an id: every other provider's table is empty or, for Llamafile, not consulted |
| Cai.ResolvedNonEmpty | src/lib.rs:127-161 | resolving a non-empty id never yields the empty id |
| Cai.ResolvedIdempotent | src/lib.rs:127-161 | resolving an already resolved id changes nothing, for every provider |
| Cai.UsedModelLabel | src/lib.rs:209-224 | the label of a model with its id resolved by the provider's table (an empty id stays empty) |
| Cai.EndpointChars | src/lib.rs:127-161 | the URL is longer than its scheme; its fifth character is the scheme's fifth (where `http` and `https` part), and the character right after the scheme is the address's first |
| Cai.EndpointInjective | src/lib.rs:127-161 | two providers share an endpoint URL exactly when they are the same provider |
| Cai.EndpointScheme | src/lib.rs:127-161 | local providers are reached over `http://localhost:`, exactly the others over `https://api.` |
| Cai.EndpointPath | src/lib.rs:127-161 | Anthropic's URL ends in `/v1/messages`, every other one in `/v1/chat/completions` |
| Cai.DefaultReqForModel | src/lib.rs:127-161 | the request carries the provider and its endpoint, the id resolved by the provider's table (empty for Llamafile), 4096 tokens, and an empty prompt and key |
| Cai.UsedLabelNamesSentModel | src/lib.rs:209-224 | the printed label names the model id that is sent for every provider but Llamafile, whose label names the id as given while its request sends an empty id |
| Cai.ConfigKey | src/lib.rs:182-194 | a provider has no configuration key exactly when it is local; Groq, OpenAI and Anthropic read `groq_api_key`, `openai_api_key` and `anthropic_api_key` |
| Cai.KeyListNames | src/lib.rs:163-175 | each line of names in the set-up message contains all three names |
| Cai.SetupMessageNames | src/lib.rs:163-175 | a message of this layout contains the secrets path and all nine names |
| Cai.KeySetupMsg | src/lib.rs:163-175 | the set-up message names the secrets file, the three file keys, the three `CAI_*` variables and the three generic variables |
| Cai.ApiKey | src/lib.rs:182-206 | a key is found exactly when the provider has a usable credential, and a found key is never empty |
| Cai.GetApiRequest | src/lib.rs:177-207 | it fails with the set-up message exactly when the provider's key is absent or empty; on success it is the default request for the model with a non-empty key; that key is `DUMMY_KEY` for local providers and the configured value otherwise |
| Cai.MissingKeyMessageUniform | src/lib.rs:163-207 | the missing-key error does not depend on which provider lacked the key |
| Cai.LocalNeedsNoKey | src/lib.rs:182-206 | local providers always obtain a request |
| Cai.GetHttpReq | src/lib.rs:266-297 | the error is always the set-up message; with a model it succeeds exactly when that provider has a credential and gives the used label and its request; without one it fails exactly when neither a Groq nor an OpenAI key is usable |
| Cai.FallbackOrder | src/lib.rs:277-293 | without a model the request goes to Groq or OpenAI, never Anthropic, and the label names the request's provider and model; the Groq default model is chosen whenever a Groq key exists, otherwise OpenAI's gpt-4o-mini |
| Cai.RequestBody | src/lib.rs:299-371 | input that parses is the body as it is; otherwise JSON or schema mode on a provider outside OpenAI, Groq and Ollama fails with that provider's message, and the body has exactly the model, max-tokens and messages keys plus `response_format` when a mode is asked for; the schema format overrides the JSON-object format |
| Cai.OneUserMessage | src/lib.rs:362-368 | the body carries exactly one message, from the user, whose content is exactly the input |
| Cai.GetReqBodyObj | src/lib.rs:299-371 | building the object by successive insertions gives the body `RequestBody` describes |
| Cai.AuthHeaders | src/lib.rs:379-384 | the content type is JSON; Anthropic gets `anthropic-version: 2023-06-01` and the key in `x-api-key`, with no `authorization` header; every other provider gets `authorization: Bearer <key>` and neither Anthropic header |
| Cai.AuthHeadersCarryKey | src/lib.rs:379-384 | whichever header scheme the provider uses, the key read back from the headers is the request's key |
| Cai.ExtractText | src/lib.rs:419-428 | a reply of the wrong shape is a decoding error, an empty array panics with an index-out-of-bounds message, and otherwise the text of the first element |
| Cai.ExtractEnvelope | src/lib.rs:96-125 | a reply of the provider's own shape decodes to its first text, or panics when it has none |
| Cai.ShapesDisjoint | src/lib.rs:419-428 | Anthropic's reply shape and the chat-completions shape do not decode as each other |
| Cai.HandleResponse | src/lib.rs:410-428 | a body that does not parse is a decoding error; an error status gives a provider error that contains the label and ends with the pretty-printed reply; otherwise the reply is decoded |
| Cai.MissingKeyFirst | src/lib.rs:396-402 | a missing key is reported before anything else, even before an empty prompt |
| Cai.ExecOutcome | src/lib.rs:388-439 | an empty prompt always fails, with the empty-prompt error or, before it, the missing-key error; without a usable key the outcome is the missing-key error carrying the set-up message |
| Cai.EmptyPromptRejected | src/lib.rs:399-402 | with a key, an empty prompt is rejected and nothing is sent |
| Cai.AnsweredPrompt | src/lib.rs:388-439 | a prompt whose one POST is answered with a success status and a reply of the provider's shape yields that reply's first text |
| Cai.ExecTool | src/lib.rs:388-439 | the credential, then the empty-prompt check, then the body, the POST and the reply, with the outcome `ExecOutcome` describes |
| Cai.SubmitEmptyPrompt | src/lib.rs:632-646 | an empty prompt to OpenAI's gpt-4o-mini fails with the empty-prompt or the missing-key error, whatever the configuration |
| Cai.SubmitPrompt | src/lib.rs:441-462 | success completes with the reply; an unsupported mode exits 1 with its own message; a panic exits 101; every other error exits 1 with the label and the error text |
| Types.LabelIgnoresArguments | src/types.rs:359-415 | the label depends only on the variant, never on its arguments |
| Types.ToStringPretty | src/types.rs:359-415 | exactly the provider and model subcommands (Groq through All) have no label, and every label is non-empty |
| Types.ToolLabels | src/types.rs:380-382 | Changelog, Rename and Ocr are labelled "Changelog", "Rename" and "OCR" |
| Types.LanguageLabelExamples | src/types.rs:384-412 | Cpp, Gd and Wl are labelled "C++", "GDScript" and "Wolfram Language" |
| Types.LanguageOfNameInverts | src/types.rs:384-412 | reading a language's label back gives the language |
| Types.LanguageNameInjective | src/types.rs:384-412 | distinct languages have distinct labels |
| Types.ToolsAreNotLanguages | src/types.rs:380-412 | no language is labelled like a tool |
| Types.LabelsDistinct | src/types.rs:380-412 | labelled subcommands with the same label are the same variant |
| Cli.ConstantsAsDeclared | build.rs:5-18 | each model constant the front end uses is the value the build assigns to its name |
| Cli.JoinWords | src/main.rs:103 | the prompt words joined with single spaces; `Cli.JoinWordsSplits` proves the words come back |
| Cli.JoinWordsSplits | src/main.rs:103 | prompt words without spaces come back from the joined prompt by splitting at spaces |
| Cli.ToUpper | src/main.rs:91 | lower-case ASCII letters become upper case; every other character stays as it is |
| Cli.CapitalizeStr | src/main.rs:87-93 | the empty string stays empty; otherwise the first character is upper-cased and the rest is unchanged; the length is kept |
| Cli.CapitalizeIdempotent | src/main.rs:87-93 | capitalising twice is capitalising once |
| Cli.AllErrorText | src/main.rs:147-149 | the error block is `ERROR:`, a newline, the capitalised error text and a newline |
| Cli.ShortcutModel | src/main.rs:111-131 | every subcommand except `all` stands for a single model |
| Cli.ExecWithArgs | src/main.rs:95-159 | with no subcommand the joined prompt goes to the fallback; a shortcut submits its model; `all` runs the four models in order; every submission carries the prompt words joined with single spaces |
| Cli.ShortcutsSpelledOut | src/main.rs:111-131 | the seven shortcuts submit Groq mixtral-8x7b-32768, OpenAI gpt-4-turbo and gpt-4, Anthropic claude-3-opus-20240229, claude-3-sonnet-20240229 and claude-3-haiku-20240307, and the local model with an empty id |
| Cli.AllSpelledOut | src/main.rs:132-138 | `all` asks Claude Haiku, Groq Mixtral, GPT-4 Turbo and the local model, in that order |

## Left out

- Sending the request: `reqwest`, `async` and awaiting the reply. The POST is the `send` parameter of `Cai.Env`, and its failure is an opaque text.
- Configuration loading: the XDG secrets path, creating the file, reading environment variables, and merging with the `config` crate. The merged map and the path are inputs.
- Reading `OUT_DIR` from the environment, writing the generated file, and the cargo directive in `build.rs`. `Build.GenerateModelsRs` stops at the generated text, so the `unwrap`s on the `OUT_DIR` read and on the file write are not modelled.
- The concurrency of `all`: the tasks are spawned and joined. `Cli.ExecWithArgs` yields the submissions in order, and `Cli.AllErrorText` gives the error block each one prints.
- Command-line parsing by `clap`, and the `Display` of `Commands`: it is derived from `Debug`.
- Changelog generation, file analysis, text extraction from files, and the prompt with a language context. They wrap git, PDF and file reads and base64.
- Terminal output:
  - colour markup, the bold timing and the emoji before labels and before the elapsed time (`Cai.ProviderErrorText` starts with the padded milliseconds);
  - the highlighted or raw printing of a reply.
  - Labels are plain strings, and `SubmitPrompt` ends with the reply instead of printing it.
- Timing with `Instant`. The elapsed milliseconds are a parameter, already formatted as text.
- JSON parsing and pretty-printing by serde. They are parameters, and a failed decoding is one fixed error text.
- The order of keys in a JSON object. `Json` objects are maps.
- A panic's exact report and backtrace. `SubmitPrompt` exits 101 with the panic message.
- The integration tests, which need live providers. Also left out are providers and features without code here: Google, Perplexity, images, speech, base-URL overrides and saving files.
- Cli.ToUpper: upper-cases ASCII letters only, because Unicode case mapping (which can change a string's length) is not modelled.
- Cli.CapitalizeStr: keeps the length for every input only because `Cli.ToUpper` is ASCII-only. Under Rust's full case mapping, that holds for ASCII inputs.
- Strings.Replace: requires a non-empty pattern. Every placeholder is non-empty; Rust's replacement of an empty pattern is not modelled.
- The width of `max_tokens`: the model's `maxTokens` is a `nat`, not a 32-bit unsigned integer. Its only value is 4096.
- Cai.ExtractText: a reply whose array elements are not all of the provider's shape is a decoding error as a whole, as serde decodes the whole response type.
