/** The command-line front end: its own providers and shortcut subcommands, the
    dispatch from a subcommand to the model it submits the prompt to, and the
    capitalisation of error texts printed by `all`. This front end names its local
    provider `Local` and submits to `submit_prompt` / `exec_tool` with a model and
    a prompt only. */
module Cli {
  import opened Wrappers
  import opened Strings
  import opened Tables
  import Build

  datatype Provider = Anthropic | Groq | OpenAI | Local

  datatype Model = Model(provider: Provider, modelId: string)

  datatype Commands =
    | Mixtral(prompt: seq<string>)
    | GptTurbo(prompt: seq<string>)
    | Gpt(prompt: seq<string>)
    | ClaudeOpus(prompt: seq<string>)
    | ClaudeSonnet(prompt: seq<string>)
    | ClaudeHaiku(prompt: seq<string>)
    | Local(prompt: seq<string>)
    | All(prompt: seq<string>)

  /** The subcommand, if any, and the words given without one. */
  datatype Args = Args(command: Option<Commands>, prompt: seq<string>)

  /** One prompt handed on: to `submit_prompt`, which exits on an error, or (from
      `all`) straight to `exec_tool`, whose error is printed and the run goes on. */
  datatype Submission =
    | Submit(model: Option<Model>, text: string)
    | Exec(execModel: Model, text: string)

  // ---------------------------------------------------------------------------
  // The model constants, as the build declares them

  const GroqMixtral := Build.ConstAssignments[2].1
  const OpenaiGpt := Build.ConstAssignments[4].1
  const OpenaiGptTurbo := Build.ConstAssignments[5].1
  const ClaudeOpusId := Build.ConstAssignments[6].1
  const ClaudeSonnetId := Build.ConstAssignments[7].1
  const ClaudeHaikuId := Build.ConstAssignments[8].1

  /** Each constant is the value the build assigns to the name it is used under. */
  lemma ConstantsAsDeclared()
    ensures ValueOf(Build.ConstAssignments, "GROQ_MIXTRAL") == Some(GroqMixtral)
    ensures ValueOf(Build.ConstAssignments, "OPENAI_GPT") == Some(OpenaiGpt)
    ensures ValueOf(Build.ConstAssignments, "OPENAI_GPT_TURBO") == Some(OpenaiGptTurbo)
    ensures ValueOf(Build.ConstAssignments, "CLAUDE_OPUS") == Some(ClaudeOpusId)
    ensures ValueOf(Build.ConstAssignments, "CLAUDE_SONNET") == Some(ClaudeSonnetId)
    ensures ValueOf(Build.ConstAssignments, "CLAUDE_HAIKU") == Some(ClaudeHaikuId)
  {
    Build.ConstAt(2);
    Build.ConstAt(4);
    Build.ConstAt(5);
    Build.ConstAt(6);
    Build.ConstAt(7);
    Build.ConstAt(8);
  }

  // ---------------------------------------------------------------------------
  // Words and capitals

  /** `prompt.join(" ")`. */
  function JoinWords(words: seq<string>): string {
    Join(words, " ")
  }

  /** Joining with single spaces loses nothing: the words come back by splitting,
      as long as none of them contains a space. */
  lemma JoinWordsSplits(words: seq<string>)
    requires |words| > 0
    requires forall i :: 0 <= i < |words| ==> ' ' !in words[i]
    ensures Split(JoinWords(words), ' ') == words
  {
    SplitJoin(words, ' ');
  }

  predicate IsAsciiLower(c: char) {
    'a' <= c <= 'z'
  }

  /** `char::to_uppercase` on ASCII; every other character is left as it is. */
  function ToUpper(c: char): (u: char)
    ensures !IsAsciiLower(u)
    ensures !IsAsciiLower(c) ==> u == c
    ensures IsAsciiLower(c) ==> u as int == c as int - 32
  {
    if IsAsciiLower(c) then (c as int - 32) as char else c
  }

  /** `capitalize_str`: the first character in upper case, then the rest as it was. */
  function CapitalizeStr(s: string): (r: string)
    ensures |r| == |s|
    ensures s == "" ==> r == ""
    ensures s != "" ==> r[0] == ToUpper(s[0]) && r[1..] == s[1..]
  {
    if s == [] then [] else [ToUpper(s[0])] + s[1..]
  }

  /** Capitalising twice is capitalising once. */
  lemma CapitalizeIdempotent(s: string)
    ensures CapitalizeStr(CapitalizeStr(s)) == CapitalizeStr(s)
  {
  }

  /** The error block `all` prints for an error text. */
  function AllErrorText(err: string): (r: string)
    ensures |r| == |err| + 8
    ensures "ERROR:\n" <= r && r[|r| - 1] == '\n'
    ensures r[7..|r| - 1] == CapitalizeStr(err)
  {
    "ERROR:\n" + CapitalizeStr(err) + "\n"
  }

  // ---------------------------------------------------------------------------
  // Dispatch

  /** The model each shortcut subcommand stands for. */
  function ShortcutModel(cmd: Commands): (m: Option<Model>)
    ensures m.None? <==> cmd.All?
  {
    match cmd
    case Mixtral(_) => Some(Model(Groq, GroqMixtral))
    case GptTurbo(_) => Some(Model(OpenAI, OpenaiGptTurbo))
    case Gpt(_) => Some(Model(OpenAI, OpenaiGpt))
    case ClaudeOpus(_) => Some(Model(Anthropic, ClaudeOpusId))
    case ClaudeSonnet(_) => Some(Model(Anthropic, ClaudeSonnetId))
    case ClaudeHaiku(_) => Some(Model(Anthropic, ClaudeHaikuId))
    case Local(_) => Some(Model(Provider.Local, ""))
    case All(_) => None
  }

  /** The models `all` sends the prompt to, in order. */
  const AllModels := [
    Model(Anthropic, ClaudeHaikuId),
    Model(Groq, GroqMixtral),
    Model(OpenAI, OpenaiGptTurbo),
    Model(Provider.Local, "")]

  /** `exec_with_args`: without a subcommand the prompt goes to the fallback (no
      model); a shortcut submits its model; `all` runs one request per model. */
  function ExecWithArgs(args: Args): (r: seq<Submission>)
    ensures args.command.None? ==> r == [Submit(None, JoinWords(args.prompt))]
    ensures args.command.Some? && !args.command.value.All? ==>
      |r| == 1 && r[0].Submit? && r[0].model.Some? && r[0].model == ShortcutModel(args.command.value)
    ensures args.command.Some? && args.command.value.All? ==>
      |r| == |AllModels| && forall i :: 0 <= i < |r| ==> r[i].Exec? && r[i].execModel == AllModels[i]
    ensures args.command.Some? ==> forall i :: 0 <= i < |r| ==> r[i].text == JoinWords(args.command.value.prompt)
  {
    match args.command
    case None => [Submit(None, JoinWords(args.prompt))]
    case Some(cmd) =>
      var text := JoinWords(cmd.prompt);
      match ShortcutModel(cmd)
      case Some(m) => [Submit(Some(m), text)]
      case None => seq(|AllModels|, i requires 0 <= i < |AllModels| => Exec(AllModels[i], text))
  }

  /** The shortcuts and the models they stand for. */
  lemma ShortcutsSpelledOut(words: seq<string>)
    ensures ExecWithArgs(Args(Some(Mixtral(words)), [])) == [Submit(Some(Model(Groq, "mixtral-8x7b-32768")), JoinWords(words))]
    ensures ExecWithArgs(Args(Some(GptTurbo(words)), [])) == [Submit(Some(Model(OpenAI, "gpt-4-turbo")), JoinWords(words))]
    ensures ExecWithArgs(Args(Some(Gpt(words)), [])) == [Submit(Some(Model(OpenAI, "gpt-4")), JoinWords(words))]
    ensures ExecWithArgs(Args(Some(ClaudeOpus(words)), [])) == [Submit(Some(Model(Anthropic, "claude-3-opus-20240229")), JoinWords(words))]
    ensures ExecWithArgs(Args(Some(ClaudeSonnet(words)), [])) == [Submit(Some(Model(Anthropic, "claude-3-sonnet-20240229")), JoinWords(words))]
    ensures ExecWithArgs(Args(Some(ClaudeHaiku(words)), [])) == [Submit(Some(Model(Anthropic, "claude-3-haiku-20240307")), JoinWords(words))]
    ensures ExecWithArgs(Args(Some(Commands.Local(words)), [])) == [Submit(Some(Model(Provider.Local, "")), JoinWords(words))]
  {
  }

  /** `all` asks Claude Haiku, Groq's Mixtral, GPT-4 Turbo and the local model. */
  lemma AllSpelledOut(words: seq<string>)
    ensures ExecWithArgs(Args(Some(All(words)), [])) == [
      Exec(Model(Anthropic, "claude-3-haiku-20240307"), JoinWords(words)),
      Exec(Model(Groq, "mixtral-8x7b-32768"), JoinWords(words)),
      Exec(Model(OpenAI, "gpt-4-turbo"), JoinWords(words)),
      Exec(Model(Provider.Local, ""), JoinWords(words))]
  {
  }
}
