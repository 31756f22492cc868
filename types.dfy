/** The subcommands, as a plain datatype (argument parsing is not modelled), and the
    label of the prompt context each one sets.

    The language-context subcommands all have the same shape, a prompt and nothing
    else, so they are one constructor, `Lang`, over an enumeration of the languages;
    the other subcommands are constructors of their own. */
module Types {
  import opened Wrappers

  datatype Language =
    | Bash | C | Cpp | Cs | Elm | Fish | Fs | Gd
    | Gl | Go | Hs | Java | Js | Kt | Ly | Lua
    | Oc | Php | Pg | Ps | Py | Rb | Rs | Sql
    | Sw | Ts | Ty | Wl | Zig

  datatype Commands =
    | Groq(model: string, prompt: seq<string>)
    | Llama3(prompt: seq<string>)
    | Mixtral(prompt: seq<string>)
    | Cerebras(model: string, prompt: seq<string>)
    | Deepseek(model: string, prompt: seq<string>)
    | Openai(model: string, prompt: seq<string>)
    | Gpt(prompt: seq<string>)
    | GptMini(prompt: seq<string>)
    | Anthropic(model: string, prompt: seq<string>)
    | ClaudeOpus(prompt: seq<string>)
    | ClaudeSonnet(prompt: seq<string>)
    | ClaudeHaiku(prompt: seq<string>)
    | Xai(model: string, prompt: seq<string>)
    | Grok(prompt: seq<string>)
    | Llamafile(prompt: seq<string>)
    | Ollama(model: string, prompt: seq<string>)
    | All(prompt: seq<string>)
    | Changelog(commitHash: string)
    | Rename(file: string)
    | Ocr(file: string)
    | Lang(language: Language, prompt: seq<string>)

  /** The subcommands that choose a provider or a model rather than a context. */
  predicate IsModelCommand(c: Commands) {
    !(c.Changelog? || c.Rename? || c.Ocr? || c.Lang?)
  }

  /** The name a language context is shown under. */
  function LanguageName(l: Language): string {
    match l
    case Bash => "Bash"
    case C => "C"
    case Cpp => "C++"
    case Cs => "C#"
    case Elm => "Elm"
    case Fish => "Fish"
    case Fs => "F#"
    case Gd => "GDScript"
    case Gl => "Gleam"
    case Go => "Go"
    case Hs => "Haskell"
    case Java => "Java"
    case Js => "JavaScript"
    case Kt => "Kotlin"
    case Ly => "LilyPond"
    case Lua => "Lua"
    case Oc => "OCaml"
    case Php => "PHP"
    case Pg => "Postgres"
    case Ps => "PureScript"
    case Py => "Python"
    case Rb => "Ruby"
    case Rs => "Rust"
    case Sql => "SQLite"
    case Sw => "Swift"
    case Ts => "TypeScript"
    case Ty => "Typst"
    case Wl => "Wolfram Language"
    case Zig => "Zig"
  }

  /** `Commands::to_string_pretty`: no label for a provider or model subcommand, the
      tool's name for the three tools, and the language's name for a language. */
  function ToStringPretty(c: Commands): (r: Option<string>)
    ensures r.None? <==> IsModelCommand(c)
    ensures r.Some? ==> |r.value| > 0
  {
    match c
    case Groq(_, _) => None
    case Llama3(_) => None
    case Mixtral(_) => None
    case Cerebras(_, _) => None
    case Deepseek(_, _) => None
    case Openai(_, _) => None
    case Gpt(_) => None
    case GptMini(_) => None
    case Anthropic(_, _) => None
    case ClaudeOpus(_) => None
    case ClaudeSonnet(_) => None
    case ClaudeHaiku(_) => None
    case Xai(_, _) => None
    case Grok(_) => None
    case Llamafile(_) => None
    case Ollama(_, _) => None
    case All(_) => None
    case Changelog(_) => Some("Changelog")
    case Rename(_) => Some("Rename")
    case Ocr(_) => Some("OCR")
    case Lang(l, _) => Some(LanguageName(l))
  }

  /** The same subcommand with every argument emptied: what identifies its variant. */
  function Bare(c: Commands): Commands {
    match c
    case Groq(_, _) => Groq("", [])
    case Llama3(_) => Llama3([])
    case Mixtral(_) => Mixtral([])
    case Cerebras(_, _) => Cerebras("", [])
    case Deepseek(_, _) => Deepseek("", [])
    case Openai(_, _) => Openai("", [])
    case Gpt(_) => Gpt([])
    case GptMini(_) => GptMini([])
    case Anthropic(_, _) => Anthropic("", [])
    case ClaudeOpus(_) => ClaudeOpus([])
    case ClaudeSonnet(_) => ClaudeSonnet([])
    case ClaudeHaiku(_) => ClaudeHaiku([])
    case Xai(_, _) => Xai("", [])
    case Grok(_) => Grok([])
    case Llamafile(_) => Llamafile([])
    case Ollama(_, _) => Ollama("", [])
    case All(_) => All([])
    case Changelog(_) => Changelog("")
    case Rename(_) => Rename("")
    case Ocr(_) => Ocr("")
    case Lang(l, _) => Lang(l, [])
  }

  /** The label depends only on the variant, never on the arguments. */
  lemma LabelIgnoresArguments(c: Commands)
    ensures ToStringPretty(c) == ToStringPretty(Bare(c))
  {
  }

  /** The three tools' labels. */
  lemma ToolLabels(commitHash: string, file: string)
    ensures ToStringPretty(Changelog(commitHash)) == Some("Changelog")
    ensures ToStringPretty(Rename(file)) == Some("Rename")
    ensures ToStringPretty(Ocr(file)) == Some("OCR")
  {
  }

  /** Some languages whose label is not their subcommand's name. */
  lemma LanguageLabelExamples(prompt: seq<string>)
    ensures ToStringPretty(Lang(Cpp, prompt)) == Some("C++")
    ensures ToStringPretty(Lang(Gd, prompt)) == Some("GDScript")
    ensures ToStringPretty(Lang(Wl, prompt)) == Some("Wolfram Language")
  {
  }

  /** The language a name belongs to, read back by its first letter. */
  function LanguageOfName(name: string): Option<Language> {
    if name == [] then None
    else match name[0]
      case 'B' =>
        if name == "Bash" then Some(Bash)
        else None
      case 'C' =>
        if name == "C" then Some(C)
        else if name == "C++" then Some(Cpp)
        else if name == "C#" then Some(Cs)
        else None
      case 'E' =>
        if name == "Elm" then Some(Elm)
        else None
      case 'F' =>
        if name == "Fish" then Some(Fish)
        else if name == "F#" then Some(Fs)
        else None
      case 'G' =>
        if name == "GDScript" then Some(Gd)
        else if name == "Gleam" then Some(Gl)
        else if name == "Go" then Some(Go)
        else None
      case 'H' =>
        if name == "Haskell" then Some(Hs)
        else None
      case 'J' =>
        if name == "Java" then Some(Java)
        else if name == "JavaScript" then Some(Js)
        else None
      case 'K' =>
        if name == "Kotlin" then Some(Kt)
        else None
      case 'L' =>
        if name == "LilyPond" then Some(Ly)
        else if name == "Lua" then Some(Lua)
        else None
      case 'O' =>
        if name == "OCaml" then Some(Oc)
        else None
      case 'P' =>
        if name == "PHP" then Some(Php)
        else if name == "Postgres" then Some(Pg)
        else if name == "PureScript" then Some(Ps)
        else if name == "Python" then Some(Py)
        else None
      case 'R' =>
        if name == "Ruby" then Some(Rb)
        else if name == "Rust" then Some(Rs)
        else None
      case 'S' =>
        if name == "SQLite" then Some(Sql)
        else if name == "Swift" then Some(Sw)
        else None
      case 'T' =>
        if name == "TypeScript" then Some(Ts)
        else if name == "Typst" then Some(Ty)
        else None
      case 'W' =>
        if name == "Wolfram Language" then Some(Wl)
        else None
      case 'Z' =>
        if name == "Zig" then Some(Zig)
        else None
      case _ => None
  }

  /** Reading a language's name back gives the language. */
  lemma LanguageOfNameInverts(l: Language)
    ensures LanguageOfName(LanguageName(l)) == Some(l)
  {
  }

  lemma LanguageNameInjective(a: Language, b: Language)
    requires LanguageName(a) == LanguageName(b)
    ensures a == b
  {
    LanguageOfNameInverts(a);
    LanguageOfNameInverts(b);
  }

  /** No language is labelled like a tool. */
  lemma ToolsAreNotLanguages(l: Language)
    ensures LanguageName(l) != "Changelog" && LanguageName(l) != "Rename" && LanguageName(l) != "OCR"
  {
  }

  /** Distinct labelled variants carry distinct labels. */
  lemma LabelsDistinct(c: Commands, d: Commands)
    requires ToStringPretty(c).Some? && ToStringPretty(c) == ToStringPretty(d)
    ensures Bare(c) == Bare(d)
  {
    if c.Lang? && d.Lang? {
      LanguageNameInjective(c.language, d.language);
    } else if c.Lang? {
      ToolsAreNotLanguages(c.language);
    } else if d.Lang? {
      ToolsAreNotLanguages(d.language);
    }
  }
}
