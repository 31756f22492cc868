/** The build script: it expands the alias tables whose values name generated
    constants, renders the tables and their help text as code, and splices the
    results into the `models.rs` template. */
module Build {
  import opened Wrappers
  import opened Strings
  import opened Tables

  /** Constant name -> model id; each becomes a `pub const` of the generated file. */
  const ConstAssignments: Table := [
    ("GROQ_LLAMA", "llama3-8b-8192"),
    ("GROQ_LLAMA_70", "llama3-70b-8192"),
    ("GROQ_MIXTRAL", "mixtral-8x7b-32768"),
    ("GROQ_GEMMA", "gemma-7b-it"),
    ("OPENAI_GPT", "gpt-4"),
    ("OPENAI_GPT_TURBO", "gpt-4-turbo"),
    ("CLAUDE_OPUS", "claude-3-opus-20240229"),
    ("CLAUDE_SONNET", "claude-3-sonnet-20240229"),
    ("CLAUDE_HAIKU", "claude-3-haiku-20240307")
  ]

  /** Groq alias -> constant name. */
  const GroqModelMappingSrc: Table := [
    ("llama3", "GROQ_LLAMA"),
    ("llama", "GROQ_LLAMA"),
    ("ll", "GROQ_LLAMA"),
    ("llama3-70", "GROQ_LLAMA_70"),
    ("llama-70", "GROQ_LLAMA_70"),
    ("ll-70", "GROQ_LLAMA_70"),
    ("ll70", "GROQ_LLAMA_70"),
    ("mixtral", "GROQ_MIXTRAL"),
    ("mix", "GROQ_MIXTRAL"),
    ("mi", "GROQ_MIXTRAL"),
    ("gemma", "GROQ_GEMMA"),
    ("ge", "GROQ_GEMMA")
  ]

  /** Ollama alias -> model id, copied verbatim. */
  const OllamaModelMappingSrc: Table := [
    ("llama", "llama3"),
    ("ll", "llama3"),
    ("llama2", "llama2"),
    ("ll2", "llama2"),
    ("mix", "mixtral"),
    ("mi", "mixtral"),
    ("mis", "mistral"),
    ("ge", "gemma"),
    ("cg", "codegemma"),
    ("cr", "command-r"),
    ("crp", "command-r-plus")
  ]

  /** The placeholders of the template, as `main` spells them. */
  const ConstAssignmentsMarker := "// {const_assignments}"
  const GroqHashmapMarker := "// {groq_model_hashmap}"
  const GroqPrettyMarker := "{groq_models_pretty}"
  const OllamaHashmapMarker := "// {ollama_model_hashmap}"
  const OllamaPrettyMarker := "{ollama_models_pretty}"

  /** The value of a generated constant; naming one that does not exist does not compile. */
  function ConstValue(name: string): (v: string)
    requires ValueOf(ConstAssignments, name).Some?
    ensures exists i :: 0 <= i < |ConstAssignments| && ConstAssignments[i] == (name, v)
  {
    ValueOf(ConstAssignments, name).value
  }

  /** Each entry's value replaced by the value of the constant it names, through
      `find(..).unwrap()`; `None` is the panic of a name that is not found. */
  function ExpandConstants(src: Table, consts: Table): (r: Option<Table>)
    ensures r.Some? <==> forall i :: 0 <= i < |src| ==> ValueOf(consts, src[i].1).Some?
    ensures r.Some? ==> |r.value| == |src|
    ensures r.Some? ==> forall i :: 0 <= i < |src| ==>
      r.value[i].0 == src[i].0 && Some(r.value[i].1) == ValueOf(consts, src[i].1)
  {
    if src == [] then Some([])
    else match ValueOf(consts, src[0].1)
      case None => None
      case Some(v) =>
        match ExpandConstants(src[1..], consts)
        case None => None
        case Some(rest) => Some([(src[0].0, v)] + rest)
  }

  /** Neither field of any entry contains a newline. */
  ghost predicate SingleLine(t: Table) {
    forall i :: 0 <= i < |t| ==> '\n' !in t[i].0 && '\n' !in t[i].1
  }

  /** `pub const NAME: &str = "value";` */
  function ConstDecl(e: Entry): string {
    "pub const " + e.0 + ": &str = \"" + e.1 + "\";"
  }

  /** The block that replaces `// {const_assignments}`: one declaration per line. */
  function ConstAssignmentsText(consts: Table): string {
    Unlines(seq(|consts|, i requires 0 <= i < |consts| => ConstDecl(consts[i])))
  }

  /** `("alias", "value"),` */
  function EntryCode(e: Entry): string {
    "(\"" + e.0 + "\", \"" + e.1 + "\"),"
  }

  /** A table rendered as the lines of a Rust slice literal. */
  function TableText(t: Table): string {
    Unlines(seq(|t|, i requires 0 <= i < |t| => EntryCode(t[i])))
  }

  /** The Groq table's code: its aliases with each constant name replaced by its value. */
  function GroqHashmapText(src: Table): Option<string> {
    ExpandConstants(src, ConstAssignments).Map(TableText)
  }

  /** The Ollama table's code: its pairs copied verbatim. */
  function OllamaHashmapText(src: Table): string {
    TableText(src)
  }

  /** One help line: two spaces, the alias left-aligned in nine columns, an arrow, the name. */
  function PrettyBody(alias: string, name: string): string {
    "  " + PadRight(alias, 9) + " → " + name
  }

  function PrettyText(t: Table): string {
    Unlines(seq(|t|, i requires 0 <= i < |t| => PrettyBody(t[i].0, t[i].1)))
  }

  /** The name shown for a mapping's value: the constant's value when `useLookup`
      is set (`None` for the panic of a missing constant), the value itself otherwise. */
  function FullName(useLookup: bool, name: string): Option<string> {
    if useLookup then ValueOf(ConstAssignments, name) else Some(name)
  }

  /** `pretty_print_mapping`: the help text listing each alias and what it stands for. */
  function PrettyPrintMapping(useLookup: bool, mapping: Table): (r: Option<string>)
    ensures r.Some? <==> forall i :: 0 <= i < |mapping| ==> FullName(useLookup, mapping[i].1).Some?
  {
    if useLookup then ExpandConstants(mapping, ConstAssignments).Map(PrettyText)
    else Some(PrettyText(mapping))
  }

  /** `main` without the final write: the template with its five placeholders
      substituted in order; `None` is a panic of one of the `unwrap`s. */
  function GenerateModelsRs(template: string): (r: Option<string>)
    ensures r.Some?
  {
    GroqMappingGenerated();
    var groq := GroqHashmapText(GroqModelMappingSrc);
    var groqPretty := PrettyPrintMapping(true, GroqModelMappingSrc);
    var ollamaPretty := PrettyPrintMapping(false, OllamaModelMappingSrc);
    if groq.None? || groqPretty.None? || ollamaPretty.None? then None
    else
      var withConsts := Replace(template, ConstAssignmentsMarker, ConstAssignmentsText(ConstAssignments));
      var withGroq := Replace(withConsts, GroqHashmapMarker, groq.value);
      var withGroqPretty := Replace(withGroq, GroqPrettyMarker, groqPretty.value);
      var withOllama := Replace(withGroqPretty, OllamaHashmapMarker, OllamaHashmapText(OllamaModelMappingSrc));
      Some(Replace(withOllama, OllamaPrettyMarker, ollamaPretty.value))
  }

  // ---------------------------------------------------------------------------
  // What the build produces

  lemma ConstNamesDistinct()
    ensures DistinctKeys(ConstAssignments)
  {
  }

  /** Each constant name finds its own value. */
  lemma ConstAt(i: nat)
    requires i < |ConstAssignments|
    ensures ValueOf(ConstAssignments, ConstAssignments[i].0) == Some(ConstAssignments[i].1)
  {
    ConstNamesDistinct();
    ValueOfDistinct(ConstAssignments, i);
  }

  lemma {:induction false} ExpandMatches(src: Table, consts: Table, expected: Table)
    requires |src| == |expected|
    requires forall i :: 0 <= i < |src| ==>
      expected[i].0 == src[i].0 && ValueOf(consts, src[i].1) == Some(expected[i].1)
    ensures ExpandConstants(src, consts) == Some(expected)
  {
    var r := ExpandConstants(src, consts);
    assert r.Some?;
    assert r.value == expected;
  }

  /** Resolving an alias in an expanded table is finding its constant name in the
      source table and taking that constant's value. */
  lemma LookupExpanded(src: Table, consts: Table, alias: string)
    requires ExpandConstants(src, consts).Some?
    ensures var t := ExpandConstants(src, consts).value;
      Lookup(t, alias) == match ValueOf(src, alias)
        case None => alias
        case Some(name) => ValueOf(consts, name).value
  {
    var t := ExpandConstants(src, consts).value;
    assert Keys(src) == Keys(t);
    FindSameKeys(src, t, alias);
  }

  /** Every constant the Groq table names exists, and the generated table is this one. */
  lemma GroqMappingGenerated()
    ensures ExpandConstants(GroqModelMappingSrc, ConstAssignments) == Some(GroqModelMapping)
  {
    forall i | 0 <= i < |GroqModelMappingSrc|
      ensures GroqModelMapping[i].0 == GroqModelMappingSrc[i].0
      ensures ValueOf(ConstAssignments, GroqModelMappingSrc[i].1) == Some(GroqModelMapping[i].1)
    {
      if i < 3 { ConstAt(0); } else if i < 7 { ConstAt(1); } else if i < 10 { ConstAt(2); } else { ConstAt(3); }
    }
    ExpandMatches(GroqModelMappingSrc, ConstAssignments, GroqModelMapping);
  }

  /** The Groq table as the generated file spells it out. */
  const GroqModelMapping: Table := [
    ("llama3", "llama3-8b-8192"),
    ("llama", "llama3-8b-8192"),
    ("ll", "llama3-8b-8192"),
    ("llama3-70", "llama3-70b-8192"),
    ("llama-70", "llama3-70b-8192"),
    ("ll-70", "llama3-70b-8192"),
    ("ll70", "llama3-70b-8192"),
    ("mixtral", "mixtral-8x7b-32768"),
    ("mix", "mixtral-8x7b-32768"),
    ("mi", "mixtral-8x7b-32768"),
    ("gemma", "gemma-7b-it"),
    ("ge", "gemma-7b-it")
  ]


  /** A template without placeholders is copied as it is. */
  lemma GeneratePlainTemplate(template: string)
    requires !Contains(template, ConstAssignmentsMarker) && !Contains(template, GroqHashmapMarker)
    requires !Contains(template, GroqPrettyMarker) && !Contains(template, OllamaHashmapMarker)
    requires !Contains(template, OllamaPrettyMarker)
    ensures GenerateModelsRs(template) == Some(template)
  {
    GroqMappingGenerated();
    ReplaceAbsent(template, ConstAssignmentsMarker, ConstAssignmentsText(ConstAssignments));
    ReplaceAbsent(template, GroqHashmapMarker, GroqHashmapText(GroqModelMappingSrc).value);
    ReplaceAbsent(template, GroqPrettyMarker, PrettyPrintMapping(true, GroqModelMappingSrc).value);
    ReplaceAbsent(template, OllamaHashmapMarker, OllamaHashmapText(OllamaModelMappingSrc));
    ReplaceAbsent(template, OllamaPrettyMarker, PrettyPrintMapping(false, OllamaModelMappingSrc).value);
  }

  /** The Ollama help text lands exactly where its placeholder stood, and the text
      around it is kept. */
  lemma OllamaHelpInPlace(pre: string, post: string)
    requires var t := pre + OllamaPrettyMarker + post;
      !Contains(t, ConstAssignmentsMarker) && !Contains(t, GroqHashmapMarker)
      && !Contains(t, GroqPrettyMarker) && !Contains(t, OllamaHashmapMarker)
    requires Clean(pre, OllamaPrettyMarker) && !Contains(post, OllamaPrettyMarker)
    ensures GenerateModelsRs(pre + OllamaPrettyMarker + post)
      == Some(pre + PrettyPrintMapping(false, OllamaModelMappingSrc).value + post)
  {
    var t := pre + OllamaPrettyMarker + post;
    var help := PrettyPrintMapping(false, OllamaModelMappingSrc).value;
    GroqMappingGenerated();
    ReplaceAbsent(t, ConstAssignmentsMarker, ConstAssignmentsText(ConstAssignments));
    ReplaceAbsent(t, GroqHashmapMarker, GroqHashmapText(GroqModelMappingSrc).value);
    ReplaceAbsent(t, GroqPrettyMarker, PrettyPrintMapping(true, GroqModelMappingSrc).value);
    ReplaceAbsent(t, OllamaHashmapMarker, OllamaHashmapText(OllamaModelMappingSrc));
    ReplaceSplice(pre, post, OllamaPrettyMarker, help);
    ReplaceAbsent(post, OllamaPrettyMarker, help);
  }

  lemma ConstAssignmentsSingleLine()
    ensures SingleLine(ConstAssignments)
  {
    ConstNamesSingleLine();
    ConstValuesSingleLine();
  }

  lemma ConstNamesSingleLine()
    ensures forall i :: 0 <= i < |ConstAssignments| ==> '\n' !in ConstAssignments[i].0
  {
  }

  lemma ConstValuesSingleLine()
    ensures forall i :: 0 <= i < |ConstAssignments| ==> '\n' !in ConstAssignments[i].1
  {
  }
  lemma GroqSrcSingleLine() ensures SingleLine(GroqModelMappingSrc) {}
  lemma OllamaSrcSingleLine() ensures SingleLine(OllamaModelMappingSrc) {}
  lemma GroqMappingSingleLine() ensures SingleLine(GroqModelMapping) {}

  /** A rendered table has one line per entry, in order, then nothing after the last newline. */
  lemma TableTextLines(t: Table)
    requires SingleLine(t)
    ensures Split(TableText(t), '\n') == seq(|t|, i requires 0 <= i < |t| => EntryCode(t[i])) + [""]
  {
    var bodies := seq(|t|, i requires 0 <= i < |t| => EntryCode(t[i]));
    forall i | 0 <= i < |bodies| ensures '\n' !in bodies[i] {
      assert bodies[i] == "(\"" + t[i].0 + "\", \"" + t[i].1 + "\"),";
    }
    SplitUnlines(bodies);
  }

  /** The generated Groq code: one `("alias", "value"),` line per source entry, in
      source order, with the value of the constant the entry names. */
  lemma GroqHashmapLines()
    ensures GroqHashmapText(GroqModelMappingSrc).Some?
    ensures var lines := Split(GroqHashmapText(GroqModelMappingSrc).value, '\n');
      |lines| == |GroqModelMappingSrc| + 1 && lines[|GroqModelMappingSrc|] == "" &&
      forall i :: 0 <= i < |GroqModelMappingSrc| ==>
        lines[i] == EntryCode((GroqModelMappingSrc[i].0, ConstValue(GroqModelMappingSrc[i].1)))
  {
    GroqMappingGenerated();
    GroqMappingSingleLine();
    TableTextLines(GroqModelMapping);
  }

  /** The generated Ollama code copies each source pair verbatim, in order. */
  lemma OllamaHashmapLines()
    ensures var lines := Split(OllamaHashmapText(OllamaModelMappingSrc), '\n');
      |lines| == |OllamaModelMappingSrc| + 1 && lines[|OllamaModelMappingSrc|] == "" &&
      forall i :: 0 <= i < |OllamaModelMappingSrc| ==> lines[i] == EntryCode(OllamaModelMappingSrc[i])
  {
    OllamaSrcSingleLine();
    TableTextLines(OllamaModelMappingSrc);
  }

  /** One `pub const` line per assignment, in order. */
  lemma ConstAssignmentsLines(consts: Table)
    requires SingleLine(consts)
    ensures Split(ConstAssignmentsText(consts), '\n') ==
      seq(|consts|, i requires 0 <= i < |consts| => ConstDecl(consts[i])) + [""]
  {
    var bodies := seq(|consts|, i requires 0 <= i < |consts| => ConstDecl(consts[i]));
    forall i | 0 <= i < |bodies| ensures '\n' !in bodies[i] {
      assert bodies[i] == "pub const " + consts[i].0 + ": &str = \"" + consts[i].1 + "\";";
    }
    SplitUnlines(bodies);
  }

  /** The help text has exactly one line per entry: two spaces, the alias padded to
      at least nine columns, " → ", and the constant's value (with `useLookup`)
      or the mapping's value itself. */
  lemma {:induction false} PrettyPrintLines(useLookup: bool, mapping: Table)
    requires PrettyPrintMapping(useLookup, mapping).Some?
    requires SingleLine(mapping)
    ensures var lines := Split(PrettyPrintMapping(useLookup, mapping).value, '\n');
      |lines| == |mapping| + 1 && lines[|mapping|] == "" &&
      forall i :: 0 <= i < |mapping| ==>
        FullName(useLookup, mapping[i].1).Some? &&
        lines[i] == "  " + PadRight(mapping[i].0, 9) + " → " + FullName(useLookup, mapping[i].1).value
  {
    var t := if useLookup then ExpandConstants(mapping, ConstAssignments).value else mapping;
    assert PrettyPrintMapping(useLookup, mapping).value == PrettyText(t);
    ConstAssignmentsSingleLine();
    var bodies := seq(|t|, i requires 0 <= i < |t| => PrettyBody(t[i].0, t[i].1));
    forall i | 0 <= i < |bodies| ensures '\n' !in bodies[i] {
      assert t[i].0 == mapping[i].0;
      assert Some(t[i].1) == FullName(useLookup, mapping[i].1);
      if useLookup {
        var j :| 0 <= j < |ConstAssignments| && ConstAssignments[j] == (mapping[i].1, t[i].1);
      }
      assert bodies[i] == "  " + PadRight(t[i].0, 9) + " → " + t[i].1;
      assert forall k :: 0 <= k < |PadRight(t[i].0, 9)| ==> PadRight(t[i].0, 9)[k] != '\n';
    }
    SplitUnlines(bodies);
  }

  /** `main`'s first `replace` substitutes every `// {const_assignments}` marker of a
      template cut by its four markers-free pieces, so a template that carries the
      marker three times (once per block that needs the constants) gets the
      declarations three times. */
  lemma ConstMarkersAllReplaced(p0: string, p1: string, p2: string, p3: string)
    requires Clean(p0, ConstAssignmentsMarker) && Clean(p1, ConstAssignmentsMarker)
    requires Clean(p2, ConstAssignmentsMarker) && !Contains(p3, ConstAssignmentsMarker)
    ensures var m, c := ConstAssignmentsMarker, ConstAssignmentsText(ConstAssignments);
      Replace(p0 + m + p1 + m + p2 + m + p3, m, c) == p0 + c + p1 + c + p2 + c + p3
  {
    var m, c := ConstAssignmentsMarker, ConstAssignmentsText(ConstAssignments);
    JoinFour(p0, p1, p2, p3, m);
    JoinFour(p0, p1, p2, p3, c);
    ReplaceJoin([p0, p1, p2, p3], m, c);
  }

  lemma JoinFour(p0: string, p1: string, p2: string, p3: string, sep: string)
    ensures Join([p0, p1, p2, p3], sep) == p0 + sep + p1 + sep + p2 + sep + p3
  {
    var parts := [p0, p1, p2, p3];
    assert parts[1..] == [p1, p2, p3] && parts[1..][1..] == [p2, p3] && parts[1..][1..][1..] == [p3];
    assert Join([p2, p3], sep) == p2 + sep + p3;
  }
}
