/** The alias tables and their lookups, as the template reads once the build has
    filled it in: only the Groq and Ollama tables are substituted; every other
    table's placeholder is left as a comment, so those tables stay empty. */
module Models {
  import opened Wrappers
  import opened Tables
  import Build

  const AnthropicModelMapping: Table := []
  const CerebrasModelMapping: Table := []
  const DeepseekModelMapping: Table := []
  const GoogleModelMapping: Table := []
  const OpenaiModelMapping: Table := []
  const XaiModelMapping: Table := []

  /** The Groq table is the build's expansion of its source table. */
  const GroqModelMapping: Table := Build.GroqModelMapping

  /** The Ollama table is its source table, copied verbatim. */
  const OllamaModelMapping: Table := Build.OllamaModelMappingSrc

  // The eight lookups are one function, `Lookup`, on eight tables.

  function GetAnthropicModel(modelId: string): (r: string)
    ensures r == modelId
  {
    Lookup(AnthropicModelMapping, modelId)
  }

  function GetCerebrasModel(modelId: string): (r: string)
    ensures r == modelId
  {
    Lookup(CerebrasModelMapping, modelId)
  }

  function GetDeepseekModel(modelId: string): (r: string)
    ensures r == modelId
  {
    Lookup(DeepseekModelMapping, modelId)
  }

  function GetGoogleModel(modelId: string): (r: string)
    ensures r == modelId
  {
    Lookup(GoogleModelMapping, modelId)
  }

  function GetGroqModel(modelId: string): (r: string)
    ensures r == modelId || exists i :: 0 <= i < |GroqModelMapping| && r == GroqModelMapping[i].1
  {
    Lookup(GroqModelMapping, modelId)
  }

  function GetOllamaModel(modelId: string): (r: string)
    ensures r == modelId || exists i :: 0 <= i < |OllamaModelMapping| && r == OllamaModelMapping[i].1
  {
    Lookup(OllamaModelMapping, modelId)
  }

  function GetOpenaiModel(modelId: string): (r: string)
    ensures r == modelId
  {
    Lookup(OpenaiModelMapping, modelId)
  }

  function GetXaiModel(modelId: string): (r: string)
    ensures r == modelId
  {
    Lookup(XaiModelMapping, modelId)
  }

  lemma GroqNoChains()
    ensures NoChains(GroqModelMapping)
  {
  }

  lemma OllamaNoChains()
    ensures NoChains(OllamaModelMapping)
  {
  }

  /** Resolving twice through the Groq table is resolving once. */
  lemma GroqIdempotent(modelId: string)
    ensures GetGroqModel(GetGroqModel(modelId)) == GetGroqModel(modelId)
  {
    GroqNoChains();
    LookupIdempotent(GroqModelMapping, modelId);
  }

  /** Resolving twice through the Ollama table is resolving once. */
  lemma OllamaIdempotent(modelId: string)
    ensures GetOllamaModel(GetOllamaModel(modelId)) == GetOllamaModel(modelId)
  {
    OllamaNoChains();
    LookupIdempotent(OllamaModelMapping, modelId);
  }

  /** "llama2" is both an alias and a model id, and it resolves to itself. */
  lemma OllamaLlama2Fixed()
    ensures GetOllamaModel("llama2") == "llama2"
  {
    LookupFirstMatch(OllamaModelMapping, "llama2", 2);
  }

  /** A Groq alias resolves to the value of the constant its source entry names;
      anything else passes through. */
  lemma GroqAliasThroughConstant(alias: string)
    ensures ValueOf(Build.GroqModelMappingSrc, alias).None? ==> GetGroqModel(alias) == alias
    ensures ValueOf(Build.GroqModelMappingSrc, alias).Some? ==>
      Some(GetGroqModel(alias)) == ValueOf(Build.ConstAssignments, ValueOf(Build.GroqModelMappingSrc, alias).value)
  {
    Build.GroqMappingGenerated();
    Build.LookupExpanded(Build.GroqModelMappingSrc, Build.ConstAssignments, alias);
  }

  /** The default Groq model id and OpenAI's small model are not aliases. */
  lemma DefaultIdsPassThrough()
    ensures GetGroqModel("llama-3.1-8b-instant") == "llama-3.1-8b-instant"
    ensures GetOpenaiModel("gpt-4o-mini") == "gpt-4o-mini"
  {
    LookupPassThrough(GroqModelMapping, "llama-3.1-8b-instant");
  }
}
