/** The model catalogue of `src/config/models.py`: providers, the model-to-provider table,
    the model list offered to the user and the default model. */
module Config {
  import opened Strings

  /** The `Provider` enumeration; `Value` is the enum value, `Name` the member name. */
  datatype Provider = OPENAI | GEMINI | PERPLEXITY {

    function Name(): string {
      match this
      case OPENAI => "OPENAI"
      case GEMINI => "GEMINI"
      case PERPLEXITY => "PERPLEXITY"
    }

    function Value(): string {
      match this
      case OPENAI => "openai"
      case GEMINI => "gemini"
      case PERPLEXITY => "perplexity"
    }
  }

  /** `MODEL_PROVIDER_MAPPING`. */
  const ModelProviderMapping: map<string, Provider> := map[
    "gpt-5" := OPENAI,
    "gpt-4.1" := OPENAI,
    "gpt-4o" := OPENAI,
    "gpt-4" := OPENAI,
    "o4-mini" := OPENAI,
    "gemini-2.5-flash" := GEMINI,
    "sonar" := PERPLEXITY
  ]

  /** `AVAILABLE_MODELS`, in the order the model selector lists them. */
  const AvailableModels: seq<string> :=
    ["gpt-5", "gpt-4.1", "gpt-4o", "gpt-4", "o4-mini", "gemini-2.5-flash", "sonar"]

  /** `DEFAULT_MODEL`. */
  const DefaultModel: string := "gpt-4o"

  /** `get_provider_for_model`: the mapped provider, OpenAI for a name the table lacks. */
  function ProviderForModel(name: string): (p: Provider)
    ensures p == GEMINI <==> name == "gemini-2.5-flash"
    ensures p == PERPLEXITY <==> name == "sonar"
    ensures name !in AvailableModels ==> p == OPENAI
  {
    if name in ModelProviderMapping then ModelProviderMapping[name] else OPENAI
  }

  /** Every enum value is its member name lower-cased, which is what `set_provider` relies on
      when it stores `provider.name.lower()`. */
  lemma ValueIsLowerName(p: Provider)
    ensures p.Value() == Lower(p.Name())
  {
    match p
    case OPENAI =>
      assert Lower("OPENAI") == "openai";
    case GEMINI =>
      assert Lower("GEMINI") == "gemini";
    case PERPLEXITY =>
      assert Lower("PERPLEXITY") == "perplexity";
  }

  /** The table and the list name the same seven models, and the default is one of them. */
  lemma CatalogueConsistent()
    ensures ModelProviderMapping.Keys == set m | m in AvailableModels
    ensures |AvailableModels| == 7 && |ModelProviderMapping| == 7
    ensures DefaultModel in AvailableModels && DefaultModel in ModelProviderMapping
  {
  }
}
