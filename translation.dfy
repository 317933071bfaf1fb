/**
 * The translation model's configuration: where its four resource files
 * live and how a two-letter language code selects a language.
 */
module Translation {
  import opened Wrappers
  import Engine

  /** The languages a code can name. */
  datatype Language = English | French | Danish | German | Norwegian

  /** `str_to_lang`: the known codes select their language, and anything else means English. */
  function StrToLang(value: string): Language
  {
    match value
    case "en" => English
    case "fr" => French
    case "da" => Danish
    case "de" => German
    case "no" => Norwegian
    case _ => English
  }

  /** The code that selects each language. */
  function Code(l: Language): string
  {
    match l
    case English => "en"
    case French => "fr"
    case Danish => "da"
    case German => "de"
    case Norwegian => "no"
  }

  /** Each language is selected by its own code, and only English is also the fallback. */
  lemma StrToLangCodes(l: Language, value: string)
    ensures StrToLang(Code(l)) == l
    ensures StrToLang(value) != English ==> value == Code(StrToLang(value))
    ensures value !in {"en", "fr", "da", "de", "no"} ==> StrToLang(value) == English
  {
  }

  /** The model's directory under the data directory. */
  const M2M100_418M := "m2m100_418M"

  /** The four local resources: configuration, vocabulary, weights and merges (always present). */
  datatype Ressources = Ressources(config: Engine.Path, vocab: Engine.Path, model: Engine.Path,
                                   merges: Option<Engine.Path>)

  /** `get_local_ressources`: the four files under the model's data directory. */
  function LocalRessources(workspace: Engine.Path): (r: Ressources)
    ensures r.merges.Some?
    ensures var dir := workspace + [Engine.AI_DATA_PATH, M2M100_418M];
      r.config == dir + ["config.json"] && r.vocab == dir + ["vocab.json"] &&
      r.model == dir + ["rust_model.ot"] && r.merges.value == dir + ["sentencepiece.bpe.model"]
  {
    var dir := Engine.Data(workspace) + [M2M100_418M];
    Ressources(dir + ["config.json"], dir + ["vocab.json"], dir + ["rust_model.ot"],
               Some(dir + ["sentencepiece.bpe.model"]))
  }

  /** The four resources are four different files. */
  lemma RessourcesDistinct(workspace: Engine.Path)
    ensures var r := LocalRessources(workspace);
      r.config != r.vocab && r.config != r.model && r.config != r.merges.value &&
      r.vocab != r.model && r.vocab != r.merges.value && r.model != r.merges.value
  {
    var r := LocalRessources(workspace);
    var n := |workspace| + 2;
    assert r.config[n] == "config.json" && r.vocab[n] == "vocab.json";
    assert r.model[n] == "rust_model.ot" && r.merges.value[n] == "sentencepiece.bpe.model";
  }
}
