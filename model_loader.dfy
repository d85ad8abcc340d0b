/**
 * `load_model_client` (ai_diplomacy/model_loader.py): the provider of a model is chosen
 * from substrings of its lower-cased id, Claude first, then Gemini, then DeepSeek, and
 * OpenAI for every other id. The client itself is described by its constructor
 * arguments.
 */
module ModelLoader {
  import opened Wrappers
  import opened Text

  datatype Provider = Claude | Gemini | DeepSeek | OpenAI

  /** The client `load_model_client` builds: its class and its constructor arguments. */
  datatype ClientSpec = ClientSpec(provider: Provider, modelId: string, powerName: Option<string>, emptySystem: bool)

  /** The provider of a model id. */
  function SelectProvider(modelId: string): (p: Provider)
    ensures var id := Lower(modelId);
      && (p == Claude <==> Contains(id, "claude"))
      && (p == Gemini <==> !Contains(id, "claude") && Contains(id, "gemini"))
      && (p == DeepSeek <==> !Contains(id, "claude") && !Contains(id, "gemini") && Contains(id, "deepseek"))
      && (p == OpenAI <==> !Contains(id, "claude") && !Contains(id, "gemini") && !Contains(id, "deepseek"))
  {
    var id := Lower(modelId);
    if Contains(id, "claude") then Claude
    else if Contains(id, "gemini") then Gemini
    else if Contains(id, "deepseek") then DeepSeek
    else OpenAI
  }

  /** `load_model_client`: the id, the power and the flag go to the chosen client unchanged. */
  function LoadModelClient(modelId: string, powerName: Option<string>, emptySystem: bool): (c: ClientSpec)
    ensures c.provider == SelectProvider(modelId)
    ensures c.modelId == modelId && c.powerName == powerName && c.emptySystem == emptySystem
  {
    ClientSpec(SelectProvider(modelId), modelId, powerName, emptySystem)
  }

  /** The choice ignores case: an id, its upper-case and its lower-case form, and any two
      ids that agree once lower-cased, get the same provider. */
  lemma CaseInsensitive(a: string, b: string)
    ensures SelectProvider(Upper(a)) == SelectProvider(a)
    ensures SelectProvider(Lower(a)) == SelectProvider(a)
    ensures Lower(a) == Lower(b) ==> SelectProvider(a) == SelectProvider(b)
  {
    LowerOfUpper(a);
    LowerIdempotent(a);
  }

  /** An id naming two providers goes to the first in the order of the checks. */
  lemma FirstCheckWins()
    ensures SelectProvider("DeepSeek-Gemini") == Gemini
  {
    var a := Lower("DeepSeek-Gemini");
    assert a == "deepseek-gemini";
    assert OccursAt(a, "gemini", 9);
    MissingChar(a, "claude", 0);
  }
}
