/** The second copy of the model-name check (lib/utils.ts). */
module LibUtils {
  import Models

  /** `isValidModel(model)`, with its own list of names. */
  function IsValidModel(model: string): (ok: bool)
    ensures ok ==> |model| >= 6
  {
    model in ["openai", "gemini", "deepseek-chat", "deepseek-reasoner"]
  }

  /** The two checks agree on every string. */
  lemma AgreesWithApi(model: string)
    ensures IsValidModel(model) == Models.IsValidModel(model)
  {
  }
}
