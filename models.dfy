/** The model table and the model-name check of the API layer
    (src/app/api/model.ts). Provider construction is not modelled; an entry
    records which provider and model name it was built from. */
module Models {

  datatype Provider = OpenAi | Gemini | DeepSeek

  /** A table entry: a chat model, or the embedding model. */
  datatype ModelEntry = Chat(provider: Provider, name: string) | Embedding(provider: Provider, name: string)

  /** The names `isValidModel` accepts, in its order. */
  const ValidNames: seq<string> := ["openai", "gemini", "deepseek-chat", "deepseek-reasoner"]

  /** The `models` table. */
  const ModelTable: map<string, ModelEntry> := map[
    "openai" := Chat(OpenAi, "gpt-4o-mini-2024-07-18"),
    "gemini" := Chat(Gemini, "gemini-1.5-flash-latest"),
    "deepseek-chat" := Chat(DeepSeek, "deepseek-chat"),
    "deepseek-reasoner" := Chat(DeepSeek, "deepseek-reasoner"),
    "embeddingModel" := Embedding(OpenAi, "text-embedding-3-small")]

  /** `isValidModel(model)`: exact, case-sensitive membership. */
  function IsValidModel(model: string): (ok: bool)
    ensures ok ==> model in ModelTable && ModelTable[model].Chat?
  {
    model in ValidNames
  }

  /** `getModel(model)` for a name of the `Model` type. */
  function GetModel(model: string): (m: ModelEntry)
    requires IsValidModel(model)
    ensures m.Chat?
    ensures model == "openai" ==> m.provider == OpenAi
    ensures model == "gemini" ==> m.provider == Gemini
    ensures model == "deepseek-chat" || model == "deepseek-reasoner" ==> m == Chat(DeepSeek, model)
  {
    ModelTable[model]
  }

  /** Exactly the four chat models are accepted: the table's other key, the
      embedding model, is not, and neither is any other string. */
  lemma ValidNamesAreChatKeys(model: string)
    ensures IsValidModel(model) <==> model in ModelTable && ModelTable[model].Chat?
  {
  }

  /** No trimming or case folding: near misses are rejected. */
  lemma NearMissesRejected()
    ensures !IsValidModel("") && !IsValidModel("gpt5") && !IsValidModel("OpenAI")
    ensures !IsValidModel(" openai") && !IsValidModel("embeddingModel")
    ensures "embeddingModel" in ModelTable
  {
  }
}
