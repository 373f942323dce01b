/** The model check at the top of `POST /api/composer`
    (src/app/api/composer/route.ts): a request whose `model` is not one of the
    chat models is answered at once with status 400. */
module ComposerRoute {
  import opened Json
  import Models

  /** How the route leaves its model check: it goes on to generation, or it
      answers right away with a status and a JSON body. */
  datatype Early = Proceeds | Rejects(status: int, body: seq<Member>)

  const InvalidModelReply := [Member("error", Str("Invalid model"))]

  /** `isValidModel(model)` on the parsed body: only a string naming a chat
      model passes (`includes` is false for any other value). */
  function ValidateModel(request: seq<Member>): (r: Early)
    ensures r.Proceeds? <==> Get(request, "model").Str? && Models.IsValidModel(Get(request, "model").s)
    ensures r.Rejects? ==> r == Rejects(400, InvalidModelReply)
  {
    var model := Get(request, "model");
    if model.Str? && Models.IsValidModel(model.s) then Proceeds else Rejects(400, InvalidModelReply)
  }

  /** A body without a `model` key is always rejected. */
  lemma MissingModelRejected(request: seq<Member>)
    requires !HasKey(request, "model")
    ensures ValidateModel(request) == Rejects(400, InvalidModelReply)
  {
  }
}
