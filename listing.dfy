/** The `/v1/models` endpoint: the loader's model names as OpenAI model entries. */
module Listing {
  import opened Wrappers
  import opened ApiTypes

  const ListObject: string := "list"
  const ModelObject: string := "model"

  /** The ids of a listing's entries, in order. */
  function Ids(data: seq<OpenAIModel>): seq<string> {
    seq(|data|, i requires 0 <= i < |data| => data[i].id)
  }

  /** Lists the models: the loader's error unchanged, or one `{id, "model"}` entry per name in
      the loader's order, inside a `{object: "list"}` envelope. */
  method ListModels(models: Result<seq<string>, Error>) returns (r: Result<ModelList, Error>)
    ensures models.Failure? ==> r == Failure(models.error)
    ensures models.Success? ==> r.Success? && r.value.kind == ListObject
    ensures models.Success? ==> |r.value.data| == |models.value| &&
                                forall i :: 0 <= i < |models.value| ==> r.value.data[i] == OpenAIModel(models.value[i], ModelObject)
    ensures models.Success? ==> Ids(r.value.data) == models.value
  {
    if models.Failure? {
      return Failure(models.error);
    }
    var names := models.value;
    var dataModels: seq<OpenAIModel> := [];
    for k := 0 to |names|
      invariant |dataModels| == k
      invariant forall j :: 0 <= j < k ==> dataModels[j] == OpenAIModel(names[j], ModelObject)
    {
      dataModels := dataModels + [OpenAIModel(names[k], ModelObject)];
    }
    assert Ids(dataModels) == names;
    r := Success(ModelList(ListObject, dataModels));
  }
}
