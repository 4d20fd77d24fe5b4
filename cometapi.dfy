/** The CometAPI runtime: the projection of listed models (its payload hook is `RuntimeCommon.ForceStream`). */
module CometApi {
  import opened Wrappers
  import opened RuntimeCommon

  function Field(item: Fields, k: string): Json {
    if k in item then item[k] else JNull
  }

  /** `{id: model.id, object: model.object, owned_by: model.owned_by}`. */
  function Project(item: Fields): Fields {
    map["id" := Field(item, "id"), "object" := Field(item, "object"), "owned_by" := Field(item, "owned_by")]
  }

  /** A listed item keeps exactly `id`, `object` and `owned_by`, each with the item's value (undefined when missing). */
  lemma ProjectContract(item: Fields)
    ensures forall k :: k in Project(item) <==> k == "id" || k == "object" || k == "owned_by"
    ensures forall k :: k in Project(item) && k in item ==> Project(item)[k] == item[k]
    ensures forall k :: k in Project(item) && k !in item ==> Project(item)[k] == JNull
  {
  }

  function Models<C>(listing: Result<Option<seq<Fields>>, string>, process: seq<Fields> -> Result<seq<C>, string>): seq<C> {
    ListModels(listing, Project, process)
  }

  /** Every item reaching the processing step has exactly the three projected keys. */
  lemma ModelsSeeThreeKeys(data: Option<seq<Fields>>)
    ensures forall item :: item in ProjectedItems(data, Project) ==> item.Keys == {"id", "object", "owned_by"}
  {
  }
}
