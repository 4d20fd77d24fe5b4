/** The AkashChat runtime: the projection of listed models (its payload hook is `RuntimeCommon.ForceStream`). */
module AkashChat {
  import opened Wrappers
  import opened RuntimeCommon

  /** `({created: _, ...rest}) => rest`. */
  function StripCreated(item: Fields): Fields {
    item - {"created"}
  }

  /** A listed item loses `created` and keeps every other field unchanged. */
  lemma StripCreatedContract(item: Fields)
    ensures "created" !in StripCreated(item)
    ensures forall k :: k != "created" ==> (k in StripCreated(item) <==> k in item)
    ensures forall k :: k in StripCreated(item) ==> StripCreated(item)[k] == item[k]
  {
  }

  function Models<C>(listing: Result<Option<seq<Fields>>, string>, process: seq<Fields> -> Result<seq<C>, string>): seq<C> {
    ListModels(listing, StripCreated, process)
  }

  /** Every item reaching the processing step has no `created` field. */
  lemma ModelsSeeNoCreated(data: Option<seq<Fields>>)
    ensures forall item :: item in ProjectedItems(data, StripCreated) ==> "created" !in item
    ensures |ProjectedItems(data, StripCreated)| == |data.GetOr([])|
  {
  }
}
