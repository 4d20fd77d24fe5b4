/**
 * What the OpenAI-compatible provider runtimes share: JSON values for the payload fields
 * a hook passes through untouched, the "keep the model, force streaming" payload hook,
 * and the guarded model listing that falls back to an empty list on any failure.
 */
module RuntimeCommon {
  import opened Wrappers

  /** A JSON value; `JNull` also stands for `undefined`. */
  datatype Json = JNull | JBool(b: bool) | JNum(n: int) | JStr(s: string) | JList(items: seq<Json>) | JObject(fields: map<string, Json>)

  type Fields = map<string, Json>

  /** `{...rest, model, stream: true}` where `{model, ...rest} = payload`. */
  function ForceStream(payload: Fields): Fields {
    var rest := payload - {"model"};
    var withModel := if "model" in payload then rest["model" := payload["model"]] else rest;
    withModel["stream" := JBool(true)]
  }

  /** The model is kept, streaming is on, and every other field passes through unchanged. */
  lemma ForceStreamContract(payload: Fields)
    ensures var r := ForceStream(payload);
      ("model" in r <==> "model" in payload) && ("model" in payload ==> r["model"] == payload["model"])
      && "stream" in r && r["stream"] == JBool(true)
      && (forall k :: k != "stream" ==> (k in r <==> k in payload))
      && (forall k :: k in payload && k != "stream" ==> r[k] == payload[k])
  {
  }

  /**
   * `models()` of a listing runtime: the page's `data` (an empty list when missing), each
   * item projected, then processed; a failure of the listing or of the processing gives [].
   */
  function ListModels<C>(listing: Result<Option<seq<Fields>>, string>, project: Fields -> Fields,
                         process: seq<Fields> -> Result<seq<C>, string>): seq<C>
  {
    match listing
    case Err(_) => []
    case Ok(data) =>
      var raw := data.GetOr([]);
      var modelList := seq(|raw|, i requires 0 <= i < |raw| => project(raw[i]));
      match process(modelList)
      case Ok(cards) => cards
      case Err(_) => []
  }

  /** The item list handed to the processing step. */
  function ProjectedItems(data: Option<seq<Fields>>, project: Fields -> Fields): (r: seq<Fields>)
    ensures |r| == |data.GetOr([])|
    ensures forall i :: 0 <= i < |r| ==> r[i] == project(data.GetOr([])[i])
  {
    var raw := data.GetOr([]);
    seq(|raw|, i requires 0 <= i < |raw| => project(raw[i]))
  }

  /**
   * A failed listing or a failed processing yields the empty list; a missing `data` is
   * processed as the empty list; otherwise the processed cards of the projected items.
   */
  lemma ListModelsContract<C>(listing: Result<Option<seq<Fields>>, string>, project: Fields -> Fields,
                              process: seq<Fields> -> Result<seq<C>, string>)
    ensures listing.Err? ==> ListModels(listing, project, process) == []
    ensures listing.Ok? ==>
      var items := ProjectedItems(listing.value, project);
      ListModels(listing, project, process) == (if process(items).Ok? then process(items).value else [])
    ensures listing == Ok(None) ==>
      ListModels(listing, project, process) == (if process([]).Ok? then process([]).value else [])
  {
    if listing.Ok? {
      assert ProjectedItems(listing.value, project) == seq(|listing.value.GetOr([])|, i requires 0 <= i < |listing.value.GetOr([])| => project(listing.value.GetOr([])[i]));
    }
    if listing == Ok(None) {
      assert ProjectedItems(None, project) == [];
    }
  }
}
