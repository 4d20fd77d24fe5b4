/**
 * Image generation for OpenAI-compatible providers: a model id ending in `:image` goes
 * through the chat-completions API, every other model through the images API. The model
 * covers the request each path builds and how each path reads its response; the HTTP
 * calls themselves are parameters or left out.
 */
module OpenAICompatibleImage {
  import opened Wrappers
  import opened Strings
  import DataUrls

  const ImageSuffix: string := ":image"

  // ---------------------------------------------------------------- dispatch

  datatype Route = ChatModelRoute(actualModel: string) | ImagesRoute

  /** The model id the chat path sends, as written: `model.replace(':image', '')` removes the first occurrence. */
  function ActualModelAsWritten(model: string): string {
    ReplaceFirst(model, ImageSuffix, "")
  }

  /** The model id the chat path is meant to send: the id with its `:image` suffix removed. */
  function ActualModel(model: string): (r: string)
    ensures EndsWith(model, ImageSuffix) ==> r + ImageSuffix == model
    ensures !EndsWith(model, ImageSuffix) ==> r == model
  {
    if EndsWith(model, ImageSuffix) then
      assert model == model[..|model| - 6] + model[|model| - 6..];
      model[..|model| - 6]
    else model
  }

  /** A model ending in `:image` takes the chat path, with the suffix removed; any other takes the images API. */
  function Dispatch(model: string): (r: Route)
    ensures r.ChatModelRoute? <==> EndsWith(model, ImageSuffix)
    ensures r.ChatModelRoute? ==> r.actualModel + ImageSuffix == model
  {
    if EndsWith(model, ImageSuffix) then ChatModelRoute(ActualModel(model)) else ImagesRoute
  }

  /**
   * For a model with a second `:image` inside, the replacement as written removes the inner
   * occurrence and leaves the suffix in place, so the chat API receives an id still ending
   * in `:image`.
   */
  lemma ReplaceRemovesInnerOccurrence()
    ensures EndsWith("a:imageb:image", ImageSuffix)
    ensures ActualModelAsWritten("a:imageb:image") == "ab:image"
    ensures EndsWith(ActualModelAsWritten("a:imageb:image"), ImageSuffix)
    ensures ActualModel("a:imageb:image") == "a:imageb"
  {
    var s := "a:imageb:image";
    assert s[1..7] == ImageSuffix;
    assert OccursAt(s, ImageSuffix, 1);
    assert !OccursAt(s, ImageSuffix, 0) by {
      assert s[0..6][0] == 'a';
    }
    assert IndexOf(s, ImageSuffix) == Some(1);
    assert s[..1] == "a";
    assert s[7..] == "b:image";
    assert s[8..] == ImageSuffix;
  }

  /** When the suffix is the only occurrence, the replacement as written agrees with suffix removal. */
  lemma SingleOccurrenceAgrees(base: string)
    requires !Contains(base + ImageSuffix[..5], ImageSuffix)
    ensures ActualModelAsWritten(base + ImageSuffix) == ActualModel(base + ImageSuffix) == base
  {
    var s := base + ImageSuffix;
    assert s[|base|..|base| + 6] == ImageSuffix;
    assert OccursAt(s, ImageSuffix, |base|);
    forall j | 0 <= j < |base| ensures !OccursAt(s, ImageSuffix, j) {
      if OccursAt(s, ImageSuffix, j) {
        var t := base + ImageSuffix[..5];
        assert s[j..j + 6] == t[j..j + 6];
        assert OccursAt(t, ImageSuffix, j);
        ContainsAt(t, ImageSuffix, j);
        assert false;
      }
    }
    assert IndexOf(s, ImageSuffix) == Some(|base|);
    assert s[..|base|] == base;
    assert s[|base| + 6..] == "";
    assert EndsWith(s, ImageSuffix) by {
      assert s[|s| - 6..] == ImageSuffix;
    }
  }

  // ---------------------------------------------------------------- images API: request

  /** A file made from an image URL, as `convertImageUrlToFile` produces it. */
  datatype ImageFile = ImageFile(name: string, mimeType: string, bytes: seq<int>)

  /** A parameter value; `VNull` stands for `null` and `undefined`. */
  datatype Value = VNull | VBool(b: bool) | VNum(n: int) | VStr(s: string) | VList(items: seq<string>)
                 | VFile(file: ImageFile) | VFiles(files: seq<ImageFile>)

  type Record = map<string, Value>

  /** `convertImageUrlToFile`: the file made from a URL, or the rendering of the error it rejects with. */
  type Converter = string -> Result<ImageFile, string>

  const ConvertErrorPrefix: string := "Failed to convert image URLs to File objects: "

  /** `imageUrls` and `imageUrl` are renamed to `image`; every other key is kept. */
  function RenameKey(k: string): (r: string)
    ensures r == "image" <==> k == "image" || k == "imageUrls" || k == "imageUrl"
    ensures r != "imageUrls" && r != "imageUrl"
  {
    if k == "imageUrls" || k == "imageUrl" then "image" else k
  }

  /** `Object.fromEntries` over the renamed entries: a later entry for the same key wins. */
  function UserInputOf(entries: seq<(string, Value)>): Record {
    if |entries| == 0 then map[]
    else
      var last := entries[|entries| - 1];
      UserInputOf(entries[..|entries| - 1])[RenameKey(last.0) := last.1]
  }

  /** A non-blank string `image` becomes a one-element list. */
  function WrapImage(u: Record): (r: Record)
    ensures forall k :: k != "image" ==> (k in r <==> k in u) && (k in r ==> r[k] == u[k])
    ensures "image" in r <==> "image" in u
  {
    if "image" in u && u["image"].VStr? && Trim(u["image"].s) != "" then u["image" := VList([u["image"].s])] else u
  }

  /** An edit request is one whose `image` is a non-empty list. */
  predicate IsEdit(u: Record) {
    "image" in u && u["image"].VList? && |u["image"].items| > 0
  }

  /**
   * `Promise.all(urls.map(convertImageUrlToFile))`: one file per URL, in order, or the
   * error of the first URL that cannot be converted.
   */
  function ConvertAll(urls: seq<string>, convert: Converter): (r: Result<seq<ImageFile>, string>)
    ensures r.Ok? <==> forall i :: 0 <= i < |urls| ==> convert(urls[i]).Ok?
    ensures r.Ok? ==> |r.value| == |urls| && forall i :: 0 <= i < |urls| ==> convert(urls[i]) == Ok(r.value[i])
    ensures r.Err? ==> exists i :: 0 <= i < |urls| && convert(urls[i]) == Err(r.error)
                                   && forall j :: 0 <= j < i ==> convert(urls[j]).Ok?
  {
    if |urls| == 0 then Ok([])
    else
      match convert(urls[0])
      case Err(e) => Err(e)
      case Ok(f) =>
        var rest := ConvertAll(urls[1..], convert);
        if rest.Err? then
          var i :| 0 <= i < |urls| - 1 && convert(urls[1..][i]) == Err(rest.error)
                   && forall j :: 0 <= j < i ==> convert(urls[1..][j]).Ok?;
          assert convert(urls[i + 1]) == Err(rest.error);
          assert forall j :: 0 <= j < i + 1 ==> convert(urls[j]).Ok? by {
            forall j | 0 <= j < i + 1 ensures convert(urls[j]).Ok? {
              if j > 0 {
                assert urls[j] == urls[1..][j - 1];
              }
            }
          }
          Err(rest.error)
        else
          assert forall i :: 1 <= i < |urls| ==> urls[i] == urls[1..][i - 1];
          Ok([f] + rest.value)
  }

  /** One file is sent as that file, several as an array of files. */
  function FilesValue(files: seq<ImageFile>): Value {
    if |files| == 1 then VFile(files[0]) else VFiles(files)
  }

  /** For an edit, `image` becomes the converted files or the request fails; otherwise `image` is deleted. */
  function AttachFiles(u: Record, convert: Converter): Result<Record, string> {
    if !IsEdit(u) then Ok(u - {"image"})
    else
      match ConvertAll(u["image"].items, convert)
      case Err(e) => Err(ConvertErrorPrefix + e)
      case Ok(files) => Ok(u["image" := FilesValue(files)])
  }

  /** `delete userInput.size` when it is `'auto'`. */
  function DropAutoSize(u: Record): (r: Record)
    ensures forall k :: k != "size" ==> (k in r <==> k in u) && (k in r ==> r[k] == u[k])
    ensures "size" in r <==> "size" in u && u["size"] != VStr("auto")
    ensures "size" in r ==> r["size"] == u["size"]
  {
    if "size" in u && u["size"] == VStr("auto") then u - {"size"} else u
  }

  /** The user input after renaming, wrapping, the file conversion and the two deletions. */
  function UserInputSpec(entries: seq<(string, Value)>, convert: Converter): Result<Record, string> {
    match AttachFiles(WrapImage(UserInputOf(entries)), convert)
    case Err(e) => Err(e)
    case Ok(u) => Ok(DropAutoSize(u))
  }

  /** `{n: 1, response_format: 'b64_json' for DALL-E models, input_fidelity: 'high' for edits}`. */
  function DefaultInput(isDallE: bool, isEdit: bool): (r: Record)
    ensures "n" in r && r["n"] == VNum(1)
    ensures "response_format" in r <==> isDallE
    ensures "response_format" in r ==> r["response_format"] == VStr("b64_json")
    ensures "input_fidelity" in r <==> isEdit
    ensures "input_fidelity" in r ==> r["input_fidelity"] == VStr("high")
    ensures forall k :: k in r ==> k == "n" || k == "response_format" || k == "input_fidelity"
  {
    var base := map["n" := VNum(1)];
    var withFormat := if isDallE then base["response_format" := VStr("b64_json")] else base;
    if isEdit then withFormat["input_fidelity" := VStr("high")] else withFormat
  }

  /** Drops the entries whose value is `null` or `undefined`. */
  function CleanObject(m: Record): (r: Record)
    ensures forall k :: k in r <==> k in m && m[k] != VNull
    ensures forall k :: k in r ==> r[k] == m[k]
  {
    map k | k in m && m[k] != VNull :: m[k]
  }

  /** `{model, ...defaults, ...user}`: a later record's key overrides an earlier one's. */
  function Spread(model: string, defaults: Record, user: Record): (r: Record)
    ensures forall k :: k in r <==> k == "model" || k in defaults || k in user
    ensures forall k :: k in user ==> r[k] == user[k]
    ensures forall k :: k !in user && k in defaults ==> r[k] == defaults[k]
    ensures "model" !in user && "model" !in defaults ==> r["model"] == VStr(model)
  {
    map["model" := VStr(model)] + defaults + user
  }

  /** `cleanObject({model, ...defaultInput, ...userInput})`, or the conversion error. */
  function ImageOptions(model: string, entries: seq<(string, Value)>, convert: Converter): Result<Record, string> {
    match UserInputSpec(entries, convert)
    case Err(e) => Err(e)
    case Ok(u) => Ok(CleanObject(Spread(model, DefaultInput(Contains(model, "dall-e"), IsEdit(WrapImage(UserInputOf(entries)))), u)))
  }

  /** Builds the images-API options the way the service does, changing the user-input record in place. */
  method PrepareImageRequest(model: string, entries: seq<(string, Value)>, convert: Converter)
    returns (options: Result<Record, string>, isEdit: bool)
    ensures options == ImageOptions(model, entries, convert)
    ensures isEdit == IsEdit(WrapImage(UserInputOf(entries)))
  {
    var userInput := CollectUserInput(entries);
    userInput := WrapStringImage(userInput);
    isEdit := "image" in userInput && userInput["image"].VList? && |userInput["image"].items| > 0;
    var attached := AttachImageFiles(userInput, convert);
    if attached.Err? {
      options := Err(attached.error);
      return;
    }
    userInput := DeleteAutoSize(attached.value);
    var defaultInput := BuildDefaultInput(Contains(model, "dall-e"), isEdit);
    options := Ok(CleanObject(Spread(model, defaultInput, userInput)));
  }

  /** `Object.fromEntries` of the renamed entries, one entry at a time. */
  method CollectUserInput(entries: seq<(string, Value)>) returns (userInput: Record)
    ensures userInput == UserInputOf(entries)
  {
    userInput := map[];
    for i := 0 to |entries|
      invariant userInput == UserInputOf(entries[..i])
    {
      assert entries[..i + 1][..i] == entries[..i];
      userInput := userInput[RenameKey(entries[i].0) := entries[i].1];
    }
    assert entries[..|entries|] == entries;
  }

  /** Wraps a non-blank string `image` in a list. */
  method WrapStringImage(fromEntries: Record) returns (userInput: Record)
    ensures userInput == WrapImage(fromEntries)
  {
    userInput := fromEntries;
    if "image" in userInput && userInput["image"].VStr? && Trim(userInput["image"].s) != "" {
      userInput := userInput["image" := VList([userInput["image"].s])];
    }
  }

  /** Replaces the URLs of an edit by their files, one file alone, several as an array; deletes `image` otherwise. */
  method AttachImageFiles(userInput: Record, convert: Converter) returns (r: Result<Record, string>)
    ensures r == AttachFiles(userInput, convert)
  {
    if "image" in userInput && userInput["image"].VList? && |userInput["image"].items| > 0 {
      var imageFiles := ConvertAll(userInput["image"].items, convert);
      if imageFiles.Err? {
        return Err(ConvertErrorPrefix + imageFiles.error);
      }
      var files := imageFiles.value;
      r := Ok(userInput["image" := if |files| == 1 then VFile(files[0]) else VFiles(files)]);
    } else {
      r := Ok(userInput - {"image"});
    }
  }

  /** Deletes `size` when it is `'auto'`. */
  method DeleteAutoSize(fromInput: Record) returns (userInput: Record)
    ensures userInput == DropAutoSize(fromInput)
  {
    userInput := fromInput;
    if "size" in userInput && userInput["size"] == VStr("auto") {
      userInput := userInput - {"size"};
    }
  }

  method BuildDefaultInput(isDallE: bool, isEdit: bool) returns (defaultInput: Record)
    ensures defaultInput == DefaultInput(isDallE, isEdit)
  {
    defaultInput := map["n" := VNum(1)];
    if isDallE {
      defaultInput := defaultInput["response_format" := VStr("b64_json")];
    }
    if isEdit {
      defaultInput := defaultInput["input_fidelity" := VStr("high")];
    }
  }

  /** The keys of the user input are the renamed keys of the entries. */
  lemma {:induction false} UserInputKeys(entries: seq<(string, Value)>)
    ensures forall k :: k in UserInputOf(entries) <==> exists i :: 0 <= i < |entries| && RenameKey(entries[i].0) == k
  {
    if |entries| > 0 {
      var init := entries[..|entries| - 1];
      UserInputKeys(init);
      forall k ensures k in UserInputOf(entries) <==> exists i :: 0 <= i < |entries| && RenameKey(entries[i].0) == k {
        if k in UserInputOf(init) {
          var i :| 0 <= i < |init| && RenameKey(init[i].0) == k;
          assert entries[i] == init[i];
        }
        if exists i :: 0 <= i < |entries| && RenameKey(entries[i].0) == k {
          var i :| 0 <= i < |entries| && RenameKey(entries[i].0) == k;
          if i < |init| {
            assert init[i] == entries[i];
          }
        }
      }
    }
  }

  /** The value under a renamed key is that of the last entry renamed to it. */
  lemma {:induction false} LastEntryWins(entries: seq<(string, Value)>, i: nat)
    requires i < |entries|
    requires forall j :: i < j < |entries| ==> RenameKey(entries[j].0) != RenameKey(entries[i].0)
    ensures RenameKey(entries[i].0) in UserInputOf(entries)
    ensures UserInputOf(entries)[RenameKey(entries[i].0)] == entries[i].1
  {
    if i < |entries| - 1 {
      var init := entries[..|entries| - 1];
      assert init[i] == entries[i];
      forall j | i < j < |init| ensures RenameKey(init[j].0) != RenameKey(init[i].0) {
        assert init[j] == entries[j];
      }
      LastEntryWins(init, i);
    }
  }

  /** What the file conversion does to a user input record. */
  lemma AttachFilesFacts(u: Record, convert: Converter)
    ensures var a := AttachFiles(u, convert);
      (a.Err? <==> IsEdit(u) && ConvertAll(u["image"].items, convert).Err?)
      && (a.Err? ==> a.error == ConvertErrorPrefix + ConvertAll(u["image"].items, convert).error)
      && (a.Ok? ==> ("image" in a.value <==> IsEdit(u))
                    && (IsEdit(u) ==> a.value["image"] == FilesValue(ConvertAll(u["image"].items, convert).value))
                    && forall k :: k != "image" ==> (k in a.value <==> k in u) && (k in a.value ==> a.value[k] == u[k]))
  {
  }

  /** The options are the cleaned spread of the converted user input, or fail with the conversion. */
  lemma ImageOptionsFacts(model: string, entries: seq<(string, Value)>, convert: Converter)
    ensures var w := WrapImage(UserInputOf(entries)); var a := AttachFiles(w, convert);
      var r := ImageOptions(model, entries, convert);
      (r.Err? <==> a.Err?) && (r.Err? ==> r.error == a.error)
      && (r.Ok? ==> r.value == CleanObject(Spread(model, DefaultInput(Contains(model, "dall-e"), IsEdit(w)), DropAutoSize(a.value))))
  {
  }

  /**
   * The request fails exactly when it is an edit and some image URL cannot be converted,
   * with the first such URL's error behind the conversion prefix; otherwise `image` is
   * present exactly for an edit, `size: 'auto'` never reaches the API and no value is null.
   */
  lemma ImageAndSize(model: string, entries: seq<(string, Value)>, convert: Converter)
    ensures var r := ImageOptions(model, entries, convert); var u := WrapImage(UserInputOf(entries));
      (r.Err? <==> IsEdit(u) && exists i :: 0 <= i < |u["image"].items| && convert(u["image"].items[i]).Err?)
      && (r.Err? ==> exists i :: 0 <= i < |u["image"].items|
                       && convert(u["image"].items[i]).Err?
                       && r.error == ConvertErrorPrefix + convert(u["image"].items[i]).error
                       && forall j :: 0 <= j < i ==> convert(u["image"].items[j]).Ok?)
      && (r.Ok? ==>
            ("image" in r.value <==> IsEdit(u))
            && !("size" in r.value && r.value["size"] == VStr("auto"))
            && (forall k :: k in r.value ==> r.value[k] != VNull))
  {
    var u := WrapImage(UserInputOf(entries));
    var r := ImageOptions(model, entries, convert);
    AttachFilesFacts(u, convert);
    ImageOptionsFacts(model, entries, convert);
    if r.Ok? {
      var a := AttachFiles(u, convert).value;
      var d := DefaultInput(Contains(model, "dall-e"), IsEdit(u));
      assert "image" !in d;
      assert "image" in r.value <==> "image" in DropAutoSize(a) && DropAutoSize(a)["image"] != VNull;
      if IsEdit(u) {
        var fs := ConvertAll(u["image"].items, convert).value;
        assert DropAutoSize(a)["image"] == FilesValue(fs);
      }
      assert "size" !in d;
    } else if IsEdit(u) {
      var c := ConvertAll(u["image"].items, convert);
      assert c.Err?;
      var i :| 0 <= i < |u["image"].items| && convert(u["image"].items[i]) == Err(c.error)
               && forall j :: 0 <= j < i ==> convert(u["image"].items[j]).Ok?;
      assert r.error == ConvertErrorPrefix + convert(u["image"].items[i]).error;
    }
  }

  /** An edit sends the file of its one image alone, and the files of several images as an array in their order. */
  lemma EditSendsFiles(model: string, entries: seq<(string, Value)>, convert: Converter)
    requires IsEdit(WrapImage(UserInputOf(entries)))
    ensures var r := ImageOptions(model, entries, convert); var urls := WrapImage(UserInputOf(entries))["image"].items;
      r.Ok? ==>
        "image" in r.value
        && (|urls| == 1 ==> convert(urls[0]).Ok? && r.value["image"] == VFile(convert(urls[0]).value))
        && (|urls| > 1 ==>
              r.value["image"].VFiles? && |r.value["image"].files| == |urls|
              && forall i :: 0 <= i < |urls| ==> convert(urls[i]) == Ok(r.value["image"].files[i]))
  {
    var u := WrapImage(UserInputOf(entries));
    var r := ImageOptions(model, entries, convert);
    AttachFilesFacts(u, convert);
    ImageOptionsFacts(model, entries, convert);
    if r.Ok? {
      var a := AttachFiles(u, convert).value;
      var fs := ConvertAll(u["image"].items, convert).value;
      var d := DefaultInput(Contains(model, "dall-e"), IsEdit(u));
      assert "image" !in d;
      assert DropAutoSize(a)["image"] == FilesValue(fs);
      assert r.value["image"] == FilesValue(fs);
    }
  }

  /** A user value that is not null, other than `image` and `size: 'auto'`, overrides the model and the defaults. */
  lemma UserOverrides(model: string, entries: seq<(string, Value)>, convert: Converter, k: string)
    requires k in UserInputOf(entries) && k != "image" && UserInputOf(entries)[k] != VNull
    requires !(k == "size" && UserInputOf(entries)[k] == VStr("auto"))
    ensures var r := ImageOptions(model, entries, convert);
      r.Ok? ==> k in r.value && r.value[k] == UserInputOf(entries)[k]
  {
  }

  /**
   * Without a user value, `model` is the model id, `n` is 1, `response_format` is `b64_json`
   * exactly for DALL-E models and `input_fidelity` is `high` exactly for edits.
   */
  lemma Defaults(model: string, entries: seq<(string, Value)>, convert: Converter)
    ensures var r := ImageOptions(model, entries, convert); var u := UserInputOf(entries);
      var isEdit := IsEdit(WrapImage(u));
      r.Ok? ==>
        ("n" !in u ==> "n" in r.value && r.value["n"] == VNum(1))
        && ("model" !in u ==> "model" in r.value && r.value["model"] == VStr(model))
        && ("response_format" !in u ==> ("response_format" in r.value <==> Contains(model, "dall-e")))
        && ("input_fidelity" !in u ==> ("input_fidelity" in r.value <==> isEdit))
  {
    var u := UserInputOf(entries);
    var w := WrapImage(u);
    var d := DefaultInput(Contains(model, "dall-e"), IsEdit(w));
    assert "model" !in d;
    if AttachFiles(w, convert).Ok? {
      var a := AttachFiles(w, convert).value;
      assert forall k :: k != "image" && k != "size" && k !in u ==> k !in DropAutoSize(a);
    }
  }

  /** A non-blank string image is converted and sent as that one file; a blank one is dropped. */
  lemma StringImage(model: string, entries: seq<(string, Value)>, convert: Converter, s: string)
    requires "image" in UserInputOf(entries) && UserInputOf(entries)["image"] == VStr(s)
    ensures var r := ImageOptions(model, entries, convert);
      (Trim(s) != "" && convert(s).Ok? ==> r.Ok? && "image" in r.value && r.value["image"] == VFile(convert(s).value))
      && (Trim(s) != "" && convert(s).Err? ==> r == Err(ConvertErrorPrefix + convert(s).error))
      && (Trim(s) == "" ==> r.Ok? && "image" !in r.value)
  {
    var w := WrapImage(UserInputOf(entries));
    AttachFilesFacts(w, convert);
    ImageOptionsFacts(model, entries, convert);
    if Trim(s) != "" {
      assert w["image"].items == [s];
      EditSendsFiles(model, entries, convert);
    } else {
      assert !IsEdit(w);
      var a := AttachFiles(w, convert).value;
      assert "image" !in a;
    }
  }

  // ---------------------------------------------------------------- images API: response

  datatype ImageDatum = ImageDatum(b64Json: Option<string>, url: Option<string>)

  /** The images-API response; `data` entries may be `null`. */
  datatype ImagesResponse = ImagesResponse(data: Option<seq<Option<ImageDatum>>>)

  predicate Truthy(s: Option<string>) {
    s.Some? && s.value != ""
  }

  /** The image URL of the first datum: base64 data as a PNG data URL, else the datum's URL. */
  function ExtractImageUrl(img: Option<ImagesResponse>): Result<string, string> {
    if img.None? || img.value.data.None? || |img.value.data.value| == 0 then
      Err("Invalid image response: missing or empty data array")
    else
      match img.value.data.value[0]
      case None => Err("Invalid image response: first data item is null or undefined")
      case Some(d) =>
        if Truthy(d.b64Json) then Ok(DataUrls.Base64DataUrl("image/png", d.b64Json.value))
        else if Truthy(d.url) then Ok(d.url.value)
        else Err("Invalid image response: missing both b64_json and url fields")
  }

  /**
   * A response without data is an error; base64 data is returned as a PNG data URL that
   * parses back to that data; otherwise the URL is returned; a datum with neither is an error.
   */
  lemma ExtractImageUrlContract(img: Option<ImagesResponse>)
    ensures (img.None? || img.value.data.None? || |img.value.data.value| == 0) ==> ExtractImageUrl(img).Err?
    ensures img.Some? && img.value.data.Some? && |img.value.data.value| > 0 && img.value.data.value[0].Some? ==>
      var d := img.value.data.value[0].value;
      (Truthy(d.b64Json) ==>
         ExtractImageUrl(img).Ok?
         && DataUrls.ParseBase64DataUrl(ExtractImageUrl(img).value) == Some(DataUrls.DataUrlParts("image/png", d.b64Json.value)))
      && (!Truthy(d.b64Json) && Truthy(d.url) ==> ExtractImageUrl(img) == Ok(d.url.value))
      && (!Truthy(d.b64Json) && !Truthy(d.url) ==> ExtractImageUrl(img).Err?)
  {
    if img.Some? && img.value.data.Some? && |img.value.data.value| > 0 && img.value.data.value[0].Some? {
      var d := img.value.data.value[0].value;
      if Truthy(d.b64Json) {
        DataUrls.ParseBuild("image/png", d.b64Json.value);
      }
    }
  }

  // ---------------------------------------------------------------- chat path

  datatype UriType = Base64Uri | UrlUri | UnknownUri

  /** What `parseDataUri` reports about an image URL. */
  datatype ParsedUri = ParsedUri(kind: UriType, base64: Option<string>, mimeType: Option<string>)

  datatype FetchedImage = FetchedImage(base64: string, mimeType: string)

  /** The errors of the chat path; a `TypeError` renders with its name in front. */
  datatype ImageError = TypeError(message: string) | PlainError(message: string)

  function Render(e: ImageError): string {
    match e
    case TypeError(m) => "TypeError: " + m
    case PlainError(m) => "Error: " + m
  }

  /** `processImageUrlForChat`: an image URL as a base64 data URL; a plain URL is fetched first. */
  function ProcessImageUrlForChat(imageUrl: string, parseDataUri: string -> ParsedUri,
                                  fetchImage: string -> Result<FetchedImage, ImageError>): Result<string, ImageError>
  {
    var p := parseDataUri(imageUrl);
    match p.kind
    case Base64Uri =>
      if !Truthy(p.base64) then Err(TypeError("Image URL doesn't contain base64 data"))
      else Ok(DataUrls.Base64DataUrl(if Truthy(p.mimeType) then p.mimeType.value else "image/png", p.base64.value))
    case UrlUri =>
      (match fetchImage(imageUrl)
       case Ok(f) => Ok(DataUrls.Base64DataUrl(f.mimeType, f.base64))
       case Err(e) => Err(e))
    case UnknownUri => Err(TypeError("Currently we don't support image url: " + imageUrl))
  }

  /**
   * A base64 URI keeps its data under its media type, PNG when it has none; base64 data
   * missing is a TypeError; a plain URL is sent as the fetched data; anything else is a TypeError.
   */
  lemma ProcessImageUrlContract(imageUrl: string, parseDataUri: string -> ParsedUri,
                                fetchImage: string -> Result<FetchedImage, ImageError>)
    ensures var p := parseDataUri(imageUrl); var r := ProcessImageUrlForChat(imageUrl, parseDataUri, fetchImage);
      (p.kind == Base64Uri && !Truthy(p.base64) ==> r.Err? && r.error.TypeError?)
      && (p.kind == Base64Uri && Truthy(p.base64) && !Truthy(p.mimeType) ==>
            r.Ok? && DataUrls.ParseBase64DataUrl(r.value) == Some(DataUrls.DataUrlParts("image/png", p.base64.value)))
      && (p.kind == Base64Uri && Truthy(p.base64) && Truthy(p.mimeType) ==>
            r == Ok(DataUrls.Base64DataUrl(p.mimeType.value, p.base64.value)))
      && (p.kind == UrlUri && fetchImage(imageUrl).Ok? ==>
            r == Ok(DataUrls.Base64DataUrl(fetchImage(imageUrl).value.mimeType, fetchImage(imageUrl).value.base64)))
      && (p.kind == UnknownUri ==> r.Err? && r.error.TypeError?)
  {
    var p := parseDataUri(imageUrl);
    if p.kind == Base64Uri && Truthy(p.base64) && !Truthy(p.mimeType) {
      DataUrls.ParseBuild("image/png", p.base64.value);
    }
  }

  datatype ContentPart = TextPart(text: string) | ImageUrlPart(url: string)

  /** The non-streaming chat request with one user message. */
  datatype ChatRequest = ChatRequest(model: string, content: seq<ContentPart>, stream: bool)

  function ChatRequestSpec(model: string, prompt: string, imageUrl: Option<string>, parseDataUri: string -> ParsedUri,
                           fetchImage: string -> Result<FetchedImage, ImageError>): Result<ChatRequest, string>
  {
    if !Truthy(imageUrl) then Ok(ChatRequest(ActualModel(model), [TextPart(prompt)], false))
    else
      match ProcessImageUrlForChat(imageUrl.value, parseDataUri, fetchImage)
      case Err(e) => Err("Failed to process image URL: " + Render(e))
      case Ok(u) => Ok(ChatRequest(ActualModel(model), [TextPart(prompt), ImageUrlPart(u)], false))
  }

  /** Builds the chat request, pushing the image part onto the content when there is an image. */
  method BuildChatRequest(model: string, prompt: string, imageUrl: Option<string>, parseDataUri: string -> ParsedUri,
                          fetchImage: string -> Result<FetchedImage, ImageError>) returns (r: Result<ChatRequest, string>)
    ensures r == ChatRequestSpec(model, prompt, imageUrl, parseDataUri, fetchImage)
  {
    var actualModel := ActualModel(model);
    var content := [TextPart(prompt)];
    if Truthy(imageUrl) {
      var processed := ProcessImageUrlForChat(imageUrl.value, parseDataUri, fetchImage);
      if processed.Err? {
        return Err("Failed to process image URL: " + Render(processed.error));
      }
      content := content + [ImageUrlPart(processed.value)];
      assert content == [TextPart(prompt), ImageUrlPart(processed.value)];
    }
    r := Ok(ChatRequest(actualModel, content, false));
  }

  /**
   * The content is the text prompt, followed by one image part exactly when an image URL
   * is given; the request does not stream; it fails only when the image cannot be processed.
   */
  lemma ChatRequestContract(model: string, prompt: string, imageUrl: Option<string>, parseDataUri: string -> ParsedUri,
                            fetchImage: string -> Result<FetchedImage, ImageError>)
    ensures var r := ChatRequestSpec(model, prompt, imageUrl, parseDataUri, fetchImage);
      (r.Err? <==> Truthy(imageUrl) && ProcessImageUrlForChat(imageUrl.value, parseDataUri, fetchImage).Err?)
      && (r.Ok? ==>
            !r.value.stream && r.value.model == ActualModel(model)
            && |r.value.content| == (if Truthy(imageUrl) then 2 else 1)
            && r.value.content[0] == TextPart(prompt)
            && (Truthy(imageUrl) ==> r.value.content[1] == ImageUrlPart(ProcessImageUrlForChat(imageUrl.value, parseDataUri, fetchImage).value)))
  {
  }

  datatype ChatImage = ChatImage(url: Option<string>)

  datatype ChatMessage = ChatMessage(images: Option<seq<ChatImage>>)

  datatype Choice = Choice(message: Option<ChatMessage>)

  datatype ChatResponse = ChatResponse(choices: seq<Choice>)

  /** The URL of the first image of the first choice's message. */
  function ExtractChatImage(resp: ChatResponse): Result<string, string> {
    if |resp.choices| == 0 || resp.choices[0].message.None? then Err("No message in chat completion response")
    else
      var m := resp.choices[0].message.value;
      if m.images.Some? && |m.images.value| > 0 && Truthy(m.images.value[0].url) then Ok(m.images.value[0].url.value)
      else Err("No image generated in chat completion response")
  }

  /** The result is the first image's URL when it has one; every other response is an error. */
  lemma ExtractChatImageContract(resp: ChatResponse)
    ensures ExtractChatImage(resp).Ok? <==>
      |resp.choices| > 0 && resp.choices[0].message.Some?
      && resp.choices[0].message.value.images.Some? && |resp.choices[0].message.value.images.value| > 0
      && Truthy(resp.choices[0].message.value.images.value[0].url)
    ensures ExtractChatImage(resp).Ok? ==>
      ExtractChatImage(resp).value == resp.choices[0].message.value.images.value[0].url.value
      && ExtractChatImage(resp).value != ""
  {
  }
}
