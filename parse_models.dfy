/**
 * The model-list string of a provider (`+id=name<tokens:cap:cap>`, `-id`, `-all`, separated
 * by `,` or the full-width comma), its parse into added and removed models, the merge of
 * the parse into a provider's default model list, and the list of enabled ids.
 *
 * The type lookup of a model id is a parameter, and so is the default model catalogue.
 * The deep merge of two cards is modelled field by field: a field the second card carries
 * replaces the first card's, and ability flags are combined.
 */
module ParseModels {
  import opened Wrappers
  import opened Strings

  /** The ability flags a model string can switch on; `false` is an absent flag. */
  datatype Abilities = Abilities(
    reasoning: bool, vision: bool, functionCall: bool, files: bool, search: bool, imageOutput: bool)

  const NoAbilities := Abilities(false, false, false, false, false, false)

  datatype AiModelCard = AiModelCard(
    id: string,
    displayName: Option<string>,
    modelType: Option<string>,
    abilities: Abilities,
    contextWindowTokens: Option<int>,
    deploymentName: Option<string>,
    enabled: Option<bool>,
    providerId: Option<string>)

  datatype ModelConfig = ModelConfig(add: seq<AiModelCard>, removeAll: bool, removed: seq<string>)

  /** The model-id-and-provider to model-type lookup. */
  type TypeLookup = (string, string) -> string

  const Separators: set<char> := {',', '\U{FF0C}'}

  // ---------------------------------------------------------------------------
  // One entry

  /** `capability` switched on; an unknown capability changes nothing. */
  function ApplyCapability(a: Abilities, capability: string): Abilities {
    if capability == "reasoning" then a.(reasoning := true)
    else if capability == "vision" then a.(vision := true)
    else if capability == "fc" then a.(functionCall := true)
    else if capability == "file" then a.(files := true)
    else if capability == "search" then a.(search := true)
    else if capability == "imageOutput" then a.(imageOutput := true)
    else a
  }

  function ApplyCapabilities(a: Abilities, capabilities: seq<string>): Abilities {
    if |capabilities| == 0 then a
    else ApplyCapability(ApplyCapabilities(a, capabilities[..|capabilities| - 1]), capabilities[|capabilities| - 1])
  }

  /** The `switch` over the capability names, setting each flag in turn. */
  method ApplyCapabilityList(a: Abilities, capabilities: seq<string>) returns (r: Abilities)
    ensures r == ApplyCapabilities(a, capabilities)
  {
    r := a;
    for i := 0 to |capabilities|
      invariant r == ApplyCapabilities(a, capabilities[..i])
    {
      assert capabilities[..i + 1][..i] == capabilities[..i];
      var capability := capabilities[i];
      if capability == "reasoning" {
        r := r.(reasoning := true);
      } else if capability == "vision" {
        r := r.(vision := true);
      } else if capability == "fc" {
        r := r.(functionCall := true);
      } else if capability == "file" {
        r := r.(files := true);
      } else if capability == "search" {
        r := r.(search := true);
      } else if capability == "imageOutput" {
        r := r.(imageOutput := true);
      }
    }
    assert capabilities[..|capabilities|] == capabilities;
  }

  /** One capability switches on its own flag and no other. */
  lemma CapabilityFlags(a: Abilities, c: string)
    ensures var r := ApplyCapability(a, c);
      (r.reasoning <==> a.reasoning || c == "reasoning")
      && (r.vision <==> a.vision || c == "vision")
      && (r.functionCall <==> a.functionCall || c == "fc")
      && (r.files <==> a.files || c == "file")
      && (r.search <==> a.search || c == "search")
      && (r.imageOutput <==> a.imageOutput || c == "imageOutput")
  {
    CapabilityCases(a, c);
    assert |"reasoning"| == 9 && |"vision"| == 6 && |"fc"| == 2 && |"file"| == 4 && |"search"| == 6 && |"imageOutput"| == 11;
    assert "vision"[0] != "search"[0];
  }

  /** Each known capability name sets its flag; any other name leaves the abilities as they are. */
  lemma CapabilityCases(a: Abilities, c: string)
    ensures c == "reasoning" ==> ApplyCapability(a, c) == a.(reasoning := true)
    ensures c == "vision" ==> ApplyCapability(a, c) == a.(vision := true)
    ensures c == "fc" ==> ApplyCapability(a, c) == a.(functionCall := true)
    ensures c == "file" ==> ApplyCapability(a, c) == a.(files := true)
    ensures c == "search" ==> ApplyCapability(a, c) == a.(search := true)
    ensures c == "imageOutput" ==> ApplyCapability(a, c) == a.(imageOutput := true)
    ensures c != "reasoning" && c != "vision" && c != "fc" && c != "file" && c != "search" && c != "imageOutput" ==>
      ApplyCapability(a, c) == a
  {
    assert |"reasoning"| == 9 && |"vision"| == 6 && |"fc"| == 2 && |"file"| == 4 && |"search"| == 6 && |"imageOutput"| == 11;
    assert "vision"[0] != "search"[0];
  }

  /** Each flag is on exactly when it was on already or its capability is listed. */
  lemma {:induction false} CapabilitiesSetFlags(a: Abilities, capabilities: seq<string>)
    ensures var r := ApplyCapabilities(a, capabilities);
      (r.reasoning <==> a.reasoning || "reasoning" in capabilities)
      && (r.vision <==> a.vision || "vision" in capabilities)
      && (r.functionCall <==> a.functionCall || "fc" in capabilities)
      && (r.files <==> a.files || "file" in capabilities)
      && (r.search <==> a.search || "search" in capabilities)
      && (r.imageOutput <==> a.imageOutput || "imageOutput" in capabilities)
  {
    if |capabilities| > 0 {
      var init := capabilities[..|capabilities| - 1];
      var last := capabilities[|capabilities| - 1];
      CapabilitiesSetFlags(a, init);
      CapabilityFlags(ApplyCapabilities(a, init), last);
      assert capabilities == init + [last];
      assert forall c :: c in capabilities <==> c in init || c == last;
    }
  }

  /** The text after a leading `+` or `-`. */
  function NameConfig(item: string): string {
    if StartsWith(item, "+") || StartsWith(item, "-") then item[1..] else item
  }

  /** `parseInt(s, 10) || undefined`: NaN and 0 give no value. */
  function TokenCount(s: string): Option<int> {
    match ParseInt(s)
    case Some(v) => if v != 0 then Some(v) else None
    case None => None
  }

  /** The id of an entry, and its deployment name when deployment names are on. */
  function IdAndDeployment(idAndDisplayName: string, withDeploymentName: bool): (string, Option<string>) {
    var id := SplitOn(idAndDisplayName, "=")[0];
    if withDeploymentName then
      var pieces := SplitOn(id, "->");
      (pieces[0], if |pieces| > 1 then Some(pieces[1]) else None)
    else (id, None)
  }

  /** What one entry of the string does. */
  datatype Entry = Disable(id: string) | Skip | Add(model: AiModelCard)

  /** The model an entry adds, before its id is deduplicated. */
  function EntryModel(item: string, providerId: string, withDeploymentName: bool, typeOf: TypeLookup): AiModelCard {
    var pieces := SplitOn(NameConfig(item), "<");
    var base := BaseModel(pieces[0], providerId, withDeploymentName, typeOf);
    if |pieces| > 1 then
      var spec := CapabilitySpec(pieces[1]);
      base.(contextWindowTokens := TokenCount(spec[0]), abilities := ApplyCapabilities(NoAbilities, spec[1..]))
    else base
  }

  /** The model named by the text before `<`: no abilities, no token count. */
  function BaseModel(idAndDisplayName: string, providerId: string, withDeploymentName: bool, typeOf: TypeLookup): AiModelCard {
    var names := SplitOn(idAndDisplayName, "=");
    var (id, deploymentName) := IdAndDeployment(idAndDisplayName, withDeploymentName);
    var displayName := if |names| > 1 && names[1] != "" then Some(names[1]) else None;
    AiModelCard(id, displayName, Some(typeOf(id, providerId)), NoAbilities, None,
                if deploymentName.Some? && deploymentName.value != "" then deploymentName else None, None, None)
  }

  /** The token count and the capability names of the text after `<`. */
  function CapabilitySpec(s: string): seq<string> {
    SplitOn(ReplaceFirst(s, ">", ""), ":")
  }

  function ParseEntry(item: string, providerId: string, withDeploymentName: bool, typeOf: TypeLookup): Entry {
    if StartsWith(item, "-") then Disable(IdAndDeployment(SplitOn(NameConfig(item), "<")[0], withDeploymentName).0)
    else if Trim(item) == "" then Skip
    else Add(EntryModel(item, providerId, withDeploymentName, typeOf))
  }

  /** The entry id is the id before `=` (and before `->`), whatever the entry does. */
  lemma ParseEntryCases(item: string, providerId: string, withDeploymentName: bool, typeOf: TypeLookup)
    ensures var id := IdAndDeployment(SplitOn(NameConfig(item), "<")[0], withDeploymentName).0;
      var e := ParseEntry(item, providerId, withDeploymentName, typeOf);
      (StartsWith(item, "-") ==> e == Disable(id))
      && (!StartsWith(item, "-") && |Trim(item)| == 0 ==> e == Skip)
      && (!StartsWith(item, "-") && |Trim(item)| != 0 ==>
            e == Add(EntryModel(item, providerId, withDeploymentName, typeOf)) && e.model.id == id)
  {
  }

  /** `models.findIndex(m => m.id === id)`. */
  function FindIndexById(models: seq<AiModelCard>, id: string): (r: Option<nat>)
    ensures r.Some? ==> r.value < |models| && models[r.value].id == id
    ensures forall j :: 0 <= j < |models| && (r.None? || j < r.value) ==> models[j].id != id
  {
    if |models| == 0 then None
    else if models[0].id == id then Some(0)
    else
      match FindIndexById(models[1..], id)
      case None => None
      case Some(k) => Some(k + 1)
  }

  /** Removing the element at `k` shifts the later elements down by one. */
  lemma SpliceAt<T>(s: seq<T>, k: nat)
    requires k < |s|
    ensures var r := s[..k] + s[k + 1..];
      |r| == |s| - 1 && (forall p :: 0 <= p < k ==> r[p] == s[p]) && (forall p :: k <= p < |r| ==> r[p] == s[p + 1])
  {
  }

  /** The list without the first model of that id (`splice(findIndex, 1)`). */
  function RemoveFirstId(models: seq<AiModelCard>, id: string): seq<AiModelCard> {
    match FindIndexById(models, id)
    case None => models
    case Some(k) => models[..k] + models[k + 1..]
  }

  function Step(c: ModelConfig, e: Entry): ModelConfig {
    match e
    case Disable(id) => c.(removeAll := c.removeAll || id == "all", removed := c.removed + [id])
    case Skip => c
    case Add(m) => c.(add := RemoveFirstId(c.add, m.id) + [m])
  }

  /** The effect of a list of entries, applied in order. */
  function Steps(entries: seq<Entry>): ModelConfig {
    if |entries| == 0 then ModelConfig([], false, [])
    else Step(Steps(entries[..|entries| - 1]), entries[|entries| - 1])
  }

  lemma StepsSnoc(entries: seq<Entry>, i: nat)
    requires i < |entries|
    ensures Steps(entries[..i + 1]) == Step(Steps(entries[..i]), entries[i])
  {
    assert entries[..i + 1][..i] == entries[..i];
  }

  /** The entries of the string, in order. */
  function Items(modelString: string): (r: seq<string>)
    ensures forall i :: 0 <= i < |r| ==> r[i] != ""
    ensures forall i, j :: 0 <= i < |r| && 0 <= j < |r[i]| ==> r[i][j] !in Separators
  {
    SplitOnCharsPieces(modelString, Separators);
    KeptPiecesAvoid(SplitOnChars(modelString, Separators), Separators);
    NonEmpty(SplitOnChars(modelString, Separators))
  }

  /** The kept pieces of a split avoid the separators as the pieces do. */
  lemma KeptPiecesAvoid(parts: seq<string>, seps: set<char>)
    requires forall i, j :: 0 <= i < |parts| && 0 <= j < |parts[i]| ==> parts[i][j] !in seps
    ensures forall i, j :: 0 <= i < |NonEmpty(parts)| && 0 <= j < |NonEmpty(parts)[i]| ==> NonEmpty(parts)[i][j] !in seps
  {
    forall i, j | 0 <= i < |NonEmpty(parts)| && 0 <= j < |NonEmpty(parts)[i]|
      ensures NonEmpty(parts)[i][j] !in seps
    {
      assert NonEmpty(parts)[i] in parts;
      var k :| 0 <= k < |parts| && parts[k] == NonEmpty(parts)[i];
      assert parts[k][j] !in seps;
    }
  }

  function Entries(items: seq<string>, providerId: string, withDeploymentName: bool, typeOf: TypeLookup): (r: seq<Entry>)
    ensures |r| == |items|
    ensures forall i :: 0 <= i < |items| ==> r[i] == ParseEntry(items[i], providerId, withDeploymentName, typeOf)
  {
    seq(|items|, i requires 0 <= i < |items| => ParseEntry(items[i], providerId, withDeploymentName, typeOf))
  }

  function ParseModelStringSpec(providerId: string, modelString: string, withDeploymentName: bool,
                                typeOf: TypeLookup): ModelConfig {
    Steps(Entries(Items(modelString), providerId, withDeploymentName, typeOf))
  }

  /** The model of an added entry: the base model, then its token count and abilities set in place. */
  method BuildEntryModel(item: string, providerId: string, withDeploymentName: bool, typeOf: TypeLookup)
    returns (model: AiModelCard)
    ensures model == EntryModel(item, providerId, withDeploymentName, typeOf)
  {
    var pieces := SplitOn(NameConfig(item), "<");
    model := BaseModel(pieces[0], providerId, withDeploymentName, typeOf);
    var capabilities := pieces[1..];
    if |capabilities| > 0 {
      var spec := CapabilitySpec(capabilities[0]);
      model := model.(contextWindowTokens := TokenCount(spec[0]));
      var abilities := ApplyCapabilityList(model.abilities, spec[1..]);
      model := model.(abilities := abilities);
    }
  }

  /** `models.splice(findIndex(id), 1)` when a model of that id is already listed. */
  method RemoveExisting(models: seq<AiModelCard>, id: string) returns (r: seq<AiModelCard>)
    ensures r == RemoveFirstId(models, id)
  {
    r := models;
    var existingIndex := FindIndexById(models, id);
    if existingIndex.Some? {
      r := models[..existingIndex.value] + models[existingIndex.value + 1..];
    }
  }

  /** `parseModelString`: the loop over the entries, splicing out an earlier model of the same id. */
  method ParseModelString(providerId: string, modelString: string, withDeploymentName: bool, typeOf: TypeLookup)
    returns (r: ModelConfig)
    ensures r == ParseModelStringSpec(providerId, modelString, withDeploymentName, typeOf)
  {
    var models: seq<AiModelCard> := [];
    var removeAll := false;
    var removedModels: seq<string> := [];
    var modelNames := Items(modelString);
    ghost var entries := Entries(modelNames, providerId, withDeploymentName, typeOf);
    for i := 0 to |modelNames|
      invariant ModelConfig(models, removeAll, removedModels) == Steps(entries[..i])
    {
      ghost var before := ModelConfig(models, removeAll, removedModels);
      StepsSnoc(entries, i);
      var item := modelNames[i];
      var disable := StartsWith(item, "-");
      var nameConfig := NameConfig(item);
      var idAndDisplayName := SplitOn(nameConfig, "<")[0];
      var (id, _) := IdAndDeployment(idAndDisplayName, withDeploymentName);
      ParseEntryCases(item, providerId, withDeploymentName, typeOf);
      if disable {
        if id == "all" {
          removeAll := true;
        }
        removedModels := removedModels + [id];
        assert ModelConfig(models, removeAll, removedModels) == Step(before, Disable(id));
        continue;
      }
      if |Trim(item)| == 0 {
        assert entries[i] == Skip;
        continue;
      }
      var model := BuildEntryModel(item, providerId, withDeploymentName, typeOf);
      assert entries[i] == Add(model);
      assert id == model.id;
      models := RemoveExisting(models, id);
      models := models + [model];
    }
    assert entries[..|modelNames|] == entries;
    return ModelConfig(models, removeAll, removedModels);
  }

  // ---------------------------------------------------------------------------
  // Properties of the parse

  /** A `-` entry only removes; it never adds or changes an added model. */
  lemma DisableOnlyRemoves(c: ModelConfig, item: string, providerId: string, withDeploymentName: bool, typeOf: TypeLookup)
    requires StartsWith(item, "-")
    ensures var e := ParseEntry(item, providerId, withDeploymentName, typeOf);
      e.Disable? && Step(c, e).add == c.add && Step(c, e).removed == c.removed + [e.id]
      && (Step(c, e).removeAll <==> c.removeAll || e.id == "all")
  {
  }

  /** An entry that is blank and not a removal is ignored. */
  lemma BlankSkipped(item: string, providerId: string, withDeploymentName: bool, typeOf: TypeLookup)
    requires !StartsWith(item, "-") && forall i :: 0 <= i < |item| ==> IsSpace(item[i])
    ensures ParseEntry(item, providerId, withDeploymentName, typeOf) == Skip
  {
    TrimEmptyIff(item);
  }

  predicate UniqueIds(models: seq<AiModelCard>) {
    forall i, j :: 0 <= i < j < |models| ==> models[i].id != models[j].id
  }

  /** Removing the first model of an id from a list without repeats leaves none of that id. */
  lemma RemoveFirstIdUnique(models: seq<AiModelCard>, id: string)
    requires UniqueIds(models)
    ensures var r := RemoveFirstId(models, id);
      UniqueIds(r) && (forall m :: m in r ==> m.id != id) && (forall m :: m in r ==> m in models)
  {
    match FindIndexById(models, id)
    case None =>
    case Some(k) =>
      var r := models[..k] + models[k + 1..];
      SpliceAt(models, k);
      forall i, j | 0 <= i < j < |r| ensures r[i].id != r[j].id {
        var i' := if i < k then i else i + 1;
        var j' := if j < k then j else j + 1;
        assert r[i] == models[i'] && r[j] == models[j'];
      }
      forall m | m in r ensures m.id != id && m in models {
        var p :| 0 <= p < |r| && r[p] == m;
        var p' := if p < k then p else p + 1;
        assert r[p] == models[p'];
      }
  }

  /** The add list holds at most one model per id. */
  lemma {:induction false} UniqueAddIds(entries: seq<Entry>)
    ensures UniqueIds(Steps(entries).add)
  {
    if |entries| > 0 {
      var prev := Steps(entries[..|entries| - 1]);
      UniqueAddIds(entries[..|entries| - 1]);
      var e := entries[|entries| - 1];
      if e.Add? {
        RemoveFirstIdUnique(prev.add, e.model.id);
        var kept := RemoveFirstId(prev.add, e.model.id);
        var r := kept + [e.model];
        forall i, j | 0 <= i < j < |r| ensures r[i].id != r[j].id {
          if j == |r| - 1 {
            assert r[i] in kept;
          } else {
            assert r[i] == kept[i] && r[j] == kept[j];
          }
        }
      }
    }
  }

  /** A repeated id keeps only the latest entry, at the end of the list. */
  lemma LatestEntryWins(c: ModelConfig, m: AiModelCard)
    requires UniqueIds(c.add)
    ensures var r := Step(c, Add(m)).add;
      r[|r| - 1] == m && forall k :: 0 <= k < |r| - 1 ==> r[k].id != m.id && r[k] in c.add
  {
    RemoveFirstIdUnique(c.add, m.id);
    var kept := RemoveFirstId(c.add, m.id);
    var r := Step(c, Add(m)).add;
    forall k | 0 <= k < |r| - 1 ensures r[k].id != m.id && r[k] in c.add {
      assert r[k] == kept[k];
    }
  }

  /** `removeAll` is set exactly by a `-all` entry. */
  lemma {:induction false} RemoveAllIff(entries: seq<Entry>)
    ensures Steps(entries).removeAll <==> Disable("all") in entries
  {
    if |entries| > 0 {
      var init := entries[..|entries| - 1];
      RemoveAllIff(init);
      assert entries == init + [entries[|entries| - 1]];
    }
  }

  /** The ids of the `-` entries, front to back. */
  function DisabledIds(entries: seq<Entry>): seq<string> {
    if |entries| == 0 then []
    else (if entries[0].Disable? then [entries[0].id] else []) + DisabledIds(entries[1..])
  }

  lemma {:induction false} DisabledIdsSnoc(entries: seq<Entry>, e: Entry)
    ensures DisabledIds(entries + [e]) == DisabledIds(entries) + (if e.Disable? then [e.id] else [])
  {
    if |entries| > 0 {
      assert (entries + [e])[1..] == entries[1..] + [e];
      DisabledIdsSnoc(entries[1..], e);
    }
  }

  /** The removed ids are those of the `-` entries, in order. */
  lemma {:induction false} RemovedFromEntries(entries: seq<Entry>)
    ensures Steps(entries).removed == DisabledIds(entries)
    ensures forall x :: x in Steps(entries).removed <==> Disable(x) in entries
  {
    if |entries| > 0 {
      var init := entries[..|entries| - 1];
      var last := entries[|entries| - 1];
      RemovedFromEntries(init);
      assert entries == init + [last];
      DisabledIdsSnoc(init, last);
    }
  }

  /** Every added model came from an adding entry; `-` entries contribute only to `removed`. */
  lemma {:induction false} AddedFromEntries(entries: seq<Entry>)
    ensures forall m :: m in Steps(entries).add ==> Add(m) in entries
  {
    if |entries| > 0 {
      var init := entries[..|entries| - 1];
      var prev := Steps(init);
      AddedFromEntries(init);
      var e := entries[|entries| - 1];
      assert entries == init + [e];
      if e.Add? {
        var kept := RemoveFirstId(prev.add, e.model.id);
        assert forall m :: m in kept ==> m in prev.add by {
          match FindIndexById(prev.add, e.model.id)
          case None =>
          case Some(k) =>
            SpliceAt(prev.add, k);
            forall m | m in kept ensures m in prev.add {
              var p :| 0 <= p < |kept| && kept[p] == m;
              var p' := if p < k then p else p + 1;
              assert kept[p] == prev.add[p'];
            }
        }
      }
    }
  }

  /** An entry without `<` has no abilities and no token count; its name is the text after `=`. */
  lemma PlainEntry(item: string, providerId: string, typeOf: TypeLookup)
    requires !StartsWith(item, "-") && Trim(item) != ""
    requires !Contains(NameConfig(item), "<")
    ensures var e := ParseEntry(item, providerId, false, typeOf);
      var names := SplitOn(NameConfig(item), "=");
      e.Add? && e.model.id == names[0] && e.model.abilities == NoAbilities && e.model.contextWindowTokens.None?
      && e.model.deploymentName.None? && e.model.modelType == Some(typeOf(names[0], providerId))
      && (e.model.displayName.Some? <==> |names| > 1 && names[1] != "")
  {
    SplitOnAbsent(NameConfig(item), "<");
  }

  /** With deployment names on, `id->dep` gives the id before the arrow and the deployment after it. */
  lemma DeploymentEntry(id: string, dep: string)
    requires '>' !in id && '=' !in id && '>' !in dep && '=' !in dep
    ensures IdAndDeployment(id + "->" + dep, true) == (id, Some(dep))
  {
    var s := id + "->" + dep;
    assert '=' !in s;
    AbsentChar(s, "=", 0);
    SplitOnAbsent(s, "=");
    assert "->"[1] == '>' && '>' !in id + "-";
    AbsentChar(id + "-", "->", 1);
    assert "->"[..|"->"| - 1] == "-";
    SplitAtFirst(id, "->", dep);
    AbsentChar(dep, "->", 1);
    SplitOnAbsent(dep, "->");
  }

  /** The characters an id, a display name or a capability name must avoid to survive the round trip. */
  predicate PlainName(s: string) {
    '<' !in s && '>' !in s && '=' !in s && ':' !in s
  }

  /** The entry text for an id, a display name, a token count and capability names. */
  function RenderEntry(id: string, name: string, tokens: nat, capabilities: seq<string>): string {
    id + "=" + name + "<" + Join([NatToString(tokens)] + capabilities, ":") + ">"
  }

  /** The text before `<` of a rendered entry names the id and the display name. */
  lemma RenderedHead(id: string, name: string, providerId: string, typeOf: TypeLookup)
    requires '=' !in id && '=' !in name
    ensures BaseModel(id + "=" + name, providerId, false, typeOf)
      == AiModelCard(id, if name == "" then None else Some(name), Some(typeOf(id, providerId)), NoAbilities, None, None, None, None)
  {
    AbsentChar(id, "=", 0);
    assert "="[..0] == "" && id + "" == id;
    SplitAtFirst(id, "=", name);
    AbsentChar(name, "=", 0);
    SplitOnAbsent(name, "=");
    assert SplitOn(id + "=" + name, "=") == [id, name];
  }

  /** The text after `<` of a rendered entry has no `<` and gives back the token count and capabilities. */
  lemma RenderedTail(tokens: nat, capabilities: seq<string>)
    requires forall i :: 0 <= i < |capabilities| ==> PlainName(capabilities[i])
    ensures var parts := [NatToString(tokens)] + capabilities;
      var tail := Join(parts, ":") + ">";
      '<' !in tail && CapabilitySpec(tail) == parts
  {
    var parts := [NatToString(tokens)] + capabilities;
    var spec := Join(parts, ":");
    forall i | 0 <= i < |parts| ensures ':' !in parts[i] && '<' !in parts[i] && '>' !in parts[i] {
      if i == 0 {
        assert forall k :: 0 <= k < |NatToString(tokens)| ==> IsDigit(NatToString(tokens)[k]);
      } else {
        assert parts[i] == capabilities[i - 1];
      }
    }
    JoinAvoids(parts, ":", '<');
    JoinAvoids(parts, ":", '>');
    DropClosing(spec);
    SplitOnJoin(parts, ':');
  }

  /** `replace('>', '')` on a text ending in its only `>` drops that `>`. */
  lemma DropClosing(spec: string)
    requires '>' !in spec
    ensures ReplaceFirst(spec + ">", ">", "") == spec
  {
    var tail := spec + ">";
    assert tail[|spec|..|spec| + 1] == ">";
    ContainsAt(tail, ">", |spec|);
    forall k | 0 <= k < |spec| ensures !OccursAt(tail, ">", k) {
      assert tail[k] == spec[k];
    }
    assert IndexOf(tail, ">") == Some(|spec|);
    ReplaceFirstLiteral(tail, ">", "");
  }

  /** A rendered entry is an adding entry that splits once at `<`. */
  lemma RenderedSplit(id: string, name: string, tokens: nat, capabilities: seq<string>)
    requires |id| > 0 && id[0] != '+' && id[0] != '-' && !IsSpace(id[0])
    requires PlainName(id) && PlainName(name)
    requires forall i :: 0 <= i < |capabilities| ==> PlainName(capabilities[i])
    ensures var item := RenderEntry(id, name, tokens, capabilities);
      !StartsWith(item, "-") && Trim(item) != ""
      && SplitOn(NameConfig(item), "<") == [id + "=" + name, Join([NatToString(tokens)] + capabilities, ":") + ">"]
  {
    var item := RenderEntry(id, name, tokens, capabilities);
    var head := id + "=" + name;
    var tail := Join([NatToString(tokens)] + capabilities, ":") + ">";
    assert item == head + "<" + tail;
    PlainFirstChar(item, id[0]);
    RenderedTail(tokens, capabilities);
    SplitOnce(head, tail);
  }

  /** An entry whose first character is no sign and no whitespace adds a model under its whole text. */
  lemma PlainFirstChar(item: string, c: char)
    requires |item| > 0 && item[0] == c && c != '+' && c != '-' && !IsSpace(c)
    ensures !StartsWith(item, "-") && NameConfig(item) == item && Trim(item) != ""
  {
    assert item[..1] == [c];
    TrimEmptyIff(item);
  }

  /** Text without `<` on both sides of one `<` splits into those two texts. */
  lemma SplitOnce(head: string, tail: string)
    requires '<' !in head && '<' !in tail
    ensures SplitOn(head + "<" + tail, "<") == [head, tail]
  {
    AbsentChar(head, "<", 0);
    assert "<"[..0] == "" && head + "" == head;
    SplitAtFirst(head, "<", tail);
    AbsentChar(tail, "<", 0);
    SplitOnAbsent(tail, "<");
  }

  /** Parsing a rendered entry gives back its id, name, token count and abilities. */
  lemma EntryRoundTrip(id: string, name: string, tokens: nat, capabilities: seq<string>,
                       providerId: string, typeOf: TypeLookup)
    requires |id| > 0 && id[0] != '+' && id[0] != '-' && !IsSpace(id[0])
    requires PlainName(id) && PlainName(name) && tokens > 0
    requires forall i :: 0 <= i < |capabilities| ==> PlainName(capabilities[i])
    ensures ParseEntry(RenderEntry(id, name, tokens, capabilities), providerId, false, typeOf)
      == Add(AiModelCard(id, if name == "" then None else Some(name), Some(typeOf(id, providerId)),
                         ApplyCapabilities(NoAbilities, capabilities), Some(tokens), None, None, None))
  {
    var item := RenderEntry(id, name, tokens, capabilities);
    var parts := [NatToString(tokens)] + capabilities;
    RenderedSplit(id, name, tokens, capabilities);
    var pieces := SplitOn(NameConfig(item), "<");
    assert pieces == [id + "=" + name, Join(parts, ":") + ">"];
    RenderedTail(tokens, capabilities);
    assert CapabilitySpec(pieces[1]) == parts;
    RenderedHead(id, name, providerId, typeOf);
    ParseIntOfNat(tokens);
    assert TokenCount(parts[0]) == Some(tokens);
    assert parts[1..] == capabilities;
    assert ParseEntry(item, providerId, false, typeOf) == Add(EntryModel(item, providerId, false, typeOf));
  }

  // ---------------------------------------------------------------------------
  // Merging the parse into a default list

  /** The first truthy of two optional names, else the fallback. */
  function NameOr(a: Option<string>, b: Option<string>, fallback: string): string {
    if a.Some? && a.value != "" then a.value else if b.Some? && b.value != "" then b.value else fallback
  }

  function OrAbilities(a: Abilities, b: Abilities): Abilities {
    Abilities(a.reasoning || b.reasoning, a.vision || b.vision, a.functionCall || b.functionCall,
              a.files || b.files, a.search || b.search, a.imageOutput || b.imageOutput)
  }

  /** The deep merge of `src` into `dest`: present fields of `src` win, ability flags combine. */
  function Merge(dest: AiModelCard, src: AiModelCard): AiModelCard {
    AiModelCard(
      src.id,
      src.displayName.OrElse(dest.displayName),
      src.modelType.OrElse(dest.modelType),
      OrAbilities(dest.abilities, src.abilities),
      src.contextWindowTokens.OrElse(dest.contextWindowTokens),
      src.deploymentName.OrElse(dest.deploymentName),
      src.enabled.OrElse(dest.enabled),
      src.providerId.OrElse(dest.providerId))
  }

  /** `catalogue.find(m => m.id === id)`. */
  function FindById(catalogue: seq<AiModelCard>, id: string): (r: Option<AiModelCard>)
    ensures r.Some? ==> r.value in catalogue && r.value.id == id
    ensures r.None? ==> forall m :: m in catalogue ==> m.id != id
  {
    match FindIndexById(catalogue, id)
    case None => None
    case Some(k) => Some(catalogue[k])
  }

  /** `catalogue.find(m => m.id === id && m.providerId === providerId)`. */
  function FindByIdAndProvider(catalogue: seq<AiModelCard>, id: string, providerId: string): (r: Option<AiModelCard>)
    ensures r.Some? ==> r.value in catalogue && r.value.id == id && r.value.providerId == Some(providerId)
  {
    if |catalogue| == 0 then None
    else if catalogue[0].id == id && catalogue[0].providerId == Some(providerId) then Some(catalogue[0])
    else FindByIdAndProvider(catalogue[1..], id, providerId)
  }

  /** The catalogue entry for the id under this provider, else under any provider, relabelled. */
  function KnownModel(catalogue: seq<AiModelCard>, id: string, providerId: string): (r: Option<AiModelCard>)
    ensures r.Some? ==> r.value.id == id && r.value.providerId == Some(providerId)
  {
    match FindByIdAndProvider(catalogue, id, providerId)
    case Some(k) => Some(k)
    case None =>
      match FindById(catalogue, id)
      case Some(k) => Some(k.(providerId := Some(providerId)))
      case None => None
  }

  /** The model to add, with its deployment name filled in when deployment names are on. */
  function WithDeployment(toAdd: AiModelCard, known: Option<AiModelCard>, withDeploymentName: bool): AiModelCard {
    if withDeploymentName && !(toAdd.deploymentName.Some? && toAdd.deploymentName.value != "") then
      toAdd.(deploymentName := Some(if known.Some? && known.value.deploymentName.Some? then known.value.deploymentName.value
                                    else toAdd.id))
    else toAdd
  }

  /** One added model: update the listed known model, append a merged known model, or append a custom model. */
  function AddOne(draft: seq<AiModelCard>, toAdd: AiModelCard, known: Option<AiModelCard>, withDeploymentName: bool): seq<AiModelCard> {
    var m := WithDeployment(toAdd, known, withDeploymentName);
    match known
    case Some(k) =>
      (match FindIndexById(draft, m.id)
       case Some(i) =>
         draft[i := Merge(draft[i], m.(displayName := Some(NameOr(m.displayName, draft[i].displayName, draft[i].id)),
                                       enabled := Some(true)))]
       case None =>
         draft + [Merge(k, m.(displayName := Some(NameOr(m.displayName, k.displayName, k.id)), enabled := Some(true)))])
    case None =>
      draft + [m.(displayName := Some(NameOr(m.displayName, None, m.id)), enabled := Some(true))]
  }

  function AddAll(draft: seq<AiModelCard>, adds: seq<AiModelCard>, catalogue: seq<AiModelCard>, providerId: string,
                  withDeploymentName: bool): seq<AiModelCard>
  {
    if |adds| == 0 then draft
    else
      var last := adds[|adds| - 1];
      AddOne(AddAll(draft, adds[..|adds| - 1], catalogue, providerId, withDeploymentName), last,
             KnownModel(catalogue, last.id, providerId), withDeploymentName)
  }

  /** The default models left after the removals. */
  function Base(config: ModelConfig, defaultModels: seq<AiModelCard>): seq<AiModelCard> {
    if config.removeAll then [] else Without(defaultModels, config.removed)
  }

  function Without(models: seq<AiModelCard>, removed: seq<string>): (r: seq<AiModelCard>)
    ensures forall m :: m in r <==> m in models && m.id !in removed
  {
    if |models| == 0 then []
    else if models[0].id in removed then Without(models[1..], removed)
    else [models[0]] + Without(models[1..], removed)
  }

  function TransformSpec(modelString: string, defaultModels: seq<AiModelCard>, providerId: string,
                         withDeploymentName: bool, catalogue: seq<AiModelCard>, typeOf: TypeLookup): Option<seq<AiModelCard>>
  {
    if modelString == "" then None
    else
      var config := ParseModelStringSpec(providerId, modelString, withDeploymentName, typeOf);
      Some(AddAll(Base(config, defaultModels), config.add, catalogue, providerId, withDeploymentName))
  }

  /** One added model: merged into its entry of the draft when the catalogue knows it and the draft lists it, else appended. */
  method AddModel(draft: seq<AiModelCard>, toAdd: AiModelCard, knownModel: Option<AiModelCard>, withDeploymentName: bool)
    returns (r: seq<AiModelCard>)
    ensures r == AddOne(draft, toAdd, knownModel, withDeploymentName)
  {
    var toAddModel := WithDeployment(toAdd, knownModel, withDeploymentName);
    if knownModel.Some? {
      var index := FindIndexById(draft, toAddModel.id);
      if index.Some? {
        var modelInList := draft[index.value];
        r := draft[index.value := Merge(modelInList, toAddModel.(
          displayName := Some(NameOr(toAddModel.displayName, modelInList.displayName, modelInList.id)),
          enabled := Some(true)))];
      } else {
        var k := knownModel.value;
        r := draft + [Merge(k, toAddModel.(displayName := Some(NameOr(toAddModel.displayName, k.displayName, k.id)),
                                           enabled := Some(true)))];
      }
    } else {
      r := draft + [toAddModel.(displayName := Some(NameOr(toAddModel.displayName, None, toAddModel.id)),
                                enabled := Some(true))];
    }
  }

  /** `transformToAiModelList`: the draft list updated by index or appended to, model by model. */
  method TransformToAiModelList(modelString: string, defaultModels: seq<AiModelCard>, providerId: string,
                                withDeploymentName: bool, catalogue: seq<AiModelCard>, typeOf: TypeLookup)
    returns (r: Option<seq<AiModelCard>>)
    ensures r == TransformSpec(modelString, defaultModels, providerId, withDeploymentName, catalogue, typeOf)
  {
    if modelString == "" {
      return None;
    }
    var modelConfig := ParseModelString(providerId, modelString, withDeploymentName, typeOf);
    var chatModels := if modelConfig.removeAll then [] else defaultModels;
    if !modelConfig.removeAll {
      chatModels := Without(chatModels, modelConfig.removed);
    }
    assert chatModels == Base(modelConfig, defaultModels);
    var draft := chatModels;
    var adds := modelConfig.add;
    for i := 0 to |adds|
      invariant draft == AddAll(chatModels, adds[..i], catalogue, providerId, withDeploymentName)
    {
      assert adds[..i + 1][..i] == adds[..i];
      var knownModel := KnownModel(catalogue, adds[i].id, providerId);
      draft := AddModel(draft, adds[i], knownModel, withDeploymentName);
    }
    assert adds[..|adds|] == adds;
    return Some(draft);
  }

  lemma AddOnePreserves(draft: seq<AiModelCard>, toAdd: AiModelCard, known: Option<AiModelCard>, withDeploymentName: bool)
    requires known.Some? ==> known.value.id == toAdd.id
    ensures var r := AddOne(draft, toAdd, known, withDeploymentName);
      (exists k :: 0 <= k < |r| && r[k].id == toAdd.id && r[k].enabled == Some(true))
      && (forall k :: 0 <= k < |draft| && draft[k].id != toAdd.id ==> k < |r| && r[k] == draft[k])
      && (forall k :: |draft| <= k < |r| ==> r[k].id == toAdd.id)
      && |draft| <= |r| <= |draft| + 1
  {
    var r := AddOne(draft, toAdd, known, withDeploymentName);
    var m := WithDeployment(toAdd, known, withDeploymentName);
    if known.Some? && FindIndexById(draft, m.id).Some? {
      var i := FindIndexById(draft, m.id).value;
      assert r[i].id == toAdd.id && r[i].enabled == Some(true);
    } else {
      assert r[|r| - 1].id == toAdd.id && r[|r| - 1].enabled == Some(true);
    }
  }

  predicate AllEnabled(r: seq<AiModelCard>, adds: seq<AiModelCard>) {
    forall j :: 0 <= j < |adds| ==> exists k :: 0 <= k < |r| && r[k].id == adds[j].id && r[k].enabled == Some(true)
  }

  /** Every added model ends up in the list, enabled. */
  lemma {:induction false} AddedAreEnabled(draft: seq<AiModelCard>, adds: seq<AiModelCard>, catalogue: seq<AiModelCard>,
                                           providerId: string, withDeploymentName: bool)
    ensures AllEnabled(AddAll(draft, adds, catalogue, providerId, withDeploymentName), adds)
  {
    if |adds| > 0 {
      var init := adds[..|adds| - 1];
      var last := adds[|adds| - 1];
      var prev := AddAll(draft, init, catalogue, providerId, withDeploymentName);
      AddedAreEnabled(draft, init, catalogue, providerId, withDeploymentName);
      AddOnePreserves(prev, last, KnownModel(catalogue, last.id, providerId), withDeploymentName);
      var r := AddAll(draft, adds, catalogue, providerId, withDeploymentName);
      forall j | 0 <= j < |adds| ensures exists k :: 0 <= k < |r| && r[k].id == adds[j].id && r[k].enabled == Some(true) {
        if adds[j].id != last.id {
          assert adds[j] == init[j];
          var k :| 0 <= k < |prev| && prev[k].id == init[j].id && prev[k].enabled == Some(true);
          assert r[k] == prev[k];
        } else {
          var k :| 0 <= k < |r| && r[k].id == last.id && r[k].enabled == Some(true);
          assert r[k].id == adds[j].id;
        }
      }
    }
  }

  predicate FromBaseOrAdds(r: seq<AiModelCard>, draft: seq<AiModelCard>, adds: seq<AiModelCard>) {
    forall k :: 0 <= k < |r| ==> r[k] in draft || exists j :: 0 <= j < |adds| && adds[j].id == r[k].id
  }

  /** Each entry of the list is an untouched base model or carries the id of an added model. */
  lemma {:induction false} EntriesFromBaseOrAdds(draft: seq<AiModelCard>, adds: seq<AiModelCard>, catalogue: seq<AiModelCard>,
                                                 providerId: string, withDeploymentName: bool)
    ensures FromBaseOrAdds(AddAll(draft, adds, catalogue, providerId, withDeploymentName), draft, adds)
  {
    if |adds| > 0 {
      var init := adds[..|adds| - 1];
      var last := adds[|adds| - 1];
      var prev := AddAll(draft, init, catalogue, providerId, withDeploymentName);
      EntriesFromBaseOrAdds(draft, init, catalogue, providerId, withDeploymentName);
      AddOnePreserves(prev, last, KnownModel(catalogue, last.id, providerId), withDeploymentName);
      var r := AddAll(draft, adds, catalogue, providerId, withDeploymentName);
      forall k | 0 <= k < |r| ensures r[k] in draft || exists j :: 0 <= j < |adds| && adds[j].id == r[k].id {
        if r[k].id != last.id {
          assert k < |prev| && r[k] == prev[k];
          assert prev[k] in draft || exists j :: 0 <= j < |init| && init[j].id == prev[k].id;
          if !(prev[k] in draft) {
            var j :| 0 <= j < |init| && init[j].id == prev[k].id;
            assert adds[j] == init[j];
          }
        } else {
          assert adds[|adds| - 1].id == r[k].id;
        }
      }
    }
  }

  predicate NotAdded(id: string, adds: seq<AiModelCard>) {
    forall j :: 0 <= j < |adds| ==> adds[j].id != id
  }

  /** The adds only grow the draft, and a draft entry whose id no add carries stays where it is, unchanged. */
  lemma {:induction false} UntouchedStay(draft: seq<AiModelCard>, adds: seq<AiModelCard>, catalogue: seq<AiModelCard>,
                                         providerId: string, withDeploymentName: bool)
    ensures var r := AddAll(draft, adds, catalogue, providerId, withDeploymentName);
      |draft| <= |r| && forall k :: 0 <= k < |draft| && NotAdded(draft[k].id, adds) ==> r[k] == draft[k]
  {
    if |adds| > 0 {
      var init := adds[..|adds| - 1];
      var last := adds[|adds| - 1];
      var prev := AddAll(draft, init, catalogue, providerId, withDeploymentName);
      UntouchedStay(draft, init, catalogue, providerId, withDeploymentName);
      AddOnePreserves(prev, last, KnownModel(catalogue, last.id, providerId), withDeploymentName);
      var r := AddAll(draft, adds, catalogue, providerId, withDeploymentName);
      forall k | 0 <= k < |draft| && NotAdded(draft[k].id, adds) ensures r[k] == draft[k] {
        assert NotAdded(draft[k].id, init) by {
          forall j | 0 <= j < |init| ensures init[j].id != draft[k].id {
            assert init[j] == adds[j];
          }
        }
        assert last.id != draft[k].id;
      }
    }
  }

  /**
   * An empty string gives no list. Otherwise every added model is in the result and
   * enabled, and a removed id (all ids, with `-all`) stays out unless it is added again.
   */
  lemma TransformContract(modelString: string, defaultModels: seq<AiModelCard>, providerId: string,
                          withDeploymentName: bool, catalogue: seq<AiModelCard>, typeOf: TypeLookup)
    ensures modelString == "" <==> TransformSpec(modelString, defaultModels, providerId, withDeploymentName, catalogue, typeOf).None?
    ensures modelString != "" ==>
      var config := ParseModelStringSpec(providerId, modelString, withDeploymentName, typeOf);
      var r := TransformSpec(modelString, defaultModels, providerId, withDeploymentName, catalogue, typeOf).value;
      (forall m :: m in config.add ==> exists k :: 0 <= k < |r| && r[k].id == m.id && r[k].enabled == Some(true))
      && (forall k :: 0 <= k < |r| && (config.removeAll || r[k].id in config.removed) ==>
            exists j :: 0 <= j < |config.add| && config.add[j].id == r[k].id)
  {
    if modelString != "" {
      var config := ParseModelStringSpec(providerId, modelString, withDeploymentName, typeOf);
      var base := Base(config, defaultModels);
      AddedAreEnabled(base, config.add, catalogue, providerId, withDeploymentName);
      EntriesFromBaseOrAdds(base, config.add, catalogue, providerId, withDeploymentName);
      var r := AddAll(base, config.add, catalogue, providerId, withDeploymentName);
      forall m | m in config.add ensures exists k :: 0 <= k < |r| && r[k].id == m.id && r[k].enabled == Some(true) {
        var j :| 0 <= j < |config.add| && config.add[j] == m;
      }
    }
  }

  /**
   * The base (no models with `-all`, else the default models without the removed ids)
   * opens the result: each base model whose id no add carries keeps its place unchanged,
   * so a default model that is neither removed nor added again stays in the list.
   */
  lemma TransformKeepsBase(modelString: string, defaultModels: seq<AiModelCard>, providerId: string,
                           withDeploymentName: bool, catalogue: seq<AiModelCard>, typeOf: TypeLookup)
    ensures modelString != "" ==>
      var config := ParseModelStringSpec(providerId, modelString, withDeploymentName, typeOf);
      var r := TransformSpec(modelString, defaultModels, providerId, withDeploymentName, catalogue, typeOf).value;
      var base := Base(config, defaultModels);
      (config.removeAll ==> base == [])
      && (!config.removeAll ==> forall m :: m in base <==> m in defaultModels && m.id !in config.removed)
      && |base| <= |r|
      && (forall k :: 0 <= k < |base| && NotAdded(base[k].id, config.add) ==> r[k] == base[k])
      && (forall m :: m in defaultModels && !config.removeAll && m.id !in config.removed && NotAdded(m.id, config.add) ==> m in r)
  {
    if modelString != "" {
      var config := ParseModelStringSpec(providerId, modelString, withDeploymentName, typeOf);
      var base := Base(config, defaultModels);
      UntouchedStay(base, config.add, catalogue, providerId, withDeploymentName);
      var r := AddAll(base, config.add, catalogue, providerId, withDeploymentName);
      forall m | m in defaultModels && !config.removeAll && m.id !in config.removed && NotAdded(m.id, config.add)
        ensures m in r
      {
        assert m in base;
        var k :| 0 <= k < |base| && base[k] == m;
        assert r[k] == m;
      }
    }
  }

  /** A known model already listed is updated where it is; it is neither moved nor duplicated. */
  lemma KnownListedUpdatedInPlace(draft: seq<AiModelCard>, toAdd: AiModelCard, known: AiModelCard, withDeploymentName: bool, i: nat)
    requires known.id == toAdd.id
    requires i < |draft| && draft[i].id == toAdd.id && forall j :: 0 <= j < i ==> draft[j].id != toAdd.id
    ensures var r := AddOne(draft, toAdd, Some(known), withDeploymentName);
      |r| == |draft| && r[i].enabled == Some(true)
      && r[i].displayName == Some(NameOr(toAdd.displayName, draft[i].displayName, draft[i].id))
      && forall j :: 0 <= j < |draft| && j != i ==> r[j] == draft[j]
  {
    assert FindIndexById(draft, toAdd.id) == Some(i);
  }

  /** An unknown model is appended, enabled, named after its id when it has no name. */
  lemma UnknownAppended(draft: seq<AiModelCard>, toAdd: AiModelCard)
    requires toAdd.displayName.None?
    ensures AddOne(draft, toAdd, None, false) == draft + [toAdd.(displayName := Some(toAdd.id), enabled := Some(true))]
  {
  }

  /** With deployment names on, a model without one gets the known model's, else its own id. */
  lemma DeploymentDefault(toAdd: AiModelCard, known: Option<AiModelCard>)
    requires toAdd.deploymentName.None?
    ensures WithDeployment(toAdd, known, true).deploymentName
      == Some(if known.Some? && known.value.deploymentName.Some? then known.value.deploymentName.value else toAdd.id)
  {
  }

  /** `extractEnabledModels`: the ids of the added models, or nothing when there are none. */
  function ExtractEnabledModels(providerId: string, modelString: string, withDeploymentName: bool, typeOf: TypeLookup)
    : (r: Option<seq<string>>)
    ensures var add := ParseModelStringSpec(providerId, modelString, withDeploymentName, typeOf).add;
      (r.None? <==> |add| == 0)
      && (r.Some? ==> |r.value| == |add| && forall i :: 0 <= i < |add| ==> r.value[i] == add[i].id)
  {
    var add := ParseModelStringSpec(providerId, modelString, withDeploymentName, typeOf).add;
    var list := seq(|add|, i requires 0 <= i < |add| => add[i].id);
    if |list| == 0 then None else Some(list)
  }

  /** The enabled ids are distinct. */
  lemma EnabledIdsDistinct(providerId: string, modelString: string, withDeploymentName: bool, typeOf: TypeLookup)
    requires ExtractEnabledModels(providerId, modelString, withDeploymentName, typeOf).Some?
    ensures var ids := ExtractEnabledModels(providerId, modelString, withDeploymentName, typeOf).value;
      forall i, j :: 0 <= i < j < |ids| ==> ids[i] != ids[j]
  {
    UniqueAddIds(Entries(Items(modelString), providerId, withDeploymentName, typeOf));
  }
}
