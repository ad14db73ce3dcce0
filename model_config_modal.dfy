/**
 * The council-selection dialog: the draft list of selected models with their system prompts,
 * the catalog search, and what is handed on when the user saves.
 */
module ModelConfigModal {
  import opened Wrappers
  import opened JsString
  import opened Seqs

  /** A selected council member: a config id, the model id, and its system prompt. */
  datatype ModelConfig = ModelConfig(id: string, model: string, systemPrompt: string)

  /** A catalog entry as the dialog lists it. */
  datatype ModelOption = ModelOption(id: string, name: string, description: Option<string>)

  /** What Save hands to its caller. */
  datatype SaveData = SaveData(configs: seq<ModelConfig>, chairmanModel: Option<string>, apiKey: string)

  /** `draftConfigs.some(cfg => cfg.model === modelId)` */
  predicate IsSelected(configs: seq<ModelConfig>, modelId: string) {
    exists i :: 0 <= i < |configs| && configs[i].model == modelId
  }

  /** A fresh entry for a model that was just selected. */
  function NewConfig(modelId: string): ModelConfig {
    ModelConfig(modelId, modelId, "")
  }

  /**
   * Clicking a catalog entry: a selected model is removed (every entry with that model id),
   * an unselected one is appended with an empty prompt.
   */
  function ToggleModel(configs: seq<ModelConfig>, modelId: string): (r: seq<ModelConfig>)
    ensures IsSelected(r, modelId) <==> !IsSelected(configs, modelId)
    ensures !IsSelected(configs, modelId) ==> r == configs + [NewConfig(modelId)]
    ensures IsSelected(configs, modelId) ==>
      forall k :: 0 <= k < |r| ==> r[k] in configs && r[k].model != modelId
  {
    if IsSelected(configs, modelId) then
      Filter((cfg: ModelConfig) => cfg.model != modelId, configs)
    else
      var r := configs + [NewConfig(modelId)];
      assert r[|configs|].model == modelId;
      r
  }

  /** Toggling the selection of another model does not change whether this one is selected. */
  lemma ToggleOther(configs: seq<ModelConfig>, modelId: string, other: string)
    requires other != modelId
    ensures IsSelected(ToggleModel(configs, modelId), other) <==> IsSelected(configs, other)
  {
    var r := ToggleModel(configs, modelId);
    var p := (cfg: ModelConfig) => cfg.model != modelId;
    if IsSelected(configs, modelId) {
      if IsSelected(configs, other) {
        var i :| 0 <= i < |configs| && configs[i].model == other;
        FilterMember(p, configs, configs[i]);
        var k :| 0 <= k < |r| && r[k] == configs[i];
      }
      if IsSelected(r, other) {
        var k :| 0 <= k < |r| && r[k].model == other;
        var i :| 0 <= i < |configs| && configs[i] == r[k];
      }
    } else {
      if IsSelected(r, other) {
        var k :| 0 <= k < |r| && r[k].model == other;
        assert k < |configs| && configs[k] == r[k];
      }
      if IsSelected(configs, other) {
        var i :| 0 <= i < |configs| && configs[i].model == other;
        assert r[i] == configs[i];
      }
    }
  }

  /** Selecting an unselected model and deselecting it again gives back the original list. */
  lemma ToggleTwice(configs: seq<ModelConfig>, modelId: string)
    requires !IsSelected(configs, modelId)
    ensures ToggleModel(ToggleModel(configs, modelId), modelId) == configs
  {
    var p := (cfg: ModelConfig) => cfg.model != modelId;
    FilterAppend(p, configs, [NewConfig(modelId)]);
    FilterKeepsAll(p, configs);
    assert Filter(p, [NewConfig(modelId)]) == [];
  }

  /** Deselecting keeps every other entry, in its original order. */
  lemma DeselectKeepsOthers(configs: seq<ModelConfig>, modelId: string) returns (idx: seq<nat>)
    requires IsSelected(configs, modelId)
    ensures var r := ToggleModel(configs, modelId);
      |idx| == |r| && Increasing(idx) &&
      (forall k :: 0 <= k < |idx| ==> idx[k] < |configs| && r[k] == configs[idx[k]]) &&
      (forall j :: 0 <= j < |configs| && configs[j].model != modelId ==> j in idx)
  {
    idx := FilterOrder((cfg: ModelConfig) => cfg.model != modelId, configs);
  }

  /** Editing the prompt of one model: every entry for that model gets the new prompt. */
  function PromptChange(configs: seq<ModelConfig>, modelId: string, value: string)
    : (r: seq<ModelConfig>)
    ensures |r| == |configs|
    ensures forall i :: 0 <= i < |r| ==>
      r[i].id == configs[i].id && r[i].model == configs[i].model &&
      r[i].systemPrompt == (if configs[i].model == modelId then value else configs[i].systemPrompt)
  {
    seq(|configs|, i requires 0 <= i < |configs| =>
      if configs[i].model == modelId then configs[i].(systemPrompt := value) else configs[i])
  }

  /** A prompt change keeps the selection and is idempotent; other models' entries keep theirs. */
  lemma PromptChangeFacts(configs: seq<ModelConfig>, modelId: string, value: string, other: string)
    ensures IsSelected(PromptChange(configs, modelId, value), other) <==> IsSelected(configs, other)
    ensures PromptChange(PromptChange(configs, modelId, value), modelId, value)
      == PromptChange(configs, modelId, value)
  {
    var r := PromptChange(configs, modelId, value);
    if IsSelected(configs, other) {
      var i :| 0 <= i < |configs| && configs[i].model == other;
      assert r[i].model == other;
    }
    if IsSelected(r, other) {
      var i :| 0 <= i < |r| && r[i].model == other;
      assert configs[i].model == other;
    }
  }

  /** Every prompt trimmed; ids and models kept. */
  function Sanitize(configs: seq<ModelConfig>): (r: seq<ModelConfig>)
    ensures |r| == |configs|
    ensures forall i :: 0 <= i < |r| ==>
      r[i].id == configs[i].id && r[i].model == configs[i].model &&
      r[i].systemPrompt == Trim(configs[i].systemPrompt)
    ensures forall i :: 0 <= i < |r| ==>
      IsTrimmed(r[i].systemPrompt) && |r[i].systemPrompt| <= |configs[i].systemPrompt|
  {
    seq(|configs|, i requires 0 <= i < |configs| =>
      configs[i].(systemPrompt := Trim(configs[i].systemPrompt)))
  }

  /**
   * Save: the prompts, the chairman and the key are trimmed; a chairman that is blank after
   * trimming becomes "no chairman".
   */
  function Save(draftConfigs: seq<ModelConfig>, draftChairman: string, draftApiKey: string)
    : (d: SaveData)
    ensures d.configs == Sanitize(draftConfigs)
    ensures d.chairmanModel.None? <==> AllWhitespace(draftChairman)
    ensures d.chairmanModel.Some? ==>
      d.chairmanModel.value == Trim(draftChairman) && d.chairmanModel.value != [] && IsTrimmed(d.chairmanModel.value)
    ensures d.apiKey == Trim(draftApiKey)
    ensures IsTrimmed(d.apiKey) && (d.apiKey == [] <==> AllWhitespace(draftApiKey))
  {
    var chairman := Trim(draftChairman);
    var key := Trim(draftApiKey);
    SaveData(Sanitize(draftConfigs), if chairman != [] then Some(chairman) else None, key)
  }

  /** Saving what was saved (with no chairman read back as the empty draft) changes nothing. */
  lemma SaveIdempotent(draftConfigs: seq<ModelConfig>, draftChairman: string, draftApiKey: string)
    ensures var d := Save(draftConfigs, draftChairman, draftApiKey);
      Save(d.configs, if d.chairmanModel.Some? then d.chairmanModel.value else "", d.apiKey) == d
  {
    var d := Save(draftConfigs, draftChairman, draftApiKey);
    forall i | 0 <= i < |d.configs|
      ensures Trim(d.configs[i].systemPrompt) == d.configs[i].systemPrompt
    {
      TrimTrimmed(d.configs[i].systemPrompt);
    }
    assert Sanitize(d.configs) == d.configs;
    if d.chairmanModel.Some? {
      TrimTrimmed(d.chairmanModel.value);
    }
    TrimTrimmed(d.apiKey);
  }

  /** `draftConfigs.length === 0 || !draftApiKey.trim()` */
  function DisableSave(draftConfigs: seq<ModelConfig>, draftApiKey: string): (r: bool)
    ensures r <==> |draftConfigs| == 0 || AllWhitespace(draftApiKey)
  {
    |draftConfigs| == 0 || Trim(draftApiKey) == []
  }

  /** An enabled Save hands on at least one model and a non-empty key. */
  lemma EnabledSaveHasKey(draftConfigs: seq<ModelConfig>, draftChairman: string, draftApiKey: string)
    requires !DisableSave(draftConfigs, draftApiKey)
    ensures var d := Save(draftConfigs, draftChairman, draftApiKey);
      |d.configs| > 0 && d.apiKey != []
  {
  }

  /** On leaving the key field: the trimmed key is reported only when it differs from the stored one. */
  function ApiKeyOnBlur(draftApiKey: string, apiKey: string): (r: Option<string>)
    ensures r.Some? <==> Trim(draftApiKey) != apiKey
    ensures r.Some? ==> r.value == Trim(draftApiKey) && IsTrimmed(r.value)
  {
    var trimmed := Trim(draftApiKey);
    if trimmed != apiKey then Some(trimmed) else None
  }

  /** The lower-cased text the search looks in: name, id and description, space-separated. */
  function Haystack(option: ModelOption): string {
    ToLower(option.name + " " + option.id + " " + (if option.description.Some? then option.description.value else ""))
  }

  /** The option matches the normalised query. */
  predicate Matches(option: ModelOption, query: string) {
    Contains(Haystack(option), query)
  }

  /** The query as the search uses it: trimmed, then lower-cased. */
  function NormalizedSearch(search: string): (q: string)
    ensures |q| == |Trim(search)|
    ensures q == [] <==> AllWhitespace(search)
  {
    ToLower(Trim(search))
  }

  /** The catalog entries shown for a search string. */
  function FilteredOptions(options: seq<ModelOption>, search: string): (r: seq<ModelOption>)
    ensures AllWhitespace(search) ==> r == options
    ensures !AllWhitespace(search) ==>
      |r| <= |options| &&
      forall k :: 0 <= k < |r| ==> r[k] in options && Matches(r[k], NormalizedSearch(search))
  {
    var query := NormalizedSearch(search);
    if query == [] then options
    else Filter((option: ModelOption) => Matches(option, query), options)
  }

  /** A non-blank search keeps exactly the matching options, in catalog order. */
  lemma FilteredKeepsMatches(options: seq<ModelOption>, search: string) returns (idx: seq<nat>)
    requires !AllWhitespace(search)
    ensures var r := FilteredOptions(options, search);
      |idx| == |r| && Increasing(idx) &&
      (forall k :: 0 <= k < |idx| ==> idx[k] < |options| && r[k] == options[idx[k]]) &&
      (forall j :: 0 <= j < |options| && Matches(options[j], NormalizedSearch(search)) ==> j in idx)
  {
    var query := NormalizedSearch(search);
    idx := FilterOrder((option: ModelOption) => Matches(option, query), options);
  }
}
