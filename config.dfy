/**
 * Server configuration (lib/config.ts): the council models, read from a comma-separated
 * environment variable with a default list as fallback, and the chairman model.
 */
module Config {
  import opened Wrappers
  import opened JsString
  import Seqs

  const DefaultCouncilModels: seq<string> := [
    "openai/gpt-5.1-chat",
    "google/gemini-3-pro-preview",
    "anthropic/claude-sonnet-4.5",
    "x-ai/grok-4"
  ]

  const DefaultChairmanModel: string := "google/gemini-3-pro-preview"

  predicate NonEmpty(s: string) {
    s != []
  }

  function TrimEach(pieces: seq<string>): (r: seq<string>)
    ensures |r| == |pieces| && forall k :: 0 <= k < |r| ==> r[k] == Trim(pieces[k])
  {
    seq(|pieces|, k requires 0 <= k < |pieces| => Trim(pieces[k]))
  }

  /**
   * `parseModelsFromEnv`: an absent or empty variable gives the defaults; otherwise the
   * comma-separated fields, trimmed, with the empty ones dropped.
   */
  function ParseModelsFromEnv(envVar: Option<string>, defaultModels: seq<string>): (r: seq<string>)
    ensures envVar == None || envVar == Some([]) ==> r == defaultModels
    ensures envVar.Some? && envVar.value != [] ==>
      |r| <= Count(envVar.value, ',') + 1 &&
      forall k :: 0 <= k < |r| ==> r[k] != [] && IsTrimmed(r[k])
  {
    match envVar
    case None => defaultModels
    case Some(s) => if s == [] then defaultModels else Seqs.Filter(NonEmpty, TrimEach(Split(s, ',')))
  }

  /** `COUNCIL_MODELS` */
  function CouncilModels(envVar: Option<string>): (r: seq<string>)
    ensures envVar == None || envVar == Some([]) ==> r == DefaultCouncilModels
  {
    ParseModelsFromEnv(envVar, DefaultCouncilModels)
  }

  /** `CHAIRMAN_MODEL`: the variable when it is non-empty (kept as it is), else the default. */
  function ChairmanModel(envVar: Option<string>): (r: string)
    ensures r != []
    ensures envVar.Some? && envVar.value != [] ==> r == envVar.value
    ensures envVar == None || envVar == Some([]) ==> r == DefaultChairmanModel
  {
    if envVar.Some? && envVar.value != [] then envVar.value else DefaultChairmanModel
  }

  /** `OPENROUTER_API_KEY`: the variable, or the empty string when it is absent. */
  function OpenRouterApiKey(envVar: Option<string>): (r: string)
    ensures envVar.Some? ==> r == envVar.value
    ensures envVar.None? ==> r == []
  {
    if envVar.Some? then envVar.value else []
  }

  /**
   * For a non-empty variable, the parsed ids are exactly the non-blank comma-separated fields,
   * trimmed, in their left-to-right order: idx lists the positions of the fields they come from.
   */
  lemma ParseOrder(s: string) returns (idx: seq<nat>)
    requires s != []
    ensures var r := ParseModelsFromEnv(Some(s), []); var fields := Split(s, ',');
      |idx| == |r| && Seqs.Increasing(idx) &&
      (forall k :: 0 <= k < |idx| ==> idx[k] < |fields| && r[k] == Trim(fields[idx[k]])) &&
      (forall j :: 0 <= j < |fields| && Trim(fields[j]) != [] ==> j in idx)
  {
    var fields := Split(s, ',');
    var trimmed := TrimEach(fields);
    idx := Seqs.FilterOrder(NonEmpty, trimmed);
    assert forall j :: 0 <= j < |fields| && Trim(fields[j]) != [] ==> NonEmpty(trimmed[j]);
  }

  /** Parsed ids are single fields: none of them contains a comma. */
  lemma ParsedIdsHaveNoComma(s: string)
    requires s != []
    ensures forall k :: 0 <= k < |ParseModelsFromEnv(Some(s), [])| ==> ',' !in ParseModelsFromEnv(Some(s), [])[k]
  {
    var r := ParseModelsFromEnv(Some(s), []);
    var fields := Split(s, ',');
    var idx := ParseOrder(s);
    forall k | 0 <= k < |r|
      ensures ',' !in r[k]
    {
      var i, j := TrimIsSlice(fields[idx[k]]);
      assert r[k] == fields[idx[k]][i..j];
    }
  }

  /**
   * A non-empty variable gives an empty list (and not the defaults) exactly when it holds
   * nothing but commas and whitespace.
   */
  lemma BlankVariable(s: string, defaultModels: seq<string>)
    requires s != []
    ensures ParseModelsFromEnv(Some(s), defaultModels) == [] <==>
            forall i :: 0 <= i < |s| ==> s[i] == ',' || IsWhitespace(s[i])
  {
    var fields := Split(s, ',');
    var trimmed := TrimEach(fields);
    var r := ParseModelsFromEnv(Some(s), defaultModels);
    if forall i :: 0 <= i < |s| ==> s[i] == ',' || IsWhitespace(s[i]) {
      SplitChars(s, ',');
      forall k | 0 <= k < |fields|
        ensures !NonEmpty(trimmed[k])
      {
        assert AllWhitespace(fields[k]) by {
          forall i | 0 <= i < |fields[k]|
            ensures IsWhitespace(fields[k][i])
          {
            assert fields[k][i] in s && fields[k][i] != ',';
          }
        }
      }
      Seqs.FilterDropsAll(NonEmpty, trimmed);
    }
    if r == [] {
      forall i | 0 <= i < |s|
        ensures s[i] == ',' || IsWhitespace(s[i])
      {
        JoinSplit(s, ',');
        JoinChars(fields, ',', i);
        if s[i] != ',' {
          var k :| 0 <= k < |fields| && s[i] in fields[k];
          Seqs.FilterMember(NonEmpty, trimmed, trimmed[k]);
          assert AllWhitespace(fields[k]);
        }
      }
    }
  }
}
