/**
 * The model-catalog route (app/api/models/route.ts): choose the API key, fetch the provider's
 * catalog, keep the chat-capable models and project each onto the fields the client shows.
 */
module ModelsRoute {
  import opened Wrappers
  import opened JsString
  import opened JsValue
  import Seqs

  /** A string value that contains needle once lower-cased; any other value does not. */
  predicate Mentions(v: Json, needle: string) {
    v.JStr? && Contains(ToLower(v.s), needle)
  }

  /** `architecture.modality` as a list: an array as it is, a string as a singleton, else empty. */
  function ModalityList(raw: Option<Json>): seq<Json> {
    match raw
    case Some(JArr(items)) => items
    case Some(JStr(s)) => [JStr(s)]
    case _ => []
  }

  /** `tags` as a list: an array as it is, else empty. */
  function TagList(raw: Option<Json>): seq<Json> {
    match raw
    case Some(JArr(items)) => items
    case _ => []
  }

  function Capability(model: Json, name: string): Option<Json> {
    Prop(Prop(Some(model), "capabilities"), name)
  }

  predicate HasTextModality(model: Json) {
    var modalities := ModalityList(Prop(Prop(Some(model), "architecture"), "modality"));
    exists i | 0 <= i < |modalities| :: Mentions(modalities[i], "text")
  }

  predicate HasChatTag(model: Json) {
    var tags := TagList(Prop(Some(model), "tags"));
    exists i | 0 <= i < |tags| :: Mentions(tags[i], "chat") || Mentions(tags[i], "text")
  }

  /** `isChatCapableModel` */
  function IsChatCapableModel(model: Json): (r: bool)
    ensures model == JNull ==> !r
    ensures r ==> model.JObj?
    ensures Capability(model, "chat") == Some(JBool(true)) ==> r
    ensures (Capability(model, "completion") == Some(JBool(true)) &&
             Capability(model, "image") != Some(JBool(true))) ==> r
    ensures model.JObj? && HasTextModality(model) ==> r
    ensures (Capability(model, "chat") != Some(JBool(true)) &&
             !(Capability(model, "completion") == Some(JBool(true)) && Capability(model, "image") != Some(JBool(true))) &&
             !HasTextModality(model)) ==>
              (r <==> model.JObj? && HasChatTag(model))
  {
    var m := Some(model);
    if !Truthy(m) then false
    else
      var capabilities := Or(Prop(m, "capabilities"), Some(JObj(map[])));
      if Prop(capabilities, "chat") == Some(JBool(true)) then true
      else if Prop(capabilities, "completion") == Some(JBool(true)) && Prop(capabilities, "image") != Some(JBool(true)) then true
      else if HasTextModality(model) then true
      else HasChatTag(model)
  }

  /** One catalog entry as the route returns it. */
  datatype ModelSummary = ModelSummary(
    id: Option<Json>,
    name: Option<Json>,
    description: Json,
    pricing: Json,
    contextLength: Json,
    tags: Json)

  /** The projection: each field from the model when it is truthy, else its default. */
  function Summarize(model: Json): (r: ModelSummary)
    ensures r.id == Prop(Some(model), "id")
    ensures r.name == if Truthy(Prop(Some(model), "name")) then Prop(Some(model), "name") else r.id
    ensures Some(r.description) == Or(Prop(Some(model), "description"), Some(JStr([])))
    ensures Some(r.pricing) == Or(Prop(Prop(Some(model), "pricing"), "prompt"), Some(JNull))
    ensures Some(r.contextLength) == Or(Prop(Some(model), "context_length"), Some(JNull))
    ensures Some(r.tags) == Or(Prop(Some(model), "tags"), Some(JArr([])))
  {
    var m := Some(model);
    ModelSummary(
      Prop(m, "id"),
      Or(Prop(m, "name"), Prop(m, "id")),
      Or(Prop(m, "description"), Some(JStr([]))).value,
      Or(Prop(Prop(m, "pricing"), "prompt"), Some(JNull)).value,
      Or(Prop(m, "context_length"), Some(JNull)).value,
      Or(Prop(m, "tags"), Some(JArr([]))).value)
  }

  function SummarizeEach(models: seq<Json>): (r: seq<ModelSummary>)
    ensures |r| == |models| && forall k :: 0 <= k < |r| ==> r[k] == Summarize(models[k])
  {
    seq(|models|, k requires 0 <= k < |models| => Summarize(models[k]))
  }

  /**
   * `data?.data?.filter(isChatCapableModel)?.map(...) || []` on the parsed catalog: a missing
   * or null list gives no models, a list is filtered and projected, and any other value makes
   * `filter` throw, which the route reports as a server error.
   */
  function CatalogModels(data: Json): (r: Result<seq<ModelSummary>, string>)
    ensures IsNullish(Prop(Some(data), "data")) ==> r == Ok([])
    ensures r.Err? <==> !IsNullish(Prop(Some(data), "data")) && !Prop(Some(data), "data").value.JArr?
  {
    match Prop(Some(data), "data")
    case None => Ok([])
    case Some(JNull) => Ok([])
    case Some(JArr(items)) => Ok(SummarizeEach(Seqs.Filter(IsChatCapableModel, items)))
    case Some(_) => Err("Failed to load models from OpenRouter")
  }

  /**
   * For a catalog list, the result is the projection of exactly its chat-capable entries, in
   * their order: idx lists the positions of the entries kept.
   */
  lemma CatalogKeepsChatModels(items: seq<Json>) returns (idx: seq<nat>)
    ensures var r := CatalogModels(JObj(map["data" := JArr(items)]));
      r.Ok? && |idx| == |r.value| && Seqs.Increasing(idx) &&
      (forall k :: 0 <= k < |idx| ==> idx[k] < |items| && IsChatCapableModel(items[idx[k]]) &&
                                      r.value[k] == Summarize(items[idx[k]])) &&
      (forall j :: 0 <= j < |items| && IsChatCapableModel(items[j]) ==> j in idx)
  {
    idx := Seqs.FilterOrder(IsChatCapableModel, items);
  }

  /** What the provider answered: its status, and its body when the body is JSON. */
  datatype Upstream = Upstream(ok: bool, body: Option<Json>)

  datatype Response =
    | Unauthorized(error: string)          // status 401
    | ServerError(error: string)           // status 500
    | Models(models: seq<ModelSummary>)    // status 200

  /** The route's answer, and the Authorization headers of the upstream requests it made. */
  datatype Handled = Handled(response: Response, upstreamAuthorizations: seq<string>)

  /** `headerApiKey || OPENROUTER_API_KEY` */
  function EffectiveApiKey(headerApiKey: Option<string>, envApiKey: string): (k: string)
    ensures headerApiKey.Some? && headerApiKey.value != [] ==> k == headerApiKey.value
    ensures headerApiKey.None? || headerApiKey.value == [] ==> k == envApiKey
  {
    if headerApiKey.Some? && headerApiKey.value != [] then headerApiKey.value else envApiKey
  }

  /**
   * `GET /api/models`, with the provider's catalog endpoint as the function fetch from the
   * Authorization header to what the provider answers.
   */
  function Get(headerApiKey: Option<string>, envApiKey: string, fetch: string -> Upstream): (h: Handled)
    ensures EffectiveApiKey(headerApiKey, envApiKey) == [] <==> h.response.Unauthorized?
    ensures EffectiveApiKey(headerApiKey, envApiKey) == [] ==> h.upstreamAuthorizations == []
    ensures EffectiveApiKey(headerApiKey, envApiKey) != [] ==>
      h.upstreamAuthorizations == ["Bearer " + EffectiveApiKey(headerApiKey, envApiKey)]
    ensures h.response.Models? <==>
      var up := fetch("Bearer " + EffectiveApiKey(headerApiKey, envApiKey));
      EffectiveApiKey(headerApiKey, envApiKey) != [] && up.ok && up.body.Some? && CatalogModels(up.body.value).Ok?
    ensures h.response.Models? ==>
      var up := fetch("Bearer " + EffectiveApiKey(headerApiKey, envApiKey));
      up.body.Some? && h.response.models == CatalogModels(up.body.value).value
    ensures h.response.ServerError? ==> h.response.error == "Failed to load models from OpenRouter"
    ensures h.response.Unauthorized? ==>
      h.response.error == "No API key provided. Please configure your OpenRouter API key."
  {
    var key := EffectiveApiKey(headerApiKey, envApiKey);
    if key == [] then
      Handled(Unauthorized("No API key provided. Please configure your OpenRouter API key."), [])
    else
      var authorization := "Bearer " + key;
      var up := fetch(authorization);
      var response :=
        if !up.ok || up.body.None? then ServerError("Failed to load models from OpenRouter")
        else match CatalogModels(up.body.value)
          case Ok(models) => Models(models)
          case Err(e) => ServerError(e);
      Handled(response, [authorization])
  }
}
