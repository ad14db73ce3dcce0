/**
 * The OpenRouter client (lib/openrouter.ts): one chat-completion request per model, whose
 * failures all turn into `null`, and the fan-in of several requests into a dictionary from
 * model id to response.
 */
module OpenRouter {
  import opened Wrappers
  import opened JsValue

  datatype Message = Message(role: string, content: string)

  datatype ModelResponse = ModelResponse(content: Json, reasoningDetails: Option<Json>)

  /** The request body: the model id and the conversation. */
  datatype Request = Request(model: string, messages: seq<Message>)

  /**
   * What one request came to: the network failed, the timeout aborted it, or the provider
   * answered with a status (ok or not) and a body that is JSON or not.
   */
  datatype Transport = NetworkError | TimedOut | Reply(ok: bool, body: Option<Json>)

  /**
   * `data.choices[0].message`, or None when one of those reads throws: on null or undefined,
   * and when the first choice or the message is missing.
   */
  function FirstChoiceMessage(data: Json): (r: Option<Json>)
    ensures r.Some? ==> r.value != JNull
    ensures IsNullish(Prop(Some(data), "choices")) ==> r.None?
    ensures var choices := Prop(Some(data), "choices");
      choices.Some? && choices.value.JArr? && choices.value.items != [] ==>
        var message := Prop(Some(choices.value.items[0]), "message");
        r == (if IsNullish(message) then None else message)
  {
    if data == JNull then None
    else
      var first := match Prop(Some(data), "choices")
        case Some(JArr(items)) => if items == [] then None else Some(items[0])
        case Some(JObj(fields)) => if "0" in fields then Some(fields["0"]) else None
        case Some(JStr(s)) => if s == [] then None else Some(JStr([s[0]]))
        case _ => None;
      if IsNullish(first) then None
      else
        var message := Prop(first, "message");
        if IsNullish(message) then None else message
  }

  /**
   * `queryModel` on what its request came to: never an exception, a response exactly when the
   * provider answered ok with a readable first message, and `null` otherwise.
   */
  function QueryModel(outcome: Transport): (r: Option<ModelResponse>)
    ensures (outcome.NetworkError? || outcome.TimedOut? || (outcome.Reply? && !outcome.ok)) ==> r.None?
    ensures r.Some? <==>
      outcome.Reply? && outcome.ok && outcome.body.Some? && FirstChoiceMessage(outcome.body.value).Some?
    ensures r.Some? ==>
      var content := Prop(FirstChoiceMessage(outcome.body.value), "content");
      r.value.content == (if Truthy(content) then content.value else JStr([]))
    ensures r.Some? ==>
      r.value.reasoningDetails == Prop(FirstChoiceMessage(outcome.body.value), "reasoning_details")
  {
    match outcome
    case NetworkError => None
    case TimedOut => None
    case Reply(ok, body) =>
      if !ok || body.None? then None
      else match FirstChoiceMessage(body.value)
        case None => None
        case Some(message) =>
          var m := Some(message);
          Some(ModelResponse(Or(Prop(m, "content"), Some(JStr([]))).value, Prop(m, "reasoning_details")))
  }

  /** A well-formed completion yields its text, and a message without content yields "". */
  lemma WellFormedReply(text: string)
    ensures var message := JObj(map["content" := JStr(text)]);
      var body := JObj(map["choices" := JArr([JObj(map["message" := message])])]);
      QueryModel(Reply(true, Some(body))) == Some(ModelResponse(JStr(text), None))
    ensures var body := JObj(map["choices" := JArr([JObj(map["message" := JObj(map[])])])]);
      QueryModel(Reply(true, Some(body))) == Some(ModelResponse(JStr([]), None))
  {
  }

  /** With two choices the first one is read, and its `reasoning_details` is passed through. */
  lemma FirstChoiceRead(text: string, other: string, details: Json)
    ensures var first := JObj(map["content" := JStr(text), "reasoning_details" := details]);
      var second := JObj(map["content" := JStr(other)]);
      var body := JObj(map["choices" := JArr([JObj(map["message" := first]), JObj(map["message" := second])])]);
      QueryModel(Reply(true, Some(body))) == Some(ModelResponse(JStr(text), Some(details)))
  {
    var first := JObj(map["content" := JStr(text), "reasoning_details" := details]);
    var second := JObj(map["content" := JStr(other)]);
    var body := JObj(map["choices" := JArr([JObj(map["message" := first]), JObj(map["message" := second])])]);
    assert FirstChoiceMessage(body) == Some(first);
    assert Prop(Some(first), "content") == Some(JStr(text));
    assert Prop(Some(first), "reasoning_details") == Some(details);
  }

  /** No later entry of models repeats the id at index i. */
  predicate IsLastIndex(models: seq<string>, i: int)
    requires 0 <= i < |models|
  {
    forall j :: i < j < |models| ==> models[j] != models[i]
  }

  /**
   * The fan-in: `result[models[i]] = responses[i]` for every index in turn, so a repeated id
   * ends up with the response of its last index.
   */
  method MatchByIndex<R>(models: seq<string>, responses: seq<R>) returns (result: map<string, R>)
    requires |responses| == |models|
    ensures result.Keys == set m | m in models
    ensures forall i :: 0 <= i < |models| && IsLastIndex(models, i) ==> result[models[i]] == responses[i]
  {
    result := map[];
    var j := 0;
    while j < |models|
      invariant 0 <= j <= |models|
      invariant result.Keys == set m | m in models[..j]
      invariant forall k :: 0 <= k < j && (forall l :: k < l < j ==> models[l] != models[k]) ==>
        result[models[k]] == responses[k]
    {
      result := result[models[j] := responses[j]];
      assert models[..j + 1] == models[..j] + [models[j]];
      j := j + 1;
    }
    assert models[..j] == models;
  }

  /**
   * `queryModelsParallel`: one request per list entry, all with the same messages, where
   * outcomes[i] is what request i came to; then the responses are matched to the ids by index.
   */
  method QueryModelsParallel(models: seq<string>, messages: seq<Message>, outcomes: seq<Transport>)
    returns (requests: seq<Request>, result: map<string, Option<ModelResponse>>)
    requires |outcomes| == |models|
    ensures |requests| == |models|
    ensures forall i :: 0 <= i < |models| ==> requests[i] == Request(models[i], messages)
    ensures result.Keys == set m | m in models
    ensures forall i :: 0 <= i < |models| && IsLastIndex(models, i) ==> result[models[i]] == QueryModel(outcomes[i])
    ensures (forall i, j :: 0 <= i < j < |models| ==> models[i] != models[j]) ==>
      forall i :: 0 <= i < |models| ==> result[models[i]] == QueryModel(outcomes[i])
  {
    requests := [];
    var responses: seq<Option<ModelResponse>> := [];
    var i := 0;
    while i < |models|
      invariant 0 <= i <= |models|
      invariant |requests| == |responses| == i
      invariant forall k :: 0 <= k < i ==> requests[k] == Request(models[k], messages)
      invariant forall k :: 0 <= k < i ==> responses[k] == QueryModel(outcomes[k])
    {
      requests := requests + [Request(models[i], messages)];
      responses := responses + [QueryModel(outcomes[i])];
      i := i + 1;
    }
    result := MatchByIndex(models, responses);
  }
}
