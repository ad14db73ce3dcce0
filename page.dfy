/**
 * The chat page: what a send is made of (the active council, the chairman, the guards that stop
 * it), how deleting and selecting conversations move the selection, and how the streamed stage
 * events update the conversation on screen and the results kept for saving.
 */
module Page {
  import opened Wrappers
  import opened JsString
  import opened JsValue
  import opened Seqs
  import opened Api
  import ModelConfigModal

  type ModelConfig = ModelConfigModal.ModelConfig

  // ---------------------------------------------------------------------------------------
  // The council and the chairman of a send

  /** A config's model and prompt, both trimmed. */
  function TrimmedPair(cfg: ModelConfig): (string, string) {
    (Trim(cfg.model), Trim(cfg.systemPrompt))
  }

  predicate HasModel(pair: (string, string)) {
    |pair.0| > 0
  }

  /** An empty prompt is left out of the request. */
  function ToMember(pair: (string, string)): CouncilMember {
    CouncilMember(pair.0, if pair.1 != [] then Some(pair.1) else None)
  }

  /** The council of a send: the configs with a non-blank model, trimmed, in their order. */
  function ActiveModels(configs: seq<ModelConfig>): (r: seq<CouncilMember>)
    ensures |r| <= |configs|
    ensures forall k :: 0 <= k < |r| ==>
      r[k].model != [] && IsTrimmed(r[k].model) &&
      (r[k].systemPrompt.Some? ==> r[k].systemPrompt.value != [] && IsTrimmed(r[k].systemPrompt.value))
  {
    var pairs := Map(TrimmedPair, configs);
    var kept := Filter(HasModel, pairs);
    assert forall k :: 0 <= k < |kept| ==> IsTrimmed(kept[k].0) && IsTrimmed(kept[k].1) by {
      forall k | 0 <= k < |kept| ensures IsTrimmed(kept[k].0) && IsTrimmed(kept[k].1) {
        var i :| 0 <= i < |pairs| && pairs[i] == kept[k];
      }
    }
    Map(ToMember, kept)
  }

  /**
   * The active models are the configs with a non-blank model, picked out in order: each one
   * carries the trimmed model id, and its trimmed prompt unless that is empty.
   */
  lemma ActiveModelsOrder(configs: seq<ModelConfig>) returns (idx: seq<nat>)
    ensures var r := ActiveModels(configs);
      |idx| == |r| && Increasing(idx) &&
      (forall k :: 0 <= k < |idx| ==>
        (idx[k] < |configs| &&
         r[k].model == Trim(configs[idx[k]].model) &&
         r[k].systemPrompt == (if AllWhitespace(configs[idx[k]].systemPrompt) then None
                               else Some(Trim(configs[idx[k]].systemPrompt))))) &&
      (forall j :: 0 <= j < |configs| && !AllWhitespace(configs[j].model) ==> j in idx)
  {
    var pairs := Map(TrimmedPair, configs);
    idx := FilterOrder(HasModel, pairs);
    forall j | 0 <= j < |configs| && !AllWhitespace(configs[j].model)
      ensures HasModel(pairs[j])
    {
    }
  }

  /** The chairman of a send: the trimmed override when it is not blank, else the default. */
  function ActiveChairman(chairmanModel: Option<string>, defaultChairman: string): (r: string)
    ensures chairmanModel.Some? && !AllWhitespace(chairmanModel.value) ==>
      r == Trim(chairmanModel.value) && r != [] && IsTrimmed(r)
    ensures chairmanModel.None? || AllWhitespace(chairmanModel.value) ==> r == defaultChairman
  {
    if chairmanModel.Some? && chairmanModel.value != [] && |Trim(chairmanModel.value)| > 0
    then Trim(chairmanModel.value) else defaultChairman
  }

  // ---------------------------------------------------------------------------------------
  // What the page shows

  datatype Stage = Stage1 | Stage2 | Stage3

  /** The per-stage spinners of an assistant message. */
  datatype Loading = Loading(stage1: bool, stage2: bool, stage3: bool)

  function Flag(loading: Loading, stage: Stage): bool {
    match stage
    case Stage1 => loading.stage1
    case Stage2 => loading.stage2
    case Stage3 => loading.stage3
  }

  function SetFlag(loading: Loading, stage: Stage, value: bool): (r: Loading)
    ensures Flag(r, stage) == value
    ensures forall other :: other != stage ==> Flag(r, other) == Flag(loading, other)
  {
    match stage
    case Stage1 => loading.(stage1 := value)
    case Stage2 => loading.(stage2 := value)
    case Stage3 => loading.(stage3 := value)
  }

  datatype UiMessage =
    | UserMessage(content: string)
    | AssistantMessage(
        stage1: Option<Json>, stage2: Option<Json>, stage3: Option<Json>, metadata: Option<Json>,
        loading: Loading)

  /** A stage's result on an assistant message. */
  function StageResult(message: UiMessage, stage: Stage): Option<Json>
    requires message.AssistantMessage?
  {
    match stage
    case Stage1 => message.stage1
    case Stage2 => message.stage2
    case Stage3 => message.stage3
  }

  /** The spinners and results of the stages other than `stage` are the same on both messages. */
  predicate OtherStagesKept(before: UiMessage, after: UiMessage, stage: Stage)
    requires before.AssistantMessage? && after.AssistantMessage?
  {
    forall other :: other != stage ==>
      Flag(after.loading, other) == Flag(before.loading, other) &&
      StageResult(after, other) == StageResult(before, other)
  }

  /** The placeholder assistant message added when a send starts. */
  const PendingAssistant: UiMessage :=
    AssistantMessage(Some(JNull), Some(JNull), Some(JNull), Some(JNull), Loading(false, false, false))

  datatype UiConversation = UiConversation(id: string, title: Option<Json>, messages: seq<UiMessage>)

  /** A conversation in the sidebar list. */
  datatype SidebarEntry = SidebarEntry(id: string, createdAt: int, title: Option<Json>, messageCount: int)

  // ---------------------------------------------------------------------------------------
  // The guards of a send

  datatype SendRefusal = NoConversation | MissingApiKey | NoActiveModels

  datatype SendPlan = SendPlan(
    conversationId: string, councilModels: seq<CouncilMember>, chairmanModel: string, generateTitle: bool)

  /**
   * The start of a send: nothing happens without a selected and loaded conversation; without an
   * API key the configuration dialog opens instead; with no usable model nothing is sent.
   * Otherwise the request goes out, asking for a title when the conversation has no message yet.
   */
  function PrepareSend(
    currentConversationId: Option<string>, currentConversation: Option<UiConversation>, apiKey: string,
    configs: seq<ModelConfig>, chairmanModel: Option<string>, defaultChairman: string)
    : (r: Result<SendPlan, SendRefusal>)
    ensures r == Err(NoConversation) <==>
      currentConversationId.None? || currentConversationId.value == [] || currentConversation.None?
    ensures r == Err(MissingApiKey) <==> !(r == Err(NoConversation)) && apiKey == []
    ensures r == Err(NoActiveModels) <==>
      !(r == Err(NoConversation)) && apiKey != [] && ActiveModels(configs) == []
    ensures r.Ok? ==>
      r.value.conversationId == currentConversationId.value &&
      r.value.councilModels == ActiveModels(configs) && |r.value.councilModels| > 0 &&
      r.value.chairmanModel == ActiveChairman(chairmanModel, defaultChairman) &&
      (r.value.generateTitle <==> |currentConversation.value.messages| == 0)
  {
    if currentConversationId.None? || currentConversationId.value == [] || currentConversation.None? then
      Err(NoConversation)
    else if apiKey == [] then Err(MissingApiKey)
    else
      var active := ActiveModels(configs);
      if |active| == 0 then Err(NoActiveModels)
      else Ok(SendPlan(currentConversationId.value, active,
                       ActiveChairman(chairmanModel, defaultChairman),
                       |currentConversation.value.messages| == 0))
  }

  /** A send that goes out has a key and at least one config whose model is not blank. */
  lemma SentHasModel(
    currentConversationId: Option<string>, currentConversation: Option<UiConversation>, apiKey: string,
    configs: seq<ModelConfig>, chairmanModel: Option<string>, defaultChairman: string)
    requires PrepareSend(currentConversationId, currentConversation, apiKey, configs, chairmanModel, defaultChairman).Ok?
    ensures apiKey != [] && exists j :: 0 <= j < |configs| && !AllWhitespace(configs[j].model)
  {
    var idx := ActiveModelsOrder(configs);
    var j := idx[0];
    assert Trim(configs[j].model) == ActiveModels(configs)[0].model;
  }

  // ---------------------------------------------------------------------------------------
  // Selection

  datatype DeleteOutcome = DeleteOutcome(list: seq<SidebarEntry>, current: Option<string>, clearsConversation: bool)

  /**
   * Deleting a conversation drops it from the list; if it was the current one, the first
   * remaining conversation becomes current, or none when the list is empty.
   */
  function DeleteConversation(list: seq<SidebarEntry>, current: Option<string>, id: string): (r: DeleteOutcome)
    ensures forall k :: 0 <= k < |r.list| ==> r.list[k] in list && r.list[k].id != id
    ensures current != Some(id) ==> r.current == current && !r.clearsConversation
    ensures current == Some(id) ==>
      (r.current.None? <==> r.list == []) && (r.clearsConversation <==> r.list == []) &&
      (r.current.Some? ==> r.current.value == r.list[0].id)
    ensures r.current != Some(id)
  {
    var remaining := Filter((entry: SidebarEntry) => entry.id != id, list);
    if current == Some(id) then
      if |remaining| > 0 then DeleteOutcome(remaining, Some(remaining[0].id), false)
      else DeleteOutcome(remaining, None, true)
    else DeleteOutcome(remaining, current, false)
  }

  /** Deleting keeps every other conversation of the list, in order. */
  lemma DeleteKeepsOthers(list: seq<SidebarEntry>, current: Option<string>, id: string)
    returns (idx: seq<nat>)
    ensures var r := DeleteConversation(list, current, id);
      |idx| == |r.list| && Increasing(idx) &&
      (forall k :: 0 <= k < |idx| ==> idx[k] < |list| && r.list[k] == list[idx[k]]) &&
      (forall j :: 0 <= j < |list| && list[j].id != id ==> j in idx)
  {
    idx := FilterOrder((entry: SidebarEntry) => entry.id != id, list);
  }

  datatype SelectOutcome = SelectOutcome(current: Option<string>, abortsStream: bool)

  /** Selecting a conversation: the current one is a no-op; another one stops the running stream. */
  function SelectConversation(current: Option<string>, id: string): (r: SelectOutcome)
    ensures r.current == Some(id)
    ensures r.abortsStream <==> current != Some(id)
  {
    if current == Some(id) then SelectOutcome(current, false) else SelectOutcome(Some(id), true)
  }

  // ---------------------------------------------------------------------------------------
  // The stage events of a send

  function StartName(stage: Stage): string {
    match stage
    case Stage1 => "stage1_start"
    case Stage2 => "stage2_start"
    case Stage3 => "stage3_start"
  }

  function CompleteName(stage: Stage): string {
    match stage
    case Stage1 => "stage1_complete"
    case Stage2 => "stage2_complete"
    case Stage3 => "stage3_complete"
  }

  /** The branches of the event handler's switch. */
  datatype EventKind = Start(stage: Stage) | Complete(stage: Stage) | TitleComplete | StreamComplete | Ignored

  /** The event types the handler acts on. */
  const HandledTypes: set<string> := {
    "stage1_start", "stage1_complete", "stage2_start", "stage2_complete",
    "stage3_start", "stage3_complete", "title_complete", "complete"}

  /** The branch an event type selects (`error` and unknown types only log). */
  function Kind(eventType: Option<Json>): (k: EventKind)
    ensures k.Ignored? <==> !(eventType.Some? && eventType.value.JStr? && eventType.value.s in HandledTypes)
    ensures k.Start? ==> eventType == Some(JStr(StartName(k.stage)))
    ensures k.Complete? ==> eventType == Some(JStr(CompleteName(k.stage)))
    ensures k.TitleComplete? <==> eventType == Some(JStr("title_complete"))
    ensures k.StreamComplete? <==> eventType == Some(JStr("complete"))
  {
    match eventType
    case Some(JStr(name)) =>
      if name == "stage1_start" then Start(Stage1)
      else if name == "stage1_complete" then Complete(Stage1)
      else if name == "stage2_start" then Start(Stage2)
      else if name == "stage2_complete" then Complete(Stage2)
      else if name == "stage3_start" then Start(Stage3)
      else if name == "stage3_complete" then Complete(Stage3)
      else if name == "title_complete" then TitleComplete
      else if name == "complete" then StreamComplete
      else Ignored
    case _ => Ignored
  }

  /** What an event does to the assistant message at the end of the conversation. */
  function UpdateMessage(message: UiMessage, kind: EventKind, data: Option<Json>, metadata: Option<Json>)
    : UiMessage
    requires message.AssistantMessage? && (kind.Start? || kind.Complete?)
  {
    if kind.Start? then message.(loading := SetFlag(message.loading, kind.stage, true))
    else
      var done := SetFlag(message.loading, kind.stage, false);
      match kind.stage
      case Stage1 => message.(stage1 := data, loading := done)
      case Stage2 => message.(stage2 := data, metadata := metadata, loading := done)
      case Stage3 => message.(stage3 := data, loading := done)
  }

  /** The update is applied to the last message when there is one and it is an assistant message. */
  function UpdateLast(conversation: Option<UiConversation>, kind: EventKind, data: Option<Json>, metadata: Option<Json>)
    : Option<UiConversation>
    requires kind.Start? || kind.Complete?
  {
    if conversation.None? then conversation
    else
      var messages := conversation.value.messages;
      if messages == [] || !messages[|messages| - 1].AssistantMessage? then conversation
      else
        var last := UpdateMessage(messages[|messages| - 1], kind, data, metadata);
        Some(conversation.value.(messages := messages[..|messages| - 1] + [last]))
  }

  datatype AssistantSave = AssistantSave(
    conversationId: string, stage1: Option<Json>, stage2: Option<Json>, stage3: Option<Json>, metadata: Option<Json>)

  datatype TitleUpdate = TitleUpdate(conversationId: string, title: Option<Json>)

  /**
   * The state a send's events act on: the conversation on screen, the sidebar list, the stage
   * results captured so far, and the store writes and list reloads requested.
   */
  datatype Session = Session(
    conversation: Option<UiConversation>,
    sidebar: seq<SidebarEntry>,
    stage1: Option<Json>, stage2: Option<Json>, stage3: Option<Json>, metadata: Option<Json>,
    saves: seq<AssistantSave>,
    titleUpdates: seq<TitleUpdate>,
    listReloads: nat)

  /** The sidebar entry of the conversation gets the new title. */
  function Retitle(sidebar: seq<SidebarEntry>, id: string, title: Option<Json>): (r: seq<SidebarEntry>)
    ensures |r| == |sidebar|
    ensures forall k :: 0 <= k < |r| ==>
      r[k].id == sidebar[k].id && r[k].createdAt == sidebar[k].createdAt &&
      r[k].messageCount == sidebar[k].messageCount &&
      r[k].title == (if sidebar[k].id == id then title else sidebar[k].title)
  {
    Map((entry: SidebarEntry) => if entry.id == id then entry.(title := title) else entry, sidebar)
  }

  /** One event of the stream of conversation `id`, as the handler's switch treats it. */
  function Reduce(s: Session, id: string, eventType: Option<Json>, event: Json): Session {
    var data := Prop(Some(event), "data");
    var kind := Kind(eventType);
    match kind
    case Start(_) => s.(conversation := UpdateLast(s.conversation, kind, None, None))
    case Complete(Stage1) => s.(stage1 := data, conversation := UpdateLast(s.conversation, kind, data, None))
    case Complete(Stage2) =>
      var metadata := Prop(Some(event), "metadata");
      s.(stage2 := data, metadata := metadata, conversation := UpdateLast(s.conversation, kind, data, metadata))
    case Complete(Stage3) => s.(stage3 := data, conversation := UpdateLast(s.conversation, kind, data, None))
    case TitleComplete =>
      // Reading `title` of a nullish `data` throws before anything is done.
      if IsNullish(data) then s
      else
        var title := Prop(data, "title");
        s.(titleUpdates := s.titleUpdates + [TitleUpdate(id, title)],
           conversation := if s.conversation.Some? then Some(s.conversation.value.(title := title)) else None,
           sidebar := Retitle(s.sidebar, id, title))
    case StreamComplete =>
      s.(saves := s.saves + [AssistantSave(id, s.stage1, s.stage2, s.stage3, s.metadata)],
         listReloads := s.listReloads + 1)
    case Ignored => s
  }

  /** An event's `type` field. */
  function TypeOf(event: Json): Option<Json> {
    Prop(Some(event), "type")
  }

  /** The events of a stream handled one after another. */
  function Run(s: Session, id: string, events: seq<Json>): Session
    decreases |events|
  {
    if events == [] then s
    else
      var last := events[|events| - 1];
      Reduce(Run(s, id, events[..|events| - 1]), id, TypeOf(last), last)
  }

  /** The conversation shown when a send starts: the user's message, then an empty assistant message. */
  function BeginTurn(shown: Option<UiConversation>, content: string): Option<UiConversation> {
    if shown.None? then None
    else Some(shown.value.(messages := shown.value.messages + [UserMessage(content), PendingAssistant]))
  }

  /** The captured results before any event: no stage results yet. */
  function Initial(shown: Option<UiConversation>, content: string, sidebar: seq<SidebarEntry>): Session {
    Session(BeginTurn(shown, content), sidebar, Some(JArr([])), Some(JArr([])), Some(JNull), Some(JNull), [], [], 0)
  }

  /**
   * A start event only raises that stage's spinner on the last (assistant) message: the other
   * spinners, the message's results, the earlier messages and everything else stay.
   */
  lemma StartSetsOnlyLoading(s: Session, id: string, stage: Stage, event: Json)
    requires s.conversation.Some? && |s.conversation.value.messages| > 0
    requires s.conversation.value.messages[|s.conversation.value.messages| - 1].AssistantMessage?
    ensures var r := Reduce(s, id, Some(JStr(StartName(stage))), event);
      var before := s.conversation.value.messages;
      r.conversation.Some? &&
      var after := r.conversation.value.messages;
      var n := |before|;
      r == s.(conversation := r.conversation) &&
      r.conversation.value == s.conversation.value.(messages := after) &&
      |after| == n && after[..n - 1] == before[..n - 1] &&
      after[n - 1].AssistantMessage? &&
      Flag(after[n - 1].loading, stage) &&
      OtherStagesKept(before[n - 1], after[n - 1], stage) &&
      StageResult(after[n - 1], stage) == StageResult(before[n - 1], stage) &&
      after[n - 1].metadata == before[n - 1].metadata
  {
    assert Kind(Some(JStr(StartName(stage)))) == Start(stage);
    var n := |s.conversation.value.messages|;
    var r := Reduce(s, id, Some(JStr(StartName(stage))), event);
    assert r.conversation.value.messages[..n - 1] == s.conversation.value.messages[..n - 1];
  }

  /**
   * A complete event keeps the stage's data both in the captured result and on the last
   * assistant message, and lowers that stage's spinner; stage 2 also keeps the metadata.
   */
  lemma CompleteStoresData(s: Session, id: string, stage: Stage, event: Json)
    requires s.conversation.Some? && |s.conversation.value.messages| > 0
    requires s.conversation.value.messages[|s.conversation.value.messages| - 1].AssistantMessage?
    ensures var r := Reduce(s, id, Some(JStr(CompleteName(stage))), event);
      var data := Prop(Some(event), "data");
      var before := s.conversation.value.messages;
      var n := |before|;
      r.conversation.Some? &&
      var after := r.conversation.value.messages;
      |after| == n && after[..n - 1] == before[..n - 1] &&
      after[n - 1].AssistantMessage? &&
      StageResult(after[n - 1], stage) == data &&
      !Flag(after[n - 1].loading, stage) &&
      OtherStagesKept(before[n - 1], after[n - 1], stage) &&
      (stage == Stage2 ==> after[n - 1].metadata == Prop(Some(event), "metadata") &&
                           r.metadata == Prop(Some(event), "metadata")) &&
      (stage != Stage2 ==> after[n - 1].metadata == before[n - 1].metadata && r.metadata == s.metadata) &&
      (stage == Stage1 ==> r.stage1 == data) &&
      (stage == Stage2 ==> r.stage2 == data) &&
      (stage == Stage3 ==> r.stage3 == data) &&
      r.saves == s.saves && r.titleUpdates == s.titleUpdates && r.sidebar == s.sidebar
  {
    assert Kind(Some(JStr(CompleteName(stage)))) == Complete(stage);
    var n := |s.conversation.value.messages|;
    var r := Reduce(s, id, Some(JStr(CompleteName(stage))), event);
    assert r.conversation.value.messages[..n - 1] == s.conversation.value.messages[..n - 1];
  }

  /** A title event whose data is missing or null changes nothing. */
  lemma NullishTitleIgnored(s: Session, id: string, event: Json)
    requires IsNullish(Prop(Some(event), "data"))
    ensures Reduce(s, id, Some(JStr("title_complete")), event) == s
  {
    assert Kind(Some(JStr("title_complete"))) == TitleComplete;
  }

  /** Error events and events of unknown type change nothing. */
  lemma OtherEventsIgnored(s: Session, id: string, eventType: Option<Json>, event: Json)
    requires !(eventType.Some? && eventType.value.JStr? && eventType.value.s in HandledTypes)
    ensures Reduce(s, id, eventType, event) == s
  {
  }

  /** The value under `key` of the last event of type `name`, or `initial` if there is none. */
  function Latest(events: seq<Json>, name: string, key: string, initial: Option<Json>): Option<Json>
    decreases |events|
  {
    if events == [] then initial
    else
      var last := events[|events| - 1];
      if TypeOf(last) == Some(JStr(name)) then Prop(Some(last), key)
      else Latest(events[..|events| - 1], name, key, initial)
  }

  /** After any events, the captured results are those of the latest complete event of each stage. */
  lemma {:induction false} CapturedAreLatest(s: Session, id: string, events: seq<Json>)
    ensures var r := Run(s, id, events);
      r.stage1 == Latest(events, CompleteName(Stage1), "data", s.stage1) &&
      r.stage2 == Latest(events, CompleteName(Stage2), "data", s.stage2) &&
      r.stage3 == Latest(events, CompleteName(Stage3), "data", s.stage3) &&
      r.metadata == Latest(events, CompleteName(Stage2), "metadata", s.metadata)
    decreases |events|
  {
    if events != [] {
      var last := events[|events| - 1];
      CapturedAreLatest(s, id, events[..|events| - 1]);
      var k := Kind(TypeOf(last));
      if k.Complete? {
        assert TypeOf(last) == Some(JStr(CompleteName(k.stage)));
      }
    }
  }

  /** The stream's `complete` event saves exactly the latest captured result of every stage. */
  lemma CompletePersistsLatest(s: Session, id: string, events: seq<Json>, event: Json)
    requires TypeOf(event) == Some(JStr("complete"))
    ensures Run(s, id, events + [event]).saves == Run(s, id, events).saves + [AssistantSave(id,
      Latest(events, CompleteName(Stage1), "data", s.stage1),
      Latest(events, CompleteName(Stage2), "data", s.stage2),
      Latest(events, CompleteName(Stage3), "data", s.stage3),
      Latest(events, CompleteName(Stage2), "metadata", s.metadata))]
  {
    assert (events + [event])[..|events|] == events;
    assert Kind(TypeOf(event)) == StreamComplete;
    CapturedAreLatest(s, id, events);
  }

  /** How many of the events have the given type. */
  function CountType(events: seq<Json>, name: string): nat
    decreases |events|
  {
    if events == [] then 0
    else CountType(events[..|events| - 1], name) + (if TypeOf(events[|events| - 1]) == Some(JStr(name)) then 1 else 0)
  }

  /** Saves are only appended, one per `complete` event. */
  lemma {:induction false} SavesPerComplete(s: Session, id: string, events: seq<Json>)
    ensures var r := Run(s, id, events);
      |r.saves| == |s.saves| + CountType(events, "complete") && r.saves[..|s.saves|] == s.saves
    decreases |events|
  {
    if events != [] {
      SavesPerComplete(s, id, events[..|events| - 1]);
      var prev := Run(s, id, events[..|events| - 1]);
      var last := events[|events| - 1];
      if Kind(TypeOf(last)).StreamComplete? {
        assert prev.saves + [AssistantSave(id, prev.stage1, prev.stage2, prev.stage3, prev.metadata)]
          == Run(s, id, events).saves;
        assert (prev.saves + [AssistantSave(id, prev.stage1, prev.stage2, prev.stage3, prev.metadata)])[..|s.saves|]
          == prev.saves[..|s.saves|];
      }
    }
  }

  /** The handler of one send, holding what its event callback updates. */
  class StreamSession {
    const conversationId: string
    var conversation: Option<UiConversation>
    var sidebar: seq<SidebarEntry>
    var stage1Data: Option<Json>
    var stage2Data: Option<Json>
    var stage3Data: Option<Json>
    var metadataData: Option<Json>
    var saves: seq<AssistantSave>
    var titleUpdates: seq<TitleUpdate>
    var listReloads: nat

    function State(): Session
      reads this
    {
      Session(conversation, sidebar, stage1Data, stage2Data, stage3Data, metadataData, saves, titleUpdates, listReloads)
    }

    /** A send begins: the user's message and an empty assistant message are shown. */
    constructor(id: string, content: string, shown: Option<UiConversation>, list: seq<SidebarEntry>)
      ensures conversationId == id
      ensures State() == Initial(shown, content, list)
    {
      conversationId := id;
      conversation := BeginTurn(shown, content);
      sidebar := list;
      stage1Data := Some(JArr([]));
      stage2Data := Some(JArr([]));
      stage3Data := Some(JNull);
      metadataData := Some(JNull);
      saves := [];
      titleUpdates := [];
      listReloads := 0;
    }

    /** The event callback. */
    method HandleEvent(eventType: Option<Json>, event: Json)
      modifies this
      ensures State() == Reduce(old(State()), conversationId, eventType, event)
    {
      var data := Prop(Some(event), "data");
      var kind := Kind(eventType);
      match kind {
        case Start(_) =>
          conversation := UpdateLast(conversation, kind, None, None);
        case Complete(Stage1) =>
          stage1Data := data;
          conversation := UpdateLast(conversation, kind, data, None);
        case Complete(Stage2) =>
          stage2Data := data;
          metadataData := Prop(Some(event), "metadata");
          conversation := UpdateLast(conversation, kind, data, metadataData);
        case Complete(Stage3) =>
          stage3Data := data;
          conversation := UpdateLast(conversation, kind, data, None);
        case TitleComplete =>
          if !IsNullish(data) {
            var title := Prop(data, "title");
            titleUpdates := titleUpdates + [TitleUpdate(conversationId, title)];
            if conversation.Some? {
              conversation := Some(conversation.value.(title := title));
            }
            sidebar := Retitle(sidebar, conversationId, title);
          }
        case StreamComplete =>
          saves := saves + [AssistantSave(conversationId, stage1Data, stage2Data, stage3Data, metadataData)];
          listReloads := listReloads + 1;
        case Ignored =>
      }
    }

    /** The events of the stream, delivered one after another. */
    method HandleEvents(events: seq<Json>)
      modifies this
      ensures State() == Run(old(State()), conversationId, events)
    {
      var i := 0;
      while i < |events|
        invariant 0 <= i <= |events|
        invariant State() == Run(old(State()), conversationId, events[..i])
      {
        assert events[..i + 1][..i] == events[..i];
        HandleEvent(TypeOf(events[i]), events[i]);
        i := i + 1;
      }
      assert events[..|events|] == events;
    }
  }
}
