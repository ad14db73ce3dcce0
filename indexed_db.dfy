/**
 * The browser-side conversation store: one table of conversations keyed by id, with create,
 * read, upsert, delete, message appends, retitling, clearing and the newest-first listing.
 */
module IndexedDb {
  import opened Wrappers
  import opened JsValue

  /** The title a new conversation gets ("new conversation"), also shown for an empty title. */
  const DefaultTitle: string := "\U{65B0}\U{5BF9}\U{8BDD}"

  /** A stored message: a user message has content, an assistant message the three stages. */
  datatype StoredMessage = StoredMessage(
    role: string, content: Option<string>,
    stage1: Option<Json>, stage2: Option<Json>, stage3: Option<Json>, metadata: Option<Json>)

  function UserMessage(content: string): StoredMessage {
    StoredMessage("user", Some(content), None, None, None, None)
  }

  function AssistantMessage(stage1: Option<Json>, stage2: Option<Json>, stage3: Option<Json>, metadata: Option<Json>)
    : StoredMessage
  {
    StoredMessage("assistant", None, stage1, stage2, stage3, metadata)
  }

  /** A conversation; `createdAt` is its creation time in milliseconds. */
  datatype Conversation = Conversation(id: string, createdAt: int, title: string, messages: seq<StoredMessage>)

  /** A line of the listing. */
  datatype ConversationMeta = ConversationMeta(id: string, createdAt: int, title: string, messageCount: nat)

  /** The listing line of a conversation. */
  function MetaOf(c: Conversation): (m: ConversationMeta)
    ensures m.id == c.id && m.createdAt == c.createdAt && m.messageCount == |c.messages|
    ensures m.title != []
    ensures c.title != [] ==> m.title == c.title
  {
    ConversationMeta(c.id, c.createdAt, if c.title != [] then c.title else DefaultTitle, |c.messages|)
  }

  /** Newest first: creation times never increase along the list. */
  predicate NewestFirst(list: seq<ConversationMeta>) {
    forall i, j :: 0 <= i < j < |list| ==> list[i].createdAt >= list[j].createdAt
  }

  /** Exchanges two neighbouring lines of the listing. */
  method SwapDown(a: array<ConversationMeta>, j: nat)
    requires 0 < j < a.Length
    modifies a
    ensures a[j - 1] == old(a[j]) && a[j] == old(a[j - 1])
    ensures forall m :: 0 <= m < a.Length && m != j - 1 && m != j ==> a[m] == old(a[m])
    ensures multiset(a[..]) == old(multiset(a[..]))
  {
    a[j - 1], a[j] := a[j], a[j - 1];
  }

  /**
   * The in-place sort of the listing by creation time, newest first (an insertion sort that
   * moves a line only past strictly older ones; stability itself is not stated).
   */
  method SortNewestFirst(a: array<ConversationMeta>)
    modifies a
    ensures NewestFirst(a[..])
    ensures multiset(a[..]) == multiset(old(a[..]))
  {
    var i := 0;
    while i < a.Length
      invariant 0 <= i <= a.Length
      invariant forall k, l :: 0 <= k < l < i ==> a[k].createdAt >= a[l].createdAt
      invariant multiset(a[..]) == multiset(old(a[..]))
    {
      var j := i;
      while j > 0 && a[j - 1].createdAt < a[j].createdAt
        invariant 0 <= j <= i
        invariant forall k, l :: 0 <= k < l <= i && k != j && l != j ==> a[k].createdAt >= a[l].createdAt
        invariant forall l :: j < l <= i ==> a[j].createdAt > a[l].createdAt
        invariant multiset(a[..]) == multiset(old(a[..]))
      {
        SwapDown(a, j);
        j := j - 1;
      }
      i := i + 1;
    }
  }

  /** The conversation table (an object store keyed by `id`). */
  class ConversationStore {
    var table: map<string, Conversation>

    /** Every conversation is stored under its own id. */
    predicate Valid()
      reads this
    {
      forall k :: k in table ==> table[k].id == k
    }

    /** `getConversation`: the stored conversation, or none. */
    function Get(id: string): (r: Option<Conversation>)
      reads this
      ensures r.Some? <==> id in table
      ensures r.Some? ==> r.value == table[id]
    {
      if id in table then Some(table[id]) else None
    }

    constructor()
      ensures Valid() && table == map[]
    {
      table := map[];
    }

    /** `createConversation`: adds a fresh, empty conversation; an id already in use is an error. */
    method Create(id: string, now: int) returns (r: Result<Conversation, string>)
      requires Valid()
      modifies this
      ensures Valid()
      ensures id in old(table) ==> r == Err("Failed to create conversation") && table == old(table)
      ensures id !in old(table) ==>
        r == Ok(Conversation(id, now, DefaultTitle, [])) && table == old(table)[id := r.value]
    {
      if id in table {
        return Err("Failed to create conversation");
      }
      var conversation := Conversation(id, now, DefaultTitle, []);
      table := table[id := conversation];
      return Ok(conversation);
    }

    /** `saveConversation`: stores the conversation under its id, replacing any earlier one. */
    method Save(conversation: Conversation)
      requires Valid()
      modifies this
      ensures Valid()
      ensures table == old(table)[conversation.id := conversation]
      ensures Get(conversation.id) == Some(conversation)
      ensures forall k :: k != conversation.id ==> Get(k) == old(Get(k))
    {
      table := table[conversation.id := conversation];
    }

    /** `deleteConversation`: afterwards the id is not found; nothing else changes. */
    method Delete(id: string)
      requires Valid()
      modifies this
      ensures Valid()
      ensures table == old(table) - {id}
      ensures Get(id) == None
      ensures forall k :: k != id ==> Get(k) == old(Get(k))
    {
      table := table - {id};
    }

    /** `clearAllConversations` */
    method Clear()
      modifies this
      ensures Valid() && table == map[]
    {
      table := map[];
    }

    /** The error the update operations raise for an unknown id. */
    static function NotFound(id: string): string {
      "Conversation " + id + " not found"
    }

    /** `addUserMessage`: one user message appended at the end; an unknown id changes nothing. */
    method AddUserMessage(id: string, content: string) returns (r: Result<(), string>)
      requires Valid()
      modifies this
      ensures Valid()
      ensures id !in old(table) ==> r == Err(NotFound(id)) && table == old(table)
      ensures id in old(table) ==>
        r.Ok? &&
        table == old(table)[id := old(table)[id].(messages := old(table)[id].messages + [UserMessage(content)])]
    {
      var conversation := Get(id);
      if conversation.None? {
        return Err(NotFound(id));
      }
      var c := conversation.value;
      Save(c.(messages := c.messages + [UserMessage(content)]));
      return Ok(());
    }

    /** `addAssistantMessage`: one assistant message with the three stages appended at the end. */
    method AddAssistantMessage(
      id: string, stage1: Option<Json>, stage2: Option<Json>, stage3: Option<Json>, metadata: Option<Json>)
      returns (r: Result<(), string>)
      requires Valid()
      modifies this
      ensures Valid()
      ensures id !in old(table) ==> r == Err(NotFound(id)) && table == old(table)
      ensures id in old(table) ==>
        r.Ok? &&
        table == old(table)[id := old(table)[id].(messages :=
          old(table)[id].messages + [AssistantMessage(stage1, stage2, stage3, metadata)])]
    {
      var conversation := Get(id);
      if conversation.None? {
        return Err(NotFound(id));
      }
      var c := conversation.value;
      Save(c.(messages := c.messages + [AssistantMessage(stage1, stage2, stage3, metadata)]));
      return Ok(());
    }

    /** `updateConversationTitle`: only the title changes; an unknown id changes nothing. */
    method UpdateTitle(id: string, title: string) returns (r: Result<(), string>)
      requires Valid()
      modifies this
      ensures Valid()
      ensures id !in old(table) ==> r == Err(NotFound(id)) && table == old(table)
      ensures id in old(table) ==> r.Ok? && table == old(table)[id := old(table)[id].(title := title)]
    {
      var conversation := Get(id);
      if conversation.None? {
        return Err(NotFound(id));
      }
      Save(conversation.value.(title := title));
      return Ok(());
    }

    /** The listing lines of all stored conversations. */
    function Metas(): set<ConversationMeta>
      reads this
    {
      set k | k in table :: MetaOf(table[k])
    }

    /**
     * `listConversations`: one line per stored conversation (its title, or the default title
     * when it is empty, and its message count), newest first.
     */
    method List() returns (list: seq<ConversationMeta>)
      requires Valid()
      ensures |list| == |table|
      ensures forall m :: m in list <==> m in Metas()
      ensures NewestFirst(list)
    {
      var keys := table.Keys;
      var collected: seq<ConversationMeta> := [];
      while keys != {}
        invariant keys <= table.Keys
        invariant |collected| + |keys| == |table.Keys|
        invariant forall i :: 0 <= i < |collected| ==> collected[i].id in table.Keys - keys
        invariant forall m :: m in collected <==> exists k :: k in table.Keys - keys && m == MetaOf(table[k])
        decreases |keys|
      {
        var k :| k in keys;
        collected := collected + [MetaOf(table[k])];
        keys := keys - {k};
      }
      assert table.Keys - keys == table.Keys;
      var a := new ConversationMeta[|collected|](i requires 0 <= i < |collected| => collected[i]);
      assert a[..] == collected;
      SortNewestFirst(a);
      list := a[..];
      forall m
        ensures m in list <==> m in Metas()
      {
        assert m in list <==> m in multiset(list);
        assert m in collected <==> m in multiset(collected);
      }
    }
  }
}
