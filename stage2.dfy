/**
 * The peer-review panel: replacing the anonymous labels ("Response A", ...) in an evaluation
 * by the bold short names of the models behind them, and the display of a parsed ranking.
 */
module Stage2View {
  import opened Wrappers
  import opened JsString

  /** `model.split('/')[1] || model`: the segment after the provider prefix, or the whole id. */
  function ShortName(model: string): (r: string)
    ensures r == model || (r != [] && '/' !in r)
  {
    var parts := Split(model, '/');
    if |parts| >= 2 && parts[1] != [] then parts[1] else model
  }

  /**
   * The short name by positions: without a '/', the id itself; otherwise the text between
   * the first '/' and the next one (or the end), unless that text is empty.
   */
  lemma ShortNameOf(model: string)
    ensures '/' !in model ==> ShortName(model) == model
    ensures '/' in model ==>
      var rest := model[FirstIndex(model, '/') + 1..];
      var segment := rest[..FirstIndex(rest, '/')];
      ShortName(model) == if segment != [] then segment else model
  {
    var parts := Split(model, '/');
    if '/' !in model {
      SplitWithout(model, '/');
    } else {
      var i := FirstIndex(model, '/');
      var rest := model[i + 1..];
      SplitFirst(model, '/');
      assert parts == [model[..i]] + Split(rest, '/');
      SplitHead(rest, '/');
      assert |parts| >= 2 && parts[1] == rest[..FirstIndex(rest, '/')];
    }
  }

  /** The markdown replacement text for a model: its short name in bold. */
  function Bold(name: string): (r: string)
    ensures |r| == |name| + 4
    ensures r[..2] == "**" && r[2..|r| - 2] == name && r[|r| - 2..] == "**"
  {
    "**" + name + "**"
  }

  /** One replacement step: every occurrence of the label becomes the model's bold short name. */
  function Step(text: string, entry: (string, string)): string
  {
    ReplaceAll(text, entry.0, Bold(ShortName(entry.1)))
  }

  /** The entries applied one after another, in the order the label map enumerates them. */
  function DeAnonymized(text: string, entries: seq<(string, string)>): string
    decreases |entries|
  {
    if entries == [] then text
    else Step(DeAnonymized(text, entries[..|entries| - 1]), entries[|entries| - 1])
  }

  /** Without a label map the text is shown as is; otherwise the replacements run in order. */
  method DeAnonymizeText(text: string, labelToModel: Option<seq<(string, string)>>)
    returns (result: string)
    ensures labelToModel.None? ==> result == text
    ensures labelToModel.Some? ==> result == DeAnonymized(text, labelToModel.value)
  {
    if labelToModel.None? {
      return text;
    }
    var entries := labelToModel.value;
    result := text;
    var i := 0;
    while i < |entries|
      invariant 0 <= i <= |entries|
      invariant result == DeAnonymized(text, entries[..i])
    {
      assert entries[..i + 1][..i] == entries[..i];
      result := Step(result, entries[i]);
      i := i + 1;
    }
    assert entries[..|entries|] == entries;
  }

  /** A text in which no label occurs is left unchanged (an empty label always occurs). */
  lemma {:induction false} NoLabelsUnchanged(text: string, entries: seq<(string, string)>)
    requires forall k :: 0 <= k < |entries| ==> !Contains(text, entries[k].0)
    ensures DeAnonymized(text, entries) == text
  {
    if entries != [] {
      var last := entries[|entries| - 1];
      NoLabelsUnchanged(text, entries[..|entries| - 1]);
      assert OccursAt(text, [], 0);
      ReplaceAbsent(text, last.0, Bold(ShortName(last.1)));
    }
  }

  /** The bold short name holds no label that is free of '*' and absent from the short name. */
  lemma BoldAvoids(name: string, tag: string)
    requires tag != [] && '*' !in tag && !Contains(name, tag)
    ensures !Contains(Bold(name), tag)
  {
    var stars: string := "**";
    DisjointAbsent(stars, tag);
    ConcatAbsent(stars, name, tag);
    ConcatAbsent(stars + name, stars, tag);
  }

  /**
   * Right after the step for entry i, its label no longer occurs in the text, provided the
   * label is non-empty, has no '*', and does not occur in its own model's short name.
   */
  lemma LabelGoneAfterStep(text: string, entries: seq<(string, string)>, i: nat)
    requires i < |entries|
    requires entries[i].0 != [] && '*' !in entries[i].0
    requires !Contains(ShortName(entries[i].1), entries[i].0)
    ensures !Contains(DeAnonymized(text, entries[..i + 1]), entries[i].0)
  {
    var tag := entries[i].0;
    var bold := Bold(ShortName(entries[i].1));
    assert entries[..i + 1][..i] == entries[..i];
    BoldAvoids(ShortName(entries[i].1), tag);
    ReplaceRemoves(DeAnonymized(text, entries[..i]), tag, bold);
  }

  /**
   * Without the last hypothesis the label can survive: a model whose short name is the label
   * itself (such as "x/Response A" for "Response A") puts the label back.
   */
  lemma LabelCanSurvive(tag: string, provider: string)
    requires tag != [] && '/' !in tag && '/' !in provider
    ensures Contains(DeAnonymized(tag, [(tag, provider + "/" + tag)]), tag)
  {
    var entries := [(tag, provider + "/" + tag)];
    var bold := Bold(tag);
    ShortNameOfPrefixed(provider, tag);
    ReplaceWhole(tag, bold);
    assert entries[..0] == [];
    assert DeAnonymized(tag, entries) == bold;
    assert bold[2..2 + |tag|] == tag;
    assert OccursAt(bold, tag, 2);
  }

  /** A provider-prefixed id `provider/name`, with no other '/', has the name as short name. */
  lemma ShortNameOfPrefixed(provider: string, name: string)
    requires '/' !in provider && '/' !in name && name != []
    ensures ShortName(provider + "/" + name) == name
  {
    var model := provider + "/" + name;
    assert model[..|provider|] == provider;
    FirstIndexAt(model, '/', |provider|);
    assert model[|provider| + 1..] == name;
    assert name[..FirstIndex(name, '/')] == name;
    ShortNameOf(model);
  }

  lemma ReplaceWhole(s: string, replacement: string)
    requires s != []
    ensures ReplaceAll(s, s, replacement) == replacement
  {
    assert StartsWith(s, s);
    assert s[|s|..] == [];
  }

  /** The model a label maps to: the first entry with that label, if any. */
  function Lookup(entries: seq<(string, string)>, tag: string): (r: Option<string>)
    ensures r.Some? <==> exists k :: 0 <= k < |entries| && entries[k].0 == tag
    ensures r.Some? ==> exists k :: 0 <= k < |entries| && entries[k] == (tag, r.value)
  {
    if entries == [] then None
    else if entries[0].0 == tag then Some(entries[0].1)
    else
      var r := Lookup(entries[1..], tag);
      assert forall k :: 1 <= k < |entries| ==> entries[k] == entries[1..][k - 1];
      r
  }

  /** How one label of the ranking is listed. */
  function DisplayLabel(tag: string, labelToModel: Option<seq<(string, string)>>): string {
    var model := if labelToModel.Some? then Lookup(labelToModel.value, tag) else None;
    if model.Some? && model.value != [] then ShortName(model.value) else tag
  }

  /**
   * The extracted ranking as listed: each label whose model is known (and non-empty) is shown
   * by the model's short name, any other label as itself.
   */
  function DisplayRanking(parsed: seq<string>, labelToModel: Option<seq<(string, string)>>)
    : (shown: seq<string>)
    ensures |shown| == |parsed|
    ensures forall i :: 0 <= i < |parsed| ==>
      shown[i] == match (if labelToModel.Some? then Lookup(labelToModel.value, parsed[i]) else None)
        case Some(model) => if model != [] then ShortName(model) else parsed[i]
        case None => parsed[i]
  {
    seq(|parsed|, i requires 0 <= i < |parsed| => DisplayLabel(parsed[i], labelToModel))
  }

  /** Labels with no known model pass through, in order. */
  lemma UnknownLabelsKept(parsed: seq<string>, entries: seq<(string, string)>)
    requires forall i, k :: 0 <= i < |parsed| && 0 <= k < |entries| ==> entries[k].0 != parsed[i]
    ensures DisplayRanking(parsed, Some(entries)) == parsed
  {
    forall i | 0 <= i < |parsed|
      ensures Lookup(entries, parsed[i]).None?
    {
    }
  }
}
