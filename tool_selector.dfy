/**
 * The step of `ToolSelectorService.selectTool` that turns the selector
 * model's raw reply into the list of suggested tool names. The prompt, the
 * HTTP request and `JSON.parse` itself stay outside: the model starts from
 * what parsing the trimmed reply produced.
 */
module ToolSelector {
  import opened Wrappers
  import opened JsValues

  /**
   * What `JSON.parse(rawOutput.trim())` gave: a value, or a thrown error
   * (malformed text, or a reply whose `response` field is not a string).
   */
  datatype ParseOutcome = ParseFailed | Parsed(value: Json)

  /**
   * `tool.name` for one entry of `tool_calls`: `None` when the read throws,
   * which happens exactly when the entry is `null`.
   */
  function NameOf(entry: Json): Option<Prop> {
    if entry.JNull? then None else Some(Field(entry, "name"))
  }

  /**
   * `items.map(tool => tool.name)`: the names in order, or `None` when one
   * of the reads throws (and the whole map with it).
   */
  function MapNames(items: seq<Json>): (r: Option<seq<Prop>>)
    ensures r.None? <==> exists i :: 0 <= i < |items| && items[i].JNull?
    ensures r.Some? ==> |r.value| == |items|
    ensures r.Some? ==> forall i :: 0 <= i < |items| ==> NameOf(items[i]) == Some(r.value[i])
  {
    if items == [] then Some([])
    else if items[0].JNull? then None
    else match MapNames(items[1..])
      case None => None
      case Some(rest) => Some([Field(items[0], "name")] + rest)
  }

  /**
   * The `tool_calls` entries of a parsed reply, when `parsed?.tool_calls`
   * is an array; `None` when it is absent, `null` or any other value (an
   * absent or `null` field short-circuits `?.map`, any other value has no
   * `map` method and the call throws).
   */
  function ToolCalls(reply: ParseOutcome): (r: Option<seq<Json>>)
    ensures r.Some? <==>
      reply.Parsed? && reply.value.JObject? && "tool_calls" in reply.value.fields
      && reply.value.fields["tool_calls"].JArray?
    ensures r.Some? ==> r.value == reply.value.fields["tool_calls"].items
  {
    match reply
    case ParseFailed => None
    case Parsed(v) =>
      match Field(v, "tool_calls")
      case Defined(JArray(items)) => Some(items)
      case _ => None
  }

  /**
   * The names `selectTool` returns for a parsed reply, `None` standing for
   * its `null`: every failure (of the parse, of a missing or non-array
   * `tool_calls`, of a `null` entry) and the empty list all give `None`;
   * otherwise the `name` of every entry, in order, duplicates kept.
   */
  function SelectedNames(reply: ParseOutcome): (r: Option<seq<Prop>>)
    ensures reply.ParseFailed? ==> r.None?
    ensures ToolCalls(reply).None? ==> r.None?
    ensures ToolCalls(reply) == Some([]) ==> r.None?
    ensures r.Some? <==>
      ToolCalls(reply).Some? && |ToolCalls(reply).value| > 0
      && forall i :: 0 <= i < |ToolCalls(reply).value| ==> !ToolCalls(reply).value[i].JNull?
    ensures r.Some? ==> |r.value| > 0 && |r.value| == |ToolCalls(reply).value|
    ensures r.Some? ==> forall i :: 0 <= i < |r.value| ==>
      r.value[i] == Field(ToolCalls(reply).value[i], "name")
  {
    match ToolCalls(reply)
    case None => None
    case Some(items) =>
      match MapNames(items)
      case None => None
      case Some(names) => if |names| > 0 then Some(names) else None
  }

  /** One `tool_calls` entry `{"name": n}`. */
  function CallEntry(n: string): Json {
    JObject(map["name" := JString(n)])
  }

  /** The `tool_calls` entries `{"name": ns[0]}`, `{"name": ns[1]}`, ... */
  function CallEntries(ns: seq<string>): (r: seq<Json>)
    ensures |r| == |ns|
    ensures forall i :: 0 <= i < |ns| ==> r[i] == CallEntry(ns[i])
  {
    seq(|ns|, i requires 0 <= i < |ns| => CallEntry(ns[i]))
  }

  /**
   * A reply naming the tools `ns` selects exactly `ns`: every name, in
   * order, repeated names included. Nothing is deduplicated, and nothing is
   * compared with the available tool names, which this step never sees.
   */
  lemma {:induction false} DuplicateNamesKept(ns: seq<string>)
    requires |ns| > 0
    ensures SelectedNames(Parsed(JObject(map["tool_calls" := JArray(CallEntries(ns))])))
         == Some(seq(|ns|, i requires 0 <= i < |ns| => Defined(JString(ns[i]))))
  {
    var reply := Parsed(JObject(map["tool_calls" := JArray(CallEntries(ns))]));
    assert ToolCalls(reply) == Some(CallEntries(ns));
    forall i | 0 <= i < |ns|
      ensures !CallEntries(ns)[i].JNull? && Field(CallEntries(ns)[i], "name") == Defined(JString(ns[i]))
    {
      assert CallEntries(ns)[i] == CallEntry(ns[i]);
    }
    var r := SelectedNames(reply);
    assert r.Some?;
    assert r.value == seq(|ns|, i requires 0 <= i < |ns| => Defined(JString(ns[i])));
  }

  /** An entry that is `null` makes `tool.name` throw, so the whole selection is `null`. */
  lemma NullEntryDropsSelection(items: seq<Json>, i: nat)
    requires i < |items| && items[i].JNull?
    ensures SelectedNames(Parsed(JObject(map["tool_calls" := JArray(items)]))) == None
  {
  }

  /** An entry with no `name` field contributes `undefined`, and is not skipped. */
  lemma EntryWithoutNameGivesUndefined(items: seq<Json>, i: nat)
    requires i < |items| && items[i].JObject? && "name" !in items[i].fields
    requires forall j :: 0 <= j < |items| ==> !items[j].JNull?
    ensures SelectedNames(Parsed(JObject(map["tool_calls" := JArray(items)]))).Some?
    ensures SelectedNames(Parsed(JObject(map["tool_calls" := JArray(items)]))).value[i] == Undefined
  {
  }
}
