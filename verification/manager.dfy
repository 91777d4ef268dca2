/**
  The bibliography manager (zotero_manager.py): how each operation shapes the
  requests it sends to the remote library and turns the replies into its
  return value. The remote client is not part of this model: every reply it
  would give is an argument (`Ok(value)` or `Raised(exception)`), and every
  operation reports the calls it issues, in order, next to its result.
 */
module Manager {
  import opened Values
  import opened Text

  /** One call on the remote client. */
  datatype Call =
    | AllItems                                // every page of the library's items
    | ItemsQuery(params: map<string, string>) // the items endpoint with query parameters
    | ItemTemplate(itemType: Value)           // the empty record for an item type
    | CreateItems(records: seq<Record>)
    | FetchItem(key: string)
    | RemoveItem(item: Record)
    | Collections
    | CreateCollections(records: seq<Record>)
    | AddToCollection(collection: string, item: Record)
    | CollectionItems(collection: string)

  /** The calls an operation issued and what it returned or raised. */
  datatype Run<T> = Run(calls: seq<Call>, result: Result<T>)

  const DefaultItemType := "journalArticle"

  /** The export format used when none is given. */
  const DefaultFormat := "bibtex"

  /** `get_all_items`: one paged listing, returned as is. */
  function GetAllItems(listed: Result<seq<Record>>): (run: Run<seq<Record>>)
    ensures run.calls == [AllItems]
    ensures run.result == listed
  {
    Run([AllItems], listed)
  }

  /**
    The filter set of `search_items`: the query is always sent; an item type
    or tag is sent only when it is not the empty string.
   */
  function SearchFilter(query: string, itemType: string, tag: string): (params: map<string, string>)
    ensures "q" in params && params["q"] == query
    ensures "itemType" in params <==> itemType != ""
    ensures "itemType" in params ==> params["itemType"] == itemType
    ensures "tag" in params <==> tag != ""
    ensures "tag" in params ==> params["tag"] == tag
    ensures params.Keys <= {"q", "itemType", "tag"}
  {
    var withQuery := map["q" := query];
    var withType := if itemType != "" then withQuery["itemType" := itemType] else withQuery;
    if tag != "" then withType["tag" := tag] else withType
  }

  /** `search_items`: one filtered query, its reply returned as is. */
  function SearchItems(query: string, itemType: string := "", tag: string := "", found: Result<seq<Record>>): (run: Run<seq<Record>>)
    ensures run.calls == [ItemsQuery(SearchFilter(query, itemType, tag))]
    ensures run.result == found
  {
    Run([ItemsQuery(SearchFilter(query, itemType, tag))], found)
  }

  /** The item type whose template `create_item` asks for. */
  function TemplateName(itemData: Record): (t: Value)
    ensures "itemType" in itemData ==> t == itemData["itemType"]
    ensures "itemType" !in itemData ==> t == Str(DefaultItemType)
  {
    Get(itemData, "itemType", Str(DefaultItemType))
  }

  /**
    The template after `create_item` copies the caller's fields into it:
    the template's key set is kept exactly, caller keys it does not know are
    dropped, shared keys take the caller's value and the rest keep the
    template's.
   */
  function Merged(template: Record, itemData: Record): (merged: Record)
    ensures merged.Keys == template.Keys
    ensures forall k :: k in itemData && k !in template ==> k !in merged
    ensures forall k :: k in template && k in itemData ==> merged[k] == itemData[k]
    ensures forall k :: k in template && k !in itemData ==> merged[k] == template[k]
  {
    template + map k | k in itemData && k in template :: itemData[k]
  }

  /**
    The copy loop of `create_item`: walks the caller's fields one at a time
    (in whatever order) and overwrites a template field only when the
    template already has that key.
   */
  method FillTemplate(template: Record, itemData: Record) returns (filled: Record)
    ensures filled.Keys == template.Keys
    ensures forall k :: k in template && k in itemData ==> filled[k] == itemData[k]
    ensures forall k :: k in template && k !in itemData ==> filled[k] == template[k]
    ensures filled == Merged(template, itemData)
  {
    filled := template;
    var pending := itemData.Keys;
    while pending != {}
      invariant pending <= itemData.Keys
      invariant filled.Keys == template.Keys
      invariant forall k :: k in template && k in itemData && k !in pending ==> filled[k] == itemData[k]
      invariant forall k :: k in template && (k !in itemData || k in pending) ==> filled[k] == template[k]
      decreases pending
    {
      var key :| key in pending;
      if key in filled {
        filled := filled[key := itemData[key]];
      }
      pending := pending - {key};
    }
    assert filled.Keys == Merged(template, itemData).Keys;
  }

  /**
    `resp['success']` judged by truthiness: an acknowledgement without a
    `success` entry raises KeyError.
   */
  function Acknowledged(ack: Result<Record>): (r: Result<bool>)
    ensures r == Ok(true) <==> ack.Ok? && "success" in ack.value && Truthy(ack.value["success"])
    ensures r == Ok(false) <==> ack.Ok? && "success" in ack.value && !Truthy(ack.value["success"])
    ensures ack.Raised? ==> r == Raised(ack.error)
    ensures ack.Ok? && "success" !in ack.value ==> r == Raised(MissingKey("success"))
  {
    match ack
    case Raised(e) => Raised(e)
    case Ok(resp) =>
      if "success" in resp then Ok(Truthy(resp["success"])) else Raised(MissingKey("success"))
  }

  /**
    `create_item`: asks for the template of the item's type, submits the
    merged record alone, and reports the acknowledgement.
   */
  function CreateItem(itemData: Record, template: Result<Record>, ack: Result<Record>): (run: Run<bool>)
    ensures |run.calls| >= 1 && run.calls[0] == ItemTemplate(TemplateName(itemData))
    ensures template.Raised? ==> run == Run([ItemTemplate(TemplateName(itemData))], Raised(template.error))
    ensures template.Ok? ==> run.calls == [ItemTemplate(TemplateName(itemData)), CreateItems([Merged(template.value, itemData)])]
    ensures template.Ok? ==> run.result == Acknowledged(ack)
  {
    var lookup := ItemTemplate(TemplateName(itemData));
    match template
    case Raised(e) => Run([lookup], Raised(e))
    case Ok(t) => Run([lookup, CreateItems([Merged(t, itemData)])], Acknowledged(ack))
  }

  /**
    `delete_item`: fetches the item, deletes what was fetched, and reports
    success once the delete call returns, without checking anything.
   */
  function DeleteItem(key: string, fetched: Result<Record>, deleted: Result<()>): (run: Run<bool>)
    ensures run.result != Ok(false)
    ensures run.result == Ok(true) <==> fetched.Ok? && deleted.Ok?
    ensures fetched.Raised? ==> run == Run([FetchItem(key)], Raised(fetched.error))
    ensures fetched.Ok? ==> run.calls == [FetchItem(key), RemoveItem(fetched.value)]
    ensures fetched.Ok? && deleted.Raised? ==> run.result == Raised(deleted.error)
  {
    match fetched
    case Raised(e) => Run([FetchItem(key)], Raised(e))
    case Ok(item) =>
      match deleted
      case Raised(e) => Run([FetchItem(key), RemoveItem(item)], Raised(e))
      case Ok(_) => Run([FetchItem(key), RemoveItem(item)], Ok(true))
  }

  /** `get_collections`: one listing, returned as is. */
  function GetCollections(listed: Result<seq<Record>>): (run: Run<seq<Record>>)
    ensures run.calls == [Collections]
    ensures run.result == listed
  {
    Run([Collections], listed)
  }

  /**
    The record `create_collection` submits: always the name, the parent only
    when it is truthy (so neither `None` nor `''` is sent), nothing else.
   */
  function CollectionTemplate(name: string, parent: Value): (template: Record)
    ensures "name" in template && template["name"] == Str(name)
    ensures "parentCollection" in template <==> Truthy(parent)
    ensures "parentCollection" in template ==> template["parentCollection"] == parent
    ensures template.Keys <= {"name", "parentCollection"}
  {
    var named := map["name" := Str(name)];
    if Truthy(parent) then named["parentCollection" := parent] else named
  }

  /** `create_collection`: one creation call, its acknowledgement reported. */
  function CreateCollection(name: string, parent: Value := Null, ack: Result<Record>): (run: Run<bool>)
    ensures run.calls == [CreateCollections([CollectionTemplate(name, parent)])]
    ensures run.result == Acknowledged(ack)
  {
    Run([CreateCollections([CollectionTemplate(name, parent)])], Acknowledged(ack))
  }

  /**
    `add_item_to_collection`: fetches the item and adds what was fetched to
    the collection; it returns nothing.
   */
  function AddItemToCollection(itemKey: string, collectionKey: string, fetched: Result<Record>, added: Result<()>): (run: Run<()>)
    ensures run.result.Ok? <==> fetched.Ok? && added.Ok?
    ensures fetched.Raised? ==> run == Run([FetchItem(itemKey)], Raised(fetched.error))
    ensures fetched.Ok? ==> run.calls == [FetchItem(itemKey), AddToCollection(collectionKey, fetched.value)]
    ensures fetched.Ok? && added.Raised? ==> run.result == Raised(added.error)
  {
    match fetched
    case Raised(e) => Run([FetchItem(itemKey)], Raised(e))
    case Ok(item) => Run([FetchItem(itemKey), AddToCollection(collectionKey, item)], added)
  }

  /** `[item['key'] for item in items]`: the first item without a key raises KeyError. */
  function ItemKeys(items: seq<Record>): (r: Result<seq<Value>>)
    ensures r.Ok? <==> forall i :: 0 <= i < |items| ==> "key" in items[i]
    ensures r.Ok? ==> |r.value| == |items| && forall i :: 0 <= i < |items| ==> r.value[i] == items[i]["key"]
    ensures r.Raised? ==> r.error == MissingKey("key")
  {
    if |items| == 0 then Ok([])
    else if "key" !in items[0] then Raised(MissingKey("key"))
    else match ItemKeys(items[1..])
      case Raised(e) => Raised(e)
      case Ok(rest) => Ok([items[0]["key"]] + rest)
  }

  /** Whether every item has a string `key`. */
  predicate HasStringKeys(items: seq<Record>)
  {
    forall i :: 0 <= i < |items| ==> "key" in items[i] && items[i]["key"].Str?
  }

  /** The keys of items that all have one, in listing order. */
  function KeyTexts(items: seq<Record>): (keys: seq<string>)
    requires HasStringKeys(items)
    ensures |keys| == |items|
    ensures forall i :: 0 <= i < |items| ==> keys[i] == items[i]["key"].s
  {
    if |items| == 0 then [] else [items[0]["key"].s] + KeyTexts(items[1..])
  }

  /**
    `','.join(item_keys)`: the `itemKey` argument of the export query. A
    missing key raises KeyError before any joining; otherwise the first key
    that is not a string raises the join's TypeError.
   */
  function KeyList(items: seq<Record>): (r: Result<string>)
    ensures r.Ok? <==> HasStringKeys(items)
    ensures r.Ok? ==> r.value == Join(",", KeyTexts(items))
    ensures (exists i :: 0 <= i < |items| && "key" !in items[i]) ==> r == Raised(MissingKey("key"))
    ensures (forall i :: 0 <= i < |items| ==> "key" in items[i]) && !HasStringKeys(items) ==>
              exists i :: 0 <= i < |items| && !items[i]["key"].Str?
                && r == Raised(JoinItem(i, TypeName(items[i]["key"])))
                && forall j :: 0 <= j < i ==> items[j]["key"].Str?
  {
    var r := ItemKeys(items).Then(keys => JoinStrings(",", keys));
    assert r.Ok? ==> Texts(ItemKeys(items).value) == KeyTexts(items);
    r
  }

  /** The single query an export sends: the listed keys and the format. */
  function ExportQuery(itemKey: string, format: string): Call
  {
    ItemsQuery(map["itemKey" := itemKey, "format" := format])
  }

  /** The listing call followed by the batched export of everything it listed. */
  function ExportListed(listing: Call, format: string, listed: Result<seq<Record>>, exported: Result<seq<Value>>): (run: Run<seq<Value>>)
  {
    match listed
    case Raised(e) => Run([listing], Raised(e))
    case Ok(items) =>
      match KeyList(items)
      case Raised(e) => Run([listing], Raised(e))
      case Ok(itemKey) => Run([listing, ExportQuery(itemKey, format)], exported)
  }

  /**
    `export_library`: lists every item, then sends one export query keyed by
    their keys joined with commas in listing order. The reply stands for the
    rendered entries.
   */
  function ExportLibrary(format: string := DefaultFormat, listed: Result<seq<Record>>, exported: Result<seq<Value>>): (run: Run<seq<Value>>)
    ensures |run.calls| >= 1 && run.calls[0] == AllItems
    ensures listed.Ok? && KeyList(listed.value).Ok? ==>
              run == Run([AllItems, ExportQuery(KeyList(listed.value).value, format)], exported)
    ensures listed.Raised? ==> run == Run([AllItems], Raised(listed.error))
    ensures listed.Ok? && KeyList(listed.value).Raised? ==> run == Run([AllItems], Raised(KeyList(listed.value).error))
  {
    ExportListed(AllItems, format, listed, exported)
  }

  /** `export_collections`: the same, over the items of one collection. */
  function ExportCollection(collectionKey: string, format: string := DefaultFormat, listed: Result<seq<Record>>, exported: Result<seq<Value>>): (run: Run<seq<Value>>)
    ensures |run.calls| >= 1 && run.calls[0] == CollectionItems(collectionKey)
    ensures listed.Ok? && KeyList(listed.value).Ok? ==>
              run == Run([CollectionItems(collectionKey), ExportQuery(KeyList(listed.value).value, format)], exported)
    ensures listed.Raised? ==> run == Run([CollectionItems(collectionKey)], Raised(listed.error))
    ensures listed.Ok? && KeyList(listed.value).Raised? ==>
              run == Run([CollectionItems(collectionKey)], Raised(KeyList(listed.value).error))
  {
    ExportListed(CollectionItems(collectionKey), format, listed, exported)
  }

  /** Every export issues at most one export query, and it is the last call. */
  predicate OneExportQuery(calls: seq<Call>)
  {
    forall i :: 0 <= i < |calls| && calls[i].ItemsQuery? ==> i == |calls| - 1
  }

  /**
    The export's `itemKey` names exactly the listed items, in order: when the
    keys are strings without commas, splitting it at the commas gives them
    back, and the export query is the only `ItemsQuery` sent.
   */
  lemma ExportKeysRoundTrip(format: string, items: seq<Record>, exported: Result<seq<Value>>)
    requires |items| >= 1
    requires forall i :: 0 <= i < |items| ==> "key" in items[i] && items[i]["key"].Str? && ',' !in items[i]["key"].s
    ensures var run := ExportLibrary(format, Ok(items), exported);
            && |run.calls| == 2
            && OneExportQuery(run.calls)
            && run.calls[1].ItemsQuery?
            && run.calls[1].params.Keys == {"itemKey", "format"}
            && run.calls[1].params["format"] == format
            && var sent := Split(run.calls[1].params["itemKey"], ',');
               |sent| == |items| && forall i :: 0 <= i < |items| ==> sent[i] == items[i]["key"].s
  {
    var keys := ItemKeys(items).value;
    var texts := Texts(keys);
    assert Free(texts, ',') by {
      forall i | 0 <= i < |texts| ensures ',' !in texts[i] {
        assert texts[i] == items[i]["key"].s;
      }
    }
    SplitJoin(texts, ',');
  }
}
