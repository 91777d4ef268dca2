/**
  The tool endpoints (zotero_mcp_server.py). Each tool builds a manager,
  runs one manager operation and turns its result into text; whatever is
  raised on the way, including by building the manager, comes back as
  `Error: <message>` instead of propagating. The transport, the registration
  decorators and the credentials from the environment are not modelled: the
  outcome of building the manager is the argument `connect`.
 */
module Tools {
  import opened Values
  import opened Text
  import opened Formatting
  import Manager

  /** What a tool sends to the remote library and the text it returns. */
  datatype Response = Response(calls: seq<Manager.Call>, text: string)

  const Success := "Success"
  const CouldNotComplete := "Could not complete the action"
  const ErrorPrefix := "Error: "
  const ManagerClass := "ZoteroBibliographyManager"

  /** `f"Error: {e}"` */
  function ErrorText(e: Exception): (text: string)
    ensures ErrorPrefix <= text
    ensures text[|ErrorPrefix|..] == Message(e)
  {
    ErrorPrefix + Message(e)
  }

  /** A text result, or the error text of what was raised. */
  function Report(r: Result<string>): string
  {
    match r
    case Ok(text) => text
    case Raised(e) => ErrorText(e)
  }

  /** The two literals of a single-outcome tool, or the error text of what was raised. */
  function Decide(r: Result<bool>, success: string): string
  {
    match r
    case Ok(b) => if b then success else CouldNotComplete
    case Raised(e) => ErrorText(e)
  }

  /**
    A single-outcome tool answers with its success literal exactly when the
    manager returned true, with `Could not complete the action` exactly when
    it returned false, and with `Error: ` followed by the message otherwise.
   */
  lemma DecideOutcomes(r: Result<bool>, success: string)
    requires success != CouldNotComplete && !(ErrorPrefix <= success)
    ensures Decide(r, success) == success <==> r == Ok(true)
    ensures Decide(r, success) == CouldNotComplete <==> r == Ok(false)
    ensures ErrorPrefix <= Decide(r, success) <==> r.Raised?
    ensures r.Raised? ==> Decide(r, success) == ErrorPrefix + Message(r.error)
  {
    assert CouldNotComplete[0] != ErrorPrefix[0];
  }

  /** The body of a tool inside its `try`: building the manager comes first. */
  function Guarded<T>(connect: Result<()>, run: Manager.Run<T>, render: Result<T> -> string): (resp: Response)
    ensures connect.Raised? ==> resp == Response([], ErrorText(connect.error))
    ensures connect.Ok? ==> resp == Response(run.calls, render(run.result))
  {
    match connect
    case Raised(e) => Response([], ErrorText(e))
    case Ok(_) => Response(run.calls, render(run.result))
  }

  /** The text of a listing tool: the joined blocks, or the error text. */
  function ListingText<T>(listed: Result<seq<T>>, maxItems: int, block: T -> Result<string>): string
  {
    Report(listed.Then(results => Listing(results, maxItems, block)))
  }

  /** The block renderer of the item listings. */
  function ItemRenderer(reprOf: Value -> string): Record -> Result<string>
  {
    item => ItemBlock(item, reprOf)
  }

  /** The block renderer of the collection listing. */
  function CollectionRenderer(reprOf: Value -> string): Record -> Result<string>
  {
    collection => FormatCollection(collection, reprOf)
  }

  /** How many results a listing tool returns when `max_items` is not given. */
  const DefaultMaxItems := 5

  /**
    `get_zotero_items`: one paged listing. Nothing is listed when the manager
    cannot be built, and a listing that raised comes back as its error text.
   */
  function GetZoteroItems(maxItems: int := DefaultMaxItems, reprOf: Value -> string, connect: Result<()>,
                          listed: Result<seq<Record>>): (resp: Response)
    ensures connect.Raised? ==> resp == Response([], ErrorText(connect.error))
    ensures connect.Ok? ==> resp.calls == [Manager.AllItems]
    ensures connect.Ok? && listed.Raised? ==> resp.text == ErrorText(listed.error)
    ensures connect.Ok? && listed.Ok? && Truncate(listed.value, maxItems) == [] ==> resp.text == ""
  {
    Guarded(connect, Manager.GetAllItems(listed),
            r => ListingText(r, maxItems, ItemRenderer(reprOf)))
  }

  /**
    `search_zotero`: forwards the query and item type only, never a tag, in a
    single query.
   */
  function SearchZotero(query: string, maxItems: int := DefaultMaxItems, itemType: string := "",
                        reprOf: Value -> string, connect: Result<()>, found: Result<seq<Record>>): (resp: Response)
    ensures connect.Raised? ==> resp == Response([], ErrorText(connect.error))
    ensures connect.Ok? ==> |resp.calls| == 1 && resp.calls[0].ItemsQuery? && "tag" !in resp.calls[0].params
    ensures connect.Ok? && found.Raised? ==> resp.text == ErrorText(found.error)
    ensures connect.Ok? && found.Ok? && Truncate(found.value, maxItems) == [] ==> resp.text == ""
  {
    Guarded(connect, Manager.SearchItems(query, itemType, found := found),
            r => ListingText(r, maxItems, ItemRenderer(reprOf)))
  }

  /**
    `create_item_zotero`: asks for the template of the item's type first, and
    answers with one of its two literals or an error text.
   */
  function CreateItemZotero(itemData: Record, connect: Result<()>, template: Result<Record>, ack: Result<Record>): (resp: Response)
    ensures connect.Raised? ==> resp == Response([], ErrorText(connect.error))
    ensures connect.Ok? ==> |resp.calls| >= 1 && resp.calls[0] == Manager.ItemTemplate(Manager.TemplateName(itemData))
    ensures connect.Ok? && template.Raised? ==>
              resp == Response([Manager.ItemTemplate(Manager.TemplateName(itemData))], ErrorText(template.error))
    ensures resp.text == Success || resp.text == CouldNotComplete || ErrorPrefix <= resp.text
  {
    Guarded(connect, Manager.CreateItem(itemData, template, ack), r => Decide(r, Success))
  }

  /**
    `update_item_zotero`: the manager has no `update_item`, so looking it up
    raises AttributeError whenever the manager could be built.
   */
  function UpdateItemZotero(itemKey: string, itemData: Record, connect: Result<()>): (resp: Response)
    ensures resp.calls == []
    ensures ErrorPrefix <= resp.text
    ensures connect.Ok? ==> resp.text == ErrorText(NoAttribute(ManagerClass, "update_item"))
  {
    match connect
    case Raised(e) => Response([], ErrorText(e))
    case Ok(_) => Response([], ErrorText(NoAttribute(ManagerClass, "update_item")))
  }

  /**
    `delete_item_zotero`: fetches the item, then deletes exactly what was
    fetched.
   */
  function DeleteItemZotero(itemKey: string, connect: Result<()>, fetched: Result<Record>, deleted: Result<()>): (resp: Response)
    ensures connect.Raised? ==> resp == Response([], ErrorText(connect.error))
    ensures connect.Ok? && fetched.Raised? ==> resp == Response([Manager.FetchItem(itemKey)], ErrorText(fetched.error))
    ensures connect.Ok? && fetched.Ok? ==> resp.calls == [Manager.FetchItem(itemKey), Manager.RemoveItem(fetched.value)]
  {
    Guarded(connect, Manager.DeleteItem(itemKey, fetched, deleted), r => Decide(r, "Success deleting item " + itemKey))
  }

  /** `get_zotero_collections`: one listing of the collections. */
  function GetZoteroCollections(maxItems: int := DefaultMaxItems, reprOf: Value -> string, connect: Result<()>,
                                listed: Result<seq<Record>>): (resp: Response)
    ensures connect.Raised? ==> resp == Response([], ErrorText(connect.error))
    ensures connect.Ok? ==> resp.calls == [Manager.Collections]
    ensures connect.Ok? && listed.Raised? ==> resp.text == ErrorText(listed.error)
    ensures connect.Ok? && listed.Ok? && Truncate(listed.value, maxItems) == [] ==> resp.text == ""
  {
    Guarded(connect, Manager.GetCollections(listed),
            r => ListingText(r, maxItems, CollectionRenderer(reprOf)))
  }

  /** The parent handed to the manager: the string when it is non-empty, otherwise the default `None`. */
  function ParentArgument(parent: string): (v: Value)
    ensures Truthy(v) <==> |parent| > 0
    ensures |parent| > 0 ==> v == Str(parent)
  {
    if |parent| > 0 then Str(parent) else Null
  }

  /** `create_zotero_collection`: one creation request holding one collection. */
  function CreateZoteroCollection(name: string, parent: string := "", connect: Result<()>, ack: Result<Record>): (resp: Response)
    ensures connect.Raised? ==> resp == Response([], ErrorText(connect.error))
    ensures connect.Ok? ==> |resp.calls| == 1 && resp.calls[0].CreateCollections? && |resp.calls[0].records| == 1
    ensures resp.text == Success || resp.text == CouldNotComplete || ErrorPrefix <= resp.text
  {
    Guarded(connect, Manager.CreateCollection(name, ParentArgument(parent), ack), r => Decide(r, Success))
  }

  /** `add_item_zotero_collection`: `Success` whenever nothing was raised. */
  function AddItemZoteroCollection(itemKey: string, collectionKey: string, connect: Result<()>,
                                   fetched: Result<Record>, added: Result<()>): (resp: Response)
    ensures connect.Raised? ==> resp == Response([], ErrorText(connect.error))
    ensures connect.Ok? && fetched.Raised? ==> resp == Response([Manager.FetchItem(itemKey)], ErrorText(fetched.error))
    ensures connect.Ok? && fetched.Ok? ==>
              resp.calls == [Manager.FetchItem(itemKey), Manager.AddToCollection(collectionKey, fetched.value)]
  {
    Guarded(connect, Manager.AddItemToCollection(itemKey, collectionKey, fetched, added),
            (r: Result<()>) => if r.Ok? then Success else ErrorText(r.error))
  }

  /**
    The text of an export tool: the entries joined by newlines; the first
    entry that is not a string raises the join's TypeError.
   */
  function ExportText(r: Result<seq<Value>>): (text: string)
    ensures r.Raised? ==> text == ErrorText(r.error)
    ensures r.Ok? && (forall i :: 0 <= i < |r.value| ==> r.value[i].Str?) ==> text == Join("\n", Texts(r.value))
    ensures r.Ok? && !(forall i :: 0 <= i < |r.value| ==> r.value[i].Str?) ==>
              exists i :: 0 <= i < |r.value| && !r.value[i].Str?
                && text == ErrorText(JoinItem(i, TypeName(r.value[i])))
                && forall j :: 0 <= j < i ==> r.value[j].Str?
  {
    Report(r.Then(entries => JoinStrings("\n", entries)))
  }

  /** `export_zotero_library`: lists every item before exporting anything. */
  function ExportZoteroLibrary(format: string := Manager.DefaultFormat, connect: Result<()>,
                               listed: Result<seq<Record>>, exported: Result<seq<Value>>): (resp: Response)
    ensures connect.Raised? ==> resp == Response([], ErrorText(connect.error))
    ensures connect.Ok? ==> 1 <= |resp.calls| <= 2 && resp.calls[0] == Manager.AllItems
    ensures connect.Ok? && listed.Raised? ==> resp == Response([Manager.AllItems], ErrorText(listed.error))
  {
    Guarded(connect, Manager.ExportLibrary(format, listed, exported), ExportText)
  }

  /** `export_zotero_collection`: lists the collection's items before exporting anything. */
  function ExportZoteroCollection(collectionKey: string, format: string := Manager.DefaultFormat, connect: Result<()>,
                                  listed: Result<seq<Record>>, exported: Result<seq<Value>>): (resp: Response)
    ensures connect.Raised? ==> resp == Response([], ErrorText(connect.error))
    ensures connect.Ok? ==> 1 <= |resp.calls| <= 2 && resp.calls[0] == Manager.CollectionItems(collectionKey)
    ensures connect.Ok? && listed.Raised? ==> resp == Response([Manager.CollectionItems(collectionKey)], ErrorText(listed.error))
  {
    Guarded(connect, Manager.ExportCollection(collectionKey, format, listed, exported), ExportText)
  }

  // ---------------------------------------------------------------------------
  // Properties of the tools

  /** A rendered item block opens with a newline. */
  lemma ItemBlockOpensWithNewline(item: Value, reprOf: Value -> string)
    requires FormatItem(item, reprOf).Ok?
    ensures var text := FormatItem(item, reprOf).value; |text| > 0 && text[0] == '\n'
  {
    var lines := ItemLines(item.fields, CreatorsLine(item.fields).value, reprOf);
    assert Join("\n", lines) == "" + "\n" + Join("\n", lines[1..]);
  }

  /** Every item block a listing renders opens with a newline. */
  lemma ItemListingsOpenWithNewline(reprOf: Value -> string)
    ensures var block := ItemRenderer(reprOf);
            forall x :: block(x).Ok? ==> |block(x).value| > 0 && block(x).value[0] == '\n'
  {
    var block := ItemRenderer(reprOf);
    forall x ensures block(x).Ok? ==> |block(x).value| > 0 && block(x).value[0] == '\n' {
      if block(x).Ok? {
        ItemBlockOpensWithNewline(Get(x, "data", Dict(map[])), reprOf);
      }
    }
  }

  /** A rendered collection block opens with a newline. */
  lemma CollectionBlockOpensWithNewline(collection: Record, reprOf: Value -> string)
    requires FormatCollection(collection, reprOf).Ok?
    ensures var text := FormatCollection(collection, reprOf).value; |text| > 0 && text[0] == '\n'
  {
    var data := Get(collection, "data", Dict(map[])).fields;
    var meta := Get(collection, "meta", Dict(map[])).fields;
    var lines := CollectionLines(data, meta, reprOf);
    assert Join("\n", lines) == "" + "\n" + Join("\n", lines[1..]);
  }

  /** Joined blocks that each open with a newline never read as an error text. */
  lemma JoinedBlocksAreNotErrors(blocks: seq<string>)
    requires forall i :: 0 <= i < |blocks| ==> |blocks[i]| > 0 && blocks[i][0] == '\n'
    ensures !(ErrorPrefix <= Join(Separator, blocks))
  {
    if |blocks| > 0 {
      JoinStartsWithFirst(Separator, blocks);
      assert Join(Separator, blocks)[0] == '\n';
    }
  }

  /**
    A listing text, for `max_items >= 0` and blocks that open with a newline:
    the kept blocks joined by the separator line when all render, and an
    error text exactly when the listing or a kept block raised.
   */
  lemma ListingTextOutcome<T>(listed: Result<seq<T>>, maxItems: int, block: T -> Result<string>)
    requires 0 <= maxItems
    requires forall x :: block(x).Ok? ==> |block(x).value| > 0 && block(x).value[0] == '\n'
    ensures var text := ListingText(listed, maxItems, block);
            && (listed.Raised? ==> text == ErrorText(listed.error))
            && (listed.Ok? ==>
                  var n := if maxItems < |listed.value| then maxItems else |listed.value|;
                  (forall i :: 0 <= i < n ==> block(listed.value[i]).Ok?) ==>
                    exists blocks: seq<string> ::
                      && |blocks| == n
                      && (forall i :: 0 <= i < n ==> blocks[i] == block(listed.value[i]).value)
                      && text == Join(Separator, blocks))
            && (ErrorPrefix <= text <==> listed.Raised? || Listing(listed.value, maxItems, block).Raised?)
  {
    if listed.Ok? {
      ListingBlocks(listed.value, maxItems, block);
      var r := Listing(listed.value, maxItems, block);
      if r.Ok? {
        var kept := Truncate(listed.value, maxItems);
        var m := MapResults(kept, block);
        assert r.value == Join(Separator, m.value);
        assert forall i :: 0 <= i < |m.value| ==> m.value[i] == block(kept[i]).value;
        JoinedBlocksAreNotErrors(m.value);
      }
    }
  }

  /**
    `get_zotero_items`: one paged listing; for `max_items >= 0` the text is
    the first `min(max_items, N)` items' blocks joined by the separator line,
    and it begins with `Error: ` exactly when building the manager, the
    listing or the formatting of a kept item raised.
   */
  lemma GetZoteroItemsText(maxItems: int, reprOf: Value -> string, connect: Result<()>, listed: Result<seq<Record>>)
    requires 0 <= maxItems
    ensures var resp := GetZoteroItems(maxItems, reprOf, connect, listed);
            && (connect.Raised? ==> resp == Response([], ErrorText(connect.error)))
            && (connect.Ok? ==> resp.calls == [Manager.AllItems])
            && (connect.Ok? ==> resp.text == ListingText(listed, maxItems, ItemRenderer(reprOf)))
            && (ErrorPrefix <= resp.text <==>
                  connect.Raised? || listed.Raised? || Listing(listed.value, maxItems, ItemRenderer(reprOf)).Raised?)
  {
    ItemListingsOpenWithNewline(reprOf);
    ListingTextOutcome(listed, maxItems, ItemRenderer(reprOf));
  }

  /**
    `get_zotero_collections`: one listing; the same shape of text, with
    collection blocks.
   */
  lemma GetZoteroCollectionsText(maxItems: int, reprOf: Value -> string, connect: Result<()>, listed: Result<seq<Record>>)
    requires 0 <= maxItems
    ensures var resp := GetZoteroCollections(maxItems, reprOf, connect, listed);
            && (connect.Raised? ==> resp == Response([], ErrorText(connect.error)))
            && (connect.Ok? ==> resp.calls == [Manager.Collections])
            && (connect.Ok? ==> resp.text == ListingText(listed, maxItems, CollectionRenderer(reprOf)))
            && (ErrorPrefix <= resp.text <==>
                  connect.Raised? || listed.Raised? || Listing(listed.value, maxItems, CollectionRenderer(reprOf)).Raised?)
  {
    var block := CollectionRenderer(reprOf);
    forall x ensures block(x).Ok? ==> |block(x).value| > 0 && block(x).value[0] == '\n' {
      if block(x).Ok? {
        CollectionBlockOpensWithNewline(x, reprOf);
      }
    }
    ListingTextOutcome(listed, maxItems, block);
  }

  /**
    `search_zotero` sends one query holding the search terms, the item type
    only when it is non-empty, and never a tag. Its text is that of the item
    listing over what was found: for `max_items >= 0` it begins with `Error: `
    exactly when building the manager, the search or the formatting of a kept
    item raised.
   */
  lemma SearchZoteroQuery(query: string, maxItems: int, itemType: string, reprOf: Value -> string,
                          connect: Result<()>, found: Result<seq<Record>>)
    ensures var resp := SearchZotero(query, maxItems, itemType, reprOf, connect, found);
            && (connect.Raised? ==> resp == Response([], ErrorText(connect.error)))
            && (connect.Ok? ==>
                  && |resp.calls| == 1 && resp.calls[0].ItemsQuery?
                  && var params := resp.calls[0].params;
                     && "tag" !in params
                     && "q" in params && params["q"] == query
                     && ("itemType" in params <==> itemType != "")
                     && ("itemType" in params ==> params["itemType"] == itemType)
                     && params.Keys <= {"q", "itemType"})
            && (connect.Ok? ==> resp.text == ListingText(found, maxItems, ItemRenderer(reprOf)))
            && (connect.Ok? && found.Raised? ==> resp.text == ErrorText(found.error))
            && (0 <= maxItems ==>
                  (ErrorPrefix <= resp.text <==>
                     connect.Raised? || found.Raised? || Listing(found.value, maxItems, ItemRenderer(reprOf)).Raised?))
  {
    if 0 <= maxItems {
      ItemListingsOpenWithNewline(reprOf);
      ListingTextOutcome(found, maxItems, ItemRenderer(reprOf));
    }
  }

  /**
    `create_item_zotero` submits the item's fields fitted to its type's
    template, and answers `Success`, `Could not complete the action` or an
    error text according to the manager's outcome.
   */
  lemma CreateItemZoteroText(itemData: Record, connect: Result<()>, template: Result<Record>, ack: Result<Record>)
    ensures var resp := CreateItemZotero(itemData, connect, template, ack);
            && (resp.text == Success <==>
                  connect.Ok? && template.Ok? && ack.Ok? && "success" in ack.value && Truthy(ack.value["success"]))
            && (resp.text == CouldNotComplete <==>
                  connect.Ok? && template.Ok? && ack.Ok? && "success" in ack.value && !Truthy(ack.value["success"]))
            && (ErrorPrefix <= resp.text <==>
                  connect.Raised? || template.Raised? || ack.Raised? || "success" !in ack.value)
            && (connect.Ok? && template.Ok? ==>
                  && |resp.calls| == 2 && resp.calls[1].CreateItems?
                  && |resp.calls[1].records| == 1
                  && resp.calls[0] == Manager.ItemTemplate(Manager.TemplateName(itemData))
                  && resp.calls[1].records[0].Keys == template.value.Keys
                  && forall k :: k in itemData && k !in template.value ==> k !in resp.calls[1].records[0])
  {
    assert Success[0] != ErrorPrefix[0];
    assert CouldNotComplete[0] != ErrorPrefix[0];
    DecideOutcomes(Manager.CreateItem(itemData, template, ack).result, Success);
  }

  /**
    `delete_item_zotero` never answers `Could not complete the action`: it
    reports the deleted key once both calls returned, an error text otherwise.
   */
  lemma DeleteItemZoteroText(itemKey: string, connect: Result<()>, fetched: Result<Record>, deleted: Result<()>)
    ensures var resp := DeleteItemZotero(itemKey, connect, fetched, deleted);
            && resp.text != CouldNotComplete
            && (resp.text == "Success deleting item " + itemKey <==> connect.Ok? && fetched.Ok? && deleted.Ok?)
            && (ErrorPrefix <= resp.text <==> connect.Raised? || fetched.Raised? || deleted.Raised?)
  {
    var success := "Success deleting item " + itemKey;
    assert success[0] == 'S';
    assert !(ErrorPrefix <= success);
    DecideOutcomes(Manager.DeleteItem(itemKey, fetched, deleted).result, success);
  }

  /**
    `create_zotero_collection` sends a parent exactly when the given parent
    string is non-empty, and nothing besides the name and that parent.
   */
  lemma CreateZoteroCollectionRecord(name: string, parent: string, connect: Result<()>, ack: Result<Record>)
    ensures var resp := CreateZoteroCollection(name, parent, connect, ack);
            && (connect.Ok? ==>
                  && |resp.calls| == 1 && resp.calls[0].CreateCollections?
                  && |resp.calls[0].records| == 1
                  && var sent := resp.calls[0].records[0];
                     && "name" in sent && sent["name"] == Str(name)
                     && ("parentCollection" in sent <==> |parent| > 0)
                     && ("parentCollection" in sent ==> sent["parentCollection"] == Str(parent))
                     && sent.Keys <= {"name", "parentCollection"})
            && (resp.text == Success <==>
                  connect.Ok? && ack.Ok? && "success" in ack.value && Truthy(ack.value["success"]))
            && (ErrorPrefix <= resp.text <==> connect.Raised? || ack.Raised? || "success" !in ack.value)
  {
    assert Success[0] != ErrorPrefix[0];
    DecideOutcomes(Manager.CreateCollection(name, ParentArgument(parent), ack).result, Success);
  }

  /** `add_item_zotero_collection` answers `Success` exactly when nothing raised. */
  lemma AddItemZoteroCollectionText(itemKey: string, collectionKey: string, connect: Result<()>,
                                    fetched: Result<Record>, added: Result<()>)
    ensures var resp := AddItemZoteroCollection(itemKey, collectionKey, connect, fetched, added);
            && (resp.text == Success <==> connect.Ok? && fetched.Ok? && added.Ok?)
            && (ErrorPrefix <= resp.text <==> !(connect.Ok? && fetched.Ok? && added.Ok?))
  {
    assert Success[0] != ErrorPrefix[0];
  }

  /**
    An export tool after its listing call: a listing that raised, an item
    without a key or a key that is not a string ends the tool with an error
    text and no export query; otherwise exactly one export query follows,
    keyed by the listed keys joined with commas in listing order, and the
    text is the returned entries joined by newlines.
   */
  lemma ExportListedText(listing: Manager.Call, format: string, connect: Result<()>,
                         listed: Result<seq<Record>>, exported: Result<seq<Value>>)
    ensures var resp := Guarded(connect, Manager.ExportListed(listing, format, listed, exported), ExportText);
            && (connect.Raised? ==> resp == Response([], ErrorText(connect.error)))
            && (connect.Ok? && listed.Raised? ==> resp == Response([listing], ErrorText(listed.error)))
            && (connect.Ok? && listed.Ok? && (exists i :: 0 <= i < |listed.value| && "key" !in listed.value[i]) ==>
                  resp == Response([listing], ErrorText(MissingKey("key"))))
            && (connect.Ok? && listed.Ok? && (forall i :: 0 <= i < |listed.value| ==> "key" in listed.value[i])
                && !Manager.HasStringKeys(listed.value) ==>
                  && resp.calls == [listing]
                  && exists i :: 0 <= i < |listed.value| && !listed.value[i]["key"].Str?
                       && resp.text == ErrorText(JoinItem(i, TypeName(listed.value[i]["key"])))
                       && forall j :: 0 <= j < i ==> listed.value[j]["key"].Str?)
            && (connect.Ok? && listed.Ok? && Manager.HasStringKeys(listed.value) ==>
                  && resp.calls == [listing, Manager.ExportQuery(Join(",", Manager.KeyTexts(listed.value)), format)]
                  && resp.text == ExportText(exported))
  {
  }

  /**
    `export_zotero_collection`: lists the collection, then sends one export
    query keyed by the items' keys, or reports why it could not.
   */
  lemma ExportZoteroCollectionText(collectionKey: string, format: string, connect: Result<()>,
                                   listed: Result<seq<Record>>, exported: Result<seq<Value>>)
    ensures var resp := ExportZoteroCollection(collectionKey, format, connect, listed, exported);
            && resp == Guarded(connect, Manager.ExportListed(Manager.CollectionItems(collectionKey), format, listed, exported), ExportText)
            && (connect.Ok? && listed.Ok? && Manager.HasStringKeys(listed.value) ==>
                  && resp.calls == [Manager.CollectionItems(collectionKey),
                                    Manager.ExportQuery(Join(",", Manager.KeyTexts(listed.value)), format)]
                  && (exported.Raised? ==> resp.text == ErrorText(exported.error))
                  && (exported.Ok? && (forall i :: 0 <= i < |exported.value| ==> exported.value[i].Str?) ==>
                        resp.text == Join("\n", Texts(exported.value))))
            && (connect.Ok? && listed.Ok? && !Manager.HasStringKeys(listed.value) ==>
                  resp.calls == [Manager.CollectionItems(collectionKey)] && ErrorPrefix <= resp.text)
  {
    ExportListedText(Manager.CollectionItems(collectionKey), format, connect, listed, exported);
  }

  /** `export_zotero_library`: the same over every item of the library. */
  lemma ExportZoteroLibraryText(format: string, connect: Result<()>,
                                listed: Result<seq<Record>>, exported: Result<seq<Value>>)
    ensures var resp := ExportZoteroLibrary(format, connect, listed, exported);
            && resp == Guarded(connect, Manager.ExportListed(Manager.AllItems, format, listed, exported), ExportText)
            && (connect.Ok? && listed.Ok? && Manager.HasStringKeys(listed.value) ==>
                  && resp.calls == [Manager.AllItems, Manager.ExportQuery(Join(",", Manager.KeyTexts(listed.value)), format)]
                  && (exported.Raised? ==> resp.text == ErrorText(exported.error))
                  && (exported.Ok? && (forall i :: 0 <= i < |exported.value| ==> exported.value[i].Str?) ==>
                        resp.text == Join("\n", Texts(exported.value))))
            && (connect.Ok? && listed.Ok? && !Manager.HasStringKeys(listed.value) ==>
                  resp.calls == [Manager.AllItems] && ErrorPrefix <= resp.text)
  {
    ExportListedText(Manager.AllItems, format, connect, listed, exported);
  }

  /**
    With items keyed K1 and K2, exporting their collection sends exactly one
    export query, keyed "K1,K2".
   */
  lemma ExportTwoItems(format: string, exported: Result<seq<Value>>)
    ensures var items := [map["key" := Str("K1")], map["key" := Str("K2")]];
            var resp := ExportZoteroCollection("C1", format, Ok(()), Ok(items), exported);
            resp.calls == [Manager.CollectionItems("C1"), Manager.ExportQuery("K1,K2", format)]
  {
    var items: seq<Record> := [map["key" := Str("K1")], map["key" := Str("K2")]];
    ExportZoteroCollectionText("C1", format, Ok(()), Ok(items), exported);
    var keys := Manager.KeyTexts(items);
    assert keys == ["K1", "K2"];
    assert Join(",", keys) == "K1" + "," + "K2";
    assert "K1" + "," + "K2" == "K1,K2";
  }

  /** With two items listed and `max_items = 1`, only the first item's block is returned. */
  lemma FirstOfTwoItems(a: Record, b: Record, reprOf: Value -> string)
    requires ItemBlock(a, reprOf).Ok?
    ensures GetZoteroItems(1, reprOf, Ok(()), Ok([a, b])).text == ItemBlock(a, reprOf).value
  {
    assert Truncate([a, b], 1) == [a];
  }
}
