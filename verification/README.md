# Zotero MCP server: request and result shaping

This project models the deterministic core of a small Zotero tool server.
The server has two layers:

- `ZoteroBibliographyManager` (`zotero_manager.py`) wraps the pyzotero client.
- The MCP tool functions (`zotero_mcp_server.py`) call the manager and turn the result into text for an agent.

The model covers what these two layers compute locally:

- the search filter set;
- the template merge of `create_item` and the record of `create_collection`;
- the comma-joined `itemKey` of the exports;
- the text blocks of `format_item` and `format_collection`, with `Unknown` for absent fields;
- truncation to `max_items` and joining with the 80-dash separator line;
- the mapping of every tool's outcome to `Success`, `Could not complete the action`, `Success deleting item <key>` or `Error: <message>`.

The remote client is not part of this model. Each reply it would give is an argument of the operation: `Ok(value)` or `Raised(exception)`. Each manager operation returns a `Run`, which holds the calls it issued in order and its result. So the model can say which requests are sent as well as what comes back. Building the manager can raise too (for example when credentials are missing), so every tool also takes that outcome as its `connect` argument.

Modules:

- `Values` (values.dfy): JSON-shaped values, `dict.get`, truthiness, `str()`, and the exceptions with their messages.
- `Text` (text.dfy): `str.join` and `str.split`, with the split/join round trip.
- `Manager` (manager.dfy): the manager's operations.
- `Formatting` (formatting.dfy): the record blocks and listings.
- `Tools` (tools.dfy): the tool endpoints and their properties.

The source's default arguments are Dafny default parameter values: `max_items=5` (Tools.DefaultMaxItems), `item_type=''`, `parent_collection=''`, `format='bibtex'` (Manager.DefaultFormat), and the manager's `tag=''` and `parent_collection=None`.

Behaviour of the code worth noting:

- `update_item_zotero` calls `update_item`, which the manager class does not define. The tool therefore always answers with an `Error: ` text: AttributeError when the manager was built, the build error otherwise.
- The delete tool's success text is `Success deleting item <key>`. It can never answer `Could not complete the action`.
- `add_item_zotero_collection` answers `Success` whenever nothing raised. It has no false outcome.
- A negative `max_items` is not an empty result. Python's slice drops that many results from the end.

## Model

| member | source | states |
|---|---|---|
| Values.Show | zotero_mcp_server.py:25-30 | Interpolating a field gives Python's `str()`: a string as itself, an integer in decimal (reading back as the same number, no leading zero), `True`/`False`, `None`, and the repr for a list or dict. |
| Values.DigitsRoundTrip | zotero_mcp_server.py:122-123 | The decimal text of a count reads back as the same number, so no information is lost. |
| Text.JoinLength | zotero_mcp_server.py:44 | Joining n blocks adds exactly n-1 separators and nothing else. |
| Text.SplitJoin | zotero_manager.py:103 | Splitting separator-free strings joined by one character gives back the same parts in order. |
| Text.JoinStrings | zotero_mcp_server.py:190 | `str.join` succeeds iff every value is a string, and then joins their texts. Otherwise it raises TypeError naming the first non-string and its type. |
| Manager.GetAllItems | zotero_manager.py:17-20 | Issues a single listing call and returns its reply unfiltered. |
| Manager.SearchFilter | zotero_manager.py:31-35 | `q` is always bound to the query. `itemType` is present iff the item type is non-empty, and `tag` iff the tag is non-empty, each bound to its argument. No other key appears. |
| Manager.SearchItems | zotero_manager.py:22-38 | Issues exactly one query, carrying the filter set, and returns its reply. |
| Manager.TemplateName | zotero_manager.py:48 | The template is requested for the caller's `itemType`, or for `journalArticle` when it has none. |
| Manager.Merged | zotero_manager.py:51-53 | The merged record has exactly the template's keys. Caller keys outside the template are dropped. Shared keys take the caller's value, and the other template keys keep the template's value. |
| Manager.FillTemplate | zotero_manager.py:51-53 | The field-by-field copy loop ends with the template's key set and the caller's values on shared keys, whatever the iteration order. |
| Manager.Acknowledged | zotero_manager.py:57-60 | True iff the acknowledgement's `success` entry is truthy, false iff it is falsy. A missing `success` raises KeyError, and a raised reply propagates. |
| Manager.CreateItem | zotero_manager.py:40-60 | First requests the template for the item type. If that raises, nothing else is sent. Otherwise exactly one record, the merged one, is submitted, and the result is the acknowledgement's verdict. |
| Manager.DeleteItem | zotero_manager.py:63-66 | Fetches the item and then deletes the fetched record. Never returns false. Returns true iff both calls returned. |
| Manager.GetCollections | zotero_manager.py:68-71 | Issues a single collections call and returns its reply. |
| Manager.CollectionTemplate | zotero_manager.py:75-79 | Always has `name`. Has `parentCollection` iff the parent is truthy, so `None` and `''` are both omitted. Has no other key. |
| Manager.CreateCollection | zotero_manager.py:73-84 | Submits exactly that one record and reports the acknowledgement's verdict. |
| Manager.AddItemToCollection | zotero_manager.py:86-88 | Fetches the item and then adds the fetched record to the collection. Succeeds iff both calls returned. |
| Manager.ItemKeys | zotero_manager.py:100 | Succeeds iff every item has a `key`, and then yields those keys in listing order. Otherwise it raises KeyError. |
| Manager.KeyList | zotero_manager.py:100-103 | The `itemKey` is built iff every item has a string key, and then it is those keys joined by commas in listing order. A missing key raises KeyError. Otherwise the first non-string key raises TypeError naming its index and type. |
| Manager.ExportLibrary | zotero_manager.py:91-105 | Lists everything, then sends one export query keyed by the comma-joined keys with the format. It sends no export when the listing or the key collection raised. |
| Manager.ExportCollection | zotero_manager.py:107-114 | The same as the library export, over one collection's items. |
| Manager.ExportKeysRoundTrip | zotero_manager.py:99-103 | With comma-free string keys, exactly one export query is sent, holding only `itemKey` and `format`. Splitting its `itemKey` at commas gives back the listed keys in order. |
| Formatting.FieldText | zotero_mcp_server.py:25-30 | An absent field renders as `Unknown`. A present field renders as Python prints it: a string as its own text, an integer in decimal, a boolean as `True`/`False`, `None` as `None`. |
| Formatting.FullName | zotero_mcp_server.py:29 | A dict creator renders as first name, a space, then last name, each defaulting to `''`. A non-dict creator raises AttributeError for `.get`. |
| Formatting.MapResults | zotero_mcp_server.py:44 | The comprehension succeeds iff every element renders, and then keeps one value per element in order. Otherwise it raises the first element's exception. |
| Formatting.CreatorsLine | zotero_mcp_server.py:29 | With no `creators` key the line is empty. For a list, it is the creators' full names joined by ` and `. |
| Formatting.FormatItem | zotero_mcp_server.py:23-31 | A non-dict item raises AttributeError. A dict item renders iff its creators do, as the newline-joined labelled lines. |
| Formatting.ItemBlockLines | zotero_mcp_server.py:23-31 | With newline-free fields, the block splits into exactly eight lines: key, type, date, title, creators and ISBN under their labels, and `Unknown` for each absent field. |
| Formatting.FormatCollection | zotero_mcp_server.py:118-124 | Renders iff the `data` and `meta` sub-dicts are dicts or absent. Otherwise it raises AttributeError naming the first offending type. |
| Formatting.CollectionBlockLines | zotero_mcp_server.py:118-124 | Key and name are read from `data`, and the item and sub-collection counts from `meta`, each under its label on its own line. An integer count appears in decimal. |
| Formatting.BareCollectionIsUnknown | zotero_mcp_server.py:118-124 | A collection with neither sub-dict renders all four fields as `Unknown`. |
| Formatting.PrefixSlice | zotero_mcp_server.py:44 | `xs[:stop]` keeps the first `stop` elements, or counts back from the end when `stop` is negative. |
| Formatting.Truncate | zotero_mcp_server.py:43-44 | For k >= 0, keeps the first min(k, N) results in order: all N when k >= N, none when k = 0. A negative k keeps N+k results, or none. |
| Formatting.ItemBlock | zotero_mcp_server.py:44 | An item is rendered from its `data`. Without `data` it is the all-`Unknown` block with an empty creators line. A `data` that is not a dict raises AttributeError. |
| Formatting.Listing | zotero_mcp_server.py:43-44 | Keeping nothing gives the empty text. When the listing raises, it is the exception of the first kept result that failed to render. |
| Formatting.ListingBlocks | zotero_mcp_server.py:43-44 | For k >= 0, the listing renders iff every kept result renders. It is then exactly min(k, N) blocks in order joined by the separator, of length total + (n-1)*82. Otherwise it raises a kept block's exception. |
| Tools.ErrorText | zotero_mcp_server.py:45-46 | The error text is `Error: ` followed by the exception's message. |
| Tools.DecideOutcomes | zotero_mcp_server.py:76-78 | The success literal appears iff the manager returned true, `Could not complete the action` iff it returned false, and an `Error: ` text iff something raised. |
| Tools.Guarded | zotero_mcp_server.py:40-46 | When building the manager raises, no call is made and the text is its error text. Otherwise the operation's calls and rendered result are returned. |
| Tools.UpdateItemZotero | zotero_mcp_server.py:91-98 | Never calls the remote library and always answers with an `Error: ` text. Once the manager is built, that is the AttributeError for `update_item`. |
| Tools.GetZoteroItems | zotero_mcp_server.py:34-46 | Without a manager nothing is sent. Otherwise one paged listing call is made. A raised listing becomes its error text, and keeping no result gives the empty text. |
| Tools.SearchZotero | zotero_mcp_server.py:49-63 | Without a manager nothing is sent. Otherwise one query is made and it has no `tag`. A raised search becomes its error text, and keeping no result gives the empty text. |
| Tools.CreateItemZotero | zotero_mcp_server.py:66-80 | Without a manager nothing is sent. Otherwise the item type's template is requested first, and a raised template request ends the tool with its error text. The text is always `Success`, `Could not complete the action` or an error text. |
| Tools.DeleteItemZotero | zotero_mcp_server.py:102-116 | Without a manager nothing is sent. Otherwise the item is fetched, and a failed fetch ends the tool with its error text. After a fetch, exactly the fetched record is deleted. |
| Tools.GetZoteroCollections | zotero_mcp_server.py:127-139 | Without a manager nothing is sent. Otherwise one collections call is made. A raised listing becomes its error text, and keeping no result gives the empty text. |
| Tools.CreateZoteroCollection | zotero_mcp_server.py:143-161 | Without a manager nothing is sent. Otherwise one creation request holding one record is sent. The text is always `Success`, `Could not complete the action` or an error text. |
| Tools.AddItemZoteroCollection | zotero_mcp_server.py:164-177 | Without a manager nothing is sent. Otherwise the item is fetched, and a failed fetch ends the tool with its error text. After a fetch, exactly the fetched record is added to the named collection. |
| Tools.ExportText | zotero_mcp_server.py:190 | Gives the entries joined by newlines when all are strings. Otherwise it gives the TypeError text for the first non-string entry. A raised export gives its error text. |
| Tools.ExportZoteroLibrary | zotero_mcp_server.py:180-192 | Without a manager nothing is sent. Otherwise the library listing is sent first and at most one more call follows. A raised listing ends the tool with its error text. |
| Tools.ExportZoteroCollection | zotero_mcp_server.py:196-209 | Without a manager nothing is sent. Otherwise the collection listing is sent first and at most one more call follows. A raised listing ends the tool with its error text. |
| Tools.ParentArgument | zotero_mcp_server.py:153-156 | The parent is passed iff the string is non-empty. Otherwise the manager's default `None` applies. |
| Tools.ListingTextOutcome | zotero_mcp_server.py:43-46 | For k >= 0, a listing text is the joined blocks of the first min(k, N) results. It starts with `Error: ` iff the listing or a kept block raised. |
| Tools.GetZoteroItemsText | zotero_mcp_server.py:33-46 | A single paged listing call is made, and each item is rendered from its `data`. The text starts with `Error: ` iff building, listing or formatting a kept item raised. |
| Tools.ItemListingsOpenWithNewline | zotero_mcp_server.py:23-31 | Every item block that renders starts with a newline. |
| Tools.SearchZoteroQuery | zotero_mcp_server.py:57-63 | A single query is sent with `q`, and with `itemType` (bound to the given type) iff it is non-empty. No `tag` is ever sent. The text is the item listing of what was found. For k >= 0 it starts with `Error: ` iff building, searching or formatting a kept item raised. |
| Tools.CreateItemZoteroText | zotero_mcp_server.py:73-80 | `Success` iff the acknowledgement is truthy, and `Could not complete the action` iff it is falsy. An `Error: ` text iff something raised. The submitted record has the template's keys and none of the caller's unknown keys. |
| Tools.DeleteItemZoteroText | zotero_mcp_server.py:109-116 | Never answers `Could not complete the action`. Answers `Success deleting item <key>` iff every call returned. |
| Tools.GetZoteroCollectionsText | zotero_mcp_server.py:133-139 | A single collections call is made, with the same listing shape. An `Error: ` text iff something raised. |
| Tools.CreateZoteroCollectionRecord | zotero_mcp_server.py:151-161 | The submitted record has `parentCollection` iff the parent string is non-empty. It always has `name` and no other key. |
| Tools.AddItemZoteroCollectionText | zotero_mcp_server.py:172-177 | `Success` iff nothing raised, and an `Error: ` text otherwise. |
| Tools.ExportListedText | zotero_manager.py:99-103 | After the listing call, a raised listing, a missing key or a non-string key ends the tool with its error text and no export query. The non-string case names the first offending index. Otherwise exactly one export query follows, keyed by the comma-joined keys in listing order, and the text is that of the export reply. |
| Tools.ExportZoteroLibraryText | zotero_mcp_server.py:187-192 | Every path is the listed-export path over the library listing. With string keys, one export query keyed by the comma-joined keys follows, and the text is the string entries joined by newlines or the error text. Without string keys, only the listing is sent and the text is an error text. |
| Tools.ExportZoteroCollectionText | zotero_mcp_server.py:204-209 | The same as the library export, for one collection's items. |
| Tools.ExportTwoItems | zotero_manager.py:108-112 | A collection holding items K1 and K2 is exported by exactly one query keyed `K1,K2`. |
| Tools.FirstOfTwoItems | zotero_mcp_server.py:43-44 | With two items listed and `max_items = 1`, the text is exactly the first item's block. |

## Left out

- The pyzotero client and its HTTP calls, including the paging of `everything`. Every reply is an argument of the model, and a client-side failure is `ServiceError(message)` with an opaque message.
- The `.entries` attribute of an export result depends on what the client returns for each format. The export reply stands for the entry sequence itself, and only the newline join over it is modelled.
- FastMCP setup, the tool decorators, `async`, the stdio transport, loading settings from the environment, and logging. These are registration, transport and configuration.
- The `main()` demo of the manager module, which is example usage only.
- Update semantics. The manager defines no `update_item`, so only the raised AttributeError is modelled.
- Values.Show: for a list or dict, the text is the caller-supplied `reprOf`. `str()` of these prints the Python repr, which follows a dict's insertion order that `map` does not keep.
- JSON floating-point numbers are not part of `Value`.
- Tools.SearchZoteroQuery: the `Error: ` reading is stated for `max_items >= 0` only, as for the other listings.
- Values.Message: messages of exceptions that Python raises locally (KeyError, AttributeError, TypeError) follow CPython 3's wording. The source does not fix that wording.
- Formatting.ListingBlocks: stated for `max_items >= 0` only. The negative case is stated by Formatting.Truncate.
- Tools.ListingTextOutcome: stated for `max_items >= 0` only, for the same reason.
- Tools.GetZoteroItemsText: stated for `max_items >= 0` only, for the same reason.
- Tools.GetZoteroCollectionsText: stated for `max_items >= 0` only, for the same reason.
- Manager.ExportKeysRoundTrip: the split round trip needs at least one item and comma-free string keys. Zotero item keys are alphanumeric.
- Formatting.ItemBlockLines: the line-by-line reading needs field texts without newlines.
- Formatting.CollectionBlockLines: the line-by-line reading needs field texts without newlines.
- The state of the remote library after a call, such as whether a deleted item is really gone, is not modelled. The tools do not check it either.
