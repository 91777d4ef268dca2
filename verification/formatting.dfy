/**
  How the tool layer (zotero_mcp_server.py) renders records as text: one
  block per item or collection, absent fields shown as `Unknown`, at most
  `max_items` blocks joined by a line of 80 dashes.
 */
module Formatting {
  import opened Values
  import opened Text

  const Unknown := "Unknown"

  /** The line between two blocks: a newline, 80 dashes, a newline. */
  const Separator := "\n" + Repeat('-', 80) + "\n"

  /**
    `str(m.get(key, 'Unknown'))`: `Unknown` when the key is absent, otherwise
    the field as Python prints it (a string as itself, a count in decimal).
   */
  function FieldText(m: Record, key: string, reprOf: Value -> string): (text: string)
    ensures key !in m ==> text == Unknown
    ensures key in m && m[key].Str? ==> text == m[key].s
    ensures key in m && m[key].Int? ==> text == Decimal(m[key].i)
    ensures key in m && m[key].Bool? ==> text == (if m[key].b then "True" else "False")
    ensures key in m && m[key] == Null ==> text == "None"
  {
    Show(Get(m, key, Str(Unknown)), reprOf)
  }

  /**
    `creator.get('firstName', '') + ' ' + creator.get('lastName', '')`:
    a creator that is not a dict has no `.get`, and a name part that is not a
    string cannot be concatenated.
   */
  function FullName(creator: Value): (r: Result<string>)
    ensures creator.Dict? && Get(creator.fields, "firstName", Str("")).Str? && Get(creator.fields, "lastName", Str("")).Str?
            ==> r == Ok(Get(creator.fields, "firstName", Str("")).s + " " + Get(creator.fields, "lastName", Str("")).s)
    ensures !creator.Dict? ==> r == Raised(NoAttribute(TypeName(creator), "get"))
  {
    match creator
    case Dict(m) =>
      var first := Get(m, "firstName", Str(""));
      var last := Get(m, "lastName", Str(""));
      if !first.Str? then Raised(BadOperands(TypeName(first), "str"))
      else if !last.Str? then Raised(BadOperands("str", TypeName(last)))
      else Ok(first.s + " " + last.s)
    case _ => Raised(NoAttribute(TypeName(creator), "get"))
  }

  /**
    A list comprehension over `f`: every element's value in order, or the
    first exception raised.
   */
  function MapResults<T>(xs: seq<T>, f: T -> Result<string>): (r: Result<seq<string>>)
    ensures r.Ok? <==> forall i :: 0 <= i < |xs| ==> f(xs[i]).Ok?
    ensures r.Ok? ==> |r.value| == |xs| && forall i :: 0 <= i < |xs| ==> r.value[i] == f(xs[i]).value
    ensures r.Raised? ==> exists i :: 0 <= i < |xs| && f(xs[i]) == Raised(r.error)
                            && forall j :: 0 <= j < i ==> f(xs[j]).Ok?
  {
    if |xs| == 0 then Ok([])
    else
      match f(xs[0])
      case Raised(e) => Raised(e)
      case Ok(v) =>
        match MapResults(xs[1..], f)
        case Raised(e) =>
          assert forall j :: 1 <= j < |xs| ==> xs[1..][j - 1] == xs[j];
          Raised(e)
        case Ok(rest) => Ok([v] + rest)
  }

  /**
    The creators line: every creator's full name joined with " and ", the
    empty string when there is no `creators` field. Iterating a non-empty
    string or dict meets `str` elements, which have no `.get`; iterating a
    number, boolean or `None` raises TypeError.
   */
  function CreatorsLine(m: Record): (r: Result<string>)
    ensures "creators" !in m ==> r == Ok("")
    ensures "creators" in m && m["creators"].List? ==>
              r == MapResults(m["creators"].elems, FullName).Then(names => Ok(Join(" and ", names)))
  {
    var creators := Get(m, "creators", List([]));
    match creators
    case List(cs) => MapResults(cs, FullName).Then(names => Ok(Join(" and ", names)))
    case Str(s) => if s == "" then Ok("") else Raised(NoAttribute("str", "get"))
    case Dict(d) => if |d| == 0 then Ok("") else Raised(NoAttribute("str", "get"))
    case _ => Raised(NotIterable(TypeName(creators)))
  }

  /** `format_item`: an item's data rendered as a labelled block. */
  function FormatItem(item: Value, reprOf: Value -> string): (r: Result<string>)
    ensures !item.Dict? ==> r == Raised(NoAttribute(TypeName(item), "get"))
    ensures item.Dict? ==> (r.Ok? <==> CreatorsLine(item.fields).Ok?)
    ensures item.Dict? && r.Ok? ==> r.value == Join("\n", ItemLines(item.fields, CreatorsLine(item.fields).value, reprOf))
  {
    if !item.Dict? then Raised(NoAttribute(TypeName(item), "get"))
    else
      var m := item.fields;
      match CreatorsLine(m)
      case Raised(e) => Raised(e)
      case Ok(names) =>
        Ok(Join("\n", ItemLines(m, names, reprOf)))
  }

  /**
    The lines of an item block, joined by newlines: the block opens with a
    newline, then six labelled fields each ending in a newline.
   */
  function ItemLines(m: Record, names: string, reprOf: Value -> string): seq<string>
  {
    [ "",
      "Item key: " + FieldText(m, "key", reprOf),
      "Item type: " + FieldText(m, "itemType", reprOf),
      "Date: " + FieldText(m, "date", reprOf),
      "Title: " + FieldText(m, "title", reprOf),
      "Creators: " + names,
      "ISBN: " + FieldText(m, "ISBN", reprOf),
      "" ]
  }

  /**
    An item block reads back line by line: when no field text contains a
    newline, splitting the block at newlines gives exactly its eight lines,
    each field under its label and `Unknown` for every absent one.
   */
  lemma ItemBlockLines(item: Record, reprOf: Value -> string)
    requires CreatorsLine(item).Ok?
    requires Free(ItemLines(item, CreatorsLine(item).value, reprOf), '\n')
    ensures var lines := Split(FormatItem(Dict(item), reprOf).value, '\n');
            && |lines| == 8
            && lines[1] == "Item key: " + FieldText(item, "key", reprOf)
            && lines[2] == "Item type: " + FieldText(item, "itemType", reprOf)
            && lines[3] == "Date: " + FieldText(item, "date", reprOf)
            && lines[4] == "Title: " + FieldText(item, "title", reprOf)
            && lines[5] == "Creators: " + CreatorsLine(item).value
            && lines[6] == "ISBN: " + FieldText(item, "ISBN", reprOf)
            && ("key" !in item ==> lines[1] == "Item key: Unknown")
            && ("title" !in item ==> lines[4] == "Title: Unknown")
            && ("ISBN" !in item ==> lines[6] == "ISBN: Unknown")
  {
    SplitJoin(ItemLines(item, CreatorsLine(item).value, reprOf), '\n');
  }

  /**
    The block of one listed item: `format_item(item.get('data', {}))`. An
    item without `data` renders as the all-`Unknown` block with no creators;
    a `data` that is not a dict raises AttributeError.
   */
  function ItemBlock(listed: Record, reprOf: Value -> string): (r: Result<string>)
    ensures "data" !in listed ==> r == Ok(Join("\n", ItemLines(map[], "", reprOf)))
    ensures "data" in listed && !listed["data"].Dict? ==> r == Raised(NoAttribute(TypeName(listed["data"]), "get"))
    ensures "data" in listed && listed["data"].Dict? ==> r == FormatItem(listed["data"], reprOf)
  {
    FormatItem(Get(listed, "data", Dict(map[])), reprOf)
  }

  /**
    `format_collection`: key and name from the `data` sub-dict, item and
    sub-collection counts from the `meta` sub-dict, `Unknown` for each one
    absent, a missing sub-dict standing for an empty one.
   */
  function FormatCollection(collection: Record, reprOf: Value -> string): (r: Result<string>)
    ensures var data := Get(collection, "data", Dict(map[]));
            var meta := Get(collection, "meta", Dict(map[]));
            && (r.Ok? <==> data.Dict? && meta.Dict?)
            && (!data.Dict? ==> r == Raised(NoAttribute(TypeName(data), "get")))
            && (data.Dict? && !meta.Dict? ==> r == Raised(NoAttribute(TypeName(meta), "get")))
            && (r.Ok? ==> r.value == Join("\n", CollectionLines(data.fields, meta.fields, reprOf)))
  {
    var data := Get(collection, "data", Dict(map[]));
    if !data.Dict? then Raised(NoAttribute(TypeName(data), "get"))
    else
      var meta := Get(collection, "meta", Dict(map[]));
      if !meta.Dict? then Raised(NoAttribute(TypeName(meta), "get"))
      else
        Ok(Join("\n", CollectionLines(data.fields, meta.fields, reprOf)))
  }

  /**
    The lines of a collection block, joined by newlines: the block opens with
    a newline, then four labelled fields each ending in a newline.
   */
  function CollectionLines(data: Record, meta: Record, reprOf: Value -> string): seq<string>
  {
    [ "",
      "Key: " + FieldText(data, "key", reprOf),
      "Name: " + FieldText(data, "name", reprOf),
      "Num. items: " + FieldText(meta, "numItems", reprOf),
      "Num. Collections: " + FieldText(meta, "numCollections", reprOf),
      "" ]
  }

  /**
    A collection block reads back line by line: when no field text contains
    a newline, splitting it at newlines gives its six lines, with the key and
    name taken from `data` and the counts from `meta`.
   */
  lemma CollectionBlockLines(collection: Record, reprOf: Value -> string)
    requires "data" in collection ==> collection["data"].Dict?
    requires "meta" in collection ==> collection["meta"].Dict?
    requires var data := Get(collection, "data", Dict(map[])).fields;
             var meta := Get(collection, "meta", Dict(map[])).fields;
             Free(CollectionLines(data, meta, reprOf), '\n')
    ensures var data := Get(collection, "data", Dict(map[])).fields;
            var meta := Get(collection, "meta", Dict(map[])).fields;
            var lines := Split(FormatCollection(collection, reprOf).value, '\n');
            && FormatCollection(collection, reprOf).Ok?
            && |lines| == 6
            && lines[1] == "Key: " + FieldText(data, "key", reprOf)
            && lines[2] == "Name: " + FieldText(data, "name", reprOf)
            && lines[3] == "Num. items: " + FieldText(meta, "numItems", reprOf)
            && lines[4] == "Num. Collections: " + FieldText(meta, "numCollections", reprOf)
            && ("numItems" in meta && meta["numItems"].Int? ==> lines[3] == "Num. items: " + Decimal(meta["numItems"].i))
            && ("numCollections" in meta && meta["numCollections"].Int? ==>
                  lines[4] == "Num. Collections: " + Decimal(meta["numCollections"].i))
  {
    var data := Get(collection, "data", Dict(map[])).fields;
    var meta := Get(collection, "meta", Dict(map[])).fields;
    SplitJoin(CollectionLines(data, meta, reprOf), '\n');
  }

  /** A collection with neither sub-dict renders every field as `Unknown`. */
  lemma BareCollectionIsUnknown(collection: Record, reprOf: Value -> string)
    requires "data" !in collection && "meta" !in collection
    ensures FormatCollection(collection, reprOf).Ok?
    ensures Split(FormatCollection(collection, reprOf).value, '\n')
         == ["", "Key: Unknown", "Name: Unknown", "Num. items: Unknown", "Num. Collections: Unknown", ""]
  {
    var lines := CollectionLines(map[], map[], reprOf);
    assert FieldText(map[], "key", reprOf) == Unknown;
    assert FieldText(map[], "name", reprOf) == Unknown;
    assert FieldText(map[], "numItems", reprOf) == Unknown;
    assert FieldText(map[], "numCollections", reprOf) == Unknown;
    assert "Key: " + Unknown == "Key: Unknown";
    assert "Name: " + Unknown == "Name: Unknown";
    assert "Num. items: " + Unknown == "Num. items: Unknown";
    assert "Num. Collections: " + Unknown == "Num. Collections: Unknown";
    assert lines == ["", "Key: Unknown", "Name: Unknown", "Num. items: Unknown", "Num. Collections: Unknown", ""];
    SplitJoin(lines, '\n');
  }

  /** Python's `xs[:stop]`: a negative stop counts back from the end. */
  function PrefixSlice<T>(xs: seq<T>, stop: int): (r: seq<T>)
    ensures 0 <= stop ==> r == xs[..if stop < |xs| then stop else |xs|]
    ensures stop < 0 ==> r == xs[..if |xs| + stop > 0 then |xs| + stop else 0]
  {
    if stop >= |xs| then xs
    else if stop >= 0 then xs[..stop]
    else if |xs| + stop > 0 then xs[..|xs| + stop]
    else []
  }

  /**
    `results[:min(max_items, len(results))]`: the first `min(k, N)` results in
    order for `k >= 0` (all of them when `k >= N`, none when `k == 0`); a
    negative `k` is not rejected and drops `|k|` results from the end instead.
   */
  function Truncate<T>(results: seq<T>, maxItems: int): (kept: seq<T>)
    ensures 0 <= maxItems ==> |kept| == (if maxItems < |results| then maxItems else |results|)
    ensures maxItems < 0 ==> |kept| == (if |results| + maxItems > 0 then |results| + maxItems else 0)
    ensures maxItems >= |results| ==> kept == results
    ensures maxItems == 0 ==> kept == []
    ensures forall i :: 0 <= i < |kept| ==> kept[i] == results[i]
  {
    PrefixSlice(results, if maxItems < |results| then maxItems else |results|)
  }

  /**
    One tool listing: the blocks of the kept results joined by the separator
    line. Nothing kept gives the empty text; an exception can only come from
    one of the kept results, and then it is the first one raised.
   */
  function Listing<T>(results: seq<T>, maxItems: int, block: T -> Result<string>): (r: Result<string>)
    ensures Truncate(results, maxItems) == [] ==> r == Ok("")
    ensures r.Raised? ==> exists i :: 0 <= i < |Truncate(results, maxItems)|
                            && block(results[i]) == Raised(r.error)
                            && forall j :: 0 <= j < i ==> block(results[j]).Ok?
  {
    MapResults(Truncate(results, maxItems), block).Then(blocks => Ok(Join(Separator, blocks)))
  }

  /**
    For `k >= 0`, a listing whose kept results all render is exactly their
    `min(k, N)` blocks in order, with one separator line between neighbours;
    the first block that raises makes the whole listing raise.
   */
  lemma ListingBlocks<T>(results: seq<T>, k: int, block: T -> Result<string>)
    requires 0 <= k
    ensures var n := if k < |results| then k else |results|;
            var r := Listing(results, k, block);
            && (r.Ok? <==> forall i :: 0 <= i < n ==> block(results[i]).Ok?)
            && (r.Ok? ==> exists blocks: seq<string> ::
                   && |blocks| == n
                   && (forall i :: 0 <= i < n ==> blocks[i] == block(results[i]).value)
                   && r.value == Join(Separator, blocks)
                   && (n >= 1 ==> |r.value| == TotalLength(blocks) + (n - 1) * |Separator|))
            && (r.Raised? ==> exists i :: 0 <= i < n && block(results[i]) == Raised(r.error))
            && (n == 0 ==> r == Ok(""))
  {
    var n := if k < |results| then k else |results|;
    var kept := Truncate(results, k);
    assert |kept| == n;
    assert forall i :: 0 <= i < n ==> kept[i] == results[i];
    var m := MapResults(kept, block);
    if m.Ok? {
      if n >= 1 {
        JoinLength(Separator, m.value);
      }
      assert |m.value| == n && forall i :: 0 <= i < n ==> m.value[i] == block(results[i]).value;
    }
  }
}
