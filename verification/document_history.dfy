/**
  `DocumentHistory`: the panel that keeps the last ten document
  generations, newest first, under the storage key `document_history`,
  together with the small display rules of each row.
 */
module DocumentHistory {
  import opened Base
  import opened Storage
  import History
  import Api

  const HistoryKey := "document_history"

  /** What a page passes to `addToHistory` (a record without `id` and `timestamp`). */
  datatype DocumentInput = DocumentInput(
    topic: string, urls: Option<seq<string>>, outputFormat: string,
    success: bool, error: Option<string>, filePath: Option<string>)

  /** One history record (`DocumentHistoryItem`); `timestamp` in milliseconds. */
  datatype DocumentItem = DocumentItem(
    id: string, topic: string, urls: Option<seq<string>>, outputFormat: string,
    success: bool, timestamp: nat, error: Option<string>, filePath: Option<string>)

  /** The record `addToHistory` makes at time `now`: the id is `Date.now().toString()`. */
  function Stamp(input: DocumentInput, now: nat): (item: DocumentItem)
    ensures item.topic == input.topic && item.urls == input.urls
    ensures item.outputFormat == input.outputFormat && item.success == input.success
    ensures item.error == input.error && item.filePath == input.filePath
    ensures ParseDecimal(item.id) == Some(now) && item.timestamp == now
  {
    DecimalRoundTrip(now);
    DocumentItem(Decimal(now), input.topic, input.urls, input.outputFormat,
                 input.success, now, input.error, input.filePath)
  }

  function StrArray(xs: seq<string>): (j: Json)
    ensures j.JArr? && |j.elems| == |xs|
    ensures forall i :: 0 <= i < |xs| ==> j.elems[i] == JStr(xs[i])
  {
    JArr(seq(|xs|, i requires 0 <= i < |xs| => JStr(xs[i])))
  }

  /** Reads back an array of strings; any other element makes it malformed. */
  function ReadStrArray(elems: seq<Json>): Option<seq<string>> {
    if elems == [] then Some([])
    else match (elems[0], ReadStrArray(elems[1..]))
      case (JStr(s), Some(rest)) => Some([s] + rest)
      case _ => None
  }

  lemma {:induction false} ReadStrArrayRoundTrip(xs: seq<string>)
    ensures ReadStrArray(StrArray(xs).elems) == Some(xs)
  {
    if xs != [] {
      assert StrArray(xs).elems[1..] == StrArray(xs[1..]).elems;
      ReadStrArrayRoundTrip(xs[1..]);
      assert [xs[0]] + xs[1..] == xs;
    }
  }

  /** The fields every stored record has. */
  function RequiredFields(item: DocumentItem): map<string, Json> {
    map["id" := JStr(item.id), "topic" := JStr(item.topic),
        "output_format" := JStr(item.outputFormat), "success" := JBool(item.success),
        "timestamp" := DateJson(item.timestamp)]
  }

  /** Adds the `urls` array to an object when the record has one. */
  function WithUrls(obj: map<string, Json>, urls: Option<seq<string>>): (r: map<string, Json>)
    ensures urls.Some? ==> "urls" in r && r["urls"] == StrArray(urls.value)
    ensures urls.None? ==> "urls" !in r
    ensures forall k :: k in obj && k != "urls" ==> k in r && r[k] == obj[k]
  {
    match urls
    case None => obj - {"urls"}
    case Some(xs) => obj["urls" := StrArray(xs)]
  }

  /** The JSON object `JSON.stringify` writes for a record; absent optional fields are left out. */
  function Encode(item: DocumentItem): Json {
    JObj(WithOptStr(WithOptStr(WithUrls(RequiredFields(item), item.urls), "error", item.error),
                    "file_path", item.filePath))
  }

  /** The optional `urls` field: absent, or an array of strings. */
  function UrlsField(o: map<string, Json>): Option<Option<seq<string>>> {
    if "urls" !in o then Some(None)
    else if !o["urls"].JArr? then None
    else match ReadStrArray(o["urls"].elems)
      case Some(xs) => Some(Some(xs))
      case None => None
  }

  /** A stored record read back, its timestamp revived; `None` when it does not have the shape. */
  function Decode(j: Json): Option<DocumentItem> {
    if !j.JObj? then None
    else
      var o := j.fields;
      var id, topic, format := StrField(o, "id"), StrField(o, "topic"), StrField(o, "output_format");
      var success, urls := BoolField(o, "success"), UrlsField(o);
      var error, path := OptStrField(o, "error"), OptStrField(o, "file_path");
      var time := if "timestamp" in o then ReviveDate(o["timestamp"]) else None;
      if id.Some? && topic.Some? && format.Some? && success.Some? && urls.Some?
        && error.Some? && path.Some? && time.Some?
      then
        Some(DocumentItem(id.value, topic.value, urls.value, format.value, success.value,
                          time.value, error.value, path.value))
      else None
  }

  /** A required field survives the optional ones being added. */
  lemma RequiredFieldKept(item: DocumentItem, k: string)
    requires k in RequiredFields(item) && k != "urls" && k != "error" && k != "file_path"
    ensures k in Encode(item).fields && Encode(item).fields[k] == RequiredFields(item)[k]
  {
    var a := WithUrls(RequiredFields(item), item.urls);
    assert k in a && a[k] == RequiredFields(item)[k];
    var b := WithOptStr(a, "error", item.error);
    assert k in b && b[k] == a[k];
  }

  /** The fields that are always written read back as written. */
  lemma EncodeRequiredFields(item: DocumentItem)
    ensures StrField(Encode(item).fields, "id") == Some(item.id)
    ensures StrField(Encode(item).fields, "topic") == Some(item.topic)
    ensures StrField(Encode(item).fields, "output_format") == Some(item.outputFormat)
    ensures BoolField(Encode(item).fields, "success") == Some(item.success)
    ensures "timestamp" in Encode(item).fields
    ensures Encode(item).fields["timestamp"] == DateJson(item.timestamp)
  {
    RequiredFieldKept(item, "id");
    RequiredFieldKept(item, "topic");
    RequiredFieldKept(item, "output_format");
    RequiredFieldKept(item, "success");
    RequiredFieldKept(item, "timestamp");
  }

  /** The optional fields read back as written, absent ones as absent. */
  lemma EncodeOptionalFields(item: DocumentItem)
    ensures OptStrField(Encode(item).fields, "error") == Some(item.error)
    ensures OptStrField(Encode(item).fields, "file_path") == Some(item.filePath)
    ensures UrlsField(Encode(item).fields) == Some(item.urls)
  {
    var a := WithUrls(RequiredFields(item), item.urls);
    var b := WithOptStr(a, "error", item.error);
    var o := WithOptStr(b, "file_path", item.filePath);
    assert OptStrField(b, "error") == Some(item.error);
    if "error" in b {
      assert "error" in o && o["error"] == b["error"];
    } else {
      assert "error" !in o;
    }
    if item.urls.Some? {
      ReadStrArrayRoundTrip(item.urls.value);
      assert "urls" in b && b["urls"] == a["urls"];
      assert "urls" in o && o["urls"] == StrArray(item.urls.value);
    } else {
      assert "urls" !in o;
    }
  }

  lemma DecodeEncode(item: DocumentItem)
    ensures Decode(Encode(item)) == Some(item)
  {
    DateRoundTrip(item.timestamp);
    EncodeRequiredFields(item);
    EncodeOptionalFields(item);
  }

  /** The stored form of the whole list: a JSON array of records, in list order. */
  function EncodeAll(items: seq<DocumentItem>): (j: Json)
    ensures j.JArr? && |j.elems| == |items|
    ensures forall i :: 0 <= i < |items| ==> j.elems[i] == Encode(items[i])
  {
    JArr(seq(|items|, i requires 0 <= i < |items| => Encode(items[i])))
  }

  /** Decodes every element; one malformed element makes the whole list unreadable. */
  function DecodeEach(elems: seq<Json>): Option<seq<DocumentItem>> {
    if elems == [] then Some([])
    else match (Decode(elems[0]), DecodeEach(elems[1..]))
      case (Some(x), Some(rest)) => Some([x] + rest)
      case _ => None
  }

  /** A list whose head and tail decode decodes to their join. */
  lemma DecodeEachCons(elems: seq<Json>, x: DocumentItem, rest: seq<DocumentItem>)
    requires |elems| > 0 && Decode(elems[0]) == Some(x) && DecodeEach(elems[1..]) == Some(rest)
    ensures DecodeEach(elems) == Some([x] + rest)
  {
  }

  /** Every record of a stored list decodes, so the list reads back whole and in order. */
  lemma {:induction false} DecodeEachEncoded(items: seq<DocumentItem>)
    ensures DecodeEach(EncodeAll(items).elems) == Some(items)
  {
    if items != [] {
      var elems := EncodeAll(items).elems;
      assert elems[0] == Encode(items[0]);
      assert elems[1..] == EncodeAll(items[1..]).elems;
      DecodeEncode(items[0]);
      DecodeEachEncoded(items[1..]);
      DecodeEachCons(elems, items[0], items[1..]);
      assert [items[0]] + items[1..] == items;
    }
  }

  /** What the load effect finds under `document_history`. */
  datatype Saved = NothingSaved | Restored(items: seq<DocumentItem>) | Unreadable

  /**
    The load effect's reading of the stored value: nothing (or the empty
    string) leaves the list alone; a list of well-formed records is revived.
    Everything else is `Unreadable`: a value that is not an array (where
    `JSON.parse(...).map(...)` throws), but also records with a missing or
    mistyped field, or JSON kept as plain text, which the source would load;
    the model does not load those.  An array with a `null` element is
    unreadable here as it is in the source, where `item.timestamp` throws.
    Fields outside the record shape are dropped.
   */
  function ReadSaved(saved: Option<Entry>): Saved {
    match saved
    case None => NothingSaved
    case Some(Text(s)) => if s == "" then NothingSaved else Unreadable
    case Some(Doc(j)) =>
      if !j.JArr? then Unreadable
      else match DecodeEach(j.elems)
        case Some(items) => Restored(items)
        case None => Unreadable
  }

  /** What one component instance persists is exactly what the next one loads. */
  lemma SavedListReloads(items: seq<DocumentItem>)
    ensures ReadSaved(Some(Doc(EncodeAll(items)))) == Restored(items)
  {
    DecodeEachEncoded(items);
  }

  /**
    `file_path.split('/').pop()`: the text after the last `/`, or the whole
    path when it has none.
   */
  function DownloadName(path: string): (name: string)
    ensures forall i :: 0 <= i < |name| ==> name[i] != '/'
    ensures |name| <= |path| && path[|path| - |name|..] == name
    ensures |name| < |path| ==> path[|path| - |name| - 1] == '/'
  {
    if path == [] || path[|path| - 1] == '/' then []
    else
      var init := path[..|path| - 1];
      var name := DownloadName(init);
      assert path[|path| - |name| - 1..] == init[|init| - |name|..] + [path[|path| - 1]];
      name + [path[|path| - 1]]
  }

  /** After a `/` (or at the start), a segment without `/` is the file name. */
  lemma {:induction false} DownloadNameAfterSlash(prefix: string, file: string)
    requires prefix == [] || prefix[|prefix| - 1] == '/'
    requires forall i :: 0 <= i < |file| ==> file[i] != '/'
    ensures DownloadName(prefix + file) == file
    decreases |file|
  {
    if file == [] {
      assert prefix + file == prefix;
    } else {
      var path := prefix + file;
      var init := file[..|file| - 1];
      assert path[|path| - 1] == file[|file| - 1];
      assert path[..|path| - 1] == prefix + init;
      DownloadNameAfterSlash(prefix, init);
      assert DownloadName(path) == DownloadName(prefix + init) + [file[|file| - 1]];
      assert init + [file[|file| - 1]] == file;
    }
  }

  /** A path without `/` is its own file name; under a directory, only the part after the last `/` counts. */
  lemma DownloadNameCases(dir: string, file: string)
    requires forall i :: 0 <= i < |file| ==> file[i] != '/'
    ensures DownloadName(file) == file
    ensures DownloadName(dir + "/" + file) == file
  {
    DownloadNameAfterSlash([], file);
    assert [] + file == file;
    DownloadNameAfterSlash(dir + "/", file);
  }

  /**
    The download button (`doc.success && doc.file_path`): never for a failed
    record, never without a path, and an empty path counts as none.
   */
  predicate ShowDownload(item: DocumentItem)
    ensures ShowDownload(item) ==> item.success && item.filePath.Some?
    ensures item.filePath == None || item.filePath == Some("") ==> !ShowDownload(item)
    ensures item.success && item.filePath.Some? && item.filePath.value != "" ==> ShowDownload(item)
  {
    item.success && item.filePath.Some? && item.filePath.value != ""
  }

  /**
    The source count line: only for a non-empty `urls`, reading "1 source"
    for one and "n sources" for more.
   */
  function SourceLabel(urls: Option<seq<string>>): (text: Option<string>)
    ensures text.Some? <==> urls.Some? && |urls.value| > 0
    ensures text.Some? && |urls.value| == 1 ==> text.value == "1 source"
    ensures text.Some? && |urls.value| > 1 ==> text.value == Decimal(|urls.value|) + " sources"
  {
    if urls.Some? && |urls.value| > 0 then
      var n := |urls.value|;
      Some(Decimal(n) + " source" + (if n > 1 then "s" else ""))
    else None
  }

  /**
    The request `handleDownload` sends for a shown record: without a stored
    token it throws before any request; otherwise it GETs the file named
    after the last `/` of the path, with the bearer token.
   */
  function DownloadRequest(base: string, token: Option<string>, item: DocumentItem): (r: Result<Api.Request>)
    requires ShowDownload(item)
    ensures r.Err? <==> token == None || token == Some("")
    ensures r.Err? ==> r.message == "No authentication token found"
    ensures r.Ok? ==> r.value.url == base + (Api.DownloadDocsEndpoint + "/" + DownloadName(item.filePath.value))
    ensures r.Ok? ==> r.value.init.verb == Some("GET") && r.value.init.body == None
    ensures r.Ok? ==>
      r.value.init.headers == map["Authorization" := "Bearer " + token.value, Api.ContentType := Api.JsonMediaType]
  {
    if token == None || token == Some("") then Err("No authentication token found")
    else
      var endpoint := Api.DownloadDocsEndpoint + "/" + DownloadName(item.filePath.value);
      var options := Api.RequestInit(Some("GET"), map["Authorization" := "Bearer " + token.value], None);
      Api.PrepareRelative(base, endpoint, options);
      Api.BearerHeaders(token.value);
      Ok(Api.Prepare(base, endpoint, options))
  }

  class DocumentHistory {
    var entries: seq<DocumentItem>
    const store: LocalStore

    /** The component's first render: an empty list. */
    constructor (store: LocalStore)
      ensures this.store == store && entries == []
    {
      this.store := store;
      entries := [];
    }

    /** The list in storage is the list in memory. */
    ghost predicate Persisted()
      reads this, store
    {
      HistoryKey in store.items && store.items[HistoryKey] == Doc(EncodeAll(entries))
    }

    /**
      The load effect.  `ok` is false for an unreadable stored
      value (see `ReadSaved`); the list is then left as it was.
     */
    method LoadOnMount() returns (ok: bool)
      modifies this
      ensures ok <==> !ReadSaved(store.GetItem(HistoryKey)).Unreadable?
      ensures ReadSaved(store.GetItem(HistoryKey)).Restored? ==>
        entries == ReadSaved(store.GetItem(HistoryKey)).items
      ensures !ReadSaved(store.GetItem(HistoryKey)).Restored? ==> entries == old(entries)
    {
      var saved := ReadSaved(store.GetItem(HistoryKey));
      match saved
      case NothingSaved => ok := true;
      case Restored(items) => entries := items; ok := true;
      case Unreadable => ok := false;
    }

    /**
      `addToHistory(input)` at time `now`: prepends the stamped record, keeps
      ten, and writes the whole list back under `document_history`.
     */
    method Add(input: DocumentInput, now: nat)
      modifies this, store
      ensures entries == History.Prepend(old(entries), Stamp(input, now))
      ensures store.items == old(store.items)[HistoryKey := Doc(EncodeAll(entries))]
      ensures Persisted()
    {
      entries := History.Prepend(entries, Stamp(input, now));
      store.SetItem(HistoryKey, Doc(EncodeAll(entries)));
    }

    /** What the component renders: nothing for an empty list, otherwise the list. */
    function View(): (r: Option<seq<DocumentItem>>)
      reads this
      ensures r == None <==> entries == []
      ensures r.Some? ==> r.value == entries
    {
      History.Panel(entries)
    }
  }
}
