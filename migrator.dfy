/**
 * The portal migrator: content-type enumeration, paging through content items, snapshot
 * capture and replay, and media-file selection for upload. Each operation that talks to the
 * service is a method of `PortalMigrator` proved against a function of the network state
 * (the requests sent so far and the replies still to come), so that its effect can be
 * reasoned about in lemmas.
 */
module Migrator {
  import opened Wrappers
  import opened Dicts
  import opened Json
  import opened HttpClient

  const ContentTypesPath := "/contentTypes"
  const MediaSecretsPath := "/portalconfigs/default/listMediaContentSecrets"
  const InfoSuffix := ".info"
  const DefaultSnapshotFolder := "./snapshot"

  function ItemsPath(contentType: string): string
  {
    "/contentTypes/" + contentType + "/contentItems"
  }

  function ItemPath(contentType: string, contentItem: string): string
  {
    ItemsPath(contentType) + "/" + contentItem
  }

  // ----- Content types -----

  /** `s.split("/")[-1]`: the part of `s` after its last '/', or all of `s` when it has none. */
  function LastSegment(s: string): string
  {
    if s == [] || s[|s| - 1] == '/' then [] else LastSegment(s[..|s| - 1]) + [s[|s| - 1]]
  }

  /** The last segment holds no '/' and is a suffix of `s`, preceded by a '/' whenever it is shorter than `s`. */
  lemma {:induction false} LastSegmentIsSuffix(s: string)
    ensures var r := LastSegment(s);
      && '/' !in r
      && |r| <= |s| && r == s[|s| - |r|..]
      && (|r| < |s| ==> s[|s| - |r| - 1] == '/')
  {
    if s != [] && s[|s| - 1] != '/' {
      var init := s[..|s| - 1];
      LastSegmentIsSuffix(init);
      var r0 := LastSegment(init);
      assert LastSegment(s) == r0 + [s[|s| - 1]];
      assert '/' !in r0 + [s[|s| - 1]];
      assert init[|init| - |r0|..] + [s[|s| - 1]] == s[|s| - |r0| - 1..];
      if |r0| < |init| {
        assert init[|init| - |r0| - 1] == s[|s| - |r0| - 2];
      }
    }
  }

  /** `item["id"]` when that is a string; `None` where the source raises. */
  function IdOf(item: Value): Option<string>
  {
    match Subscript(item, "id")
    case Some(Str(id)) => Some(id)
    case _ => None
  }

  /** The list comprehension over the items of `GET /contentTypes`. */
  function ContentTypeIds(items: seq<Value>): Result<seq<string>>
  {
    if items == [] then Ok([])
    else
      match IdOf(items[0])
      case None => Err(ShapeFailure)
      case Some(id) =>
        var rest := ContentTypeIds(items[1..]);
        if rest.Err? then rest else Ok([LastSegment(id)] + rest.value)
  }

  /** Every item has a string id. */
  predicate HaveIds(items: seq<Value>)
  {
    forall k :: 0 <= k < |items| ==> IdOf(items[k]).Some?
  }

  lemma HaveIdsCons(items: seq<Value>)
    requires items != []
    ensures HaveIds(items) <==> IdOf(items[0]).Some? && HaveIds(items[1..])
  {
    assert forall k :: 1 <= k < |items| ==> items[1..][k - 1] == items[k];
  }

  /** The comprehension succeeds exactly when every item has a string id, and otherwise fails on the body's shape. */
  lemma {:induction false} ContentTypeIdsOk(items: seq<Value>)
    ensures ContentTypeIds(items).Ok? <==> HaveIds(items)
    ensures ContentTypeIds(items).Err? ==> ContentTypeIds(items).error == ShapeFailure
    decreases |items|
  {
    if items != [] {
      ContentTypeIdsOk(items[1..]);
      HaveIdsCons(items);
    }
  }

  /** A successful comprehension holds, item by item and in order, the last segment of each id. */
  lemma {:induction false} ContentTypeIdsValues(items: seq<Value>)
    requires ContentTypeIds(items).Ok?
    ensures |ContentTypeIds(items).value| == |items|
    ensures forall k :: 0 <= k < |items| ==>
              IdOf(items[k]).Some? && ContentTypeIds(items).value[k] == LastSegment(IdOf(items[k]).value)
    decreases |items|
  {
    if items != [] {
      ContentTypeIdsValues(items[1..]);
      var ids := ContentTypeIds(items).value;
      var rest := ContentTypeIds(items[1..]).value;
      forall k | 1 <= k < |items|
        ensures IdOf(items[k]).Some? && ids[k] == LastSegment(IdOf(items[k]).value)
      {
        assert ids[k] == rest[k - 1];
        assert items[1..][k - 1] == items[k];
      }
    }
  }

  /** What `for item in data["value"]` ranges over; `None` where the source raises. */
  function ValueList(data: Value): Option<seq<Value>>
  {
    match Subscript(data, "value")
    case Some(v) => Iterate(v)
    case None => None
  }

  /** `get_content_types` on the network state `net`. */
  function ContentTypes(baseUrl: string, net: Network): (Result<seq<string>>, Network)
  {
    var (data, net1) := Exchange(baseUrl, net, GET, ContentTypesPath, None);
    if data.Err? then (Err(data.error), net1)
    else
      match ValueList(data.value)
      case None => (Err(ShapeFailure), net1)
      case Some(items) => (ContentTypeIds(items), net1)
  }

  // ----- Paging -----

  /** Puts `items` in front of the items of a successful listing. */
  function Prepend(items: seq<Value>, res: (Result<seq<Value>>, Network)): (Result<seq<Value>>, Network)
  {
    (if res.0.Ok? then Ok(items + res.0.value) else res.0, res.1)
  }

  lemma PrependNothing(res: (Result<seq<Value>>, Network))
    ensures Prepend([], res) == res
  {
    if res.0.Ok? {
      assert [] + res.0.value == res.0.value;
    }
  }

  lemma PrependTwice(a: seq<Value>, b: seq<Value>, res: (Result<seq<Value>>, Network))
    ensures Prepend(a, Prepend(b, res)) == Prepend(a + b, res)
  {
    if res.0.Ok? {
      assert a + (b + res.0.value) == a + b + res.0.value;
    }
  }

  /**
   * The loop of `get_content_items` from the moment `next_page_url` holds `next`: while it
   * is truthy, GET it, collect `data["value"]` and continue with `data.get("nextLink")`.
   */
  function Paginate(baseUrl: string, net: Network, next: Value): (Result<seq<Value>>, Network)
    decreases |net.replies|
  {
    if !Truthy(next) then (Ok([]), net)
    else if !next.Str? then (Err(ShapeFailure), net)
    else
      var (data, net1) := Exchange(baseUrl, net, GET, next.s, None);
      if data.Err? then (Err(data.error), net1)
      else
        match (ValueList(data.value), Get(data.value, "nextLink"))
        case (Some(values), Some(link)) => Prepend(values, Paginate(baseUrl, net1, link))
        case _ => (Err(ShapeFailure), net1)
  }

  // ----- Snapshot capture -----

  /**
   * The snapshot entry one item yields: its id, and the stored object, which is the item
   * itself with "id" deleted from it after it was stored.
   */
  function Entry(item: Value): (e: Option<(string, Value)>)
    ensures e.Some? <==> IdOf(item).Some?
    ensures e.Some? ==> item.Obj? && e.value == (IdOf(item).value, Obj(Delete(item.fields, "id")))
  {
    match item
    case Obj(fields) =>
      (match IdOf(item)
       case Some(id) => Some((id, Obj(Delete(fields, "id"))))
       case None => None)
    case _ => None
  }

  /** The inner loop of `capture_content` over the items of one content type. */
  function RecordItems(snap: Dict<Value>, items: seq<Value>): Result<Dict<Value>>
    decreases |items|
  {
    if items == [] then Ok(snap)
    else
      match Entry(items[0])
      case None => Err(ShapeFailure)
      case Some(entry) => RecordItems(Set(snap, entry.0, entry.1), items[1..])
  }

  /** Recording succeeds exactly when every item has a string id, and otherwise fails on the body's shape. */
  lemma {:induction false} RecordItemsOk(snap: Dict<Value>, items: seq<Value>)
    ensures RecordItems(snap, items).Ok? <==> HaveIds(items)
    ensures RecordItems(snap, items).Err? ==> RecordItems(snap, items).error == ShapeFailure
    decreases |items|
  {
    if items != [] {
      HaveIdsCons(items);
      match Entry(items[0])
      case None =>
      case Some(entry) =>
        RecordItemsOk(Set(snap, entry.0, entry.1), items[1..]);
    }
  }

  /** Recording keeps the snapshot's keys unique: each id is stored once. */
  lemma {:induction false} RecordItemsUnique(snap: Dict<Value>, items: seq<Value>)
    requires Unique(snap) && RecordItems(snap, items).Ok?
    ensures Unique(RecordItems(snap, items).value)
    decreases |items|
  {
    if items != [] {
      var e := Entry(items[0]).value;
      RecordItemsUnique(Set(snap, e.0, e.1), items[1..]);
    }
  }

  /** The outer loop of `capture_content` from the content type `types[0]` on. */
  function CaptureTypes(baseUrl: string, net: Network, snap: Dict<Value>, types: seq<string>)
    : (Result<Dict<Value>>, Network)
    decreases |types|
  {
    if types == [] then (Ok(snap), net)
    else
      var (items, net1) := Paginate(baseUrl, net, Str(ItemsPath(types[0])));
      if items.Err? then (Err(items.error), net1)
      else
        var recorded := RecordItems(snap, items.value);
        if recorded.Err? then (Err(recorded.error), net1)
        else CaptureTypes(baseUrl, net1, recorded.value, types[1..])
  }

  /** `capture_content`: the snapshot it would write to data.json. */
  function Capture(baseUrl: string, net: Network): (Result<Dict<Value>>, Network)
  {
    var (types, net1) := ContentTypes(baseUrl, net);
    if types.Err? then (Err(types.error), net1)
    else CaptureTypes(baseUrl, net1, [], types.value)
  }

  // ----- Snapshot replay -----

  /** `generate_content`: one PUT per snapshot entry, stopping at the first that raises. */
  function Replay(baseUrl: string, net: Network, data: Dict<Value>): (Result<()>, Network)
    decreases |data|
  {
    if data == [] then (Ok(()), net)
    else
      var (r, net1) := Exchange(baseUrl, net, PUT, data[0].0, Some(data[0].1));
      if r.Err? then (Err(r.error), net1)
      else Replay(baseUrl, net1, data[1..])
  }

  // ----- Media files -----

  /** One directory `os.walk` visits: its path below the walked top ("" for the top itself) and its files. */
  datatype WalkEntry = WalkEntry(subdir: string, files: seq<string>)

  function JoinPath(dir: string, name: string): string
  {
    dir + "/" + name
  }

  /** The `root` that `os.walk(top)` reports for a directory. */
  function Root(top: string, e: WalkEntry): string
  {
    if e.subdir == "" then top else JoinPath(top, e.subdir)
  }

  predicate EndsWith(s: string, suffix: string)
  {
    |suffix| <= |s| && s[|s| - |suffix|..] == suffix
  }

  /** `[path of name]`, or nothing for a ".info" sidecar file. */
  function Kept(root: string, name: string): seq<string>
  {
    if EndsWith(name, InfoSuffix) then [] else [JoinPath(root, name)]
  }

  /** The paths of those of `names` in `root` that are not ".info" sidecar files. */
  function KeptFiles(root: string, names: seq<string>): seq<string>
  {
    if names == [] then [] else Kept(root, names[0]) + KeptFiles(root, names[1..])
  }

  /** The paths `list_files_in_directory(top)` returns when `os.walk(top)` yields `walk`. */
  function MediaFiles(top: string, walk: seq<WalkEntry>): seq<string>
  {
    if walk == [] then []
    else KeptFiles(Root(top, walk[0]), walk[0].files) + MediaFiles(top, walk[1..])
  }

  /** Dropping the head of a prefix is taking the prefix of the tail. */
  lemma PrefixTail<T>(s: seq<T>, n: nat)
    requires 0 < n <= |s|
    ensures s[..n][1..] == s[1..][..n - 1]
  {
  }

  lemma AppendAssoc<T>(a: seq<T>, b: seq<T>, c: seq<T>)
    ensures a + (b + c) == (a + b) + c
  {
  }

  lemma {:induction false} KeptFilesSnoc(root: string, names: seq<string>, j: nat)
    requires j < |names|
    ensures KeptFiles(root, names[..j + 1]) == KeptFiles(root, names[..j]) + Kept(root, names[j])
  {
    if j > 0 {
      PrefixTail(names, j + 1);
      PrefixTail(names, j);
      KeptFilesSnoc(root, names[1..], j - 1);
      assert names[1..][j - 1] == names[j];
      AppendAssoc(Kept(root, names[0]), KeptFiles(root, names[1..][..j - 1]), Kept(root, names[j]));
    } else {
      assert names[..1][1..] == [];
    }
  }

  lemma {:induction false} MediaFilesSnoc(top: string, walk: seq<WalkEntry>, i: nat)
    requires i < |walk|
    ensures MediaFiles(top, walk[..i + 1]) == MediaFiles(top, walk[..i]) + KeptFiles(Root(top, walk[i]), walk[i].files)
  {
    if i > 0 {
      PrefixTail(walk, i + 1);
      PrefixTail(walk, i);
      MediaFilesSnoc(top, walk[1..], i - 1);
      assert walk[1..][i - 1] == walk[i];
      AppendAssoc(KeptFiles(Root(top, walk[0]), walk[0].files), MediaFiles(top, walk[1..][..i - 1]),
                  KeptFiles(Root(top, walk[i]), walk[i].files));
    } else {
      assert walk[..1][1..] == [];
    }
  }

  /** `os.path.relpath(path, base)` for a path below `base`. */
  function RelPath(path: string, base: string): string
  {
    if StartsWith(path, base + "/") then path[|base| + 1..] else path
  }

  function MediaFolder(snapshotFolder: string): string
  {
    JoinPath(snapshotFolder, "media")
  }

  /** One `upload_blob` call: container SAS URL, blob name, local file. */
  datatype Upload = Upload(container: string, blobName: string, filePath: string)

  /** The uploads of `files`, in order, each under its path relative to `media`. */
  function Uploads(container: string, media: string, files: seq<string>): (u: seq<Upload>)
    ensures |u| == |files|
    ensures forall k :: 0 <= k < |files| ==> u[k] == Upload(container, RelPath(files[k], media), files[k])
  {
    seq(|files|, k requires 0 <= k < |files| => Upload(container, RelPath(files[k], media), files[k]))
  }

  lemma UploadsSnoc(container: string, media: string, files: seq<string>, i: nat)
    requires i < |files|
    ensures Uploads(container, media, files[..i + 1])
         == Uploads(container, media, files[..i]) + [Upload(container, RelPath(files[i], media), files[i])]
  {
  }

  /** `get_storage_sas_url`. */
  function StorageSasUrl(baseUrl: string, net: Network): (Result<string>, Network)
  {
    var (data, net1) := Exchange(baseUrl, net, POST, MediaSecretsPath, None);
    if data.Err? then (Err(data.error), net1)
    else
      match Subscript(data.value, "containerSasUrl")
      case Some(Str(url)) => (Ok(url), net1)
      case _ => (Err(ShapeFailure), net1)
  }

  /** `upload_blobs`, with the existence of the media folder and its walk given. */
  function UploadPlan(baseUrl: string, net: Network, media: string, mediaExists: bool, walk: seq<WalkEntry>)
    : (Result<seq<Upload>>, Network)
  {
    if !mediaExists then (Ok([]), net)
    else
      var (sas, net1) := StorageSasUrl(baseUrl, net);
      if sas.Err? then (Err(sas.error), net1)
      else (Ok(Uploads(sas.value, media, MediaFiles(media, walk))), net1)
  }

  class PortalMigrator {
    const client: Client
    const snapshotFolder: string

    constructor (subscriptionId: string, resourceGroupName: string, serviceName: string,
                 replies: seq<Response>, snapshotFolder: string := DefaultSnapshotFolder)
      ensures fresh(client)
      ensures client.baseUrl == BaseUrl(subscriptionId, resourceGroupName, serviceName)
      ensures client.State() == Network([], replies)
      ensures this.snapshotFolder == snapshotFolder
    {
      client := new Client(subscriptionId, resourceGroupName, serviceName, replies);
      this.snapshotFolder := snapshotFolder;
    }

    method ListFilesInDirectory(dir: string, walk: seq<WalkEntry>) returns (results: seq<string>)
      ensures results == MediaFiles(dir, walk)
    {
      results := [];
      for i := 0 to |walk|
        invariant results == MediaFiles(dir, walk[..i])
      {
        var root := Root(dir, walk[i]);
        var files := walk[i].files;
        MediaFilesSnoc(dir, walk, i);
        ghost var before := results;
        for j := 0 to |files|
          invariant results == before + KeptFiles(root, files[..j])
        {
          KeptFilesSnoc(root, files, j);
          if !EndsWith(files[j], InfoSuffix) {
            results := results + [JoinPath(root, files[j])];
          }
        }
        assert files[..|files|] == files;
      }
      assert walk[..|walk|] == walk;
    }

    method GetContentTypes() returns (r: Result<seq<string>>)
      modifies client
      ensures (r, client.State()) == ContentTypes(client.baseUrl, old(client.State()))
    {
      var data := client.SendRequest(GET, ContentTypesPath, None);
      if data.Err? {
        return Err(data.error);
      }
      var items := ValueList(data.value);
      if items.None? {
        return Err(ShapeFailure);
      }
      r := ContentTypeIds(items.value);
    }

    method GetContentItems(contentType: string) returns (r: Result<seq<Value>>)
      modifies client
      ensures (r, client.State()) == Paginate(client.baseUrl, old(client.State()), Str(ItemsPath(contentType)))
    {
      var contentItems: seq<Value> := [];
      var nextPageUrl := Str(ItemsPath(contentType));
      PrependNothing(Paginate(client.baseUrl, client.State(), nextPageUrl));
      while Truthy(nextPageUrl)
        invariant Paginate(client.baseUrl, old(client.State()), Str(ItemsPath(contentType)))
                  == Prepend(contentItems, Paginate(client.baseUrl, client.State(), nextPageUrl))
        decreases |client.replies|
      {
        if !nextPageUrl.Str? {
          return Err(ShapeFailure);
        }
        var data := client.SendRequest(GET, nextPageUrl.s, None);
        if data.Err? {
          return Err(data.error);
        }
        var values := ValueList(data.value);
        var link := Get(data.value, "nextLink");
        if values.None? || link.None? {
          return Err(ShapeFailure);
        }
        PrependTwice(contentItems, values.value, Paginate(client.baseUrl, client.State(), link.value));
        contentItems := contentItems + values.value;
        nextPageUrl := link.value;
      }
      assert contentItems + [] == contentItems;
      r := Ok(contentItems);
    }

    method GetContentItem(contentType: string, contentItem: string) returns (r: Result<Value>)
      modifies client
      ensures (r, client.State()) == Exchange(client.baseUrl, old(client.State()), GET, ItemPath(contentType, contentItem), None)
    {
      r := client.SendRequest(GET, ItemPath(contentType, contentItem), None);
    }

    method UpdateContentItem(contentType: string, contentItem: string, body: Value) returns (r: Result<Value>)
      modifies client
      ensures (r, client.State()) == Exchange(client.baseUrl, old(client.State()), PUT, ItemPath(contentType, contentItem), Some(body))
    {
      r := client.SendRequest(PUT, ItemPath(contentType, contentItem), Some(body));
    }

    method GetStorageSasUrl() returns (r: Result<string>)
      modifies client
      ensures (r, client.State()) == StorageSasUrl(client.baseUrl, old(client.State()))
    {
      var data := client.SendRequest(POST, MediaSecretsPath, None);
      if data.Err? {
        return Err(data.error);
      }
      match Subscript(data.value, "containerSasUrl")
      case Some(Str(url)) => r := Ok(url);
      case _ => r := Err(ShapeFailure);
    }

    /** `mediaExists` is `os.path.exists` of the media folder, `walk` what `os.walk` yields for it. */
    method UploadBlobs(mediaExists: bool, walk: seq<WalkEntry>) returns (r: Result<seq<Upload>>)
      modifies client
      ensures !mediaExists ==> r == Ok([]) && client.State() == old(client.State())
      ensures (r, client.State()) == UploadPlan(client.baseUrl, old(client.State()), MediaFolder(snapshotFolder), mediaExists, walk)
    {
      var media := MediaFolder(snapshotFolder);
      if !mediaExists {
        return Ok([]);
      }
      var sas := GetStorageSasUrl();
      if sas.Err? {
        return Err(sas.error);
      }
      assert StorageSasUrl(client.baseUrl, old(client.State())) == (sas, client.State());
      ghost var afterSas := client.State();
      var files := ListFilesInDirectory(media, walk);
      var uploads: seq<Upload> := [];
      for i := 0 to |files|
        invariant uploads == Uploads(sas.value, media, files[..i])
        invariant client.State() == afterSas
      {
        UploadsSnoc(sas.value, media, files, i);
        uploads := uploads + [Upload(sas.value, RelPath(files[i], media), files[i])];
      }
      assert files[..|files|] == files;
      assert uploads == Uploads(sas.value, media, MediaFiles(media, walk));
      r := Ok(uploads);
    }

    /** Returns the snapshot that the source serialises to data.json. */
    method CaptureContent() returns (r: Result<Dict<Value>>)
      modifies client
      ensures (r, client.State()) == Capture(client.baseUrl, old(client.State()))
    {
      var contentTypes := GetContentTypes();
      if contentTypes.Err? {
        return Err(contentTypes.error);
      }
      var types := contentTypes.value;
      ghost var afterTypes := client.State();
      var result: Dict<Value> := [];
      for i := 0 to |types|
        invariant CaptureTypes(client.baseUrl, afterTypes, [], types)
                  == CaptureTypes(client.baseUrl, client.State(), result, types[i..])
      {
        assert types[i..][1..] == types[i + 1..];
        var contentItems := GetContentItems(types[i]);
        if contentItems.Err? {
          return Err(contentItems.error);
        }
        var items := contentItems.value;
        ghost var before := result;
        for j := 0 to |items|
          invariant RecordItems(before, items) == RecordItems(result, items[j..])
        {
          assert items[j..][1..] == items[j + 1..];
          var entry := Entry(items[j]);
          if entry.None? {
            return Err(ShapeFailure);
          }
          result := Set(result, entry.value.0, entry.value.1);
        }
      }
      r := Ok(result);
    }

    /** `data` is the snapshot as loaded from data.json. */
    method GenerateContent(data: Dict<Value>) returns (r: Result<()>)
      requires Unique(data)
      modifies client
      ensures (r, client.State()) == Replay(client.baseUrl, old(client.State()), data)
    {
      for i := 0 to |data|
        invariant Replay(client.baseUrl, old(client.State()), data) == Replay(client.baseUrl, client.State(), data[i..])
      {
        assert data[i..][1..] == data[i + 1..];
        var (key, value) := data[i];
        var sent := client.SendRequest(PUT, key, Some(value));
        if sent.Err? {
          return Err(sent.error);
        }
      }
      r := Ok(());
    }
  }
}
