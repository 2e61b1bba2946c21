# API Management developer-portal migrator, modelled in Dafny

This project models the core of the portal migration script in `python_migration_b/utils.py`. The script exports an Azure API Management developer portal and imports it again. It has two parts:

- `AzureHttpClient` talks to the management API. It resolves request URLs against the service's resource URL and classifies each response by its status code.
- `PortalMigrator` uses that client for the rest:
  - it lists the content types;
  - it pages through each type's content items by following `nextLink`;
  - it captures a snapshot that maps each item id to the item without its `"id"` field;
  - it replays a snapshot as one `PUT` per entry;
  - it selects which files of the snapshot's media folder to upload, skipping `.info` sidecar files.

The network is a value, `HttpClient.Network`. It holds every request sent so far and the replies the service will still give, in order. Each request consumes one reply.

Every operation that talks to the service is a method of a class: `HttpClient.Client` or `Migrator.PortalMigrator`. Each method is proved equal to a function of the network state it started from. The lemmas in `PagingProperties`, `SnapshotProperties` and `MediaProperties` state what those functions do:

- a chain of N pages costs N requests and yields the concatenation of their items;
- an HTTP error on any page aborts the listing;
- a snapshot holds the later of two items with the same id, stripped of `"id"`, at the position where the id first appeared;
- replaying a captured snapshot sends one PUT per distinct captured id, in order of first appearance, carrying the body of the last item with that id;
- when the captured ids are distinct, those PUTs are exactly the captured `(id, item-minus-id)` pairs, in capture order; the body of an earlier item whose id repeats is never written back;
- only non-`.info` files are uploaded, each under its path below the media folder.

The functions the methods are proved equal to, and the source functions they define:

| function | defines |
|---|---|
| `Migrator.ContentTypeIds` | the list comprehension of `get_content_types` (python_migration_b/utils.py:58) |
| `Migrator.ContentTypes` | `get_content_types` (python_migration_b/utils.py:56-58) |
| `Migrator.Paginate` | the `nextLink` loop of `get_content_items` (python_migration_b/utils.py:60-67) |
| `Migrator.RecordItems` | the inner loop of `capture_content` (python_migration_b/utils.py:114-116) |
| `Migrator.CaptureTypes` | the outer loop of `capture_content` (python_migration_b/utils.py:112-116) |
| `Migrator.Capture` | `capture_content` up to the snapshot it writes (python_migration_b/utils.py:109-116) |
| `Migrator.Replay` | the loop of `generate_content` (python_migration_b/utils.py:127-128) |
| `Migrator.MediaFiles` | `list_files_in_directory` (python_migration_b/utils.py:48-54) |
| `Migrator.StorageSasUrl` | `get_storage_sas_url` (python_migration_b/utils.py:77-79) |
| `Migrator.UploadPlan` | `upload_blobs` (python_migration_b/utils.py:95-107) |

Python values are modelled with these types:

| Python | Model |
|---|---|
| decoded JSON values | `Json.Value` |
| dict | `Dicts.Dict`, an ordered association list, so that insertion order and overwrite-in-place can both be stated |
| exceptions | `Wrappers.Failure` inside `Wrappers.Result` |

Exceptions map to `Wrappers.Failure` as follows:

| Python exception | Failure |
|---|---|
| `HTTPError` | `HttpFailure(code)` |
| a JSON decode error | `DecodeFailure` |
| `KeyError`, `TypeError` or `AttributeError` on an unexpected body shape | `ShapeFailure` |
| a transport error | `ConnectionFailure` |

## Model

| member | source | states |
|---|---|---|
| HttpClient.BaseUrl | python_migration_b/utils.py:18 | The service's resource URL is an `https://` URL that ends with the service name. |
| HttpClient.ResolveUrl | python_migration_b/utils.py:25-26 | A URL that starts with `https://` is used unchanged. Any other URL is appended to the base URL, so the result is absolute whenever the base is. |
| HttpClient.Classify | python_migration_b/utils.py:38-41 | A response yields its decoded body exactly when the status is 200, 201 or 202, the text is non-empty and it decodes. It yields `""` exactly when the status is a success code and the text is empty. It is an HTTP error carrying the status exactly when the status is 400-599. Every other status falls through. |
| HttpClient.ToPython | python_migration_b/utils.py:38-41 | `send_request` raises exactly for HTTP errors and undecodable bodies. |
| HttpClient.SendResult | python_migration_b/utils.py:38-41 | Read off the response: a success status with text gives the decoded body, and with empty text gives `""`. Text that is not JSON raises a decode error. A 4xx/5xx status raises an HTTP error carrying that status. Any other status returns `None`. |
| HttpClient.Exchange | python_migration_b/utils.py:24-41 | One request is logged with its resolved URL, method and body. Exactly one reply is consumed, and the result is that reply's classification. With no reply left, the result is a connection failure. |
| HttpClient.Client.constructor | python_migration_b/utils.py:12-18 | The client's base URL is the service's resource URL. Nothing has been sent yet. |
| HttpClient.Client.SendRequest | python_migration_b/utils.py:24-41 | Sending a request changes the client's log and the remaining replies exactly as `Exchange` describes, and returns its result. |
| Dicts.Set | python_migration_b/utils.py:115 | `d[k] = v`: afterwards `k` maps to `v` and no other key changes. A key already present keeps its position, and a new key goes last. Unique keys stay unique. |
| Dicts.Lookup | python_migration_b/utils.py:115 | `d.get(k)`: absent exactly when `k` is not a key; otherwise a value stored under `k`. |
| Dicts.LookupUnique | python_migration_b/utils.py:115 | With distinct keys, looking up an entry's key gives that entry's value. |
| Dicts.Delete | python_migration_b/utils.py:116 | `del d[k]`: afterwards `k` is absent and every other key keeps its value. Deleting an absent key changes nothing. |
| Dicts.DeleteKeepsOthers | python_migration_b/utils.py:116 | Every entry not under `k` remains after the deletion. |
| Dicts.DeleteKeepsOrder | python_migration_b/utils.py:116 | The remaining entries keep their order: any two of them appear in the old dict in the same order. |
| Dicts.DeleteUnique | python_migration_b/utils.py:116 | Deleting from a dict with distinct keys leaves distinct keys. |
| Json.Truthy | python_migration_b/utils.py:63 | `while next_page_url`: a value is false exactly when it is `None`, `False`, `0`, `""`, `[]` or `{}`. |
| Json.Subscript | python_migration_b/utils.py:115 | `x[key]` (also at lines 58, 65 and 79) succeeds exactly when `x` is a dict holding `key`, and yields a value stored under it. A non-dict (TypeError) or a missing key (KeyError) is an error. |
| Json.Get | python_migration_b/utils.py:66 | `x.get(key)` fails exactly when `x` is not a dict (AttributeError). A present key gives what `x[key]` gives, and a missing key gives `None`. |
| Json.Iterate | python_migration_b/utils.py:65 | Iterating (also in the comprehension at line 58): a list yields its elements, a string its characters, a dict its keys in order. Any other value is a TypeError. |
| Migrator.LastSegmentIsSuffix | python_migration_b/utils.py:58 | `s.split("/")[-1]` is the suffix of `s` after its last `/`, or all of `s` when it has no `/`. It contains no `/`. |
| Migrator.ContentTypeIdsOk | python_migration_b/utils.py:58 | The comprehension succeeds exactly when every item has a string id, and otherwise fails on the body's shape. |
| Migrator.ContentTypeIdsValues | python_migration_b/utils.py:58 | The content-type ids are one per listed item, in order, each the last `/`-segment of that item's `id`. |
| Migrator.Entry | python_migration_b/utils.py:115-116 | An item yields a snapshot entry exactly when it has a string id. The stored body is the item's fields with `"id"` deleted. |
| Migrator.RecordItemsOk | python_migration_b/utils.py:114-116 | Recording succeeds exactly when every item has a string id, and fails on the body's shape otherwise. |
| Migrator.RecordItemsUnique | python_migration_b/utils.py:115 | Recording into a snapshot whose keys are unique leaves them unique: each id is stored once. |
| Migrator.KeptFilesSnoc | python_migration_b/utils.py:51-53 | Taking one more file name of a directory appends its path to the kept files, unless it is a `.info` sidecar. |
| Migrator.MediaFilesSnoc | python_migration_b/utils.py:50-53 | Walking one more directory appends that directory's kept files to the listing. |
| Migrator.Uploads | python_migration_b/utils.py:104-107 | There is one upload per listed file, in order. Each goes to the container under the file's path relative to the media folder. |
| Migrator.PortalMigrator.constructor | python_migration_b/utils.py:44-46 | The migrator owns a fresh client for the service and keeps the snapshot folder, `./snapshot` unless another is given. |
| Migrator.PortalMigrator.ListFilesInDirectory | python_migration_b/utils.py:48-54 | The nested loops return exactly `MediaFiles(dir, walk)`: every walked file except `.info` sidecars, in walk order. |
| Migrator.PortalMigrator.GetContentTypes | python_migration_b/utils.py:56-58 | Changes the network and returns the ids exactly as one `GET /contentTypes` followed by `ContentTypeIds` does. |
| Migrator.PortalMigrator.GetContentItems | python_migration_b/utils.py:60-67 | The `nextLink` loop has exactly the effect and result of `Paginate` from the type's first page. |
| Migrator.PortalMigrator.GetContentItem | python_migration_b/utils.py:69-71 | One GET of the item's URL. |
| Migrator.PortalMigrator.UpdateContentItem | python_migration_b/utils.py:73-75 | One PUT of the body to the item's URL. |
| Migrator.PortalMigrator.GetStorageSasUrl | python_migration_b/utils.py:77-79 | One POST to the media-secrets URL. The result is its `containerSasUrl`, or an error. |
| Migrator.PortalMigrator.UploadBlobs | python_migration_b/utils.py:95-107 | A missing media folder sends nothing and uploads nothing. Otherwise the result is one SAS request, then an upload of every listed file under its relative path. |
| Migrator.PortalMigrator.CaptureContent | python_migration_b/utils.py:109-116 | The two nested loops over content types and their items have exactly the effect and result of `Capture`. |
| Migrator.PortalMigrator.GenerateContent | python_migration_b/utils.py:122-128 | For a snapshot with distinct keys, as `json.load` gives, the loop over the snapshot has exactly the effect and result of `Replay`: one PUT per entry, stopping at the first that raises. |
| PagingProperties.PaginateStep | python_migration_b/utils.py:63-66 | A served page contributes its items, and the listing goes on from its `nextLink` after one GET. |
| PagingProperties.PaginateFollowsLinks | python_migration_b/utils.py:61-67 | After any number of pages that link on, their items come first, in order. Exactly one GET has been sent per page, each to the previous page's link. |
| PagingProperties.PaginateChain | python_migration_b/utils.py:61-67 | For N pages chained by `nextLink`, the last having a falsy link, the result is the concatenation of all pages' items in order, without deduplication. Exactly N requests are sent and N replies consumed. |
| PagingProperties.PaginateAbortsOnHttpError | python_migration_b/utils.py:63-65 | A 4xx/5xx reply on any page aborts the listing with that status and returns no items. The requests sent are those of the earlier pages and the failing one. |
| SnapshotProperties.RecordLookup | python_migration_b/utils.py:114-116 | After recording, each id maps to the stripped body of the last item with that id, so a repeated id keeps the later body. Ids not among the items keep their old value. |
| SnapshotProperties.RecordKeys | python_migration_b/utils.py:114-115 | After recording, the keys are the old keys, then each new id once, in order of first appearance. |
| SnapshotProperties.RecordAppend | python_migration_b/utils.py:112-116 | Recording the items of several content types in turn is recording their concatenation. |
| SnapshotProperties.RecordDistinct | python_migration_b/utils.py:114-116 | With distinct new ids, recording appends exactly one entry per item, in order: the item's id and the item without `"id"`. |
| SnapshotProperties.CaptureTypesRecordsCollected | python_migration_b/utils.py:111-116 | A successful capture equals collecting all items of all types (pages concatenated in type order) and recording them. It sends the same requests. |
| SnapshotProperties.CaptureRecordsCapturedItems | python_migration_b/utils.py:109-116 | A successful capture is the recording, into an empty snapshot, of every item the service lists. |
| SnapshotProperties.ReplayStep | python_migration_b/utils.py:127-128 | An accepted first PUT lets the replay continue with the remaining entries. |
| SnapshotProperties.ReplayAccepted | python_migration_b/utils.py:127-128 | When every write is accepted, the replay sends exactly one PUT per entry, in snapshot order, to the entry's key with its value as the body, and makes no other call. |
| SnapshotProperties.ReplayRefused | python_migration_b/utils.py:127-128 | A refused first write ends the replay with its error after one request. |
| SnapshotProperties.ReplayStopsAtFirstRefusal | python_migration_b/utils.py:127-128 | The first refused write ends the replay with its error. Later entries are never sent. |
| SnapshotProperties.CaptureThenReplay | python_migration_b/utils.py:110-128 | Capture, then replay: the PUTs are one per distinct captured id, in order of first appearance. Each carries the last item with that id, minus `"id"`. |
| SnapshotProperties.WritesOfEntries | python_migration_b/utils.py:115-128 | A snapshot holding one entry per item, in order, is replayed as one PUT per item, to its id and with the item without `"id"` as the body. |
| SnapshotProperties.ReplayDistinctItems | python_migration_b/utils.py:114-128 | Recording items with distinct ids and replaying the result appends to the log exactly one PUT per item, in item order. |
| SnapshotProperties.CaptureThenReplayDistinct | python_migration_b/utils.py:110-128 | With distinct ids, the replay's log is the prior log followed by one PUT per captured item, in capture order. The i-th PUT goes to the i-th item's id and carries that item without `"id"`. |
| MediaProperties.JoinedInfo | python_migration_b/utils.py:52-53 | A joined path ends in `.info` exactly when the file name does. |
| MediaProperties.KeptFilesMembership | python_migration_b/utils.py:51-53 | A path is kept from a directory exactly when it joins the directory to one of its files that is not a `.info` sidecar. |
| MediaProperties.MediaFilesMembership | python_migration_b/utils.py:49-54 | A path is listed exactly when some walked directory holds a non-`.info` file whose joined path it is. |
| MediaProperties.NoSidecarListed | python_migration_b/utils.py:52 | No listed path ends in `.info`. |
| MediaProperties.RelPathOfWalked | python_migration_b/utils.py:105 | A walked file's path relative to the media folder is `subdir/name`, or `name` in the folder itself. |
| MediaProperties.UploadsOfWalk | python_migration_b/utils.py:101-107 | With an existing folder and a SAS URL, exactly one POST is sent and there is one upload per listed file. Each upload goes to that container and uploads a non-`.info` walked file under its relative blob name. |

## Left out

- Token acquisition through `DefaultAzureCredential` (python_migration_b/utils.py:16-22), the request headers and the `api-version` parameter (python_migration_b/utils.py:28-34): a foreign identity SDK and transport details that do not affect which requests are made.
- The `requests.request` call itself (python_migration_b/utils.py:36) is replaced by a scripted sequence of replies.
- HttpClient.Exchange: when the script is exhausted, the result is a connection failure. This stands for any exception the transport raises.
- Migrator.Paginate: a listing whose `nextLink` chain never ends (a page that links to itself, say) loops forever in the source. The reply script is finite, so the model cannot represent that; such a listing ends in a connection failure once the script runs out.
- Json.Value: floating-point numbers are not modelled; JSON numbers are integers. An object's field list may repeat a name, which a decoded JSON object never does. Lookups then see the first entry with that name, and every dict the model builds keeps its names distinct.
- `download_blobs` (python_migration_b/utils.py:81-93) and the `ContainerClient` calls in `upload_blobs`: a foreign storage SDK and file transfer.
- Migrator.PortalMigrator.UploadBlobs: returns the planned uploads (container, blob name, local path) rather than performing them. The file contents and `overwrite=True` are not modelled. The `os.path.exists` answer and the `os.walk` output are parameters. The skip message at line 98 is not modelled.
- Migrator.PortalMigrator.ListFilesInDirectory: takes the `os.walk` output as a parameter.
- Migrator.JoinPath and Migrator.RelPath: `os.path.join` and `os.path.relpath` are modelled only for the plain paths a walk produces. Normalisation (`..`, repeated or trailing separators, absolute second arguments) is not modelled.
- Migrator.PortalMigrator.CaptureContent: returns the snapshot instead of writing `data.json`. `os.makedirs` and `json.dump` are left out.
- Migrator.PortalMigrator.GenerateContent: takes the snapshot as an argument instead of reading `data.json`. `json.load` is left out, and the snapshot's order is the order of the list given.
- Migrator.IdOf: an item whose `"id"` is not a string is treated as a malformed body. Python would accept any hashable id as a snapshot key, and `get_content_types` would fail on it only when calling `split`.
- Migrator.StorageSasUrl: a `containerSasUrl` that is not a string is reported as a malformed body. The storage SDK would reject it later.
- Migrator.Entry: the deletion of `"id"` from the stored item, which is the same object as the one just inserted, is modelled by value. The stored body is the item without `"id"`, which is what the aliasing produces.
- `export_portal` and `import_portal` (python_migration_b/utils.py:130-140): sequencing of the modelled operations and progress messages.
- The command-line entry points `python_migration/capture.py`, `python_migration_b/capture.py` and `python_migration_b/generate.py`: argument, environment and configuration handling that builds a migrator and calls one method.
