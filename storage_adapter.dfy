/**
 * The client side of the media store (src/services/storage/ServerStorageAdapter.ts):
 * the five operations of the storage contract over the server's JSON, with
 * each `fetch` reply a parameter. A reply that is not ok makes the operation
 * throw; the model returns `Err` with the same message.
 */
module StorageAdapter {
  import opened Wrappers
  import opened Text
  import opened Seqs
  import opened MediaTypes
  import MediaServer

  /** The server origin the client prefixes to every relative file url. */
  const ServerOrigin := "http://localhost:3000"

  /** A record as the client receives it; `tags` may be missing in the JSON. */
  datatype WireRecord = WireRecord(
    id: string,
    originalName: string,
    mimeType: string,
    size: nat,
    url: string,
    tags: Option<seq<string>>,
    createdAt: nat,
    updatedAt: nat)

  /** What `fetch` produced: a reply whose `ok` is false, or an ok reply with its parsed body. */
  datatype Reply<T> = NotOk | OkBody(body: T)

  /** The browser `File` being uploaded. */
  datatype LocalFile = LocalFile(name: string, mimeType: string, size: nat)

  /** `mimeType.startsWith('video/') ? 'video' : 'image'`. */
  function MediaTypeOf(mimeType: string): (t: MediaType)
    ensures t == Video <==> StartsWith(mimeType, "video/")
  {
    if StartsWith(mimeType, "video/") then Video else Image
  }

  /** The record-to-`MediaFile` mapping of `getMedia` and `listMedia`. */
  function ToMediaFile(item: WireRecord): (f: MediaFile)
    ensures f.metadata.id == item.id && f.metadata.name == item.originalName
    ensures f.metadata.mimeType == item.mimeType && f.metadata.size == item.size
    ensures f.metadata.mediaType == MediaTypeOf(item.mimeType)
    ensures f.metadata.tags == item.tags.GetOr([])
    ensures f.url == ServerOrigin + item.url && |f.url| == |ServerOrigin| + |item.url|
    ensures f.metadata.duration.None? && f.metadata.dimensions.None?
    ensures f.metadata.createdAt == item.createdAt && f.metadata.updatedAt == item.updatedAt
  {
    MediaFile(
      MediaMetadata(item.id, item.originalName, MediaTypeOf(item.mimeType), item.mimeType, item.size,
        None, None, item.tags.GetOr([]), item.createdAt, item.updatedAt),
      ServerOrigin + item.url)
  }

  /** The JSON a server record is sent as. */
  function ToWire(r: MediaServer.MediaRecord): WireRecord {
    WireRecord(r.id, r.originalName, r.mimeType, r.size, r.url, Some(r.tags), r.createdAt, r.updatedAt)
  }

  function MapRecords(items: seq<WireRecord>): (files: seq<MediaFile>)
    ensures |files| == |items| && forall i :: 0 <= i < |items| ==> files[i] == ToMediaFile(items[i])
  {
    seq(|items|, i requires 0 <= i < |items| => ToMediaFile(items[i]))
  }

  // ------------------------------------------------------------------
  // The client-side filter chain of listMedia
  // ------------------------------------------------------------------

  function TypeRule(t: MediaType): MediaFile -> bool {
    (f: MediaFile) => f.metadata.mediaType == t
  }

  function TagsRule(wanted: seq<string>): MediaFile -> bool {
    (f: MediaFile) => SharesTag(f.metadata.tags, wanted)
  }

  /** `search` is already lower-cased. */
  function SearchRule(search: string): MediaFile -> bool {
    (f: MediaFile) => SearchHit(f.metadata.name, f.metadata.tags, search)
  }

  /** Which of the three rules a filter switches on: a type, a non-empty tag list, a non-empty search. */
  predicate TypeOn(filter: MediaFilter) { filter.mediaType.Some? }
  predicate TagsOn(filter: MediaFilter) { filter.tags.Some? && |filter.tags.value| > 0 }
  predicate SearchOn(filter: MediaFilter) { Truthy(filter.search) }

  /** A file meets every rule the filter switches on. */
  predicate MatchesFilter(filter: MediaFilter, f: MediaFile) {
    && (TypeOn(filter) ==> f.metadata.mediaType == filter.mediaType.value)
    && (TagsOn(filter) ==> SharesTag(f.metadata.tags, filter.tags.value))
    && (SearchOn(filter) ==> SearchHit(f.metadata.name, f.metadata.tags, ToLower(filter.search.value)))
  }

  /** `if (filter) { type; tags; search }`: three successive `files = files.filter(...)`. */
  function FilterChain(files: seq<MediaFile>, filter: Option<MediaFilter>): seq<MediaFile> {
    if filter.None? then files
    else
      var flt := filter.value;
      var byType := KeepIf(TypeOn(flt), TypeRule(flt.mediaType.GetOr(Video)), files);
      var byTags := KeepIf(TagsOn(flt), TagsRule(flt.tags.GetOr([])), byType);
      KeepIf(SearchOn(flt), SearchRule(ToLower(flt.search.GetOr(""))), byTags)
  }

  /**
   * The chain keeps exactly the files meeting every rule the filter switches
   * on, as an order-preserving subsequence; without a filter, or with none of
   * its rules on, it keeps every file.
   */
  lemma FilterChainSpec(files: seq<MediaFile>, filter: Option<MediaFilter>)
    ensures var r := FilterChain(files, filter);
      && Subsequence(r, files)
      && (filter.None? ==> r == files)
      && (filter.Some? ==>
            && (forall i :: 0 <= i < |r| ==> r[i] in files && MatchesFilter(filter.value, r[i]))
            && (forall i :: 0 <= i < |files| && MatchesFilter(filter.value, files[i]) ==> files[i] in r)
            && (!TypeOn(filter.value) && !TagsOn(filter.value) && !SearchOn(filter.value) ==> r == files))
  {
    if filter.None? {
      SubsequenceReflexive(files);
    } else {
      var flt := filter.value;
      var k1 := TypeRule(flt.mediaType.GetOr(Video));
      var k2 := TagsRule(flt.tags.GetOr([]));
      var k3 := SearchRule(ToLower(flt.search.GetOr("")));
      forall x: MediaFile
        ensures MatchesFilter(flt, x) <==> (TypeOn(flt) ==> k1(x)) && (TagsOn(flt) ==> k2(x)) && (SearchOn(flt) ==> k3(x))
      {
        RulesMeanFilter(flt, x);
      }
      KeepIfThrice(TypeOn(flt), k1, TagsOn(flt), k2, SearchOn(flt), k3, files);
    }
  }

  /** A file the filter accepts is kept as often as it occurs; one it rejects not at all. */
  lemma FilterChainCounts(files: seq<MediaFile>, flt: MediaFilter)
    ensures var r := FilterChain(files, Some(flt));
      forall i :: 0 <= i < |files| ==>
        multiset(r)[files[i]] == if MatchesFilter(flt, files[i]) then multiset(files)[files[i]] else 0
  {
    var k1 := TypeRule(flt.mediaType.GetOr(Video));
    var k2 := TagsRule(flt.tags.GetOr([]));
    var k3 := SearchRule(ToLower(flt.search.GetOr("")));
    KeepIfThrice(TypeOn(flt), k1, TagsOn(flt), k2, SearchOn(flt), k3, files);
    forall i | 0 <= i < |files|
      ensures MatchesFilter(flt, files[i]) <==> (TypeOn(flt) ==> k1(files[i])) && (TagsOn(flt) ==> k2(files[i])) && (SearchOn(flt) ==> k3(files[i]))
    {
      RulesMeanFilter(flt, files[i]);
    }
  }

  /** The three rules the chain applies are the three conditions of `MatchesFilter`. */
  lemma RulesMeanFilter(flt: MediaFilter, x: MediaFile)
    ensures MatchesFilter(flt, x) <==>
      && (TypeOn(flt) ==> TypeRule(flt.mediaType.GetOr(Video))(x))
      && (TagsOn(flt) ==> TagsRule(flt.tags.GetOr([]))(x))
      && (SearchOn(flt) ==> SearchRule(ToLower(flt.search.GetOr("")))(x))
  {
  }

  // ------------------------------------------------------------------
  // The five operations
  // ------------------------------------------------------------------

  /**
   * `saveMedia`: the metadata takes name, type and size from the local file,
   * tags from the request (default []), and id, dates and url from the reply.
   */
  function SaveMedia(file: LocalFile, tags: Option<seq<string>>, reply: Reply<WireRecord>): (r: Result<MediaFile>)
    ensures r.Err? <==> reply.NotOk?
    ensures r.Err? ==> r.message == "Failed to upload file"
    ensures r.Ok? ==>
      && r.value.metadata.id == reply.body.id && r.value.metadata.name == file.name
      && r.value.metadata.mediaType == MediaTypeOf(file.mimeType) && r.value.metadata.mimeType == file.mimeType
      && r.value.metadata.size == file.size && r.value.metadata.tags == tags.GetOr([])
      && r.value.url == ServerOrigin + reply.body.url
      && r.value.metadata.createdAt == reply.body.createdAt && r.value.metadata.updatedAt == reply.body.updatedAt
      && r.value.metadata.duration.None? && r.value.metadata.dimensions.None?
  {
    match reply
    case NotOk => Err("Failed to upload file")
    case OkBody(data) =>
      Ok(MediaFile(
        MediaMetadata(data.id, file.name, MediaTypeOf(file.mimeType), file.mimeType, file.size,
          None, None, tags.GetOr([]), data.createdAt, data.updatedAt),
        ServerOrigin + data.url))
  }

  /** The `tags` form field the server sees: the JSON text is appended only when the request has tags. */
  function TagsFieldOf(tags: Option<seq<string>>): MediaServer.TagsField {
    if tags.Some? then MediaServer.Parsed(tags.value) else MediaServer.NoTags
  }

  /** `getMedia(id)`. */
  function GetMedia(id: string, reply: Reply<WireRecord>): (r: Result<MediaFile>)
    ensures r.Err? <==> reply.NotOk?
    ensures r.Err? ==> r.message == "Media not found: " + id
    ensures r.Ok? ==> r.value == ToMediaFile(reply.body)
  {
    match reply
    case NotOk => Err("Media not found: " + id)
    case OkBody(data) => Ok(ToMediaFile(data))
  }

  /** `listMedia(filter)`. */
  function ListMedia(filter: Option<MediaFilter>, reply: Reply<seq<WireRecord>>): (r: Result<seq<MediaFile>>)
    ensures r.Err? <==> reply.NotOk?
    ensures r.Err? ==> r.message == "Failed to list media"
    ensures r.Ok? ==> r.value == FilterChain(MapRecords(reply.body), filter)
  {
    match reply
    case NotOk => Err("Failed to list media")
    case OkBody(items) => Ok(FilterChain(MapRecords(items), filter))
  }

  /** `deleteMedia(id)`. */
  function DeleteMedia(id: string, reply: Reply<()>): (r: Result<()>)
    ensures r.Err? <==> reply.NotOk?
    ensures r.Err? ==> r.message == "Failed to delete media"
  {
    match reply
    case NotOk => Err("Failed to delete media")
    case OkBody(_) => Ok(())
  }

  /** `updateMetadata(id, updates)`: after an ok PATCH, whatever `getMedia(id)` then returns. */
  function UpdateMetadata(id: string, patchReply: Reply<()>, getReply: Reply<WireRecord>): (r: Result<MediaFile>)
    ensures patchReply.NotOk? ==> r == Err("Failed to update metadata")
    ensures patchReply.OkBody? ==> r == GetMedia(id, getReply)
  {
    match patchReply
    case NotOk => Err("Failed to update metadata")
    case OkBody(_) => GetMedia(id, getReply)
  }

  // ------------------------------------------------------------------
  // Client and server together
  // ------------------------------------------------------------------

  /** Every type the server accepts is a video type, so every stored file maps as a video. */
  lemma StoredFilesAreVideos(files: seq<MediaServer.MediaRecord>)
    requires MediaServer.StoreValid(files)
    ensures forall i :: 0 <= i < |files| ==> ToMediaFile(ToWire(files[i])).metadata.mediaType == Video
    ensures FilterChain(MapRecords(seq(|files|, i requires 0 <= i < |files| => ToWire(files[i]))), Some(MediaFilter(Some(Image), None, None))) == []
  {
    var items := seq(|files|, i requires 0 <= i < |files| => ToWire(files[i]));
    var mapped := MapRecords(items);
    forall i | 0 <= i < |files|
      ensures ToMediaFile(ToWire(files[i])).metadata.mediaType == Video
    {
      var m := files[i].mimeType;
      assert m == "video/mp4" || m == "video/webm" || m == "video/ogg";
      assert StartsWith(m, "video/");
    }
    var flt := MediaFilter(Some(Image), None, None);
    var r := FilterChain(mapped, Some(flt));
    FilterChainSpec(mapped, Some(flt));
  }

  /**
   * The file `saveMedia` returns for an accepted upload is the one a later
   * `getMedia` of the stored record returns, when the local file's name is the
   * one the server stored.
   */
  lemma SaveMatchesGet(file: LocalFile, tags: Option<seq<string>>, stored: MediaServer.UploadedFile, now: nat)
    requires stored.originalName == file.name && stored.mimeType == file.mimeType && stored.size == file.size
    ensures var record := MediaServer.NewRecord(stored, TagsFieldOf(tags), now);
      SaveMedia(file, tags, OkBody(ToWire(record))) == GetMedia(record.id, OkBody(ToWire(record)))
  {
  }

  /** A PATCH with tags is seen by the next `getMedia`: the tags are the new ones, everything else stays. */
  lemma PatchSeenByGet(r: MediaServer.MediaRecord, newTags: seq<string>, now: nat)
    ensures var after := ToMediaFile(ToWire(r.(tags := newTags, updatedAt := now)));
      var before := ToMediaFile(ToWire(r));
      after.metadata.tags == newTags && after.url == before.url
      && after.metadata == before.metadata.(tags := newTags, updatedAt := now)
  {
  }
}
