/**
 * The media server (server/src/index.js): an in-memory array of metadata
 * records behind five routes, and the upload filter and size limit.
 *
 * The saved file on disk, multer's generated file name, the clock and the
 * outcome of `unlinkSync` are parameters. Every route is a method of
 * `MediaStore` that returns the response the route sends.
 */
module MediaServer {
  import opened Wrappers
  import opened Text
  import opened Seqs
  import MediaTypes

  const AllowedTypes: seq<string> := ["video/mp4", "video/webm", "video/ogg"]

  /** 100 MB. */
  const MaxFileSize: nat := 100 * 1024 * 1024

  const UnsupportedType := "Type de fichier non supporté"
  const TooLarge := "File too large"
  const NoFile := "Aucun fichier uploadé"
  const NotFound := "Fichier non trouvé"
  const DeleteFailed := "Erreur lors de la suppression du fichier"
  const Deleted := "Fichier supprimé avec succès"

  /** A stored record; dates are millisecond timestamps. */
  datatype MediaRecord = MediaRecord(
    id: string,
    filename: string,
    originalName: string,
    mimeType: string,
    size: nat,
    url: string,
    tags: seq<string>,
    createdAt: nat,
    updatedAt: nat)

  /** The uploaded part as multer hands it over, with the name it stored the file under. */
  datatype UploadedFile = UploadedFile(filename: string, originalName: string, mimeType: string, size: nat)

  /** The `tags` form field: absent or empty, not JSON, or a parsed list. */
  datatype TagsField = NoTags | Unparsable | Parsed(tags: seq<string>)

  /** What a route sends: one record, a list, the deletion message, or an error status with its message. */
  datatype Response = One(record: MediaRecord) | Many(records: seq<MediaRecord>) | Done(message: string) | Failure(status: nat, error: string)

  /** The `fileFilter`: one of the three video types. */
  predicate AllowedType(mimeType: string) {
    mimeType in AllowedTypes
  }

  /** The filter and the size limit together: what multer lets through to the route. */
  predicate Acceptable(f: UploadedFile) {
    AllowedType(f.mimeType) && f.size <= MaxFileSize
  }

  /** The tags an upload stores: the parsed list, or [] when absent or unparsable. */
  function UploadTags(field: TagsField): seq<string> {
    if field.Parsed? then field.tags else []
  }

  /** The record an accepted upload creates at time `now`. */
  function NewRecord(f: UploadedFile, tags: TagsField, now: nat): (r: MediaRecord)
    ensures r.id == NatToString(now) && r.url == "/uploads/" + f.filename
    ensures r.originalName == f.originalName && r.mimeType == f.mimeType && r.size == f.size
    ensures r.tags == UploadTags(tags) && r.createdAt == now && r.updatedAt == now
  {
    MediaRecord(NatToString(now), f.filename, f.originalName, f.mimeType, f.size, "/uploads/" + f.filename,
      UploadTags(tags), now, now)
  }

  /** The search rule of `GET /api/media` on one record. */
  predicate MatchesSearch(r: MediaRecord, search: string) {
    MediaTypes.SearchHit(r.originalName, r.tags, ToLower(search))
  }

  /** The tags rule of `GET /api/media`: some listed tag is among the record's, exactly. */
  predicate MatchesTags(r: MediaRecord, tagList: seq<string>) {
    MediaTypes.SharesTag(r.tags, tagList)
  }

  function SearchRule(search: string): MediaRecord -> bool {
    (r: MediaRecord) => MatchesSearch(r, search)
  }

  function TagsRule(tags: string): MediaRecord -> bool {
    (r: MediaRecord) => MatchesTags(r, Split(tags, ','))
  }

  /** `GET /api/media?search&tags`: the search filter when `search` is non-empty, then the tags filter when `tags` is. */
  function ListResult(files: seq<MediaRecord>, search: Option<string>, tags: Option<string>): seq<MediaRecord> {
    KeepIf(Truthy(tags), TagsRule(tags.GetOr("")), KeepIf(Truthy(search), SearchRule(search.GetOr("")), files))
  }

  /** The query keeps exactly the records meeting each rule it names, in store order; with no query every record. */
  lemma ListResultSpec(files: seq<MediaRecord>, search: Option<string>, tags: Option<string>)
    ensures var r := ListResult(files, search, tags);
      && Subsequence(r, files)
      && (forall i :: 0 <= i < |r| ==>
            r[i] in files && (Truthy(search) ==> MatchesSearch(r[i], search.value))
            && (Truthy(tags) ==> MatchesTags(r[i], Split(tags.value, ','))))
      && (forall i :: 0 <= i < |files| ==>
            (Truthy(search) ==> MatchesSearch(files[i], search.value)) && (Truthy(tags) ==> MatchesTags(files[i], Split(tags.value, ',')))
            ==> files[i] in r)
      && (forall i :: 0 <= i < |files| ==>
            multiset(r)[files[i]] ==
              if (Truthy(search) ==> MatchesSearch(files[i], search.value)) && (Truthy(tags) ==> MatchesTags(files[i], Split(tags.value, ',')))
              then multiset(files)[files[i]] else 0)
      && (!Truthy(search) && !Truthy(tags) ==> r == files)
  {
    var k1 := SearchRule(search.GetOr(""));
    var k2 := TagsRule(tags.GetOr(""));
    assert forall x :: k1(x) == MatchesSearch(x, search.GetOr(""));
    assert forall x :: k2(x) == MatchesTags(x, Split(tags.GetOr(""), ','));
    KeepIfTwice(Truthy(search), k1, Truthy(tags), k2, files);
  }

  /** The record with the id: the first one, as `find` returns it. */
  function Lookup(files: seq<MediaRecord>, id: string): (r: Option<MediaRecord>)
    ensures r.None? <==> forall i :: 0 <= i < |files| ==> files[i].id != id
    ensures r.Some? ==> exists i :: 0 <= i < |files| && files[i] == r.value && r.value.id == id && forall j :: 0 <= j < i ==> files[j].id != id
  {
    Find((f: MediaRecord) => f.id == id, files)
  }

  /** Every stored record passed the upload filter and the size limit. */
  ghost predicate StoreValid(files: seq<MediaRecord>) {
    forall i :: 0 <= i < |files| ==> AllowedType(files[i].mimeType) && files[i].size <= MaxFileSize
  }

  /** The module-level `mediaFiles` array and the routes over it. */
  class MediaStore {
    var mediaFiles: seq<MediaRecord>

    ghost predicate Valid()
      reads this
    {
      StoreValid(mediaFiles)
    }

    constructor ()
      ensures mediaFiles == [] && Valid()
    {
      mediaFiles := [];
    }

    /**
     * `POST /api/media/upload`. A file multer rejects (type or size) reaches the
     * error handler: 500. No file: 400. Otherwise the record is appended and sent.
     */
    method Upload(file: Option<UploadedFile>, tags: TagsField, now: nat) returns (resp: Response)
      requires Valid()
      modifies this
      ensures Valid()
      ensures file.Some? && !AllowedType(file.value.mimeType) ==> resp == Failure(500, UnsupportedType) && mediaFiles == old(mediaFiles)
      ensures file.Some? && AllowedType(file.value.mimeType) && file.value.size > MaxFileSize ==>
        resp == Failure(500, TooLarge) && mediaFiles == old(mediaFiles)
      ensures file.None? ==> resp == Failure(400, NoFile) && mediaFiles == old(mediaFiles)
      ensures file.Some? && Acceptable(file.value) ==>
        resp == One(NewRecord(file.value, tags, now)) && mediaFiles == old(mediaFiles) + [NewRecord(file.value, tags, now)]
    {
      if file.Some? && !AllowedType(file.value.mimeType) {
        return Failure(500, UnsupportedType);
      }
      if file.Some? && file.value.size > MaxFileSize {
        return Failure(500, TooLarge);
      }
      if file.None? {
        return Failure(400, NoFile);
      }
      var record := NewRecord(file.value, tags, now);
      mediaFiles := mediaFiles + [record];
      return One(record);
    }

    /** `GET /api/media`: never changes the store. */
    method List(search: Option<string>, tags: Option<string>) returns (resp: Response)
      ensures resp.Many? && Subsequence(resp.records, mediaFiles)
      ensures forall i :: 0 <= i < |resp.records| ==>
        (Truthy(search) ==> MatchesSearch(resp.records[i], search.value))
        && (Truthy(tags) ==> MatchesTags(resp.records[i], Split(tags.value, ',')))
      ensures !Truthy(search) && !Truthy(tags) ==> resp.records == mediaFiles
      ensures resp == Many(ListResult(mediaFiles, search, tags))
    {
      ListResultSpec(mediaFiles, search, tags);
      resp := Many(ListResult(mediaFiles, search, tags));
    }

    /** `GET /api/media/:id`: the first record with the id, or 404; never changes the store. */
    method Get(id: string) returns (resp: Response)
      ensures (forall i :: 0 <= i < |mediaFiles| ==> mediaFiles[i].id != id) <==> resp == Failure(404, NotFound)
      ensures resp.One? ==> resp.record.id == id && resp.record in mediaFiles && resp == One(Lookup(mediaFiles, id).value)
      ensures resp.One? || resp == Failure(404, NotFound)
    {
      var found := Lookup(mediaFiles, id);
      if found.None? {
        return Failure(404, NotFound);
      }
      return One(found.value);
    }

    /**
     * `DELETE /api/media/:id`: 404 without a record; 500 with the store
     * unchanged when unlinking the file fails; otherwise every record with the
     * id is removed.
     */
    method Delete(id: string, unlinkSucceeds: bool) returns (resp: Response)
      requires Valid()
      modifies this
      ensures Valid()
      ensures (forall i :: 0 <= i < |old(mediaFiles)| ==> old(mediaFiles)[i].id != id) ==>
        resp == Failure(404, NotFound) && mediaFiles == old(mediaFiles)
      ensures (exists i :: 0 <= i < |old(mediaFiles)| && old(mediaFiles)[i].id == id) && !unlinkSucceeds ==>
        resp == Failure(500, DeleteFailed) && mediaFiles == old(mediaFiles)
      ensures (exists i :: 0 <= i < |old(mediaFiles)| && old(mediaFiles)[i].id == id) && unlinkSucceeds ==>
        resp == Done(Deleted) && mediaFiles == Filter((f: MediaRecord) => f.id != id, old(mediaFiles))
    {
      var index := FindIndex((f: MediaRecord) => f.id == id, mediaFiles);
      if index.None? {
        return Failure(404, NotFound);
      }
      if !unlinkSucceeds {
        return Failure(500, DeleteFailed);
      }
      mediaFiles := Filter((f: MediaRecord) => f.id != id, mediaFiles);
      return Done(Deleted);
    }

    /**
     * `PATCH /api/media/:id`: 404 without a record; otherwise the first record
     * with the id gets the new tags when the update carries any (an empty list
     * included) and `updatedAt` set to `now`; nothing else changes.
     */
    method Patch(id: string, newTags: Option<seq<string>>, now: nat) returns (resp: Response)
      requires Valid()
      modifies this
      ensures Valid()
      ensures (forall i :: 0 <= i < |old(mediaFiles)| ==> old(mediaFiles)[i].id != id) ==>
        resp == Failure(404, NotFound) && mediaFiles == old(mediaFiles)
      ensures (exists i :: 0 <= i < |old(mediaFiles)| && old(mediaFiles)[i].id == id) ==>
        var k := FindIndex((f: MediaRecord) => f.id == id, old(mediaFiles)).value;
        var updated := old(mediaFiles)[k].(tags := if newTags.Some? then newTags.value else old(mediaFiles)[k].tags, updatedAt := now);
        && resp == One(updated)
        && mediaFiles == old(mediaFiles)[k := updated]
    {
      var index := FindIndex((f: MediaRecord) => f.id == id, mediaFiles);
      if index.None? {
        return Failure(404, NotFound);
      }
      var k := index.value;
      var file := mediaFiles[k];
      if newTags.Some? {
        file := file.(tags := newTags.value);
      }
      file := file.(updatedAt := now);
      mediaFiles := mediaFiles[k := file];
      return One(file);
    }
  }

  /** A patch changes only tags and `updatedAt`, so the id, the file and the creation date of every record stay. */
  lemma PatchKeepsIdentity(files: seq<MediaRecord>, k: nat, newTags: Option<seq<string>>, now: nat)
    requires k < |files|
    ensures var updated := files[k].(tags := if newTags.Some? then newTags.value else files[k].tags, updatedAt := now);
      var after := files[k := updated];
      && |after| == |files|
      && (forall i :: 0 <= i < |files| ==>
            after[i].id == files[i].id && after[i].filename == files[i].filename && after[i].url == files[i].url
            && after[i].createdAt == files[i].createdAt && after[i].mimeType == files[i].mimeType)
      && (forall i :: 0 <= i < |files| && i != k ==> after[i] == files[i])
      && (newTags.Some? ==> after[k].tags == newTags.value)
  {
  }

  /** Two uploads in the same millisecond get the same id; a later delete of that id then removes both records. */
  lemma SameInstantUploadsShareId(f1: UploadedFile, f2: UploadedFile, t1: TagsField, t2: TagsField, now: nat)
    ensures var a := NewRecord(f1, t1, now);
      var b := NewRecord(f2, t2, now);
      a.id == b.id && Filter((f: MediaRecord) => f.id != a.id, [a, b]) == []
  {
    var a := NewRecord(f1, t1, now);
    var b := NewRecord(f2, t2, now);
    var keep := (f: MediaRecord) => f.id != a.id;
    assert [a, b][1..] == [b];
    assert Filter(keep, [b]) == Filter(keep, []);
  }
}
