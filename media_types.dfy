/**
 * The media-metadata types of src/types/media.ts, and the two matching rules
 * that both the server and the client-side filter apply to them.
 */
module MediaTypes {
  import opened Wrappers
  import opened Text
  import Seqs

  /** `MediaMetadata.type`: either 'video' or 'image'. */
  datatype MediaType = Video | Image

  datatype Dimensions = Dimensions(width: nat, height: nat)

  /** Metadata of a stored file; `tags` is mandatory, `duration` and `dimensions` optional; dates are timestamps. */
  datatype MediaMetadata = MediaMetadata(
    id: string,
    name: string,
    mediaType: MediaType,
    mimeType: string,
    size: nat,
    duration: Option<nat>,
    dimensions: Option<Dimensions>,
    tags: seq<string>,
    createdAt: nat,
    updatedAt: nat)

  /** A `MediaFile` pairs metadata with a url. */
  datatype MediaFile = MediaFile(metadata: MediaMetadata, url: string)

  /** `MediaFilter`: all three criteria optional. */
  datatype MediaFilter = MediaFilter(mediaType: Option<MediaType>, tags: Option<seq<string>>, search: Option<string>)

  /** `wanted.some(tag => tags.includes(tag))`: the two lists share a tag (compared exactly). */
  predicate SharesTag(tags: seq<string>, wanted: seq<string>) {
    Seqs.Any((w: string) => w in tags, wanted)
  }

  /**
   * The search rule: the lower-cased needle occurs in the lower-cased name or
   * in some lower-cased tag (`needle` is already lower-cased by the callers).
   */
  predicate SearchHit(name: string, tags: seq<string>, needle: string) {
    Contains(ToLower(name), needle) || Seqs.Any((t: string) => Contains(ToLower(t), needle), tags)
  }

  lemma SharesTagIff(tags: seq<string>, wanted: seq<string>)
    ensures SharesTag(tags, wanted) <==> exists t :: t in tags && t in wanted
  {
    if exists t :: t in tags && t in wanted {
      var t :| t in tags && t in wanted;
      var i :| 0 <= i < |wanted| && wanted[i] == t;
      assert ((w: string) => w in tags)(wanted[i]);
    }
  }
}
