/** The vocabulary shared by every component: keys, blobs, metadata and cache entries. */
module CacheTypes {
  datatype Option<+T> = None | Some(value: T)

  type Byte = b: int | 0 <= b < 256

  /** A Go string: any bytes. */
  type Text = seq<Byte>

  type Blob = seq<Byte>
  type Key = Text

  /** `cache.Metadata`: the validator stored next to a blob, empty when the origin sent none. */
  datatype Metadata = Metadata(etag: Text)

  /** What one successful Put makes visible: the metadata and the whole blob. */
  datatype Entry = Entry(meta: Metadata, blob: Blob)

  /** The bytes of an ASCII string. */
  ghost predicate Spells(t: Text, s: string) {
    |t| == |s| && forall i :: 0 <= i < |s| ==> t[i] == s[i] as int
  }
}
