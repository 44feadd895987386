/** Uploaded videos, the files made from them, and what a row says about them. */
module Media {
  import opened Common

  type UserId = string
  type MediaId = string
  type Key = string

  datatype MediaState = Uploaded | Analysing | Preparing | Ready | Failed

  const CANONICAL: string := "canonical"
  const DIRECT: string := "direct"

  /** A stored file: whether the canonical conversion made it, and the exact shape a probe of it reads. */
  datatype File = File(canonical: bool, signature: string)

  /** A `media` row. `pinned` is `prepare_target = 'canonical'`. */
  datatype Media = Media(
    owner: UserId, storage: Key, prepared: Option<Key>, state: MediaState,
    mode: Option<string>, signature: Option<string>, pinned: bool)
  {
    /** A row without a recorded mode reads as canonical. */
    function ModeRead(): string {
      if mode.Some? then mode.value else CANONICAL
    }

    predicate PointsAt(k: Key) {
      storage == k || prepared == Some(k)
    }

    /** The recorded mode and signature are those of this file. */
    predicate Describes(f: File) {
      && (ModeRead() == CANONICAL <==> f.canonical)
      && (signature.Some? ==> signature.value == f.signature)
      && (ModeRead() != CANONICAL ==> signature.Some?)
    }
  }
}
