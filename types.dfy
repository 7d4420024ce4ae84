/** The records of the flashcard app (types.ts). */
module Types {

  /** A terminology card of the catalog. The optional `definition` field of the
      source is never filled in by the app (definitions live in the cache), so
      it is not part of the record. */
  datatype Term = Term(id: string, category: string, term: string)

  /** Resolution state of the definition shown on the current card. */
  datatype FetchStatus = Idle | Loading | Success | Error

  /** A JavaScript value that may be `undefined`. */
  datatype Option<T> = None | Some(value: T)
}
