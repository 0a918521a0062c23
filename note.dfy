/** The note entity (Go package `core`). */
module Core {
  import opened Wrappers

  /** A wall-clock instant; the model receives it as a parameter instead of reading a clock. */
  type Timestamp = int

  /**
   * A note. `updatedAt` is None until the first partial update (a nil pointer in Go).
   * Ids are 64-bit in the source; the model uses unbounded integers.
   */
  datatype Note = Note(
    id: int,
    title: string,
    content: string,
    createdAt: Timestamp,
    updatedAt: Option<Timestamp>)
}
