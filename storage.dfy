/**
 * Browser `localStorage`, one key at a time. A key is modelled by the
 * structured value `JSON.parse` would give back for it, not by its text.
 */
module Storage {

  /** What a store finds under its key when it starts. */
  datatype Slot<+T> =
    | Absent          // `getItem` returned null (or the empty string)
    | Unparsable      // the text is there but `JSON.parse` throws on it
    | Holds(value: T) // the text parses to this value
}
