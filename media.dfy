/** What the device capture surface hands to the capture stores. */
module Media {

  /** An in-memory binary capture (a browser `File`). */
  datatype File = File(bytes: seq<bv8>)
}
