/** How a write to a database or a queue can end for the code that makes it. */
module Writes {
  /** Done, or raising, with or without having landed before. */
  datatype Write = Ok | Raises(landed: bool)

  predicate Landed(w: Write) {
    w.Ok? || w.landed
  }
}
