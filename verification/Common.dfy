// What several modules share.

module Common {

  datatype Option<+T> = None | Some(value: T)

  /** A command substitution drops the line feeds at the end. */
  function Captured(s: string): string {
    if s != "" && s[|s| - 1] == '\n' then Captured(s[..|s| - 1]) else s
  }

  /** The chunks of a stream put together. */
  function Concat<T>(chunks: seq<seq<T>>): seq<T> {
    if chunks == [] then [] else Concat(chunks[..|chunks| - 1]) + chunks[|chunks| - 1]
  }
}
