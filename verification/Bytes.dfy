/** Byte values and the small result types shared by the other modules. */
module Bytes {

  type byte = x: int | 0 <= x < 256

  datatype Option<+T> = None | Some(value: T)

  const NUL: byte := 0
  const LF: byte := 10
  const CR: byte := 13
  const SPACE: byte := 32
  const DQUOTE: byte := 34
  const QUOTE: byte := 39

  /** The first event of a binary log starts behind the file's magic number. */
  const BIN_LOG_HEADER_SIZE: nat := 4

  /** No terminator inside: what a C string can hold. */
  predicate NulFree(s: seq<byte>) {
    forall i :: 0 <= i < |s| ==> s[i] != NUL
  }
}
