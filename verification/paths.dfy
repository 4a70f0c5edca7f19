/** Paths as the build graph names them. */
module Paths {
  /** A source-absolute or build-relative path to a file, e.g. `//foo/lib.rs`. */
  type SourceFile = string
}
