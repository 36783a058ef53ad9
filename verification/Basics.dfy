/** Values shared by every part of the model: identifiers, bytes and directory contents. */
module Basics {
  datatype Option<+T> = None | Some(value: T)

  /** A `build.ID`: an opaque hash, of which the model only uses equality. */
  datatype Id = Id(hash: nat)

  type Byte = b: int | 0 <= b < 256
  type Bytes = seq<Byte>

  /** A path relative to an artifact's root, one component per element; `[]` is the root itself. */
  type Path = seq<string>

  datatype Node = Folder | File(mode: nat, content: Bytes)

  /** The name of an identifier in hexadecimal digits. */
  function Name(id: Id): string {
    Hex(id.hash)
  }

  function Hex(n: nat): string {
    (if n < 16 then "" else Hex(n / 16)) + ["0123456789abcdef"[n % 16]]
  }

  /** The contents of one artifact directory: everything below its root. */
  type Dir = map<Path, Node>
}
