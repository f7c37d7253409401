/** Abstractions of what the application asks of the host operating system. */
module Platform {

  /** A value that may be absent; stands for a nullable reference. */
  datatype Option<+T> = None | Some(value: T)

  /** What a path names on disk at the moment it is queried. */
  datatype EntryKind = Missing | File | Directory

  /**
   * The file system as the application observes it. File.Exists, Directory.Exists
   * and Path.Exists are three views of one `kind` oracle, so a path is never both a
   * file and a directory.
   */
  datatype FileSystem = FileSystem(kind: string -> EntryKind) {

    predicate FileExists(path: string) {
      kind(path) == File
    }

    predicate DirectoryExists(path: string) {
      kind(path) == Directory
    }

    /** Path.Exists: the path names a file or a directory. */
    predicate PathExists(path: string) {
      FileExists(path) || DirectoryExists(path)
    }
  }

  /**
   * A bitmap image. Its pixels are opaque (`bitmap` only identifies them); what the
   * application cares about is whether it has been frozen, that is made immutable
   * and shareable between threads.
   */
  datatype Image = Image(bitmap: nat, frozen: bool) {

    function Freeze(): Image {
      this.(frozen := true)
    }
  }
}
