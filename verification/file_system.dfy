/**
 * The filesystem collaborator (`maskerad_filesystem`): open, read_to_string,
 * create and write_all over an explicit disk value. Each operation that changes
 * the disk returns the new disk, so the order of effects is the order of calls.
 */
module FileSystem {
  import opened Wrappers
  import opened Foreign

  type Path = string

  /** The content at a path: text that reads back whole, or a file whose read
      fails with `kind` after appending `partial` to the buffer. `partial` is
      any text, whatever the kind. */
  datatype Entry = Text(text: string) | Unreadable(partial: string, kind: IoErrorKind)

  /** `readOnly`: paths where create is refused; `noSpace`: paths where writing fails. */
  datatype Disk = Disk(files: map<Path, Entry>, readOnly: set<Path>, noSpace: set<Path>)

  datatype Reader = Reader(path: Path)

  datatype Writer = Writer(path: Path)

  function Lookup(d: Disk, path: Path): Option<Entry> {
    if path in d.files then Some(d.files[path]) else None
  }

  /** The disk with `path` holding exactly `text`, and nothing else changed. */
  function Stored(d: Disk, path: Path, text: string): Disk {
    d.(files := d.files[path := Text(text)])
  }

  function Open(d: Disk, path: Path): Result<Reader, StdIoError> {
    if path in d.files then Ok(Reader(path)) else Err(StdIoError(NotFound, path))
  }

  /** Appends what is read to `buffer` (as `Read::read_to_string` does) and
      returns the new buffer with the number of characters read or the error. */
  function ReadToString(d: Disk, reader: Reader, buffer: string): (string, Result<nat, StdIoError>) {
    match Lookup(d, reader.path)
    case None => (buffer, Err(StdIoError(NotFound, reader.path)))
    case Some(Text(t)) => (buffer + t, Ok(|t|))
    case Some(Unreadable(partial, kind)) => (buffer + partial, Err(StdIoError(kind, reader.path)))
  }

  /** Creates or truncates the file at `path`. */
  function Create(d: Disk, path: Path): (Disk, Result<Writer, StdIoError>) {
    if path in d.readOnly then (d, Err(StdIoError(PermissionDenied, path)))
    else (Stored(d, path, ""), Ok(Writer(path)))
  }

  function WriteAll(d: Disk, writer: Writer, text: string): (Disk, Result<(), StdIoError>) {
    var current := match Lookup(d, writer.path) case Some(Text(t)) => t case _ => "";
    if writer.path in d.noSpace then (d, Err(StdIoError(WriteZero, writer.path)))
    else (Stored(d, writer.path, current + text), Ok(()))
  }
}
