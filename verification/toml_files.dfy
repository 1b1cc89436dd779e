/**
 * The call chains the descriptor files share: read a reader into a fresh
 * string and parse it; open, read and parse a path; and encode, create the
 * target and write the text. Each step's failure is returned at once and the
 * later steps do not run, as with Rust's `?`.
 */
module TomlFiles {
  import opened Wrappers
  import opened Foreign
  import opened FileSystem
  import DPE = DataParserErrors

  /** The encoder result as `as_string_toml` returns it: a failure becomes a
      `SerializationError`. */
  function AsString<T>(value: T, encode: T -> Result<string, TomlSerError>): (r: Result<string, DPE.DataParserError>)
    ensures r.Ok? <==> encode(value).Ok?
    ensures r.Ok? ==> r.value == encode(value).value
    ensures r.Err? ==> r.error == DPE.FromSerialization(encode(value).error)
  {
    encode(value).MapErr(DPE.FromSerialization)
  }

  /** `read_to_string` into a fresh `String`, then `toml::from_str`. */
  function ReadAndParse<T>(d: Disk, reader: Reader, decode: string -> Result<T, TomlDeError>): (r: Result<T, DPE.DataParserError>)
    ensures r.Err? ==> r.error.IoError? || r.error.DeserializationError?
    ensures (r.Err? && r.error.IoError?) <==> ReadToString(d, reader, "").1.Err?
    ensures r.Ok? ==> decode(ReadToString(d, reader, "").0) == Ok(r.value)
    ensures ReadToString(d, reader, "").1.Ok? && decode(ReadToString(d, reader, "").0).Ok? ==>
      r == Ok(decode(ReadToString(d, reader, "").0).value)
    ensures ReadToString(d, reader, "").1.Ok? && decode(ReadToString(d, reader, "").0).Err? ==>
      r == Err(DPE.FromDeserialization(decode(ReadToString(d, reader, "").0).error))
  {
    var (content, read) := ReadToString(d, reader, "");
    if read.Err? then Err(DPE.FromIo(read.error))
    else decode(content).MapErr(DPE.FromDeserialization)
  }

  /** A read failure is reported as an I/O error before any parsing: the
      result is the same whatever the parser would have said. */
  lemma ReadFailureSkipsParse<T>(d: Disk, reader: Reader, decode: string -> Result<T, TomlDeError>, other: string -> Result<T, TomlDeError>)
    requires ReadToString(d, reader, "").1.Err?
    ensures ReadAndParse(d, reader, decode) == ReadAndParse(d, reader, other)
    ensures ReadAndParse(d, reader, decode) == Err(DPE.FromIo(ReadToString(d, reader, "").1.error))
  {
  }

  /** `open(path)?`, then `read_to_string` and parse. */
  function Load<T>(d: Disk, path: Path, decode: string -> Result<T, TomlDeError>): (r: Result<T, DPE.DataParserError>)
    ensures path !in d.files ==> r == Err(DPE.FromIo(StdIoError(NotFound, path)))
    ensures path in d.files && d.files[path].Unreadable? ==> r == Err(DPE.FromIo(StdIoError(d.files[path].kind, path)))
    ensures r.Err? ==> r.error.IoError? || r.error.DeserializationError?
    ensures r.Ok? <==> path in d.files && d.files[path].Text? && decode(d.files[path].text).Ok?
    ensures r.Ok? ==> decode(d.files[path].text) == Ok(r.value)
    ensures path in d.files && d.files[path].Text? && decode(d.files[path].text).Err? ==>
      r == Err(DPE.FromDeserialization(decode(d.files[path].text).error))
  {
    match Open(d, path)
    case Err(e) => Err(DPE.FromIo(e))
    case Ok(reader) =>
      assert path in d.files && d.files[path].Text? ==> "" + d.files[path].text == d.files[path].text;
      ReadAndParse(d, reader, decode)
  }

  /** An open failure returns before reading, and a read failure before parsing. */
  lemma LoadStopsAtFirstFailure<T>(d: Disk, path: Path, decode: string -> Result<T, TomlDeError>, other: string -> Result<T, TomlDeError>)
    requires path !in d.files || d.files[path].Unreadable?
    ensures Load(d, path, decode) == Load(d, path, other)
    ensures Load(d, path, decode).Err? && Load(d, path, decode).error.IoError?
    ensures path in d.files ==> Load(d, path, decode).error.io == StdIoError(d.files[path].kind, path)
  {
  }

  /** Encode, then `create(path)?`, then `write_all(..)?`: the write half of
      every `save_as_toml`, generic in the error type the caller's `?` produces. */
  function Persist<E>(d: Disk, path: Path, text: Result<string, E>, ioError: StdIoError -> E): (res: (Disk, Result<(), E>))
    ensures text.Err? ==> res == (d, Err(text.error))
    ensures res.1.Ok? <==> text.Ok? && path !in d.readOnly && path !in d.noSpace
    ensures res.1.Ok? ==> res.0 == Stored(d, path, text.value)
    ensures text.Ok? && path in d.readOnly ==> res == (d, Err(ioError(StdIoError(PermissionDenied, path))))
    ensures text.Ok? && path !in d.readOnly && path in d.noSpace ==>
      res == (Stored(d, path, ""), Err(ioError(StdIoError(WriteZero, path))))
    ensures res.0 != d ==> path in res.0.files
    ensures forall p :: p != path ==> Lookup(res.0, p) == Lookup(d, p)
    ensures res.0.readOnly == d.readOnly && res.0.noSpace == d.noSpace
  {
    match text
    case Err(e) => (d, Err(e))
    case Ok(t) =>
      var (created, writer) := Create(d, path);
      if writer.Err? then (created, Err(ioError(writer.error)))
      else
        assert "" + t == t;
        var (written, wrote) := WriteAll(created, writer.value, t);
        if wrote.Err? then (written, Err(ioError(wrote.error)))
        else (written, Ok(()))
  }

  /** What a successful save writes, a load of the same path reads back, as
      long as the codec round-trips the value. */
  lemma {:induction false} PersistThenLoad<T>(d: Disk, path: Path, value: T, encode: T -> Result<string, TomlSerError>, decode: string -> Result<T, TomlDeError>)
    requires encode(value).Ok? ==> decode(encode(value).value) == Ok(value)
    requires Persist(d, path, AsString(value, encode), DPE.FromIo).1.Ok?
    ensures Load(Persist(d, path, AsString(value, encode), DPE.FromIo).0, path, decode) == Ok(value)
  {
    var saved := Persist(d, path, AsString(value, encode), DPE.FromIo).0;
    assert saved == Stored(d, path, encode(value).value);
    assert saved.files[path] == Text(encode(value).value);
  }
}
