/**
 * `DataParserError`: the error of the descriptor files. Each of its four
 * variants carries a human-readable message and the underlying error it wraps.
 */
module DataParserErrors {
  import opened Wrappers
  import opened Foreign

  datatype DataParserError =
    | DeserializationError(message: string, de: TomlDeError)
    | SerializationError(message: string, ser: TomlSerError)
    | GltfError(message: string, gltf: GltfCrateError)
    | IoError(message: string, io: StdIoError)

  type DataParserResult<T> = Result<T, DataParserError>

  const SerializationMessage := "Error while serializing the level as a TOML file."
  const DeserializationMessage := "Error while deserializing the level as a Rust structure."
  const GltfMessage := "Error while manipulating gltf data."
  const IoMessage := "Error while doing I/O filesystem operations."

  predicate SameVariant(a: DataParserError, b: DataParserError) {
    || (a.DeserializationError? && b.DeserializationError?)
    || (a.SerializationError? && b.SerializationError?)
    || (a.GltfError? && b.GltfError?)
    || (a.IoError? && b.IoError?)
  }

  /** The text `Display` writes before the message. */
  function DisplayPrefix(e: DataParserError): (prefix: string)
    ensures |prefix| > 0
    ensures prefix[0] == 'S' <==> e.SerializationError?
    ensures prefix[0] == 'D' <==> e.DeserializationError?
    ensures prefix[0] == 'G' <==> e.GltfError?
    ensures prefix[0] == 'I' <==> e.IoError?
  {
    match e
    case SerializationError(_, _) => "Serialization error: "
    case DeserializationError(_, _) => "Deserialization error: "
    case GltfError(_, _) => "Gltf error: "
    case IoError(_, _) => "Io error: "
  }

  /** `Display::fmt`: the variant's prefix followed by the message. */
  function Fmt(e: DataParserError): (s: string)
    ensures DisplayPrefix(e) <= s
    ensures s[|DisplayPrefix(e)|..] == e.message
  {
    DisplayPrefix(e) + e.message
  }

  /** The displayed text tells the variant and the message apart: two errors
      that print the same are of the same variant with the same message. */
  lemma FmtIdentifiesError(a: DataParserError, b: DataParserError)
    requires Fmt(a) == Fmt(b)
    ensures SameVariant(a, b)
    ensures a.message == b.message
  {
    assert Fmt(a)[0] == DisplayPrefix(a)[0];
    assert Fmt(b)[0] == DisplayPrefix(b)[0];
    assert DisplayPrefix(a) == DisplayPrefix(b);
  }

  /** `Error::description`: the variant's name. */
  function Description(e: DataParserError): (tag: string)
    ensures tag == "SerializationError" <==> e.SerializationError?
    ensures tag == "DeserializationError" <==> e.DeserializationError?
    ensures tag == "GltfError" <==> e.GltfError?
    ensures tag == "IoError" <==> e.IoError?
  {
    match e
    case SerializationError(_, _) => "SerializationError"
    case DeserializationError(_, _) => "DeserializationError"
    case GltfError(_, _) => "GltfError"
    case IoError(_, _) => "IoError"
  }

  lemma DescriptionIdentifiesVariant(a: DataParserError, b: DataParserError)
    ensures Description(a) == Description(b) <==> SameVariant(a, b)
  {
  }

  /** `Error::cause`: always present, and it is the error the variant wraps. */
  function Cause(e: DataParserError): (c: Option<ErrorSource>)
    ensures c.Some?
    ensures e.DeserializationError? <==> c.value.TomlDe?
    ensures e.SerializationError? <==> c.value.TomlSer?
    ensures e.GltfError? <==> c.value.Gltf?
    ensures e.IoError? <==> c.value.Io?
    ensures e.DeserializationError? ==> c.value.de == e.de
    ensures e.SerializationError? ==> c.value.ser == e.ser
    ensures e.GltfError? ==> c.value.gltf == e.gltf
    ensures e.IoError? ==> c.value.io == e.io
  {
    match e
    case DeserializationError(_, de) => Some(TomlDe(de))
    case SerializationError(_, ser) => Some(TomlSer(ser))
    case GltfError(_, gltf) => Some(Gltf(gltf))
    case IoError(_, io) => Some(Io(io))
  }

  /** `From<toml::ser::Error>`. */
  function FromSerialization(error: TomlSerError): (e: DataParserError)
    ensures e.SerializationError? && e.message == SerializationMessage
    ensures Cause(e) == Some(TomlSer(error))
    ensures Fmt(e) == "Serialization error: " + SerializationMessage
  {
    SerializationError(SerializationMessage, error)
  }

  /** `From<toml::de::Error>`. */
  function FromDeserialization(error: TomlDeError): (e: DataParserError)
    ensures e.DeserializationError? && e.message == DeserializationMessage
    ensures Cause(e) == Some(TomlDe(error))
    ensures Fmt(e) == "Deserialization error: " + DeserializationMessage
  {
    DeserializationError(DeserializationMessage, error)
  }

  /** `From<gltf::Error>`. */
  function FromGltf(error: GltfCrateError): (e: DataParserError)
    ensures e.GltfError? && e.message == GltfMessage
    ensures Cause(e) == Some(Gltf(error))
    ensures Fmt(e) == "Gltf error: " + GltfMessage
  {
    GltfError(GltfMessage, error)
  }

  /** `From<std::io::Error>`. */
  function FromIo(error: StdIoError): (e: DataParserError)
    ensures e.IoError? && e.message == IoMessage
    ensures Cause(e) == Some(Io(error))
    ensures Fmt(e) == "Io error: " + IoMessage
  {
    IoError(IoMessage, error)
  }

  /** Each conversion loses nothing: the original error is recovered from the
      cause, so different foreign errors never convert to the same value. */
  lemma ConversionsAreInjective(a: ErrorSource, b: ErrorSource)
    requires Convert(a) == Convert(b)
    ensures a == b
  {
    assert Cause(Convert(a)) == Some(a);
    assert Cause(Convert(b)) == Some(b);
  }

  /** The four `From` impls as one map from a foreign error. */
  function Convert(source: ErrorSource): (e: DataParserError)
    ensures Cause(e) == Some(source)
  {
    match source
    case TomlDe(de) => FromDeserialization(de)
    case TomlSer(ser) => FromSerialization(ser)
    case Gltf(gltf) => FromGltf(gltf)
    case Io(io) => FromIo(io)
  }
}
