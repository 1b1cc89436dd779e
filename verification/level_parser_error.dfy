/**
 * `LevelParserError`: the error of the level and game-object loaders. Its two
 * variants carry a human-readable message and the TOML error they wrap.
 */
module LevelParserErrors {
  import opened Wrappers
  import opened Foreign

  datatype LevelParserError =
    | DeserializationError(message: string, de: TomlDeError)
    | SerializationError(message: string, ser: TomlSerError)

  type LevelParserResult<T> = Result<T, LevelParserError>

  const SerializationMessage := "Error while serializing the level as a TOML file."
  const DeserializationMessage := "Error while deserializing the level as a Rust structure."

  /** The text `Display` writes before the message. */
  function DisplayPrefix(e: LevelParserError): (prefix: string)
    ensures |prefix| > 0
    ensures prefix[0] == 'S' <==> e.SerializationError?
    ensures prefix[0] == 'D' <==> e.DeserializationError?
  {
    match e
    case SerializationError(_, _) => "Serialization error: "
    case DeserializationError(_, _) => "Deserialization error: "
  }

  /** `Display::fmt`: the variant's prefix followed by the message. */
  function Fmt(e: LevelParserError): (s: string)
    ensures DisplayPrefix(e) <= s
    ensures s[|DisplayPrefix(e)|..] == e.message
  {
    DisplayPrefix(e) + e.message
  }

  /** Two errors that print the same are of the same variant with the same message. */
  lemma FmtIdentifiesError(a: LevelParserError, b: LevelParserError)
    requires Fmt(a) == Fmt(b)
    ensures a.SerializationError? <==> b.SerializationError?
    ensures a.message == b.message
  {
    assert Fmt(a)[0] == DisplayPrefix(a)[0];
    assert Fmt(b)[0] == DisplayPrefix(b)[0];
    assert DisplayPrefix(a) == DisplayPrefix(b);
  }

  /** `Error::description`: the variant's name. */
  function Description(e: LevelParserError): (tag: string)
    ensures tag == "SerializationError" <==> e.SerializationError?
    ensures tag == "DeserializationError" <==> e.DeserializationError?
  {
    match e
    case SerializationError(_, _) => "SerializationError"
    case DeserializationError(_, _) => "DeserializationError"
  }

  /** `Error::cause`: always present, and it is the error the variant wraps. */
  function Cause(e: LevelParserError): (c: Option<ErrorSource>)
    ensures c.Some?
    ensures e.DeserializationError? <==> c.value.TomlDe?
    ensures e.SerializationError? <==> c.value.TomlSer?
    ensures e.DeserializationError? ==> c.value.de == e.de
    ensures e.SerializationError? ==> c.value.ser == e.ser
  {
    match e
    case DeserializationError(_, de) => Some(TomlDe(de))
    case SerializationError(_, ser) => Some(TomlSer(ser))
  }

  /** `From<toml::ser::Error>`. */
  function FromSerialization(error: TomlSerError): (e: LevelParserError)
    ensures e.SerializationError? && e.message == SerializationMessage
    ensures Cause(e) == Some(TomlSer(error))
    ensures Fmt(e) == "Serialization error: " + SerializationMessage
  {
    SerializationError(SerializationMessage, error)
  }

  /** `From<toml::de::Error>`. */
  function FromDeserialization(error: TomlDeError): (e: LevelParserError)
    ensures e.DeserializationError? && e.message == DeserializationMessage
    ensures Cause(e) == Some(TomlDe(error))
    ensures Fmt(e) == "Deserialization error: " + DeserializationMessage
  {
    DeserializationError(DeserializationMessage, error)
  }
}
