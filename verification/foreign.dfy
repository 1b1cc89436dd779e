/**
 * Error values of the crates the descriptor layer calls into: `toml::de::Error`,
 * `toml::ser::Error`, `gltf::Error` and `std::io::Error`. Only their identity
 * matters here: they are wrapped, kept and handed back as a cause.
 */
module Foreign {

  datatype TomlDeError = TomlDeError(message: string)

  datatype TomlSerError = TomlSerError(message: string)

  datatype GltfCrateError = GltfCrateError(message: string)

  datatype IoErrorKind = NotFound | PermissionDenied | InvalidData | WriteZero | Other

  /** `std::io::Error`, with the path of the operation that raised it. */
  datatype StdIoError = StdIoError(kind: IoErrorKind, path: string)

  /** What `Error::cause` hands back: a reference to some underlying error. */
  datatype ErrorSource =
    | TomlDe(de: TomlDeError)
    | TomlSer(ser: TomlSerError)
    | Gltf(gltf: GltfCrateError)
    | Io(io: StdIoError)
}
