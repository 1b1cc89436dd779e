# Maskerad level parser — a Dafny model

This project models the descriptor layer of `maskerad_level_parser`, the crate
the Maskerad engine uses to load levels and game objects from TOML files. It
also models the two loops that walk that layer.

- **Levels** (`src/level.rs`):
  - Resolving a level descriptor goes through its game-object paths in order.
    Each path is opened, read into a buffer cleared at every step, parsed and
    turned into a `GameObject`. The first failing `?` ends the loop.
  - Saving a level saves every game object first, collecting their ids. It then
    writes a level descriptor listing those ids at the level's title.
- **Descriptors**:
  - `LevelDescription` is an append-only list of game-object builders with a title.
  - `GameObjectBuilder` is a fluent builder updated in place.
  - `GameObjectDescription`, `TransformDescription` and `MeshDescription` are
    value records.
  - A `GameObject` is identified by its descriptor's `id` field, which
    `save_as_toml` also uses as the path it writes. When a level is resolved,
    this is the `id` parsed from the file's text, not the path the file was
    read from.
- **Errors**: `DataParserError` (four variants) and `LevelParserError` (two
  variants), with their `Display` text, `description` tag, `cause` and `From`
  conversions.

Modelling choices:

- **Filesystem.** The filesystem is a value, `FileSystem.Disk`. It maps paths to
  entries that are either readable text or unreadable, in which case some text
  arrives before the read fails. A set of read-only paths makes `create` fail.
  A set of full paths makes `write_all` fail. Every save takes a disk and
  returns the new one, so its effect is part of its result. Loads take a disk
  and return only a value.
- **TOML codec.** The codec (`toml::from_str`, `toml::to_string`,
  `to_string_pretty` and the serde derives) is a pair of function parameters
  that may fail. Every round trip is proved on the condition that the codec
  round-trips.
- **Classes.** `LevelDescription` and `GameObjectBuilder` change through
  `&mut self`, so they are classes. `Record()` gives the value each one holds.
  `add_gameobject` moves the builder into the level, so the level stores the
  builder's value, not a reference to it.
- **Loops as methods.** The two loops of `level.rs` are methods with `while`
  loops. Each is proved equal to a recursive specification function:
  - `ResolveAll` for the resolve loop;
  - `SaveEach` and `SaveLevel` for the save loop.
  The lemmas about order, length, fail-fast behaviour and frames are stated on
  those functions.
- **Mismatched files.** `level.rs` and `gameobject.rs` call into the other
  files with signatures those files do not have in this version of the
  repository:
  - a one-argument `GameObjectDescription::new`;
  - `LevelDescription::new(title, paths)` with `level_title()` and `gameobjects()`;
  - `GameObjectDescription::load_from_toml` applied to text;
  - `?` converting I/O errors into `LevelParserError`, which has no I/O variant.

  The model follows each file's own text. The calls that cross files are the
  function fields of `LevelCollaborators.Collaborators`, typed with the
  caller's signatures.
- **Two behaviours of `level.rs` worth knowing.**
  - A failed read while resolving a level is not fatal. Its result is dropped,
    and the text read so far is parsed (`src/level.rs:39`).
  - An error carries no context about which path failed. It is the callee's
    error, converted by `?` to the caller's error type, with no path added.

## Model

| member | source | states |
|---|---|---|
| DataParserErrors.DisplayPrefix | src/data_parser_error.rs:27-43 | the `Display` prefix is never empty; its first letter S, D, G or I holds exactly for the serialization, deserialization, gltf or I/O variant |
| DataParserErrors.Fmt | src/data_parser_error.rs:27-43 | the displayed text is the variant's prefix followed by the stored message, unchanged |
| DataParserErrors.FmtIdentifiesError | src/data_parser_error.rs:27-43 | two errors with the same displayed text have the same variant and the same message |
| DataParserErrors.Description | src/data_parser_error.rs:46-62 | the tag is "SerializationError", "DeserializationError", "GltfError" or "IoError" exactly when the error is that variant |
| DataParserErrors.DescriptionIdentifiesVariant | src/data_parser_error.rs:46-62 | two errors have the same tag if and only if they are the same variant |
| DataParserErrors.Cause | src/data_parser_error.rs:64-79 | `cause` is always present; it is of the variant's own kind and is the wrapped error itself |
| DataParserErrors.FromSerialization | src/data_parser_error.rs:84-88 | gives the serialization variant with the fixed message; the cause is the original error; the displayed text is "Serialization error: " plus that message |
| DataParserErrors.FromDeserialization | src/data_parser_error.rs:90-94 | the same for the deserialization variant and its fixed message |
| DataParserErrors.FromGltf | src/data_parser_error.rs:96-100 | the same for the gltf variant and its fixed message |
| DataParserErrors.FromIo | src/data_parser_error.rs:102-106 | the same for the I/O variant and its fixed message |
| DataParserErrors.Convert | src/data_parser_error.rs:84-106 | converting any foreign error gives back that error as the cause |
| DataParserErrors.ConversionsAreInjective | src/data_parser_error.rs:84-106 | distinct foreign errors convert to distinct errors, so no information is lost |
| LevelParserErrors.DisplayPrefix | src/level_parser_error.rs:20-31 | the prefix is never empty; its first letter is S exactly for the serialization variant and D exactly for the deserialization variant |
| LevelParserErrors.Fmt | src/level_parser_error.rs:20-31 | the displayed text is the variant's prefix followed by the stored message |
| LevelParserErrors.FmtIdentifiesError | src/level_parser_error.rs:20-31 | the displayed text determines the variant and the message |
| LevelParserErrors.Description | src/level_parser_error.rs:33-43 | the tag names the variant, in both directions |
| LevelParserErrors.Cause | src/level_parser_error.rs:45-54 | `cause` is always present and is the wrapped error of the same kind |
| LevelParserErrors.FromSerialization | src/level_parser_error.rs:59-63 | gives the serialization variant with the fixed message, keeps the original error, and displays as prefix plus message |
| LevelParserErrors.FromDeserialization | src/level_parser_error.rs:65-69 | the same for the deserialization variant |
| TomlFiles.AsString | src/gameobject_description.rs:60-63 | encoding succeeds exactly when the codec does and returns its text; a codec failure becomes `SerializationError` wrapping it |
| TomlFiles.ReadAndParse | src/level_description.rs:40-45 | a failed read is an I/O error; after a successful read the result is the decoding of the text read, and a parse failure is `FromDeserialization` of the decoder's own error |
| TomlFiles.ReadFailureSkipsParse | src/level_description.rs:42-45 | when the read fails the decoder is never consulted: any decoder gives the same I/O error |
| TomlFiles.Load | src/gameobject_description.rs:43-50 | a missing file gives the NotFound I/O error; loading succeeds exactly when the file is readable and its text decodes, and then returns that decoding; readable text that fails to decode gives `FromDeserialization` of the decoder's error; an unreadable file gives `FromIo` of its read error |
| TomlFiles.LoadStopsAtFirstFailure | src/gameobject_builder.rs:43-50 | an open or read failure returns an I/O error carrying its kind, before any parsing |
| TomlFiles.Persist | src/gameobject_description.rs:52-58 | an encoding failure returns before the file is created; success means the path is writable and the file then holds exactly the text; a read-only path gives the converted PermissionDenied error with the disk unchanged; a full path gives the converted WriteZero error and leaves the file created empty; no other path and neither permission set changes |
| TomlFiles.PersistThenLoad | src/gameobject_description.rs:43-58 | after a successful save, loading the same path gives back the saved value |
| MeshDescriptions.New | src/mesh_description.rs:20-28 | `new(p).path()` is `p` |
| MeshDescriptions.Path | src/mesh_description.rs:26-28 | returns the stored path unchanged; `New`, `Default` and `Clone` state their results through it |
| MeshDescriptions.Default | src/mesh_description.rs:13-16 | the derived default has the empty path |
| MeshDescriptions.Clone | src/mesh_description.rs:13-16 | a clone has the same path and is equal to the original |
| TransformDescriptions.New | src/transform_description.rs:18-36 | the accessors return exactly the three sequences given |
| TransformDescriptions.Position | src/transform_description.rs:26-28 | returns the stored position unchanged; `New` and `Default` state their results through it |
| TransformDescriptions.Rotation | src/transform_description.rs:30-32 | returns the stored rotation unchanged |
| TransformDescriptions.Scale | src/transform_description.rs:34-36 | returns the stored scale unchanged |
| TransformDescriptions.Default | src/gameobject_builder.rs:71 | the default transform holds three empty sequences |
| TransformDescriptions.Describe | src/transform_description.rs:38-44 | not a source operation: the inverse of `generate_transform` that its contract is stated with; a described transform always has enough components to generate from |
| TransformDescriptions.GenerateTransform | src/transform_description.rs:38-44 | defined only when each sequence has at least three components; the result holds exactly components 0, 1 and 2 of each |
| TransformDescriptions.GenerateAfterDescribe | src/transform_description.rs:38-44 | generating from the description of a transform gives that transform back |
| TransformDescriptions.DescribeAfterGenerate | src/transform_description.rs:38-44 | for three-component sequences, generating and describing again gives back the description |
| TransformDescriptions.GenerateIgnoresExtraComponents | src/transform_description.rs:39-41 | descriptions that agree on their first three components generate the same transform |
| GameObjectDescriptions.New | src/gameobject_description.rs:65-86 | the accessors return exactly the id, transform and mesh option given, `None` included |
| GameObjectDescriptions.Id | src/gameobject_description.rs:76-78 | returns the stored id; `New` states its result through it |
| GameObjectDescriptions.Transform | src/gameobject_description.rs:80-82 | returns the stored transform description |
| GameObjectDescriptions.Mesh | src/gameobject_description.rs:84-86 | returns the stored mesh option |
| GameObjectDescriptions.AsStringToml | src/gameobject_description.rs:60-63 | the pretty encoding succeeds exactly when the codec does; a failure is a `SerializationError` wrapping the codec error |
| GameObjectDescriptions.SaveAsToml | src/gameobject_description.rs:52-58 | an encoding failure leaves the disk unchanged; success stores the encoding at the id; a failure after encoding is an I/O error; no other path changes; a read-only id gives `FromIo` of PermissionDenied with the disk unchanged, and a full one `FromIo` of WriteZero with the file left empty; the save succeeds exactly when the encoding succeeds and the id is writable; the permission sets never change |
| GameObjectDescriptions.LoadFromToml | src/gameobject_description.rs:43-50 | open, then read, then parse: a missing or unreadable file gives its I/O error; success exactly when the text decodes; a parse failure is `FromDeserialization` of the decoder's error |
| GameObjectDescriptions.SaveThenLoad | src/gameobject_description.rs:43-58 | a saved description loads back unchanged from its id |
| GameObjectDescriptions.Go4SurvivesSaveAndLoad | src/gameobject_description.rs:128-135 | the description built in the serialize test keeps position [1,2,3], rotation [0,0,0], scale [2,2,2] and mesh "path_test_mesh" through a save and a load |
| GameObjectBuilders.GameObjectBuilder.constructor | src/gameobject_builder.rs:66-74 | a new builder has the given id, the default transform and no mesh |
| GameObjectBuilders.GameObjectBuilder.AddTransform | src/gameobject_builder.rs:76-79 | replaces only the transform and returns the same builder |
| GameObjectBuilders.GameObjectBuilder.AddMesh | src/gameobject_builder.rs:81-84 | sets the mesh to the given option, `Some` or `None`, changes nothing else and returns the same builder |
| GameObjectBuilders.GameObjectBuilder.GetMeshResource | src/gameobject_builder.rs:93-100 | `Some(p)` exactly when the mesh is present, with `p` its path |
| GameObjectBuilders.GameObjectBuilder.AsStringToml | src/gameobject_builder.rs:60-63 | encoding succeeds exactly when the codec does on the builder's fields; a failure is a `SerializationError` |
| GameObjectBuilders.GameObjectBuilder.SaveAsToml | src/gameobject_builder.rs:52-58 | an encoding failure creates no file; success writes the encoding at the id; no other path changes; a read-only id gives `FromIo` of PermissionDenied with the disk unchanged, and a full one `FromIo` of WriteZero with the file left empty; the save succeeds exactly when the encoding succeeds and the id is writable; the permission sets never change |
| GameObjectBuilders.GameObjectBuilder.LoadFromToml | src/gameobject_builder.rs:43-50 | fails exactly as open-read-parse does; success gives a fresh builder holding the decoded fields |
| GameObjectBuilders.AddTransformThenMesh | src/gameobject_builder.rs:148-151 | chaining `add_transform(t).add_mesh(m)` leaves the id, transform `t` and mesh `m`, and the mesh resource is `m`'s path |
| GameObjectBuilders.SaveThenLoad | src/gameobject_builder.rs:43-58 | a saved builder loads back with the same fields |
| LevelDescriptions.LevelDescription.constructor | src/level_description.rs:54-60 | a new description has the given title and no game objects |
| LevelDescriptions.LevelDescription.AddGameobject | src/level_description.rs:62-66 | appends exactly the builder's value at the end, keeps the title and earlier elements, and returns the same description |
| LevelDescriptions.LevelDescription.Title | src/level_description.rs:68-70 | returns the stored title |
| LevelDescriptions.LevelDescription.Slice | src/level_description.rs:72-75 | returns the stored builders in insertion order |
| LevelDescriptions.LevelDescription.AsStringToml | src/level_description.rs:48-52 | encoding succeeds exactly when the codec does; a failure is a `SerializationError` |
| LevelDescriptions.LevelDescription.LoadFromToml | src/level_description.rs:35-46 | a read failure is an I/O error raised before parsing; a parse failure is a `DeserializationError`; success gives a fresh description holding the decoded value |
| LevelDescriptions.DescribeLevel | tests/serialization_test.rs:26-39 | a new description with two builders added holds the title and exactly those two builders, in order |
| GameObjects.New | src/gameobject.rs:42-47 | `new(id).id()` is `id` |
| GameObjects.FromGameObjectDescription | src/gameobject.rs:49-61 | never fails and gives the description's id |
| GameObjects.Id | src/gameobject.rs:74-76 | returns the stored id; `New` and `FromGameObjectDescription` state their results through it |
| GameObjects.Encoded | src/gameobject.rs:66-68 | the text `save_as_toml` writes: the encoding of a one-argument descriptor built from the object's own id, so it depends on the id alone |
| GameObjects.SaveAsToml | src/gameobject.rs:63-72 | writes the encoding of a descriptor built from the object's own id, at that id; succeeds exactly when that encodes and the id is writable; an encoding failure creates nothing; no other path changes; a read-only id gives the converted PermissionDenied error with the disk unchanged, and a full one the converted WriteZero error with the file left empty |
| Levels.New | src/level.rs:22-27 | `level_title()` and `gameobjects()` return exactly the title and list given, an empty list included |
| Levels.LevelTitle | src/level.rs:54-56 | returns the stored title; `New` states its result through it |
| Levels.GameObjects | src/level.rs:58-60 | returns the stored game objects in order |
| Levels.ResolveOne | src/level.rs:37-42 | one step of the loop from a cleared buffer: a missing file is the converted NotFound error; otherwise the step succeeds exactly when the text read parses, a parse failure is the parser's own error, and the object takes the parsed `id`, not the path |
| Levels.ResolveAll | src/level.rs:35-45 | the loop as a recursive function: on success, one object per path; its order and fail-fast lemmas follow |
| Levels.FromLevelDescription | src/level.rs:29-52 | the loop, with its cleared buffer, gives a level with the descriptor's title and the resolved objects, or the error of the resolution |
| Levels.ErrorPersists | src/level.rs:35-45 | once a prefix of the paths has failed, the remaining paths change nothing |
| Levels.ResolvedInOrder | src/level.rs:35-45 | resolution succeeds if and only if every path resolves; then there is one object per path and the i-th comes from the i-th path |
| Levels.FailsAtFirstFailure | src/level.rs:38-42 | when path k is the first to fail, the result is exactly path k's error |
| Levels.ErrorComesFromFirstFailure | src/level.rs:38-42 | every failed resolution has a first failing path, whose error it returns |
| Levels.ResolveOneReadsOnlyItsFile | src/level.rs:37-42 | one step of the loop depends only on the file at its own path |
| Levels.LaterPathsAreNotOpened | src/level.rs:35-45 | after the first failure no later path is opened: the files of later paths cannot change the result |
| Levels.StaleBufferPrefixesText | src/level.rs:33-39 | a read appends to the buffer, so without the clear at each step the previous file's text would precede the current one's |
| Levels.ReadFailureIsParsed | src/level.rs:39-40 | a failed read is ignored: the text read before the failure is parsed as if it were the whole file |
| Levels.Ids | src/level.rs:64-68 | the id list has one entry per game object, the i-th being the i-th object's id |
| Levels.SaveEach | src/level.rs:64-68 | the save loop as a recursive function: the permission sets never change, and on success one id is collected per object |
| Levels.SaveLevel | src/level.rs:62-75 | the save loop, then the level file: permissions unchanged, and a success means every object save succeeded and the title file exists |
| Levels.SaveAsToml | src/level.rs:62-75 | the loop and the three steps after it produce exactly the disk and result of `SaveLevel` |
| Levels.SaveErrorPersists | src/level.rs:65-68 | once a game object's save has failed, no later game object is saved |
| Levels.SavedIdsInOrder | src/level.rs:64-68 | a successful save loop collects exactly the ids, in game-object order |
| Levels.SaveEachTouchesOnlyIds | src/level.rs:65-68 | the save loop changes no file other than those named by the ids |
| Levels.SaveEachSavesEveryObject | src/level.rs:64-68 | the save loop succeeds exactly when every object's descriptor encodes and its id is writable; then each object's file holds its descriptor's encoding |
| Levels.SaveLevelSucceedsIff | src/level.rs:62-75 | a level save succeeds exactly when every object can be saved, the descriptor listing their ids encodes, and the title is writable |
| Levels.SaveWritesIdsAfterObjects | src/level.rs:64-74 | a successful level save first saved every object, each file holding its encoding, which stays unless the title overwrites it; it then wrote at the title the encoding of a descriptor listing their ids in order |
| Levels.FirstFailedSaveAborts | src/level.rs:65-73 | the first failing object save ends the level save with its error; the level file is then never created, unless the title is itself an object id |
| Levels.SaveEmptyLevel | src/level.rs:102-111 | saving a level without game objects writes only the level file, listing no paths |

## Left out

- The TOML grammar is not modelled. The `toml` crate and the serde derives are encode and decode function parameters that may fail.
- The `maskerad_filesystem` crate is a value-level disk: a map from paths to text, plus the sets of read-only and full paths. The model does not cover path construction, directories, bytes as opposed to text, or buffered writers.
- `Foreign.StdIoError` carries the path of the operation that failed. This path is a tag of the model only: `std::io::Error` from `read_to_string` carries no path, and a generic reader has none. The contracts that mention it state the model's tag, not information the program hands its caller.
- `FileSystem.Open` fails only for a path absent from the disk, always with `NotFound`. A file that exists but cannot be opened (permission denied, a directory) is not represented. Such a failure is fatal at `src/level.rs:38`, and the model cannot show it with another kind. An `Unreadable` entry is opened and then fails on read, which the resolve loop ignores. `Levels.ResolveOne`'s "succeeds exactly when the text parses" holds for present files under this restriction.
- `FileSystem.Entry` does not tie the text an unreadable file yields before failing to the error kind. With std, invalid UTF-8 leaves the buffer unchanged, but the model allows any `partial` for any kind.
- Paths are compared as strings: distinct strings are distinct files, with no normalisation, no case folding and no links. The frame clauses (for example in `TomlFiles.Persist` and `Levels.SaveEachTouchesOnlyIds`) and the "unless the title is an object id" case of `Levels.FirstFailedSaveAborts` rest on that.
- A write that fails part-way leaves no partial text in the model. A failed `write_all` leaves the file as `create` left it, which is empty.
- `src/gltf_resource.rs` and glTF decoding are not part of this model. The mesh loading that used them is commented out in `src/gameobject.rs`, so `from_gameobject_description` never touches the filesystem.
- `src/descriptor.rs` (a trait with no behaviour), `src/level_file.rs` (a forward to `toml::from_str`) and `src/lib.rs` (a module list) are not part of this model.
- `GameObjectBuilder::build` is `unimplemented!()` and is not modelled.
- The `unsafe impl Send/Sync` declarations for `DataParserError` concern concurrency and are not modelled.
- The `debug!`/`trace!` logging calls are not modelled.
- `f64` values are bit patterns (`F64(bits: bv64)`) that are only stored and copied. No floating-point arithmetic exists in the core.
- Rust ownership is not modelled. A builder passed to `add_gameobject` is moved, and the level keeps its value. Later changes to a builder object in the model therefore do not reach the level.
- Levels.FromLevelDescription, Levels.SaveAsToml and GameObjects.SaveAsToml take the functions of `LevelCollaborators.Collaborators` as given. These are the other files' functions with the callers' signatures, which differ from the versions in this snapshot. How `?` turns an I/O error into a `LevelParserError` is left to the `fsError` field, since that type has no I/O variant.
- TransformDescriptions.GenerateTransform: a short sequence makes the source panic. The model instead requires at least three components in each sequence.
- `TransformDescription::default()` is used by `GameObjectBuilder::new`, but `src/transform_description.rs` does not derive it. The model takes it to be three empty sequences.
- `to_str().unwrap()` in `level.rs` and `gameobject.rs` panics on a path that is not valid UTF-8. Paths are strings in the model, so that panic cannot arise.
