/**
 * `GameObjectDescription`: a game object's id (also its storage path), its
 * transform and its optional mesh, with its TOML load and save.
 */
module GameObjectDescriptions {
  import opened Wrappers
  import opened Foreign
  import opened FileSystem
  import DPE = DataParserErrors
  import TomlFiles
  import T = TransformDescriptions
  import M = MeshDescriptions

  datatype GameObjectDescription = GameObjectDescription(id: string, transform: T.TransformDescription, mesh: Option<M.MeshDescription>)

  /** `GameObjectDescription::new(id, transform, mesh)`; a mesh of `None` stays absent. */
  function New(id: string, transform: T.TransformDescription, mesh: Option<M.MeshDescription>): (g: GameObjectDescription)
    ensures Id(g) == id && Transform(g) == transform && Mesh(g) == mesh
  {
    GameObjectDescription(id, transform, mesh)
  }

  function Id(g: GameObjectDescription): string {
    g.id
  }

  function Transform(g: GameObjectDescription): T.TransformDescription {
    g.transform
  }

  function Mesh(g: GameObjectDescription): Option<M.MeshDescription> {
    g.mesh
  }

  /** `as_string_toml`: the pretty TOML text, or a `SerializationError`. */
  function AsStringToml(g: GameObjectDescription, encode: GameObjectDescription -> Result<string, TomlSerError>): (r: DPE.DataParserResult<string>)
    ensures r.Ok? <==> encode(g).Ok?
    ensures r.Ok? ==> r.value == encode(g).value
    ensures r.Err? ==> r.error.SerializationError? && r.error.ser == encode(g).error
  {
    TomlFiles.AsString(g, encode)
  }

  /** `save_as_toml`: encode, create the file named by the id, write the text.
      An encoding failure leaves the disk untouched; success writes exactly
      one text, at the id, and changes no other path. */
  function SaveAsToml(g: GameObjectDescription, d: Disk, encode: GameObjectDescription -> Result<string, TomlSerError>): (res: (Disk, DPE.DataParserResult<()>))
    ensures encode(g).Err? ==> res.0 == d && res.1 == Err(DPE.FromSerialization(encode(g).error))
    ensures res.1.Ok? <==> encode(g).Ok? && g.id !in d.readOnly && g.id !in d.noSpace
    ensures res.1.Ok? ==> res.0 == Stored(d, g.id, encode(g).value)
    ensures res.1.Err? && encode(g).Ok? ==> res.1.error.IoError?
    ensures encode(g).Ok? && g.id in d.readOnly ==>
      res == (d, Err(DPE.FromIo(StdIoError(PermissionDenied, g.id))))
    ensures encode(g).Ok? && g.id !in d.readOnly && g.id in d.noSpace ==>
      res == (Stored(d, g.id, ""), Err(DPE.FromIo(StdIoError(WriteZero, g.id))))
    ensures forall p :: p != g.id ==> Lookup(res.0, p) == Lookup(d, p)
    ensures res.0.readOnly == d.readOnly && res.0.noSpace == d.noSpace
  {
    TomlFiles.Persist(d, g.id, AsStringToml(g, encode), DPE.FromIo)
  }

  /** `load_from_toml(path)`: open, read, parse; the first failure is returned. */
  function LoadFromToml(d: Disk, path: Path, decode: string -> Result<GameObjectDescription, TomlDeError>): (r: DPE.DataParserResult<GameObjectDescription>)
    ensures path !in d.files ==> r == Err(DPE.FromIo(StdIoError(NotFound, path)))
    ensures path in d.files && d.files[path].Unreadable? ==> r == Err(DPE.FromIo(StdIoError(d.files[path].kind, path)))
    ensures r.Ok? <==> path in d.files && d.files[path].Text? && decode(d.files[path].text).Ok?
    ensures r.Ok? ==> decode(d.files[path].text) == Ok(r.value)
    ensures path in d.files && d.files[path].Text? && decode(d.files[path].text).Err? ==>
      r == Err(DPE.FromDeserialization(decode(d.files[path].text).error))
  {
    TomlFiles.Load(d, path, decode)
  }

  /** A description saved under its id loads back from that id unchanged, for
      any codec whose decoder inverts its encoder on this description. */
  lemma {:induction false} SaveThenLoad(g: GameObjectDescription, d: Disk, encode: GameObjectDescription -> Result<string, TomlSerError>, decode: string -> Result<GameObjectDescription, TomlDeError>)
    requires encode(g).Ok? ==> decode(encode(g).value) == Ok(g)
    requires SaveAsToml(g, d, encode).1.Ok?
    ensures LoadFromToml(SaveAsToml(g, d, encode).0, Id(g), decode) == Ok(g)
  {
    TomlFiles.PersistThenLoad(d, g.id, g, encode, decode);
  }

  /** The serialization test's "go4": position [1, 2, 3], rotation [0, 0, 0],
      scale [2, 2, 2] and mesh "path_test_mesh" survive a save and a load. */
  lemma {:induction false} Go4SurvivesSaveAndLoad(d: Disk, id: string, encode: GameObjectDescription -> Result<string, TomlSerError>, decode: string -> Result<GameObjectDescription, TomlDeError>)
    requires var g := New(id, Go4Transform(), Some(M.New("path_test_mesh")));
      encode(g).Ok? && decode(encode(g).value) == Ok(g) && SaveAsToml(g, d, encode).1.Ok?
    ensures var g := New(id, Go4Transform(), Some(M.New("path_test_mesh")));
      && LoadFromToml(SaveAsToml(g, d, encode).0, id, decode).Ok?
      && var loaded := LoadFromToml(SaveAsToml(g, d, encode).0, id, decode).value;
      && Id(loaded) == id
      && T.Position(Transform(loaded)) == [One, Two, Three]
      && T.Rotation(Transform(loaded)) == [Zero, Zero, Zero]
      && T.Scale(Transform(loaded)) == [Two, Two, Two]
      && Mesh(loaded) == Some(M.MeshDescription("path_test_mesh"))
  {
    var g := New(id, Go4Transform(), Some(M.New("path_test_mesh")));
    SaveThenLoad(g, d, encode, decode);
  }

  const Zero := T.F64(0x0000_0000_0000_0000)
  const One := T.F64(0x3FF0_0000_0000_0000)
  const Two := T.F64(0x4000_0000_0000_0000)
  const Three := T.F64(0x4008_0000_0000_0000)

  function Go4Transform(): T.TransformDescription {
    T.New([One, Two, Three], [Zero, Zero, Zero], [Two, Two, Two])
  }
}
