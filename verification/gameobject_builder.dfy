/**
 * `GameObjectBuilder`: the fluent builder of a game object's descriptor. Its
 * `add_*` methods replace one field in place and hand the same builder back.
 */
module GameObjectBuilders {
  import opened Wrappers
  import opened Foreign
  import opened FileSystem
  import DPE = DataParserErrors
  import TomlFiles
  import T = TransformDescriptions
  import M = MeshDescriptions

  /** The builder's fields as a value: what serde reads and writes, and what a
      level description stores once a builder is moved into it. */
  datatype BuilderRecord = BuilderRecord(id: string, transform: T.TransformDescription, mesh: Option<M.MeshDescription>)

  class GameObjectBuilder {
    var id: string
    var transform: T.TransformDescription
    var mesh: Option<M.MeshDescription>

    function Record(): BuilderRecord
      reads this
    {
      BuilderRecord(id, transform, mesh)
    }

    /** `GameObjectBuilder::new(id)`: that id, the default transform, no mesh. */
    constructor (id: string)
      ensures Record() == BuilderRecord(id, T.Default(), None)
    {
      this.id := id;
      transform := T.Default();
      mesh := None;
    }

    /** `add_transform`: replaces the transform only, and returns this builder. */
    method AddTransform(transform: T.TransformDescription) returns (self: GameObjectBuilder)
      modifies this
      ensures self == this
      ensures Record() == old(Record()).(transform := transform)
    {
      this.transform := transform;
      self := this;
    }

    /** `add_mesh`: sets the mesh to the given option, and returns this builder. */
    method AddMesh(mesh: Option<M.MeshDescription>) returns (self: GameObjectBuilder)
      modifies this
      ensures self == this
      ensures Record() == old(Record()).(mesh := mesh)
    {
      this.mesh := mesh;
      self := this;
    }

    /** `get_mesh_resource`: the mesh's path exactly when there is a mesh. */
    function GetMeshResource(): (r: Option<string>)
      reads this
      ensures r.Some? <==> mesh.Some?
      ensures r.Some? ==> r.value == M.Path(mesh.value)
    {
      match mesh
      case Some(m) => Some(M.Path(m))
      case None => None
    }

    /** `as_string_toml`: the TOML text of the fields, or a `SerializationError`. */
    function AsStringToml(encode: BuilderRecord -> Result<string, TomlSerError>): (r: DPE.DataParserResult<string>)
      reads this
      ensures r.Ok? <==> encode(Record()).Ok?
      ensures r.Ok? ==> r.value == encode(Record()).value
      ensures r.Err? ==> r.error.SerializationError? && r.error.ser == encode(Record()).error
    {
      TomlFiles.AsString(Record(), encode)
    }

    /** `save_as_toml`: encode, create the file named by the id, write. An
        encoding failure creates nothing; success writes the text at the id
        and changes no other path. */
    function SaveAsToml(d: Disk, encode: BuilderRecord -> Result<string, TomlSerError>): (res: (Disk, DPE.DataParserResult<()>))
      reads this
      ensures encode(Record()).Err? ==> res.0 == d && res.1 == Err(DPE.FromSerialization(encode(Record()).error))
      ensures res.1.Ok? <==> encode(Record()).Ok? && id !in d.readOnly && id !in d.noSpace
      ensures res.1.Ok? ==> res.0 == Stored(d, id, encode(Record()).value)
      ensures res.1.Err? && encode(Record()).Ok? ==> res.1.error.IoError?
      ensures encode(Record()).Ok? && id in d.readOnly ==>
        res == (d, Err(DPE.FromIo(StdIoError(PermissionDenied, id))))
      ensures encode(Record()).Ok? && id !in d.readOnly && id in d.noSpace ==>
        res == (Stored(d, id, ""), Err(DPE.FromIo(StdIoError(WriteZero, id))))
      ensures forall p :: p != id ==> Lookup(res.0, p) == Lookup(d, p)
      ensures res.0.readOnly == d.readOnly && res.0.noSpace == d.noSpace
    {
      TomlFiles.Persist(d, id, AsStringToml(encode), DPE.FromIo)
    }

    /** `load_from_toml(path)`: open, read, parse into a new builder; an open
        failure returns before reading and a read failure before parsing. */
    static method LoadFromToml(d: Disk, path: Path, decode: string -> Result<BuilderRecord, TomlDeError>) returns (r: DPE.DataParserResult<GameObjectBuilder>)
      ensures r.Err? <==> TomlFiles.Load(d, path, decode).Err?
      ensures r.Err? ==> r.error == TomlFiles.Load(d, path, decode).error
      ensures r.Ok? ==> fresh(r.value) && r.value.Record() == TomlFiles.Load(d, path, decode).value
    {
      var loaded := TomlFiles.Load(d, path, decode);
      if loaded.Err? {
        return Err(loaded.error);
      }
      var b := new GameObjectBuilder(loaded.value.id);
      b.transform := loaded.value.transform;
      b.mesh := loaded.value.mesh;
      return Ok(b);
    }
  }

  /** The chain `add_transform(t).add_mesh(m)` of the serialization test:
      the builder ends with transform `t` and mesh `m`, and keeps its id. */
  method AddTransformThenMesh(b: GameObjectBuilder, transform: T.TransformDescription, mesh: M.MeshDescription)
    modifies b
    ensures b.Record() == BuilderRecord(old(b.id), transform, Some(mesh))
    ensures b.GetMeshResource() == Some(M.Path(mesh))
  {
    var chained := b.AddTransform(transform);
    chained := chained.AddMesh(Some(mesh));
  }

  /** A builder saved under its id loads back with the same fields, for any
      codec whose decoder inverts its encoder on those fields. */
  lemma {:induction false} SaveThenLoad(b: GameObjectBuilder, d: Disk, encode: BuilderRecord -> Result<string, TomlSerError>, decode: string -> Result<BuilderRecord, TomlDeError>)
    requires encode(b.Record()).Ok? ==> decode(encode(b.Record()).value) == Ok(b.Record())
    requires b.SaveAsToml(d, encode).1.Ok?
    ensures TomlFiles.Load(b.SaveAsToml(d, encode).0, b.id, decode) == Ok(b.Record())
  {
    TomlFiles.PersistThenLoad(d, b.id, b.Record(), encode, decode);
  }
}
