/** `GameObject`: the resolved game object. Its id is the `id` field of the
    descriptor it was built from (not the path that descriptor was read
    from), and `save_as_toml` uses that id as the path it writes. */
module GameObjects {
  import opened Wrappers
  import opened Foreign
  import opened FileSystem
  import LPE = LevelParserErrors
  import GOD = GameObjectDescriptions
  import TomlFiles
  import opened LevelCollaborators

  datatype GameObject = GameObject(id: Path)

  /** `GameObject::new(id)`. */
  function New(id: Path): (go: GameObject)
    ensures Id(go) == id
  {
    GameObject(id)
  }

  /** `id()`: the stored id. */
  function Id(go: GameObject): Path {
    go.id
  }

  /** `from_gameobject_description`: a game object with the description's id.
      Mesh loading is commented out in this version, so it never fails and
      does not touch the filesystem it is given. */
  function FromGameObjectDescription(description: GOD.GameObjectDescription, fs: Disk): (r: LPE.LevelParserResult<GameObject>)
    ensures r.Ok?
    ensures Id(r.value) == GOD.Id(description)
  {
    Ok(New(GOD.Id(description)))
  }

  /** The text `save_as_toml` writes: the encoding of a descriptor built from
      the game object's own id. */
  function Encoded(c: Collaborators, go: GameObject): Result<string, LPE.LevelParserError> {
    c.encodeGameObject(c.newGameObjectDescription(go.id))
  }

  /** `save_as_toml`: encode a descriptor carrying the id, create the file at
      the id, write. An encoding failure creates nothing; success writes the
      text at the id; no other path ever changes. */
  function SaveAsToml(c: Collaborators, go: GameObject, d: Disk): (res: (Disk, LPE.LevelParserResult<()>))
    ensures Encoded(c, go).Err? ==> res == (d, Err(Encoded(c, go).error))
    ensures res.1.Ok? <==> Encoded(c, go).Ok? && go.id !in d.readOnly && go.id !in d.noSpace
    ensures res.1.Ok? ==> res.0 == Stored(d, go.id, Encoded(c, go).value)
    ensures Encoded(c, go).Ok? && go.id in d.readOnly ==>
      res == (d, Err(c.fsError(StdIoError(PermissionDenied, go.id))))
    ensures Encoded(c, go).Ok? && go.id !in d.readOnly && go.id in d.noSpace ==>
      res == (Stored(d, go.id, ""), Err(c.fsError(StdIoError(WriteZero, go.id))))
    ensures forall p :: p != go.id ==> Lookup(res.0, p) == Lookup(d, p)
    ensures res.0.readOnly == d.readOnly && res.0.noSpace == d.noSpace
  {
    TomlFiles.Persist(d, go.id, Encoded(c, go), c.fsError)
  }
}
