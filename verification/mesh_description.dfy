/** `MeshDescription`: names the binary asset file of a game object's mesh. */
module MeshDescriptions {

  datatype MeshDescription = MeshDescription(path: string)

  /** `MeshDescription::new`: the description of the asset at `path`. */
  function New(path: string): (m: MeshDescription)
    ensures Path(m) == path
  {
    MeshDescription(path)
  }

  /** `path()`: the stored path; reading it leaves the description as it is. */
  function Path(m: MeshDescription): string {
    m.path
  }

  /** The derived `Default`: an empty path. */
  function Default(): (m: MeshDescription)
    ensures Path(m) == ""
  {
    MeshDescription("")
  }

  /** The derived `Clone`: a description with the same path, equal to the original. */
  function Clone(m: MeshDescription): (c: MeshDescription)
    ensures Path(c) == Path(m)
    ensures c == m
  {
    MeshDescription(m.path)
  }
}
