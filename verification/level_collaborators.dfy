/**
 * The calls that level.rs and gameobject.rs make into other files, with the
 * signatures those callers use. They do not match the callees in this
 * snapshot (a one-argument `GameObjectDescription::new`, a
 * `LevelDescription::new(title, paths)`, parsing straight from text, and `?`
 * turning filesystem and descriptor errors into a `LevelParserError`), so the
 * model takes them as given functions that may fail.
 */
module LevelCollaborators {
  import opened Wrappers
  import opened Foreign
  import opened FileSystem
  import LPE = LevelParserErrors
  import GOD = GameObjectDescriptions

  /** The level descriptor as level.rs uses it: `level_title()` and
      `gameobjects()`, a list of paths to game-object files. */
  datatype LevelFile = LevelFile(title: Path, gameobjects: seq<Path>)

  datatype Collaborators = Collaborators(
    /** the conversion `?` applies to a filesystem error */
    fsError: StdIoError -> LPE.LevelParserError,
    /** `GameObjectDescription::load_from_toml(text)` */
    parseGameObject: string -> Result<GOD.GameObjectDescription, LPE.LevelParserError>,
    /** `GameObjectDescription::new(id)` */
    newGameObjectDescription: Path -> GOD.GameObjectDescription,
    /** `as_string_toml()` of a game-object description */
    encodeGameObject: GOD.GameObjectDescription -> Result<string, LPE.LevelParserError>,
    /** `as_string_toml()` of a level descriptor */
    encodeLevel: LevelFile -> Result<string, LPE.LevelParserError>)
}
