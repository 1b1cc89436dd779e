/**
 * `Level`: a title and the game objects resolved from a level descriptor.
 * Resolving walks the descriptor's paths in order and stops at the first
 * failure; saving writes every game object, then the level file listing
 * their ids.
 */
module Levels {
  import opened Wrappers
  import opened Foreign
  import opened FileSystem
  import LPE = LevelParserErrors
  import GOD = GameObjectDescriptions
  import GO = GameObjects
  import TomlFiles
  import opened LevelCollaborators

  datatype Level = Level(title: Path, gameobjects: seq<GO.GameObject>)

  /** `Level::new(title, gameobjects)`. */
  function New(title: Path, gameobjects: seq<GO.GameObject>): (l: Level)
    ensures LevelTitle(l) == title
    ensures GameObjects(l) == gameobjects
  {
    Level(title, gameobjects)
  }

  function LevelTitle(l: Level): Path {
    l.title
  }

  function GameObjects(l: Level): seq<GO.GameObject> {
    l.gameobjects
  }

  // ---------------------------------------------------------------------
  // Resolution

  /** One pass of the resolve loop, starting from a cleared buffer: open the
      path (`?`), read into the buffer (the read's own result is dropped), parse
      the buffer (`?`) and build the game object (`?`). A missing file is the
      converted open error; otherwise the step succeeds exactly when the text
      parses, a parse failure is the parser's own error, and the object takes
      the parsed `id`, not the path. */
  function ResolveOne(c: Collaborators, d: Disk, path: Path): (r: LPE.LevelParserResult<GO.GameObject>)
    ensures path !in d.files ==> r == Err(c.fsError(StdIoError(NotFound, path)))
    ensures path in d.files ==> (r.Ok? <==> c.parseGameObject(ReadToString(d, Reader(path), "").0).Ok?)
    ensures path in d.files && c.parseGameObject(ReadToString(d, Reader(path), "").0).Err? ==>
      r == Err(c.parseGameObject(ReadToString(d, Reader(path), "").0).error)
    ensures r.Ok? ==> GO.Id(r.value) == GOD.Id(c.parseGameObject(ReadToString(d, Reader(path), "").0).value)
  {
    match Open(d, path)
    case Err(e) => Err(c.fsError(e))
    case Ok(reader) =>
      var content := ReadToString(d, reader, "").0;
      match c.parseGameObject(content)
      case Err(e) => Err(e)
      case Ok(description) => GO.FromGameObjectDescription(description, d)
  }

  /** The resolve loop over `paths`: the game objects in path order, or the
      error of the first path that fails. */
  function ResolveAll(c: Collaborators, d: Disk, paths: seq<Path>): (r: LPE.LevelParserResult<seq<GO.GameObject>>)
    ensures r.Ok? ==> |r.value| == |paths|
    decreases |paths|
  {
    if paths == [] then Ok([])
    else
      match ResolveAll(c, d, paths[..|paths| - 1])
      case Err(e) => Err(e)
      case Ok(resolved) =>
        match ResolveOne(c, d, paths[|paths| - 1])
        case Err(e) => Err(e)
        case Ok(go) => Ok(resolved + [go])
  }

  /** `from_level_description`: the level has the descriptor's title and the
      objects resolved from its paths, or no level at all. */
  method FromLevelDescription(c: Collaborators, description: LevelFile, d: Disk) returns (r: LPE.LevelParserResult<Level>)
    ensures r.Ok? <==> ResolveAll(c, d, description.gameobjects).Ok?
    ensures r.Ok? ==> r.value == Level(description.title, ResolveAll(c, d, description.gameobjects).value)
    ensures r.Err? ==> r.error == ResolveAll(c, d, description.gameobjects).error
  {
    var levelTitle := description.title;
    var paths := description.gameobjects;
    var gameobjects: seq<GO.GameObject> := [];
    var content := "";
    var i := 0;
    while i < |paths|
      invariant 0 <= i <= |paths|
      invariant ResolveAll(c, d, paths[..i]) == Ok(gameobjects)
    {
      assert paths[..i + 1][..i] == paths[..i];
      content := "";
      var reader := Open(d, paths[i]);
      if reader.Err? {
        ErrorPersists(c, d, paths, i + 1);
        return Err(c.fsError(reader.error));
      }
      var (filled, _) := ReadToString(d, reader.value, content);
      content := filled;
      var parsed := c.parseGameObject(content);
      if parsed.Err? {
        ErrorPersists(c, d, paths, i + 1);
        return Err(parsed.error);
      }
      var go := GO.FromGameObjectDescription(parsed.value, d).value;
      gameobjects := gameobjects + [go];
      i := i + 1;
    }
    assert paths[..i] == paths;
    return Ok(Level(levelTitle, gameobjects));
  }

  /** Once a prefix of the paths has failed, the remaining paths change nothing. */
  lemma {:induction false} ErrorPersists(c: Collaborators, d: Disk, paths: seq<Path>, k: nat)
    requires k <= |paths|
    requires ResolveAll(c, d, paths[..k]).Err?
    ensures ResolveAll(c, d, paths) == ResolveAll(c, d, paths[..k])
    decreases |paths| - k
  {
    if k == |paths| {
      assert paths[..k] == paths;
    } else {
      assert paths[..k + 1][..k] == paths[..k];
      ErrorPersists(c, d, paths, k + 1);
    }
  }

  /** Resolution succeeds exactly when every path resolves; then there is one
      game object per path, the i-th coming from the i-th path. */
  lemma {:induction false} ResolvedInOrder(c: Collaborators, d: Disk, paths: seq<Path>)
    ensures ResolveAll(c, d, paths).Ok? <==> forall i :: 0 <= i < |paths| ==> ResolveOne(c, d, paths[i]).Ok?
    ensures ResolveAll(c, d, paths).Ok? ==> |ResolveAll(c, d, paths).value| == |paths|
    ensures ResolveAll(c, d, paths).Ok? ==>
      forall i :: 0 <= i < |paths| ==> ResolveOne(c, d, paths[i]) == Ok(ResolveAll(c, d, paths).value[i])
    decreases |paths|
  {
    if paths != [] {
      var init := paths[..|paths| - 1];
      ResolvedInOrder(c, d, init);
      assert forall i :: 0 <= i < |init| ==> init[i] == paths[i];
    }
  }

  /** The error of a failed resolution is that of the first failing path. */
  lemma {:induction false} FailsAtFirstFailure(c: Collaborators, d: Disk, paths: seq<Path>, k: nat)
    requires k < |paths|
    requires forall j :: 0 <= j < k ==> ResolveOne(c, d, paths[j]).Ok?
    requires ResolveOne(c, d, paths[k]).Err?
    ensures ResolveAll(c, d, paths) == Err(ResolveOne(c, d, paths[k]).error)
  {
    var prefix := paths[..k];
    assert forall j :: 0 <= j < |prefix| ==> prefix[j] == paths[j];
    ResolvedInOrder(c, d, prefix);
    assert paths[..k + 1][..k] == prefix;
    ErrorPersists(c, d, paths, k + 1);
  }

  /** Every failed resolution has such a first failing path. */
  lemma {:induction false} ErrorComesFromFirstFailure(c: Collaborators, d: Disk, paths: seq<Path>)
    requires ResolveAll(c, d, paths).Err?
    ensures exists k ::
      0 <= k < |paths| && ResolveOne(c, d, paths[k]) == Err(ResolveAll(c, d, paths).error)
      && (forall j :: 0 <= j < k ==> ResolveOne(c, d, paths[j]).Ok?)
    decreases |paths|
  {
    var init := paths[..|paths| - 1];
    assert forall i :: 0 <= i < |init| ==> init[i] == paths[i];
    if ResolveAll(c, d, init).Err? {
      ErrorComesFromFirstFailure(c, d, init);
      var k :| 0 <= k < |init| && ResolveOne(c, d, init[k]) == Err(ResolveAll(c, d, init).error)
        && (forall j :: 0 <= j < k ==> ResolveOne(c, d, init[j]).Ok?);
      assert ResolveOne(c, d, paths[k]) == Err(ResolveAll(c, d, paths).error);
    } else {
      ResolvedInOrder(c, d, init);
      var k := |paths| - 1;
      assert ResolveOne(c, d, paths[k]) == Err(ResolveAll(c, d, paths).error);
    }
  }

  /** Resolving one path looks at that path's file only. */
  lemma ResolveOneReadsOnlyItsFile(c: Collaborators, d: Disk, other: Disk, path: Path)
    requires Lookup(other, path) == Lookup(d, path)
    ensures ResolveOne(c, other, path) == ResolveOne(c, d, path)
  {
  }

  /** Fail-fast: when the k-th path fails, no later path is opened; changing the
      files of later paths does not change the outcome. */
  lemma {:induction false} LaterPathsAreNotOpened(c: Collaborators, d: Disk, other: Disk, paths: seq<Path>, k: nat)
    requires k < |paths|
    requires forall j :: 0 <= j < k ==> ResolveOne(c, d, paths[j]).Ok?
    requires ResolveOne(c, d, paths[k]).Err?
    requires forall j :: 0 <= j <= k ==> Lookup(other, paths[j]) == Lookup(d, paths[j])
    ensures ResolveAll(c, other, paths) == ResolveAll(c, d, paths)
    ensures ResolveAll(c, d, paths).Err?
  {
    forall j | 0 <= j <= k
      ensures ResolveOne(c, other, paths[j]) == ResolveOne(c, d, paths[j])
    {
      ResolveOneReadsOnlyItsFile(c, d, other, paths[j]);
    }
    FailsAtFirstFailure(c, d, paths, k);
    FailsAtFirstFailure(c, other, paths, k);
  }

  /** Why the buffer is cleared: a read appends to what the buffer holds, so
      a buffer left over from the previous path would prefix its text to the
      text parsed for the current one. */
  lemma StaleBufferPrefixesText(d: Disk, reader: Reader, stale: string)
    ensures ReadToString(d, reader, stale).0 == stale + ReadToString(d, reader, "").0
  {
  }

  /** A failed read does not stop resolution: the text read before the failure
      is parsed as if it were the whole file. */
  lemma ReadFailureIsParsed(c: Collaborators, d: Disk, path: Path)
    requires path in d.files && d.files[path].Unreadable?
    ensures ResolveOne(c, d, path) == ResolveOne(c, Stored(d, path, d.files[path].partial), path)
  {
  }

  // ---------------------------------------------------------------------
  // Saving

  function Ids(gameobjects: seq<GO.GameObject>): (ids: seq<Path>)
    ensures |ids| == |gameobjects|
    ensures forall i :: 0 <= i < |gameobjects| ==> ids[i] == GO.Id(gameobjects[i])
  {
    seq(|gameobjects|, i requires 0 <= i < |gameobjects| => gameobjects[i].id)
  }

  /** The save loop: each game object saved in order, collecting its id; the
      first failed save ends the loop with the disk as that save left it. */
  function SaveEach(c: Collaborators, d: Disk, gameobjects: seq<GO.GameObject>): (res: (Disk, LPE.LevelParserResult<seq<Path>>))
    ensures res.0.readOnly == d.readOnly && res.0.noSpace == d.noSpace
    ensures res.1.Ok? ==> |res.1.value| == |gameobjects|
    decreases |gameobjects|
  {
    if gameobjects == [] then (d, Ok([]))
    else
      var (before, saved) := SaveEach(c, d, gameobjects[..|gameobjects| - 1]);
      if saved.Err? then (before, Err(saved.error))
      else
        var last := gameobjects[|gameobjects| - 1];
        var (after, result) := GO.SaveAsToml(c, last, before);
        if result.Err? then (after, Err(result.error))
        else (after, Ok(saved.value + [last.id]))
  }

  /** `save_as_toml` of a level: the save loop, then the level file holding
      the collected paths, written at the title. */
  function SaveLevel(c: Collaborators, level: Level, d: Disk): (res: (Disk, LPE.LevelParserResult<()>))
    ensures res.0.readOnly == d.readOnly && res.0.noSpace == d.noSpace
    ensures res.1.Ok? ==> SaveEach(c, d, level.gameobjects).1.Ok? && level.title in res.0.files
  {
    var (afterObjects, paths) := SaveEach(c, d, level.gameobjects);
    if paths.Err? then (afterObjects, Err(paths.error))
    else TomlFiles.Persist(afterObjects, level.title, c.encodeLevel(LevelFile(level.title, paths.value)), c.fsError)
  }

  /** `save_as_toml`. */
  method SaveAsToml(c: Collaborators, level: Level, d: Disk) returns (disk: Disk, r: LPE.LevelParserResult<()>)
    ensures (disk, r) == SaveLevel(c, level, d)
  {
    var gameobjects := level.gameobjects;
    var paths: seq<Path> := [];
    disk := d;
    var i := 0;
    while i < |gameobjects|
      invariant 0 <= i <= |gameobjects|
      invariant SaveEach(c, d, gameobjects[..i]) == (disk, Ok(paths))
    {
      assert gameobjects[..i + 1][..i] == gameobjects[..i];
      var (next, saved) := GO.SaveAsToml(c, gameobjects[i], disk);
      disk := next;
      if saved.Err? {
        SaveErrorPersists(c, d, gameobjects, i + 1);
        return disk, Err(saved.error);
      }
      paths := paths + [GO.Id(gameobjects[i])];
      i := i + 1;
    }
    assert gameobjects[..i] == gameobjects;
    var levelDescription := LevelFile(level.title, paths);
    var text := c.encodeLevel(levelDescription);
    if text.Err? {
      return disk, Err(text.error);
    }
    var (created, writer) := Create(disk, level.title);
    disk := created;
    if writer.Err? {
      return disk, Err(c.fsError(writer.error));
    }
    var (written, wrote) := WriteAll(disk, writer.value, text.value);
    disk := written;
    if wrote.Err? {
      return disk, Err(c.fsError(wrote.error));
    }
    return disk, Ok(());
  }

  /** Once a save has failed, later game objects are never saved. */
  lemma {:induction false} SaveErrorPersists(c: Collaborators, d: Disk, gameobjects: seq<GO.GameObject>, k: nat)
    requires k <= |gameobjects|
    requires SaveEach(c, d, gameobjects[..k]).1.Err?
    ensures SaveEach(c, d, gameobjects) == SaveEach(c, d, gameobjects[..k])
    decreases |gameobjects| - k
  {
    if k == |gameobjects| {
      assert gameobjects[..k] == gameobjects;
    } else {
      assert gameobjects[..k + 1][..k] == gameobjects[..k];
      SaveErrorPersists(c, d, gameobjects, k + 1);
    }
  }

  /** A successful save loop collects exactly the ids, in game-object order. */
  lemma {:induction false} SavedIdsInOrder(c: Collaborators, d: Disk, gameobjects: seq<GO.GameObject>)
    requires SaveEach(c, d, gameobjects).1.Ok?
    ensures SaveEach(c, d, gameobjects).1.value == Ids(gameobjects)
    decreases |gameobjects|
  {
    if gameobjects != [] {
      var init := gameobjects[..|gameobjects| - 1];
      SavedIdsInOrder(c, d, init);
      assert Ids(gameobjects) == Ids(init) + [gameobjects[|gameobjects| - 1].id];
    }
  }

  /** The save loop changes no file other than those named by the ids. */
  lemma {:induction false} SaveEachTouchesOnlyIds(c: Collaborators, d: Disk, gameobjects: seq<GO.GameObject>, path: Path)
    requires path !in Ids(gameobjects)
    ensures Lookup(SaveEach(c, d, gameobjects).0, path) == Lookup(d, path)
    decreases |gameobjects|
  {
    if gameobjects != [] {
      var init := gameobjects[..|gameobjects| - 1];
      assert Ids(gameobjects) == Ids(init) + [gameobjects[|gameobjects| - 1].id];
      SaveEachTouchesOnlyIds(c, d, init, path);
    }
  }

  /** A game object whose save succeeds on a disk with `d`'s permissions: its
      descriptor encodes, and its id is neither read-only nor full. */
  predicate Saveable(c: Collaborators, d: Disk, go: GO.GameObject) {
    GO.Encoded(c, go).Ok? && go.id !in d.readOnly && go.id !in d.noSpace
  }

  /** The save loop succeeds exactly when every game object can be saved, and
      then each object's file holds the encoding of its descriptor. Two objects
      with the same id are the same object, so a later save at that id writes
      the same text. */
  lemma {:induction false} SaveEachSavesEveryObject(c: Collaborators, d: Disk, gameobjects: seq<GO.GameObject>)
    ensures SaveEach(c, d, gameobjects).1.Ok? <==> forall i :: 0 <= i < |gameobjects| ==> Saveable(c, d, gameobjects[i])
    ensures SaveEach(c, d, gameobjects).1.Ok? ==> forall i :: 0 <= i < |gameobjects| ==>
      Lookup(SaveEach(c, d, gameobjects).0, gameobjects[i].id) == Some(Text(GO.Encoded(c, gameobjects[i]).value))
    decreases |gameobjects|
  {
    if gameobjects != [] {
      var init := gameobjects[..|gameobjects| - 1];
      var last := gameobjects[|gameobjects| - 1];
      SaveEachSavesEveryObject(c, d, init);
      assert forall i :: 0 <= i < |init| ==> init[i] == gameobjects[i];
      var (before, saved) := SaveEach(c, d, init);
      if saved.Ok? {
        var (after, result) := GO.SaveAsToml(c, last, before);
        if result.Ok? {
          forall i | 0 <= i < |gameobjects|
            ensures Lookup(after, gameobjects[i].id) == Some(Text(GO.Encoded(c, gameobjects[i]).value))
          {
            if gameobjects[i].id == last.id {
              assert gameobjects[i] == last;
            }
          }
        }
      }
    }
  }

  /** A level save succeeds exactly when every game object can be saved, the
      level descriptor listing their ids encodes, and the title is writable. */
  lemma SaveLevelSucceedsIff(c: Collaborators, level: Level, d: Disk)
    ensures SaveLevel(c, level, d).1.Ok? <==>
      (forall i :: 0 <= i < |level.gameobjects| ==> Saveable(c, d, level.gameobjects[i]))
      && c.encodeLevel(LevelFile(level.title, Ids(level.gameobjects))).Ok?
      && level.title !in d.readOnly && level.title !in d.noSpace
  {
    SaveEachSavesEveryObject(c, d, level.gameobjects);
    if SaveEach(c, d, level.gameobjects).1.Ok? {
      SavedIdsInOrder(c, d, level.gameobjects);
    }
  }

  /** A successful level save saved every game object first, each file holding
      its descriptor's encoding, and then wrote at the title the level
      descriptor listing their ids in order. */
  lemma SaveWritesIdsAfterObjects(c: Collaborators, level: Level, d: Disk)
    requires SaveLevel(c, level, d).1.Ok?
    ensures forall i :: 0 <= i < |level.gameobjects| ==> GO.Encoded(c, level.gameobjects[i]).Ok?
    ensures forall i :: 0 <= i < |level.gameobjects| ==>
      Lookup(SaveEach(c, d, level.gameobjects).0, level.gameobjects[i].id) == Some(Text(GO.Encoded(c, level.gameobjects[i]).value))
    ensures forall i :: 0 <= i < |level.gameobjects| && level.gameobjects[i].id != level.title ==>
      Lookup(SaveLevel(c, level, d).0, level.gameobjects[i].id) == Some(Text(GO.Encoded(c, level.gameobjects[i]).value))
    ensures SaveEach(c, d, level.gameobjects).1 == Ok(Ids(level.gameobjects))
    ensures c.encodeLevel(LevelFile(level.title, Ids(level.gameobjects))).Ok?
    ensures SaveLevel(c, level, d).0 ==
      Stored(SaveEach(c, d, level.gameobjects).0, level.title, c.encodeLevel(LevelFile(level.title, Ids(level.gameobjects))).value)
  {
    SavedIdsInOrder(c, d, level.gameobjects);
    SaveEachSavesEveryObject(c, d, level.gameobjects);
  }

  /** If the k-th game object is the first whose save fails, the level save
      fails with its error, the later objects are not saved and, unless the
      title is also a game object's id, the level file is never created. */
  lemma FirstFailedSaveAborts(c: Collaborators, level: Level, d: Disk, k: nat)
    requires k < |level.gameobjects|
    requires SaveEach(c, d, level.gameobjects[..k]).1.Ok?
    requires GO.SaveAsToml(c, level.gameobjects[k], SaveEach(c, d, level.gameobjects[..k]).0).1.Err?
    ensures var failed := GO.SaveAsToml(c, level.gameobjects[k], SaveEach(c, d, level.gameobjects[..k]).0);
      SaveLevel(c, level, d) == (failed.0, Err(failed.1.error))
    ensures level.title !in Ids(level.gameobjects) ==> Lookup(SaveLevel(c, level, d).0, level.title) == Lookup(d, level.title)
  {
    var gos := level.gameobjects;
    assert gos[..k + 1][..k] == gos[..k];
    SaveErrorPersists(c, d, gos, k + 1);
    if level.title !in Ids(gos) {
      SaveEachTouchesOnlyIds(c, d, gos, level.title);
    }
  }

  /** Saving a level without game objects writes just the level file, whose
      descriptor lists no paths. */
  lemma SaveEmptyLevel(c: Collaborators, title: Path, d: Disk)
    requires c.encodeLevel(LevelFile(title, [])).Ok?
    requires title !in d.readOnly && title !in d.noSpace
    ensures SaveLevel(c, New(title, []), d) == (Stored(d, title, c.encodeLevel(LevelFile(title, [])).value), Ok(()))
  {
  }
}
