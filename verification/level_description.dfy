/**
 * `LevelDescription`: a level's title and the ordered list of game-object
 * builders it holds. `add_gameobject` appends in place and returns the same
 * description, so calls chain.
 */
module LevelDescriptions {
  import opened Wrappers
  import opened Foreign
  import opened FileSystem
  import DPE = DataParserErrors
  import TomlFiles
  import B = GameObjectBuilders

  /** The description's fields as a value: what serde reads and writes. */
  datatype LevelRecord = LevelRecord(title: string, gameobjects: seq<B.BuilderRecord>)

  class LevelDescription {
    var title: string
    /** The builders moved in by `add_gameobject`, kept as values in order. */
    var gameobjects: seq<B.BuilderRecord>

    function Record(): LevelRecord
      reads this
    {
      LevelRecord(title, gameobjects)
    }

    /** `LevelDescription::new(title)`: that title and no game objects. */
    constructor (title: string)
      ensures Title() == title
      ensures Slice() == []
    {
      this.title := title;
      gameobjects := [];
    }

    /** `add_gameobject`: appends exactly one element at the end; the title and
        the earlier elements are unchanged; returns this description. */
    method AddGameobject(obj: B.GameObjectBuilder) returns (self: LevelDescription)
      modifies this
      ensures self == this
      ensures Slice() == old(Slice()) + [old(obj.Record())]
      ensures Title() == old(Title())
    {
      gameobjects := gameobjects + [obj.Record()];
      self := this;
    }

    /** `title()`: the stored title. */
    function Title(): (t: string)
      reads this
      ensures t == Record().title
    {
      title
    }

    /** `slice()`: the elements in insertion order. */
    function Slice(): (s: seq<B.BuilderRecord>)
      reads this
      ensures s == Record().gameobjects
    {
      gameobjects
    }

    /** `as_string_toml`: the TOML text, or a `SerializationError`. */
    function AsStringToml(encode: LevelRecord -> Result<string, TomlSerError>): (r: DPE.DataParserResult<string>)
      reads this
      ensures r.Ok? <==> encode(Record()).Ok?
      ensures r.Ok? ==> r.value == encode(Record()).value
      ensures r.Err? ==> r.error.SerializationError? && r.error.ser == encode(Record()).error
    {
      TomlFiles.AsString(Record(), encode)
    }

    /** `load_from_toml(reader)`: read everything, then parse. A read failure
        is an I/O error returned before any parsing; a parse failure is a
        `DeserializationError`. */
    static method LoadFromToml(d: Disk, reader: Reader, decode: string -> Result<LevelRecord, TomlDeError>) returns (r: DPE.DataParserResult<LevelDescription>)
      ensures r.Err? <==> TomlFiles.ReadAndParse(d, reader, decode).Err?
      ensures r.Err? ==> r.error == TomlFiles.ReadAndParse(d, reader, decode).error
      ensures r.Ok? ==> fresh(r.value) && r.value.Record() == TomlFiles.ReadAndParse(d, reader, decode).value
    {
      var parsed := TomlFiles.ReadAndParse(d, reader, decode);
      if parsed.Err? {
        return Err(parsed.error);
      }
      var level := new LevelDescription(parsed.value.title);
      level.gameobjects := parsed.value.gameobjects;
      return Ok(level);
    }
  }

  /** The serialization test's level: a new description with two builders
      added holds them in the order added, under the given title. */
  method DescribeLevel(title: string, first: B.GameObjectBuilder, second: B.GameObjectBuilder) returns (level: LevelDescription)
    ensures fresh(level)
    ensures level.Title() == title
    ensures level.Slice() == [first.Record(), second.Record()]
  {
    level := new LevelDescription(title);
    assert level.Slice() == [];
    var chained := level.AddGameobject(first);
    chained := chained.AddGameobject(second);
  }
}
