/**
 * Relations as they are shown: the class and object ids of a relation replaced by the names
 * found in a map of known classes (or objects), and the four `key: value` lines of each.
 */
module RelationFormatting {
  import opened Wrappers
  import opened Output
  import opened Formatting
  import Shared
  import Errors

  /** A class or an object, as far as the formatters look at it. */
  datatype Entity = Entity(id: int, name: string)

  datatype ClassRelation = ClassRelation(id: int, fromClassId: int, toClassId: int, createdAt: string, updatedAt: string)

  datatype ObjectRelation = ObjectRelation(
    id: int, classRelationId: int, fromObjectId: int, toObjectId: int, createdAt: string, updatedAt: string)

  datatype FormattedClassRelation = FormattedClassRelation(id: int, fromClass: string, toClass: string, createdAt: string, updatedAt: string)

  datatype FormattedObjectRelation = FormattedObjectRelation(id: int, fromObject: string, toObject: string, createdAt: string, updatedAt: string)

  /** The name the map knows for `id`, or the empty text. */
  function NameOf(known: map<int, Entity>, id: int): (name: string)
    ensures id in known ==> name == known[id].name
    ensures id !in known ==> name == ""
  {
    if id in known then known[id].name else ""
  }

  /** `FormattedClassRelation::new`. */
  function NewClassRelation(rel: ClassRelation, classmap: map<int, Entity>): (f: FormattedClassRelation)
    ensures f.fromClass == NameOf(classmap, rel.fromClassId) && f.toClass == NameOf(classmap, rel.toClassId)
    ensures f.id == rel.id && f.createdAt == rel.createdAt && f.updatedAt == rel.updatedAt
  {
    FormattedClassRelation(rel.id, NameOf(classmap, rel.fromClassId), NameOf(classmap, rel.toClassId), rel.createdAt, rel.updatedAt)
  }

  /**
   * `FormattedObjectRelation::new`: the object names come from the object map; the class
   * relation and the class map it is also given play no part.
   */
  function NewObjectRelation(rel: ObjectRelation, classRelation: ClassRelation, objectmap: map<int, Entity>, classmap: map<int, Entity>): (f: FormattedObjectRelation)
    ensures f.fromObject == NameOf(objectmap, rel.fromObjectId) && f.toObject == NameOf(objectmap, rel.toObjectId)
    ensures f.id == rel.id && f.createdAt == rel.createdAt && f.updatedAt == rel.updatedAt
  {
    FormattedObjectRelation(rel.id, NameOf(objectmap, rel.fromObjectId), NameOf(objectmap, rel.toObjectId), rel.createdAt, rel.updatedAt)
  }

  /** Whatever class relation and class map are passed, the formatted object relation is the same. */
  lemma ObjectRelationIgnoresClasses(rel: ObjectRelation, cr1: ClassRelation, cr2: ClassRelation, objectmap: map<int, Entity>, cm1: map<int, Entity>, cm2: map<int, Entity>)
    ensures NewObjectRelation(rel, cr1, objectmap, cm1) == NewObjectRelation(rel, cr2, objectmap, cm2)
  {
  }

  /**
   * With the map keyed by id from a list of classes, a relation end whose class is in the list
   * is shown with the name of a class of that id (the last one listed), and any other end is
   * shown as the empty text.
   */
  lemma NamesFromListedClasses(rel: ClassRelation, classes: seq<Entity>)
    ensures var f := NewClassRelation(rel, Shared.KeyById(classes, (c: Entity) => c.id));
      && ((exists c :: c in classes && c.id == rel.fromClassId) ==>
            exists c :: c in classes && c.id == rel.fromClassId && f.fromClass == c.name)
      && ((forall c :: c in classes ==> c.id != rel.fromClassId) ==> f.fromClass == "")
      && ((exists c :: c in classes && c.id == rel.toClassId) ==>
            exists c :: c in classes && c.id == rel.toClassId && f.toClass == c.name)
      && ((forall c :: c in classes ==> c.id != rel.toClassId) ==> f.toClass == "")
  {
    var id := (c: Entity) => c.id;
    var m := Shared.KeyById(classes, id);
    Shared.KeyByIdOwnIds(classes, id);
    if exists c :: c in classes && c.id == rel.fromClassId {
      var c :| c in classes && c.id == rel.fromClassId;
      assert id(c) == rel.fromClassId;
      assert rel.fromClassId in m;
    }
    if exists c :: c in classes && c.id == rel.toClassId {
      var c :| c in classes && c.id == rel.toClassId;
      assert id(c) == rel.toClassId;
      assert rel.toClassId in m;
    }
  }

  /** Exchanging the ends of a class relation exchanges the two names shown. */
  lemma SwappedEndsSwapNames(rel: ClassRelation, classmap: map<int, Entity>)
    ensures var f := NewClassRelation(rel, classmap);
      var g := NewClassRelation(rel.(fromClassId := rel.toClassId, toClassId := rel.fromClassId), classmap);
      g.fromClass == f.toClass && g.toClass == f.fromClass && g.id == f.id
  {
  }

  // ---------------------------------------------------------------------------------------
  // The `format` line sequences
  // ---------------------------------------------------------------------------------------

  /** The lines `format` appends for a class relation: `ClassFrom`, `ClassTo`, `Created`, `Updated`. */
  function ClassRelationLines(f: FormattedClassRelation, padding: int): (lines: seq<string>)
    requires IsI8(padding)
    ensures |lines| == 4
  {
    [PadKeyValue("ClassFrom", f.fromClass, padding), PadKeyValue("ClassTo", f.toClass, padding),
     PadKeyValue("Created", f.createdAt, padding), PadKeyValue("Updated", f.updatedAt, padding)]
  }

  /** The lines `format` appends for an object relation: `ObjectFrom`, `ObjectTo`, `Created`, `Updated`. */
  function ObjectRelationLines(f: FormattedObjectRelation, padding: int): (lines: seq<string>)
    requires IsI8(padding)
    ensures |lines| == 4
  {
    [PadKeyValue("ObjectFrom", f.fromObject, padding), PadKeyValue("ObjectTo", f.toObject, padding),
     PadKeyValue("Created", f.createdAt, padding), PadKeyValue("Updated", f.updatedAt, padding)]
  }

  /** `FormattedClassRelation::format`: four key/value lines, in that order. */
  method FormatClassRelation(buffer: OutputBuffer, f: FormattedClassRelation, padding: int) returns (r: Outcome<Errors.AppError>)
    requires IsI8(padding)
    modifies buffer
    ensures r == Pass
    ensures buffer.lines == old(buffer.lines) + ClassRelationLines(f, padding)
    ensures buffer.warnings == old(buffer.warnings) && buffer.errors == old(buffer.errors) && buffer.filter == old(buffer.filter)
  {
    AppendKeyValue(buffer, "ClassFrom", f.fromClass, padding);
    AppendKeyValue(buffer, "ClassTo", f.toClass, padding);
    AppendKeyValue(buffer, "Created", f.createdAt, padding);
    AppendKeyValue(buffer, "Updated", f.updatedAt, padding);
    r := Pass;
  }

  /** `FormattedObjectRelation::format`: four key/value lines, in that order. */
  method FormatObjectRelation(buffer: OutputBuffer, f: FormattedObjectRelation, padding: int) returns (r: Outcome<Errors.AppError>)
    requires IsI8(padding)
    modifies buffer
    ensures r == Pass
    ensures buffer.lines == old(buffer.lines) + ObjectRelationLines(f, padding)
    ensures buffer.warnings == old(buffer.warnings) && buffer.errors == old(buffer.errors) && buffer.filter == old(buffer.filter)
  {
    AppendKeyValue(buffer, "ObjectFrom", f.fromObject, padding);
    AppendKeyValue(buffer, "ObjectTo", f.toObject, padding);
    AppendKeyValue(buffer, "Created", f.createdAt, padding);
    AppendKeyValue(buffer, "Updated", f.updatedAt, padding);
    r := Pass;
  }

  /** Each line of a formatted class relation starts with its key and carries its value after the column. */
  lemma ClassRelationLinesKeys(f: FormattedClassRelation, padding: int)
    requires IsI8(padding) && padding >= 10
    ensures var lines := ClassRelationLines(f, padding);
      && lines[0][..9] == "ClassFrom" && lines[0][padding..] == ": " + f.fromClass
      && lines[1][..7] == "ClassTo" && lines[1][padding..] == ": " + f.toClass
      && lines[2][..7] == "Created" && lines[2][padding..] == ": " + f.createdAt
      && lines[3][..7] == "Updated" && lines[3][padding..] == ": " + f.updatedAt
  {
  }

  /** Each line of a formatted object relation starts with its key and carries its value after the column. */
  lemma ObjectRelationLinesKeys(f: FormattedObjectRelation, padding: int)
    requires IsI8(padding) && padding >= 10
    ensures var lines := ObjectRelationLines(f, padding);
      && lines[0][..10] == "ObjectFrom" && lines[0][padding..] == ": " + f.fromObject
      && lines[1][..8] == "ObjectTo" && lines[1][padding..] == ": " + f.toObject
      && lines[2][..7] == "Created" && lines[2][padding..] == ": " + f.createdAt
      && lines[3][..7] == "Updated" && lines[3][padding..] == ": " + f.updatedAt
  {
  }
}
