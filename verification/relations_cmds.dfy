/**
 * The relation commands' own decisions: whether a create or delete works on a class relation
 * or an object relation, the check that both object names are given, and for `RelationList`
 * the ordering of the two classes (the lower id first), the filters that follow from it, when a
 * table is shown, and how the class relation is turned back to the user's orientation.
 */
module RelationCommands {
  import opened Wrappers
  import opened Errors
  import opened RelationFormatting

  // ---------------------------------------------------------------------------------------
  // Create and delete
  // ---------------------------------------------------------------------------------------

  /** `validate_object_names`: both names, or the first one missing (`object_from` before `object_to`). */
  function ValidateObjectNames(objectFrom: Option<string>, objectTo: Option<string>): (r: Result<(string, string), AppError>)
    ensures r.Success? <==> objectFrom.Some? && objectTo.Some?
    ensures r.Success? ==> r.value == (objectFrom.value, objectTo.value)
    ensures objectFrom.None? ==> r == Failure(MissingOptions(["object_from"]))
    ensures objectFrom.Some? && objectTo.None? ==> r == Failure(MissingOptions(["object_to"]))
  {
    match (objectFrom, objectTo)
    case (Some(f), Some(t)) => Success((f, t))
    case (None, _) => Failure(MissingOptions(["object_from"]))
    case (_, None) => Failure(MissingOptions(["object_to"]))
  }

  /** What a create or delete works on. */
  datatype Path = ClassPath | ObjectPath(objectFrom: string, objectTo: string)

  /**
   * `RelationNew` and `RelationDelete`: without object names the class relation; otherwise
   * the object relation, whose helper first checks that both names are there.
   */
  function RelationPath(objectFrom: Option<string>, objectTo: Option<string>): (r: Result<Path, AppError>)
    ensures r == Success(ClassPath) <==> objectFrom.None? && objectTo.None?
    ensures (r.Success? && r.value.ObjectPath?) <==> objectFrom.Some? && objectTo.Some?
    ensures r.Success? && r.value.ObjectPath? ==> r.value == ObjectPath(objectFrom.value, objectTo.value)
    ensures objectFrom.None? && objectTo.Some? ==> r == Failure(MissingOptions(["object_from"]))
    ensures objectFrom.Some? && objectTo.None? ==> r == Failure(MissingOptions(["object_to"]))
  {
    if objectFrom.None? && objectTo.None? then Success(ClassPath)
    else
      match ValidateObjectNames(objectFrom, objectTo)
      case Failure(e) => Failure(e)
      case Success(names) => Success(ObjectPath(names.0, names.1))
  }

  // ---------------------------------------------------------------------------------------
  // `RelationInfo`
  // ---------------------------------------------------------------------------------------

  /** Where `RelationInfo` goes: the class relation, the object relation, or a panic from an `unwrap` on a missing name. */
  datatype InfoBranch = InfoClassPath | InfoObjectPath(objectFrom: string, objectTo: string) | Panicked

  /** `RelationInfo` as written: outside the class branch both names are unwrapped without a check. */
  function InfoPathAsWritten(objectFrom: Option<string>, objectTo: Option<string>): InfoBranch {
    if objectFrom.None? && objectTo.None? then InfoClassPath
    else if objectFrom.None? || objectTo.None? then Panicked
    else InfoObjectPath(objectFrom.value, objectTo.value)
  }

  /** Giving only one of the two object names makes `RelationInfo` panic. */
  lemma InfoPanicsOnOneName(name: string)
    ensures InfoPathAsWritten(None, Some(name)) == Panicked
    ensures InfoPathAsWritten(Some(name), None) == Panicked
  {
  }

  /** `RelationInfo` with the check create and delete use: the same branch, and an error instead of a panic. */
  function InfoPathChecked(objectFrom: Option<string>, objectTo: Option<string>): (r: Result<Path, AppError>)
    ensures r.Failure? <==> (objectFrom.None? != objectTo.None?)
  {
    RelationPath(objectFrom, objectTo)
  }

  /** The corrected info takes the same branch wherever the written one does not panic, and reports the missing name where it does. */
  lemma InfoPathCorrects(objectFrom: Option<string>, objectTo: Option<string>)
    ensures InfoPathAsWritten(objectFrom, objectTo) == InfoClassPath <==> InfoPathChecked(objectFrom, objectTo) == Success(ClassPath)
    ensures InfoPathAsWritten(objectFrom, objectTo).InfoObjectPath? ==>
      InfoPathChecked(objectFrom, objectTo) == Success(ObjectPath(objectFrom.value, objectTo.value))
    ensures InfoPathAsWritten(objectFrom, objectTo) == Panicked <==> InfoPathChecked(objectFrom, objectTo).Failure?
    ensures InfoPathChecked(objectFrom, objectTo).Failure? ==> InfoPathChecked(objectFrom, objectTo).error.MissingOptions?
  {
  }

  // ---------------------------------------------------------------------------------------
  // `RelationList`: the classes
  // ---------------------------------------------------------------------------------------

  /** An equality condition on an id, as the relation searches add them. */
  datatype EqFilter = EqFilter(key: string, value: int)

  /** How the listing goes on after the classes are looked up: swapped or not, the two classes, and the class-relation search. */
  datatype ListPlan = ListPlan(swapped: bool, fromClass: Option<Entity>, toClass: Option<Entity>, filters: seq<EqFilter>)

  /** `find_class_by_name`; its failures are not part of this model. */
  type Lookup = string -> Entity

  /**
   * The plan: with both classes, the one with the lower id is searched for as the source (and
   * `swapped` records that the user gave them the other way round); with one class, only that
   * side is searched; with none, every class relation.
   */
  function PlanOf(classFrom: Option<string>, classTo: Option<string>, lookup: Lookup): ListPlan {
    if classFrom.Some? && classTo.Some? then
      var f := lookup(classFrom.value);
      var t := lookup(classTo.value);
      var swapped := f.id > t.id;
      var lo := if swapped then t else f;
      var hi := if swapped then f else t;
      ListPlan(swapped, Some(lo), Some(hi), [EqFilter("from_classes", lo.id), EqFilter("to_classes", hi.id)])
    else if classFrom.Some? then
      var f := lookup(classFrom.value);
      ListPlan(false, Some(f), None, [EqFilter("from_classes", f.id)])
    else if classTo.Some? then
      var t := lookup(classTo.value);
      ListPlan(false, None, Some(t), [EqFilter("to_classes", t.id)])
    else ListPlan(false, None, None, [])
  }

  /** The start of `RelationList::execute`, with its mutable `swapped`, `from_class`, `to_class` and query. */
  method PlanList(classFrom: Option<string>, classTo: Option<string>, lookup: Lookup) returns (plan: ListPlan)
    ensures plan == PlanOf(classFrom, classTo, lookup)
  {
    var swapped := false;
    var fromClass: Option<Entity> := None;
    var toClass: Option<Entity> := None;
    var filters: seq<EqFilter> := [];
    if classFrom.Some? && classTo.Some? {
      fromClass := Some(lookup(classFrom.value));
      toClass := Some(lookup(classTo.value));
      var from := fromClass.value;
      var to := toClass.value;
      if from.id > to.id {
        swapped := true;
        fromClass, toClass := toClass, fromClass;
      }
      filters := filters + [EqFilter("from_classes", fromClass.value.id)];
      filters := filters + [EqFilter("to_classes", toClass.value.id)];
    } else if classFrom.Some? {
      fromClass := Some(lookup(classFrom.value));
      filters := filters + [EqFilter("from_classes", fromClass.value.id)];
    } else if classTo.Some? {
      toClass := Some(lookup(classTo.value));
      filters := filters + [EqFilter("to_classes", toClass.value.id)];
    }
    plan := ListPlan(swapped, fromClass, toClass, filters);
  }

  /**
   * The swap rule: swapped exactly when both classes are given and the source's id is the
   * larger; the searched source then never has the larger id, the two classes are the ones
   * given, and each given class contributes one filter.
   */
  lemma PlanSwapRule(classFrom: Option<string>, classTo: Option<string>, lookup: Lookup)
    ensures var p := PlanOf(classFrom, classTo, lookup);
      && (p.swapped <==> classFrom.Some? && classTo.Some? && lookup(classFrom.value).id > lookup(classTo.value).id)
      && (p.fromClass.Some? && p.toClass.Some? ==> p.fromClass.value.id <= p.toClass.value.id)
      && (p.fromClass.Some? <==> classFrom.Some?) && (p.toClass.Some? <==> classTo.Some?)
      && (classFrom.Some? && classTo.Some? ==>
            multiset{p.fromClass.value, p.toClass.value} == multiset{lookup(classFrom.value), lookup(classTo.value)})
      && (!p.swapped && classFrom.Some? ==> p.fromClass == Some(lookup(classFrom.value)))
      && (!p.swapped && classTo.Some? ==> p.toClass == Some(lookup(classTo.value)))
      && |p.filters| == (if classFrom.Some? then 1 else 0) + (if classTo.Some? then 1 else 0)
      && (forall i :: 0 <= i < |p.filters| ==>
            (p.filters[i].key == "from_classes" && p.fromClass.Some? && p.filters[i].value == p.fromClass.value.id)
            || (p.filters[i].key == "to_classes" && p.toClass.Some? && p.filters[i].value == p.toClass.value.id))
  {
  }

  /** A table of class relations is shown when there are several, or when a class was left out. */
  predicate ShowTable(count: nat, classFrom: Option<string>, classTo: Option<string>) {
    count > 1 || classFrom.None? || classTo.None?
  }

  /**
   * Past the table both classes were given, so both are already known: the lookups that
   * would fill in a missing class from the relation are never reached.
   */
  lemma PastTableBothClassesKnown(count: nat, classFrom: Option<string>, classTo: Option<string>, lookup: Lookup)
    requires !ShowTable(count, classFrom, classTo)
    ensures classFrom.Some? && classTo.Some? && count <= 1
    ensures PlanOf(classFrom, classTo, lookup).fromClass.Some? && PlanOf(classFrom, classTo, lookup).toClass.Some?
  {
  }

  // ---------------------------------------------------------------------------------------
  // `RelationList`: the objects
  // ---------------------------------------------------------------------------------------

  /** The side of the object-relation search an object name is put on: `object_from` and `object_to` are exchanged when swapped. */
  function ObjectTarget(swapped: bool, isFrom: bool): (key: string)
    ensures key == "from_objects" || key == "to_objects"
  {
    if isFrom then (if swapped then "from_objects" else "to_objects")
    else (if swapped then "to_objects" else "from_objects")
  }

  /** The two names always go to different sides, and swapping moves each name to the other side. */
  lemma ObjectTargetsExchanged(swapped: bool, isFrom: bool)
    ensures ObjectTarget(swapped, isFrom) != ObjectTarget(swapped, !isFrom)
    ensures ObjectTarget(!swapped, isFrom) == ObjectTarget(swapped, !isFrom)
    ensures ObjectTarget(!swapped, isFrom) != ObjectTarget(swapped, isFrom)
  {
  }

  /** The object-relation search: the class relation first, then the source object, then the target object, each when named. */
  function ObjectFilters(classRelationId: int, objectFromId: Option<int>, objectToId: Option<int>, swapped: bool): (r: seq<EqFilter>)
    ensures |r| == 1 + (if objectFromId.Some? then 1 else 0) + (if objectToId.Some? then 1 else 0)
    ensures r[0] == EqFilter("class_relation", classRelationId)
    ensures objectFromId.Some? ==> r[1] == EqFilter(ObjectTarget(swapped, true), objectFromId.value)
    ensures objectToId.Some? ==> r[|r| - 1] == EqFilter(ObjectTarget(swapped, false), objectToId.value)
  {
    var byFrom := if objectFromId.Some? then [EqFilter(ObjectTarget(swapped, true), objectFromId.value)] else [];
    var byTo := if objectToId.Some? then [EqFilter(ObjectTarget(swapped, false), objectToId.value)] else [];
    [EqFilter("class_relation", classRelationId)] + byFrom + byTo
  }

  /** With both objects named, they are searched on different sides. */
  lemma ObjectFiltersDistinctSides(classRelationId: int, fromId: int, toId: int, swapped: bool)
    ensures var r := ObjectFilters(classRelationId, Some(fromId), Some(toId), swapped);
      |r| == 3 && r[1].key != r[2].key && {r[1].key, r[2].key} == {"from_objects", "to_objects"}
  {
  }

  /** `class_relation_corrected`: the ends of the relation exchanged when the classes were swapped. */
  function Corrected(rel: ClassRelation, swapped: bool): (c: ClassRelation)
    ensures swapped ==> c.fromClassId == rel.toClassId && c.toClassId == rel.fromClassId
    ensures !swapped ==> c == rel
    ensures c.id == rel.id && c.createdAt == rel.createdAt && c.updatedAt == rel.updatedAt
  {
    if swapped then rel.(fromClassId := rel.toClassId, toClassId := rel.fromClassId) else rel
  }

  /** Correcting twice gives the relation back. */
  lemma CorrectedInvolution(rel: ClassRelation, swapped: bool)
    ensures Corrected(Corrected(rel, swapped), swapped) == rel
  {
  }

  /** A relation found from the lower-id class to the higher, once corrected, runs from the class the user named as source to the one named as target. */
  lemma CorrectedFollowsUser(rel: ClassRelation, classFrom: string, classTo: string, lookup: Lookup)
    requires var p := PlanOf(Some(classFrom), Some(classTo), lookup);
      rel.fromClassId == p.fromClass.value.id && rel.toClassId == p.toClass.value.id
    ensures var c := Corrected(rel, PlanOf(Some(classFrom), Some(classTo), lookup).swapped);
      c.fromClassId == lookup(classFrom).id && c.toClassId == lookup(classTo).id
  {
  }
}
