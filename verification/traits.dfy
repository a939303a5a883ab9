/** `single_item_or_warning`: a search that must find exactly one entity, named in its errors by type. */
module Traits {
  import opened Wrappers
  import opened Errors

  /** Whether `s` holds `::` at position `i`. */
  predicate SeparatorAt(s: string, i: int) {
    0 <= i < |s| - 1 && s[i] == ':' && s[i + 1] == ':'
  }

  /** `get_type_name`: the last `::`-separated segment of a full type name. */
  function TypeName(full: string): string
    decreases |full|
  {
    if |full| < 2 then full
    else if SeparatorAt(full, |full| - 2) then []
    else TypeName(full[..|full| - 1]) + [full[|full| - 1]]
  }

  /**
   * The type name is a suffix of the full name; no `::` starts from the character before it
   * onwards (so it is cut at the last `::`), and what comes before it ends with `::` whenever
   * it is not the whole name.
   */
  lemma {:induction false} TypeNameShape(full: string)
    ensures var r := TypeName(full);
      && |r| <= |full| && r == full[|full| - |r|..]
      && (forall p :: |full| - |r| - 1 <= p ==> !SeparatorAt(full, p))
      && (|r| < |full| ==> SeparatorAt(full, |full| - |r| - 2))
    decreases |full|
  {
    if |full| >= 2 && !SeparatorAt(full, |full| - 2) {
      var init := full[..|full| - 1];
      var t := TypeName(init);
      TypeNameShape(init);
      var r := t + [full[|full| - 1]];
      assert TypeName(full) == r;
      assert r == full[|full| - |r|..];
      forall p | |full| - |r| - 1 <= p ensures !SeparatorAt(full, p) {
        if p < |full| - 2 {
          assert !SeparatorAt(init, p);
          if 0 <= p {
            assert full[p] == init[p] && full[p + 1] == init[p + 1];
          }
        }
      }
      if |r| < |full| {
        assert SeparatorAt(init, |init| - |t| - 2);
      }
    }
  }

  /** A name without `::` is its own type name. */
  lemma {:induction false} PlainTypeName(full: string)
    requires forall i :: 0 <= i < |full| - 1 ==> !SeparatorAt(full, i)
    ensures TypeName(full) == full
  {
    TypeNameShape(full);
  }

  /** The type name of a qualified path is its last segment. */
  lemma {:induction false} QualifiedTypeName(path: string, last: string)
    requires forall i :: 0 <= i < |last| - 1 ==> !SeparatorAt(last, i)
    requires |last| == 0 || last[0] != ':'
    ensures TypeName(path + "::" + last) == last
  {
    var full := path + "::" + last;
    TypeNameShape(full);
    var r := TypeName(full);
    assert SeparatorAt(full, |path|);
    forall q | |path| + 1 <= q < |full| - 1 ensures !SeparatorAt(full, q) {
      if q == |path| + 1 {
        assert full[q + 1] == last[0];
      } else {
        assert full[q] == last[q - |path| - 2] && full[q + 1] == last[q - |path| - 1];
        assert !SeparatorAt(last, q - |path| - 2);
      }
    }
    assert |r| == |last|;
    assert full[|full| - |last|..] == last;
  }

  /** `single_item_or_warning`: no item, one item, or more than one, for entities of the given type. */
  function SingleItemOrWarning<T>(items: seq<T>, fullTypeName: string): (r: Result<T, AppError>)
    ensures r.Success? <==> |items| == 1
    ensures r.Success? ==> r.value == items[0]
    ensures |items| == 0 ==> r == Failure(EntityNotFound(TypeName(fullTypeName) + " not found"))
    ensures |items| > 1 ==> r == Failure(MultipleEntitiesFound("More than one " + TypeName(fullTypeName) + " found"))
  {
    var typeName := TypeName(fullTypeName);
    if |items| == 0 then Failure(EntityNotFound(typeName + " not found"))
    else if |items| > 1 then Failure(MultipleEntitiesFound("More than one " + typeName + " found"))
    else Success(items[0])
  }
}
