/** retObjects.retDict: a dict mapping each given field name to the same value. */
module RetObjects {
  import opened Wrappers
  import opened PyValues
  import opened Exceptions

  /** The dict the `for field in field_names: adict[field] = value` loop builds from an empty dict. */
  function FieldDict(fields: seq<Value>, v: Value): seq<(Value, Value)>
    decreases |fields|
  {
    if fields == [] then [] else DictSet(FieldDict(fields[..|fields| - 1], v), fields[|fields| - 1], v)
  }

  /** Some name of the list names the slot of `f`. */
  predicate Mentions(fields: seq<Value>, f: Value)
    decreases |fields|
  {
    fields != [] && (SameKey(fields[|fields| - 1], f) || Mentions(fields[..|fields| - 1], f))
  }

  /** The dict maps exactly the slots the names mention, each of them to the given value. */
  lemma {:induction false} FieldDictGet(fields: seq<Value>, v: Value, f: Value)
    ensures Get(FieldDict(fields, v), f) == if Mentions(fields, f) then Some(v) else None
    decreases |fields|
  {
    if fields != [] {
      var init := fields[..|fields| - 1];
      var last := fields[|fields| - 1];
      if SameKey(last, f) {
        DictSetHit(FieldDict(init, v), last, v, f);
      } else {
        DictSetMiss(FieldDict(init, v), last, v, f);
        FieldDictGet(init, v, f);
      }
    }
  }

  /** No name mentions a slot an earlier name already mentions. */
  predicate DistinctFields(fields: seq<Value>)
    decreases |fields|
  {
    fields == [] ||
    (!Mentions(fields[..|fields| - 1], fields[|fields| - 1]) && DistinctFields(fields[..|fields| - 1]))
  }

  /** With pairwise different names, the dict's keys are exactly the names, in the given order. */
  lemma {:induction false} FieldDictKeys(fields: seq<Value>, v: Value)
    requires DistinctFields(fields)
    ensures Keys(FieldDict(fields, v)) == fields
    decreases |fields|
  {
    if fields != [] {
      var init := fields[..|fields| - 1];
      var last := fields[|fields| - 1];
      var d := FieldDict(init, v);
      assert !Mentions(init, last);
      FieldDictGet(init, v, last);
      DictSetNew(d, last, v);
      assert FieldDict(fields, v) == d + [(last, v)];
      FieldDictKeys(init, v);
      KeysSnoc(d, (last, v));
      assert init + [last] == fields;
    }
  }

  lemma {:induction false} KeysSnoc(entries: seq<(Value, Value)>, e: (Value, Value))
    ensures Keys(entries + [e]) == Keys(entries) + [e.0]
  {
    var r := entries + [e];
    assert |Keys(r)| == |Keys(entries) + [e.0]|;
    forall i | 0 <= i < |r|
      ensures Keys(r)[i] == (Keys(entries) + [e.0])[i]
    {
    }
  }

  /** Repeating a name that is already mentioned leaves the dict as it was. */
  lemma RepeatedField(fields: seq<Value>, f: Value, v: Value)
    requires Mentions(fields, f)
    ensures FieldDict(fields + [f], v) == FieldDict(fields, v)
  {
    assert (fields + [f])[..|fields|] == fields;
    FieldDictGet(fields, v, f);
    DictSetSame(FieldDict(fields, v), f, v);
  }

  /** What `retDict` returns. */
  function RetDictResult(names: Value, v: Value): Result<Value, Error>
  {
    if !Truthy(names) then Success(VDict([(VStr("result"), v)]))
    else if names.VStr? then Success(VDict([(names, v)]))
    else if names.VList? then
      if exists i :: 0 <= i < |names.items| && !Hashable(names.items[i]) then Failure(TypeError)
      else Success(VDict(FieldDict(names.items, v)))
    else Failure(FieldNameTypeError)
  }

  /** The slots the returned dict fills: "result" for falsy names, the name itself, or every listed name. */
  predicate Names(names: Value, f: Value)
  {
    if !Truthy(names) then SameKey(VStr("result"), f)
    else if names.VStr? then SameKey(names, f)
    else names.VList? && Mentions(names.items, f)
  }

  /**
   * `retDict` fails exactly for truthy names that are neither a str nor a list (FieldNameTypeError)
   * and for a list holding an unhashable name (TypeError); otherwise its dict maps every named
   * slot, and no other, to the given value.
   */
  lemma RetDictOutcome(names: Value, v: Value, f: Value)
    ensures var r := RetDictResult(names, v);
            r.Failure? <==> Truthy(names) && !names.VStr? &&
                            (names.VList? ==> exists i :: 0 <= i < |names.items| && !Hashable(names.items[i]))
    ensures var r := RetDictResult(names, v);
            r.Failure? ==> r.error == if names.VList? then TypeError else FieldNameTypeError
    ensures var r := RetDictResult(names, v);
            r.Success? ==> r.value.VDict? && Get(r.value.entries, f) == if Names(names, f) then Some(v) else None
  {
    if Truthy(names) && names.VList? {
      FieldDictGet(names.items, v, f);
    }
  }

  /** A single name gives the same dict as a list holding only that name. */
  lemma StrIsSingleField(s: string, v: Value)
    requires s != ""
    ensures RetDictResult(VStr(s), v) == RetDictResult(VList([VStr(s)]), v)
  {
    assert [VStr(s)][..0] == [];
    assert FieldDict([VStr(s)], v) == [(VStr(s), v)];
    assert !exists i :: 0 <= i < 1 && !Hashable([VStr(s)][i]);
  }

  /** `retDict(field_names, field_values)`. */
  method RetDict(names: Value, v: Value) returns (r: Result<Value, Error>)
    ensures r == RetDictResult(names, v)
  {
    if !Truthy(names) {
      return Success(VDict([(VStr("result"), v)]));
    }
    if names.VStr? {
      return Success(VDict([(names, v)]));
    }
    if !names.VList? {
      return Failure(FieldNameTypeError);
    }
    var fields := names.items;
    var entries: seq<(Value, Value)> := [];
    var i := 0;
    while i < |fields|
      invariant 0 <= i <= |fields|
      invariant entries == FieldDict(fields[..i], v)
      invariant forall q :: 0 <= q < i ==> Hashable(fields[q])
    {
      var field := fields[i];
      if !Hashable(field) {
        return Failure(TypeError);
      }
      assert fields[..i + 1][..i] == fields[..i];
      entries := DictSet(entries, field, v);
      i := i + 1;
    }
    assert fields[..i] == fields;
    return Success(VDict(entries));
  }
}
