/**
 * `deepMerge` (json-loader.js:144-167): the recursive merge used to lay a
 * translation entry over a base entry.  Its JavaScript quirks are kept: a falsy
 * override returns the base, an array merge is `base.map` and so never grows past
 * the base, `typeof null === 'object'` sends null into the recursion, and mixing an
 * array with an object spreads the array into index-keyed fields.
 */
module MergeEngine {
  import opened JsValue

  function DeepMerge(base: Value, over: Value): Result<Value>
    decreases over, 1
  {
    if !Truthy(over) then Ok(base)
    else if base.Arr? && over.Arr? then
      match MergeElements(base.items, over, 0)
      case Ok(items) => Ok(Arr(items))
      case Err(e) => Err(e)
    else if IsObjectType(base) && IsObjectType(over) then
      match MergeFields(base, over, Spread(base), 0)
      case Ok(fields) => Ok(Obj(fields))
      case Err(e) => Err(e)
    else Ok(over)
  }

  /** The callback of `base.map((item, idx) => ...)`, at index `i`. */
  function MergeElement(bs: seq<Value>, over: Value, i: nat): Result<Value>
    requires over.Arr? && i < |bs|
    decreases over, 0, 0
  {
    if i < |over.items| && IsObjectType(bs[i]) && IsObjectType(over.items[i]) then
      DeepMerge(bs[i], over.items[i])
    else if i < |over.items| && !over.items[i].Undefined? then Ok(over.items[i])
    else Ok(bs[i])
  }

  /** `base.map(...)` over the indices `i..|bs|`; the first throw aborts the map. */
  function MergeElements(bs: seq<Value>, over: Value, i: nat): Result<seq<Value>>
    requires over.Arr? && i <= |bs|
    decreases over, 0, |bs| - i
  {
    if i == |bs| then Ok([])
    else
      match MergeElement(bs, over, i)
      case Err(e) => Err(e)
      case Ok(h) =>
        match MergeElements(bs, over, i + 1)
        case Err(e) => Err(e)
        case Ok(t) => Ok([h] + t)
  }

  /** The number of own keys of the override (an array or an object). */
  function KeyCount(over: Value): nat
    requires over.Arr? || over.Obj?
  {
    if over.Obj? then |over.fields| else |over.items|
  }

  /** The `i`-th key of `Object.keys(over)`. */
  function KeyAt(over: Value, i: nat): string
    requires over.Arr? || over.Obj?
    requires i < KeyCount(over)
  {
    if over.Obj? then over.fields[i].key else IndexKey(i)
  }

  /** `override[key]` for the `i`-th key. */
  function ValueAt(over: Value, i: nat): Value
    requires over.Arr? || over.Obj?
    requires i < KeyCount(over)
  {
    if over.Obj? then over.fields[i].val else over.items[i]
  }

  /** One step of `Object.keys(override).forEach(...)`: the value written at the `i`-th key. */
  function MergeField(base: Value, over: Value, i: nat): Result<Value>
    requires over.Arr? || over.Obj?
    requires i < KeyCount(over)
    decreases over, 0, 0
  {
    match Prop(base, KeyAt(over, i))
    case Err(e) => Err(e)
    case Ok(bv) =>
      if IsObjectType(bv) && IsObjectType(ValueAt(over, i)) then
        DeepMerge(bv, if over.Obj? then over.fields[i].val else over.items[i])
      else Ok(ValueAt(over, i))
  }

  /** The rest of the forEach, from the `i`-th key on, writing into `acc`. */
  function MergeFields(base: Value, over: Value, acc: seq<Field>, i: nat): Result<seq<Field>>
    requires over.Arr? || over.Obj?
    requires i <= KeyCount(over)
    decreases over, 0, KeyCount(over) - i
  {
    if i == KeyCount(over) then Ok(acc)
    else
      match MergeField(base, over, i)
      case Err(e) => Err(e)
      case Ok(v) => MergeFields(base, over, Put(acc, KeyAt(over, i), v), i + 1)
  }
}

/** What `deepMerge` keeps and what it replaces, stated per shape of its operands. */
module MergeEngineFacts {
  import opened JsValue
  import opened MergeEngine

  /** A falsy override leaves the base as it is; a non-object base or override lets the override win. */
  lemma ScalarCases(base: Value, over: Value)
    ensures !Truthy(over) ==> DeepMerge(base, over) == Ok(base)
    ensures Truthy(over) && !(IsObjectType(base) && IsObjectType(over)) ==> DeepMerge(base, over) == Ok(over)
  {
  }

  /** `MergeElements` from index `i` on throws exactly when one of its callbacks does. */
  lemma {:induction false} ElementsThrow(bs: seq<Value>, over: Value, i: nat)
    requires over.Arr? && i <= |bs|
    ensures MergeElements(bs, over, i).Ok? <==> forall j :: i <= j < |bs| ==> MergeElement(bs, over, j).Ok?
    decreases |bs| - i
  {
    if i < |bs| {
      ElementsThrow(bs, over, i + 1);
      var h, t := MergeElement(bs, over, i), MergeElements(bs, over, i + 1);
      if h.Err? {
        assert MergeElements(bs, over, i).Err?;
        assert !MergeElement(bs, over, i).Ok?;
        assert !(forall j :: i <= j < |bs| ==> MergeElement(bs, over, j).Ok?);
      } else if t.Err? {
        assert MergeElements(bs, over, i).Err?;
        var j :| i + 1 <= j < |bs| && !MergeElement(bs, over, j).Ok?;
      } else {
        assert MergeElements(bs, over, i) == Ok([h.value] + t.value);
      }
    }
  }

  /** When `MergeElements` from index `i` on succeeds, it maps each index to its callback's value. */
  lemma {:induction false} ElementsValue(bs: seq<Value>, over: Value, i: nat)
    requires over.Arr? && i <= |bs|
    requires MergeElements(bs, over, i).Ok?
    ensures |MergeElements(bs, over, i).value| == |bs| - i
    ensures forall j :: i <= j < |bs| ==>
      MergeElement(bs, over, j).Ok? && MergeElements(bs, over, i).value[j - i] == MergeElement(bs, over, j).value
    decreases |bs| - i
  {
    if i < |bs| {
      var h, t := MergeElement(bs, over, i), MergeElements(bs, over, i + 1);
      assert h.Ok? && t.Ok?;
      ElementsValue(bs, over, i + 1);
      assert MergeElements(bs, over, i).value == [h.value] + t.value;
    }
  }

  /**
   * Two arrays: the result has exactly the base's length, and position `i` holds the
   * recursive merge when both elements are `typeof 'object'`, else the override's
   * element when it is defined, else the base's element.
   */
  lemma ArrayMerge(base: Value, over: Value)
    requires base.Arr? && over.Arr?
    ensures DeepMerge(base, over).Ok? <==>
      forall i ::
        (0 <= i < |base.items| && i < |over.items| && IsObjectType(base.items[i]) && IsObjectType(over.items[i])) ==>
        DeepMerge(base.items[i], over.items[i]).Ok?
    ensures DeepMerge(base, over).Ok? ==>
      var r := DeepMerge(base, over).value;
      && r.Arr?
      && |r.items| == |base.items|
      && forall i :: 0 <= i < |base.items| ==>
           r.items[i] ==
             if i < |over.items| && IsObjectType(base.items[i]) && IsObjectType(over.items[i])
             then DeepMerge(base.items[i], over.items[i]).value
             else if i < |over.items| && !over.items[i].Undefined? then over.items[i]
             else base.items[i]
  {
    ArrayMergeThrows(base, over);
    if DeepMerge(base, over).Ok? {
      ArrayMergeValue(base, over);
    }
  }

  lemma ArrayMergeThrows(base: Value, over: Value)
    requires base.Arr? && over.Arr?
    ensures DeepMerge(base, over).Ok? <==>
      forall i ::
        (0 <= i < |base.items| && i < |over.items| && IsObjectType(base.items[i]) && IsObjectType(over.items[i])) ==>
        DeepMerge(base.items[i], over.items[i]).Ok?
  {
    assert DeepMerge(base, over).Ok? == MergeElements(base.items, over, 0).Ok?;
    ElementsThrow(base.items, over, 0);
    if forall i ::
        (0 <= i < |base.items| && i < |over.items| && IsObjectType(base.items[i]) && IsObjectType(over.items[i])) ==>
        DeepMerge(base.items[i], over.items[i]).Ok?
    {
      forall j | 0 <= j < |base.items| ensures MergeElement(base.items, over, j).Ok? {
        ElementCase(base.items, over, j);
      }
    } else {
      var i :| 0 <= i < |base.items| && i < |over.items| && IsObjectType(base.items[i]) && IsObjectType(over.items[i])
        && !DeepMerge(base.items[i], over.items[i]).Ok?;
      ElementCase(base.items, over, i);
    }
  }

  lemma ArrayMergeValue(base: Value, over: Value)
    requires base.Arr? && over.Arr? && DeepMerge(base, over).Ok?
    ensures forall i ::
      (0 <= i < |base.items| && i < |over.items| && IsObjectType(base.items[i]) && IsObjectType(over.items[i])) ==>
      DeepMerge(base.items[i], over.items[i]).Ok?
    ensures var r := DeepMerge(base, over).value;
      && r.Arr?
      && |r.items| == |base.items|
      && forall i :: 0 <= i < |base.items| ==>
           r.items[i] ==
             if i < |over.items| && IsObjectType(base.items[i]) && IsObjectType(over.items[i])
             then DeepMerge(base.items[i], over.items[i]).value
             else if i < |over.items| && !over.items[i].Undefined? then over.items[i]
             else base.items[i]
  {
    var m := MergeElements(base.items, over, 0);
    assert m.Ok? && DeepMerge(base, over) == Ok(Arr(m.value));
    ElementsValue(base.items, over, 0);
    ElementCases(base.items, over);
  }

  /** One element of an array merge, case by case. */
  lemma ElementCases(items: seq<Value>, over: Value)
    requires over.Arr?
    ensures forall j | 0 <= j < |items| ::
      MergeElement(items, over, j) ==
        if j < |over.items| && IsObjectType(items[j]) && IsObjectType(over.items[j])
        then DeepMerge(items[j], over.items[j])
        else if j < |over.items| && !over.items[j].Undefined? then Ok(over.items[j])
        else Ok(items[j])
  {
    forall j | 0 <= j < |items| {
      ElementCase(items, over, j);
    }
  }

  lemma ElementCase(items: seq<Value>, over: Value, j: nat)
    requires over.Arr? && j < |items|
    ensures MergeElement(items, over, j) ==
      if j < |over.items| && IsObjectType(items[j]) && IsObjectType(over.items[j])
      then DeepMerge(items[j], over.items[j])
      else if j < |over.items| && !over.items[j].Undefined? then Ok(over.items[j])
      else Ok(items[j])
  {
  }

  /** Past the end of a shorter override array the base elements come through unchanged. */
  lemma ArrayTail(base: Value, over: Value, i: nat)
    requires base.Arr? && over.Arr? && |over.items| <= i < |base.items|
    requires DeepMerge(base, over).Ok?
    ensures DeepMerge(base, over).value.Arr?
    ensures |DeepMerge(base, over).value.items| == |base.items|
    ensures DeepMerge(base, over).value.items[i] == base.items[i]
  {
    ArrayMerge(base, over);
  }

  /**
   * A null in the override array keeps a base element that is `typeof 'object'`
   * (the recursion meets a falsy override) but replaces any other base element.
   */
  lemma ArrayNullElement(base: Value, over: Value, i: nat)
    requires base.Arr? && over.Arr? && i < |base.items| && i < |over.items| && over.items[i].Null?
    requires DeepMerge(base, over).Ok?
    ensures DeepMerge(base, over).value.Arr? && |DeepMerge(base, over).value.items| == |base.items|
    ensures IsObjectType(base.items[i]) ==> DeepMerge(base, over).value.items[i] == base.items[i]
    ensures !IsObjectType(base.items[i]) ==> DeepMerge(base, over).value.items[i] == Null
  {
    ArrayMerge(base, over);
    ScalarCases(base.items[i], over.items[i]);
  }

  /** Writing already computed values at the given keys, in order; the first failed value aborts. */
  function PutAll(acc: seq<Field>, keys: seq<string>, vals: seq<Result<Value>>): Result<seq<Field>>
    requires |keys| == |vals|
    decreases keys
  {
    if keys == [] then Ok(acc)
    else if vals[0].Err? then Err(vals[0].error)
    else PutAll(Put(acc, keys[0], vals[0].value), keys[1..], vals[1..])
  }

  /** The steps of the forEach from the `i`-th key on. */
  function StepsFrom(base: Value, over: Value, i: nat): (r: seq<Result<Value>>)
    requires over.Obj? && i <= |over.fields|
    ensures |r| == |over.fields| - i
    ensures forall j :: 0 <= j < |r| ==> r[j] == MergeField(base, over, i + j)
  {
    seq(|over.fields| - i, j requires 0 <= j < |over.fields| - i => MergeField(base, over, i + j))
  }

  lemma {:induction false} FieldsArePutAll(base: Value, over: Value, acc: seq<Field>, i: nat)
    requires over.Obj? && i <= |over.fields|
    ensures MergeFields(base, over, acc, i) == PutAll(acc, KeyList(over.fields[i..]), StepsFrom(base, over, i))
    decreases |over.fields| - i
  {
    if i < |over.fields| {
      var steps := StepsFrom(base, over, i);
      var keys := KeyList(over.fields[i..]);
      assert keys[0] == over.fields[i].key;
      assert steps[0] == MergeField(base, over, i);
      if steps[0].Ok? {
        var acc' := Put(acc, keys[0], steps[0].value);
        FieldsArePutAll(base, over, acc', i + 1);
        assert over.fields[i..][1..] == over.fields[i + 1..];
        assert KeyList(over.fields[i..])[1..] == KeyList(over.fields[i + 1..]);
        assert steps[1..] == StepsFrom(base, over, i + 1);
      }
    }
  }

  lemma {:induction false} PutAllThrows(acc: seq<Field>, keys: seq<string>, vals: seq<Result<Value>>)
    requires |keys| == |vals|
    ensures PutAll(acc, keys, vals).Ok? <==> forall j :: 0 <= j < |vals| ==> vals[j].Ok?
    decreases keys
  {
    if keys != [] && vals[0].Ok? {
      PutAllThrows(Put(acc, keys[0], vals[0].value), keys[1..], vals[1..]);
      assert forall j :: 1 <= j < |vals| ==> vals[j] == vals[1..][j - 1];
    }
  }

  /** After the writes, keys not written read as in `acc`; a written key reads as the value written there. */
  lemma {:induction false} PutAllLookup(acc: seq<Field>, keys: seq<string>, vals: seq<Result<Value>>)
    requires |keys| == |vals|
    requires forall i, j :: 0 <= i < j < |keys| ==> keys[i] != keys[j]
    requires PutAll(acc, keys, vals).Ok?
    ensures forall k :: k !in keys ==> Lookup(PutAll(acc, keys, vals).value, k) == Lookup(acc, k)
    ensures forall j :: 0 <= j < |keys| ==> vals[j].Ok? && Lookup(PutAll(acc, keys, vals).value, keys[j]) == vals[j].value
    decreases keys
  {
    if keys != [] {
      var acc' := Put(acc, keys[0], vals[0].value);
      PutAllLookup(acc', keys[1..], vals[1..]);
      var r := PutAll(acc', keys[1..], vals[1..]).value;
      assert PutAll(acc, keys, vals).value == r;
      forall k | k !in keys ensures Lookup(r, k) == Lookup(acc, k) {
        PutLookup(acc, keys[0], vals[0].value, k);
      }
      assert keys[0] !in keys[1..];
      PutLookup(acc, keys[0], vals[0].value, keys[0]);
      forall j | 1 <= j < |keys| ensures vals[j].Ok? && Lookup(r, keys[j]) == vals[j].value {
        assert keys[j] == keys[1..][j - 1] && vals[j] == vals[1..][j - 1];
      }
    }
  }

  /** After the writes, the keys are those of `acc` and the written ones. */
  lemma {:induction false} PutAllKeys(acc: seq<Field>, keys: seq<string>, vals: seq<Result<Value>>)
    requires |keys| == |vals|
    requires PutAll(acc, keys, vals).Ok?
    ensures forall k :: k in KeyList(PutAll(acc, keys, vals).value) <==> k in KeyList(acc) || k in keys
    decreases keys
  {
    if keys != [] {
      var acc' := Put(acc, keys[0], vals[0].value);
      PutAllKeys(acc', keys[1..], vals[1..]);
      PutKeys(acc, keys[0], vals[0].value);
      assert forall k :: k in keys <==> k == keys[0] || k in keys[1..];
    }
  }

  /** The writes keep the keys unique when `acc`'s were. */
  lemma {:induction false} PutAllUnique(acc: seq<Field>, keys: seq<string>, vals: seq<Result<Value>>)
    requires |keys| == |vals|
    requires PutAll(acc, keys, vals).Ok? && UniqueKeys(acc)
    ensures UniqueKeys(PutAll(acc, keys, vals).value)
    decreases keys
  {
    if keys != [] {
      PutKeys(acc, keys[0], vals[0].value);
      PutAllUnique(Put(acc, keys[0], vals[0].value), keys[1..], vals[1..]);
    }
  }

  /** The value `deepMerge` writes at an override key: the recursive merge when both sides are objects, else the override's. */
  function KeyMerge(b: Value, o: Value): Result<Value> {
    if IsObjectType(b) && IsObjectType(o) then DeepMerge(b, o) else Ok(o)
  }

  lemma FieldIsKeyMerge(base: Value, over: Value, j: nat)
    requires base.Obj? && over.Obj? && UniqueKeys(over.fields) && j < |over.fields|
    ensures MergeField(base, over, j) == KeyMerge(Lookup(base.fields, over.fields[j].key), Lookup(over.fields, over.fields[j].key))
  {
    LookupUnique(over.fields, j);
  }

  /** For two objects, `deepMerge` writes each override key's `KeyMerge` onto a copy of the base. */
  lemma ObjectMergeUnfold(base: Value, over: Value)
    requires base.Obj? && over.Obj? && UniqueKeys(over.fields)
    ensures |StepsFrom(base, over, 0)| == |over.fields|
    ensures forall j :: 0 <= j < |over.fields| ==>
      StepsFrom(base, over, 0)[j] == KeyMerge(Lookup(base.fields, over.fields[j].key), Lookup(over.fields, over.fields[j].key))
    ensures var m := PutAll(base.fields, KeyList(over.fields), StepsFrom(base, over, 0));
      DeepMerge(base, over) == if m.Err? then Err(m.error) else Ok(Obj(m.value))
  {
    FieldsArePutAll(base, over, base.fields, 0);
    assert over.fields[0..] == over.fields;
    forall j | 0 <= j < |over.fields| {
      FieldIsKeyMerge(base, over, j);
    }
  }

  /** Two objects (override keys unique): the merge throws only when a recursive merge of some key does. */
  lemma ObjectMergeThrows(base: Value, over: Value)
    requires base.Obj? && over.Obj? && UniqueKeys(over.fields)
    ensures DeepMerge(base, over).Ok? <==>
      forall k :: k in KeyList(over.fields) ==> KeyMerge(Lookup(base.fields, k), Lookup(over.fields, k)).Ok?
  {
    ObjectMergeUnfold(base, over);
    var steps := StepsFrom(base, over, 0);
    PutAllThrows(base.fields, KeyList(over.fields), steps);
    forall k | k in KeyList(over.fields)
      ensures exists j :: 0 <= j < |over.fields| && over.fields[j].key == k
    {
      var j :| 0 <= j < |over.fields| && KeyList(over.fields)[j] == k;
    }
  }

  /**
   * Two objects (override keys unique): a base key the override lacks keeps its value;
   * an override key takes the recursive merge when both values are `typeof 'object'`
   * and the override's value otherwise; the result's keys are those of both.
   */
  lemma ObjectMerge(base: Value, over: Value)
    requires base.Obj? && over.Obj? && UniqueKeys(over.fields)
    requires DeepMerge(base, over).Ok?
    ensures var r := DeepMerge(base, over).value;
      && r.Obj?
      && (forall k :: k in KeyList(r.fields) <==> k in KeyList(base.fields) || k in KeyList(over.fields))
      && (forall k :: k !in KeyList(over.fields) ==> Lookup(r.fields, k) == Lookup(base.fields, k))
      && (forall k :: k in KeyList(over.fields) ==>
            var m := KeyMerge(Lookup(base.fields, k), Lookup(over.fields, k));
            m.Ok? && Lookup(r.fields, k) == m.value)
      && (UniqueKeys(base.fields) ==> UniqueKeys(r.fields))
  {
    ObjectMergeKeys(base, over);
    ObjectMergeLookups(base, over);
  }

  lemma ObjectMergeKeys(base: Value, over: Value)
    requires base.Obj? && over.Obj? && UniqueKeys(over.fields)
    requires DeepMerge(base, over).Ok?
    ensures var r := DeepMerge(base, over).value;
      && r.Obj?
      && (forall k :: k in KeyList(r.fields) <==> k in KeyList(base.fields) || k in KeyList(over.fields))
      && (UniqueKeys(base.fields) ==> UniqueKeys(r.fields))
  {
    ObjectMergeUnfold(base, over);
    var steps := StepsFrom(base, over, 0);
    var keys := KeyList(over.fields);
    PutAllKeys(base.fields, keys, steps);
    if UniqueKeys(base.fields) {
      PutAllUnique(base.fields, keys, steps);
    }
  }

  lemma ObjectMergeLookups(base: Value, over: Value)
    requires base.Obj? && over.Obj? && UniqueKeys(over.fields)
    requires DeepMerge(base, over).Ok?
    ensures var r := DeepMerge(base, over).value;
      && r.Obj?
      && (forall k :: k !in KeyList(over.fields) ==> Lookup(r.fields, k) == Lookup(base.fields, k))
      && (forall k :: k in KeyList(over.fields) ==>
            var m := KeyMerge(Lookup(base.fields, k), Lookup(over.fields, k));
            m.Ok? && Lookup(r.fields, k) == m.value)
  {
    ObjectMergeUnfold(base, over);
    var steps := StepsFrom(base, over, 0);
    var keys := KeyList(over.fields);
    PutAllLookup(base.fields, keys, steps);
    forall k | k in keys
      ensures var m := KeyMerge(Lookup(base.fields, k), Lookup(over.fields, k));
        m.Ok? && Lookup(DeepMerge(base, over).value.fields, k) == m.value
    {
      var j :| 0 <= j < |keys| && keys[j] == k;
    }
  }

  /** A null in the base meeting a non-empty object in the override makes `deepMerge` throw (`null[key]`). */
  lemma NullBaseThrows(over: Value)
    requires over.Obj? && |over.fields| > 0
    ensures DeepMerge(Null, over) == Err(TypeError)
  {
    assert MergeField(Null, over, 0) == Err(TypeError);
    assert MergeFields(Null, over, [], 0) == Err(TypeError);
  }

  lemma {:induction false} LookupNullFree(fs: seq<Field>, k: string)
    requires forall i :: 0 <= i < |fs| ==> NullFree(fs[i].val)
    ensures NullFree(Lookup(fs, k))
  {
    if fs != [] && fs[0].key != k {
      LookupNullFree(fs[1..], k);
    }
  }

  /** A base without nulls never makes `deepMerge` throw, whatever the override. */
  lemma {:induction false} NullFreeNeverThrows(base: Value, over: Value)
    requires NullFree(base)
    ensures DeepMerge(base, over).Ok?
    decreases over, 1
  {
    if !Truthy(over) {
    } else if base.Arr? && over.Arr? {
      ElementsNeverThrow(base.items, over, 0);
    } else if IsObjectType(base) && IsObjectType(over) {
      FieldsNeverThrow(base, over, Spread(base), 0);
    }
  }

  lemma {:induction false} ElementsNeverThrow(bs: seq<Value>, over: Value, i: nat)
    requires over.Arr? && i <= |bs|
    requires forall j :: 0 <= j < |bs| ==> NullFree(bs[j])
    ensures MergeElements(bs, over, i).Ok?
    decreases over, 0, |bs| - i
  {
    if i < |bs| {
      if i < |over.items| && IsObjectType(bs[i]) && IsObjectType(over.items[i]) {
        NullFreeNeverThrows(bs[i], over.items[i]);
      }
      ElementsNeverThrow(bs, over, i + 1);
    }
  }

  lemma {:induction false} FieldsNeverThrow(base: Value, over: Value, acc: seq<Field>, i: nat)
    requires over.Arr? || over.Obj?
    requires IsObjectType(base) && NullFree(base)
    requires i <= KeyCount(over)
    ensures MergeFields(base, over, acc, i).Ok?
    decreases over, 0, KeyCount(over) - i + 1
  {
    if i == KeyCount(over) {
      MergeFieldsDone(base, over, acc);
    } else {
      var acc' := FieldStep(base, over, acc, i);
      FieldsNeverThrow(base, over, acc', i + 1);
    }
  }

  /** Past the last key the forEach has nothing left to write. */
  lemma MergeFieldsDone(base: Value, over: Value, acc: seq<Field>)
    requires over.Arr? || over.Obj?
    ensures MergeFields(base, over, acc, KeyCount(over)) == Ok(acc)
  {
  }

  /** The `i`-th key does not throw, so the forEach goes on to the next key with that key written. */
  lemma FieldStep(base: Value, over: Value, acc: seq<Field>, i: nat) returns (acc': seq<Field>)
    requires over.Arr? || over.Obj?
    requires IsObjectType(base) && NullFree(base)
    requires i < KeyCount(over)
    ensures MergeFields(base, over, acc, i) == MergeFields(base, over, acc', i + 1)
    decreases over, 0, 1
  {
    FieldNeverThrows(base, over, i);
    acc' := MergeFieldsStep(base, over, acc, i);
  }

  /** One key of the forEach that does not throw writes its value and goes on to the next key. */
  lemma MergeFieldsStep(base: Value, over: Value, acc: seq<Field>, i: nat) returns (acc': seq<Field>)
    requires over.Arr? || over.Obj?
    requires i < KeyCount(over) && MergeField(base, over, i).Ok?
    ensures acc' == Put(acc, KeyAt(over, i), MergeField(base, over, i).value)
    ensures MergeFields(base, over, acc, i) == MergeFields(base, over, acc', i + 1)
  {
    acc' := Put(acc, KeyAt(over, i), MergeField(base, over, i).value);
  }

  lemma FieldNeverThrows(base: Value, over: Value, i: nat)
    requires over.Arr? || over.Obj?
    requires IsObjectType(base) && NullFree(base)
    requires i < KeyCount(over)
    ensures MergeField(base, over, i).Ok?
    decreases over, 0, 0
  {
    var k := KeyAt(over, i);
    var bv := Prop(base, k).value;
    BasePropNullFree(base, k);
    if IsObjectType(bv) && IsObjectType(ValueAt(over, i)) {
      NullFreeNeverThrows(bv, if over.Obj? then over.fields[i].val else over.items[i]);
    }
  }

  /** Reading a key of a null-free object or array gives a null-free value. */
  lemma BasePropNullFree(base: Value, k: string)
    requires IsObjectType(base) && NullFree(base)
    ensures Prop(base, k).Ok? && NullFree(Prop(base, k).value)
  {
    if base.Obj? {
      LookupNullFree(base.fields, k);
    } else {
      assert base.Arr?;
      if k != "length" {
        var found := FindIndex(k, 0, |base.items|);
        assert found.Some? ==> Prop(base, k).value == base.items[found.value];
      }
    }
  }
}
