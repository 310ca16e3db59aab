/**
 * `mergeTranslations` (json-loader.js:175-193): lays translation entries over base
 * entries with the same `id`.  The `translationMap` is filled by a forEach (a loop
 * here, `BuildTranslationMap`); the `baseData.map` step is a function.
 */
module Translations {
  import opened JsValue
  import opened MergeEngine

  /** `translationMap`, keyed by the id value itself, from item id to item. */
  type Index = map<Value, Value>

  /** One forEach step (json-loader.js:182-186): `item.id` throws on a null item; only truthy ids are recorded. */
  function IndexStep(index: Index, item: Value): Result<Index> {
    match Prop(item, "id")
    case Err(e) => Err(e)
    case Ok(id) => Ok(if Truthy(id) then index[id := item] else index)
  }

  /** The map after the forEach over all of `items`, in order. */
  function TranslationIndex(items: seq<Value>): Result<Index>
  {
    if items == [] then Ok(map[])
    else
      match TranslationIndex(items[..|items| - 1])
      case Err(e) => Err(e)
      case Ok(index) => IndexStep(index, items[|items| - 1])
  }

  /** The forEach of json-loader.js:181-186, as the loop it is. */
  method BuildTranslationMap(items: seq<Value>) returns (r: Result<Index>)
    ensures r == TranslationIndex(items)
  {
    var index: Index := map[];
    var i := 0;
    while i < |items|
      invariant 0 <= i <= |items|
      invariant TranslationIndex(items[..i]) == Ok(index)
    {
      assert items[..i + 1][..i] == items[..i];
      var id := Prop(items[i], "id");
      if id.Err? {
        r := Err(id.error);
        PrefixErrSticks(items, i + 1);
        return;
      }
      if Truthy(id.value) {
        index := index[id.value := items[i]];
      }
      i := i + 1;
    }
    assert items[..i] == items;
    r := Ok(index);
  }

  /** Once a prefix of the forEach throws, the whole forEach throws with the same error. */
  lemma {:induction false} PrefixErrSticks(items: seq<Value>, n: nat)
    requires n <= |items| && TranslationIndex(items[..n]).Err?
    ensures TranslationIndex(items) == TranslationIndex(items[..n])
    decreases |items| - n
  {
    if n < |items| {
      assert items[..n + 1][..n] == items[..n];
      PrefixErrSticks(items, n + 1);
    } else {
      assert items[..n] == items;
    }
  }

  /** The forEach throws exactly when some item is null or undefined. */
  lemma {:induction false} IndexThrows(items: seq<Value>)
    ensures TranslationIndex(items).Ok? <==> forall j :: 0 <= j < |items| ==> !items[j].Undefined? && !items[j].Null?
  {
    if items != [] {
      var n := |items| - 1;
      IndexThrows(items[..n]);
      assert forall j :: 0 <= j < n ==> items[..n][j] == items[j];
    }
  }

  /** One successful step records the item under its id when that id is truthy. */
  lemma StepOk(items: seq<Value>)
    requires items != [] && TranslationIndex(items).Ok?
    ensures var n := |items| - 1;
      var item := items[n];
      && TranslationIndex(items[..n]).Ok?
      && TranslationIndex(items).value ==
         (if Truthy(IdValue(item)) then TranslationIndex(items[..n]).value[IdValue(item) := item]
          else TranslationIndex(items[..n]).value)
  {
  }

  /** Every id in the map is the truthy id of some item. */
  lemma {:induction false} IndexKeyFrom(items: seq<Value>, id: Value) returns (j: nat)
    requires TranslationIndex(items).Ok? && id in TranslationIndex(items).value
    ensures Truthy(id) && j < |items| && IdValue(items[j]) == id
  {
    var n := |items| - 1;
    var prefix := items[..n];
    StepOk(items);
    var idn := IdValue(items[n]);
    if Truthy(idn) && id == idn {
      j := n;
    } else {
      j := IndexKeyFrom(prefix, id);
      assert items[j] == prefix[j];
    }
  }

  /** Every item's truthy id is in the map. */
  lemma {:induction false} IndexHasKey(items: seq<Value>, j: nat)
    requires TranslationIndex(items).Ok? && j < |items| && Truthy(IdValue(items[j]))
    ensures IdValue(items[j]) in TranslationIndex(items).value
  {
    var n := |items| - 1;
    var prefix := items[..n];
    StepOk(items);
    if j < n {
      assert prefix[j] == items[j];
      IndexHasKey(prefix, j);
    }
  }

  /** An id is in the map exactly when it is the truthy id of some item. */
  lemma IndexDomain(items: seq<Value>)
    requires TranslationIndex(items).Ok?
    ensures forall id :: id in TranslationIndex(items).value <==>
      Truthy(id) && exists j :: 0 <= j < |items| && IdValue(items[j]) == id
  {
    forall id
      ensures id in TranslationIndex(items).value <==>
        Truthy(id) && exists j :: 0 <= j < |items| && IdValue(items[j]) == id
    {
      if id in TranslationIndex(items).value {
        var j := IndexKeyFrom(items, id);
      }
      if Truthy(id) && exists j :: 0 <= j < |items| && IdValue(items[j]) == id {
        var j :| 0 <= j < |items| && IdValue(items[j]) == id;
        IndexHasKey(items, j);
      }
    }
  }

  /** The item at index `j` carries `id` and no later item does. */
  predicate LastWithId(items: seq<Value>, id: Value, j: int) {
    0 <= j < |items| && IdValue(items[j]) == id && forall j' :: j < j' < |items| ==> IdValue(items[j']) != id
  }

  /** The last carrier of `id` in a prefix stays the last one when the next item carries another id. */
  lemma LastWithIdExtend(items: seq<Value>, id: Value, j: nat)
    requires items != [] && LastWithId(items[..|items| - 1], id, j)
    requires IdValue(items[|items| - 1]) != id
    ensures LastWithId(items, id, j)
  {
    var n := |items| - 1;
    forall j' | j < j' < |items| ensures IdValue(items[j']) != id {
      if j' < n {
        assert items[j'] == items[..n][j'];
      }
    }
  }

  /** For a duplicated id the last entry wins: the map holds the last item carrying `id`. */
  lemma {:induction false} IndexLastWinsAt(items: seq<Value>, id: Value) returns (j: nat)
    requires TranslationIndex(items).Ok? && id in TranslationIndex(items).value
    ensures LastWithId(items, id, j) && TranslationIndex(items).value[id] == items[j]
  {
    var n := |items| - 1;
    StepOk(items);
    var carrier := IndexKeyFrom(items, id);
    var idn := IdValue(items[n]);
    if Truthy(idn) && id == idn {
      j := n;
    } else {
      var prefix := items[..n];
      assert id != idn;
      j := IndexLastWinsAt(prefix, id);
      assert items[j] == prefix[j];
      LastWithIdExtend(items, id, j);
    }
  }

  /** The same, for every id in the map at once. */
  lemma IndexLastWins(items: seq<Value>)
    requires TranslationIndex(items).Ok?
    ensures forall id :: id in TranslationIndex(items).value ==>
      exists j :: LastWithId(items, id, j) && TranslationIndex(items).value[id] == items[j]
  {
    forall id | id in TranslationIndex(items).value
      ensures exists j :: LastWithId(items, id, j) && TranslationIndex(items).value[id] == items[j]
    {
      var j := IndexLastWinsAt(items, id);
    }
  }

  /** `array.map(f)` where a throwing callback aborts the map. */
  function MapAll(items: seq<Value>, f: Value -> Result<Value>): Result<seq<Value>>
  {
    if items == [] then Ok([])
    else
      match f(items[0])
      case Err(e) => Err(e)
      case Ok(h) =>
        match MapAll(items[1..], f)
        case Err(e) => Err(e)
        case Ok(t) => Ok([h] + t)
  }

  /** The map throws exactly when a callback does; otherwise it keeps length and order. */
  lemma {:induction false} MapAllFacts(items: seq<Value>, f: Value -> Result<Value>)
    ensures MapAll(items, f).Ok? <==> forall j :: 0 <= j < |items| ==> f(items[j]).Ok?
    ensures MapAll(items, f).Ok? ==>
      |MapAll(items, f).value| == |items| &&
      forall j :: 0 <= j < |items| ==> MapAll(items, f).value[j] == f(items[j]).value
  {
    if items != [] {
      MapAllFacts(items[1..], f);
      assert forall j :: 1 <= j < |items| ==> items[1..][j - 1] == items[j];
      if f(items[0]).Ok? && MapAll(items[1..], f).Err? {
        var j :| 0 <= j < |items| - 1 && !f(items[1..][j]).Ok?;
        assert !f(items[j + 1]).Ok?;
      }
    }
  }

  /** The callback of `baseData.map(...)` (json-loader.js:189-192). */
  function TranslateItem(index: Index, item: Value): Result<Value> {
    match Prop(item, "id")
    case Err(e) => Err(e)
    case Ok(id) =>
      if id in index && Truthy(index[id]) then DeepMerge(item, index[id]) else Ok(item)
  }

  function MergeTranslations(baseData: Value, translationData: Value): Result<Value> {
    if !Truthy(translationData) || !translationData.Arr? then Ok(baseData)
    else
      match TranslationIndex(translationData.items)
      case Err(e) => Err(e)
      case Ok(index) =>
        if !baseData.Arr? then Err(TypeError)   // `baseData.map` is not a function
        else
          match MapAll(baseData.items, item => TranslateItem(index, item))
          case Err(e) => Err(e)
          case Ok(items) => Ok(Arr(items))
  }

  /**
   * Missing or non-array translation data returns the base as it is.  Otherwise the
   * result keeps the base's length and order; an item whose id has a translation entry
   * (the last one with that id) becomes `deepMerge(item, entry)`, and every other item
   * passes through unchanged, so translation-only ids never reach the result.
   */
  lemma MergeTranslationsShape(baseData: Value, translationData: Value)
    ensures !Truthy(translationData) || !translationData.Arr? ==> MergeTranslations(baseData, translationData) == Ok(baseData)
    ensures translationData.Arr? && MergeTranslations(baseData, translationData).Ok? ==>
      var index := TranslationIndex(translationData.items).value;
      var r := MergeTranslations(baseData, translationData).value;
      && TranslationIndex(translationData.items).Ok?
      && baseData.Arr? && r.Arr? && |r.items| == |baseData.items|
      && forall j :: 0 <= j < |baseData.items| ==>
           var item := baseData.items[j];
           && !item.Undefined? && !item.Null?
           && (IdValue(item) in index ==>
                 var m := DeepMerge(item, index[IdValue(item)]);
                 m.Ok? && r.items[j] == m.value)
           && (IdValue(item) !in index ==> r.items[j] == item)
  {
    if translationData.Arr? && TranslationIndex(translationData.items).Ok? && baseData.Arr? {
      var index := TranslationIndex(translationData.items).value;
      var f := item => TranslateItem(index, item);
      MapAllFacts(baseData.items, f);
      IndexValuesTruthy(translationData.items);
    }
  }

  /** Every entry of the index is a translation item that was truthy. */
  lemma IndexValuesTruthy(items: seq<Value>)
    requires TranslationIndex(items).Ok?
    ensures forall id :: id in TranslationIndex(items).value ==> Truthy(TranslationIndex(items).value[id])
  {
    var index := TranslationIndex(items).value;
    IndexDomain(items);
    IndexLastWins(items);
    forall id | id in index ensures Truthy(index[id]) {
      var j :| LastWithId(items, id, j) && index[id] == items[j];
      assert Truthy(id);
    }
  }

  /** With no translation entries for any base id, the base comes back as it is. */
  lemma NoMatchingIds(baseData: Value, translationData: Value)
    requires baseData.Arr? && translationData.Arr?
    requires TranslationIndex(translationData.items).Ok?
    requires forall j :: 0 <= j < |baseData.items| ==>
      !baseData.items[j].Undefined? && !baseData.items[j].Null? &&
      IdValue(baseData.items[j]) !in TranslationIndex(translationData.items).value
    ensures MergeTranslations(baseData, translationData) == Ok(baseData)
  {
    var index := TranslationIndex(translationData.items).value;
    var f := item => TranslateItem(index, item);
    MapAllFacts(baseData.items, f);
    assert MapAll(baseData.items, f).value == baseData.items;
  }
}
