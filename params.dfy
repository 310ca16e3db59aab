/**
 * Locale and module selection from the page's query string (json-loader.js:16-58).
 * The query arrives as the (key, value) pairs `URLSearchParams` yields, already
 * percent-decoded, in the order they appear.
 */
module QueryParams {
  import opened JsValue
  import opened JsString

  type Query = seq<(string, string)>

  /** `params.get(key)`: the value of the first pair with that key, if any. */
  function Get(q: Query, key: string): (r: Option<string>)
    ensures r.Some? <==> exists i :: 0 <= i < |q| && q[i].0 == key
    ensures r.Some? ==> exists i :: 0 <= i < |q| && q[i] == (key, r.value) && forall j :: 0 <= j < i ==> q[j].0 != key
  {
    if q == [] then None
    else if q[0].0 == key then Some(q[0].1)
    else
      var r := Get(q[1..], key);
      assert forall i :: 1 <= i < |q| ==> q[1..][i - 1] == q[i];
      if r.Some? then
        assert exists i :: 0 <= i < |q| && q[i] == (key, r.value) && forall j :: 0 <= j < i ==> q[j].0 != key by {
          var i :| 0 <= i < |q[1..]| && q[1..][i] == (key, r.value) && forall j :: 0 <= j < i ==> q[1..][j].0 != key;
          assert forall j :: 0 <= j < i + 1 ==> q[j].0 != key by {
            forall j | 0 <= j < i + 1 ensures q[j].0 != key {
              if j > 0 { assert q[j] == q[1..][j - 1]; }
            }
          }
        }
        r
      else r
  }

  /** `getCurrentLanguage()` (json-loader.js:16-23): the `lang` parameter unless missing or empty, else "en". */
  function CurrentLanguage(q: Query): (lang: string)
    ensures lang != ""
    ensures lang == "en" || Get(q, "lang") == Some(lang)
    ensures Get(q, "lang").Some? && Get(q, "lang").value != "" ==> lang == Get(q, "lang").value
  {
    match Get(q, "lang")
    case Some(v) => if v != "" then v else "en"
    case None => "en"
  }

  // ---------------------------------------------------------------------------
  // Checkbox-style parameters (json-loader.js:37-44)

  const Prefix: string := "module_"

  /** The module id a `module_<id>=1` pair names, when it names one. */
  function CheckboxId(key: string, value: string): (r: Option<string>)
    ensures r.Some? <==> |key| > |Prefix| && key[..|Prefix|] == Prefix && value == "1"
    ensures r.Some? ==> key == Prefix + r.value && r.value != ""
  {
    if |key| >= |Prefix| && key[..|Prefix|] == Prefix && value == "1" && key[|Prefix|..] != "" then
      assert key == key[..|Prefix|] + key[|Prefix|..];
      Some(key[|Prefix|..])
    else None
  }

  /** The ids the checkbox parameters name, in parameter order (repeats kept). */
  function CheckboxIds(q: Query): (ids: seq<string>)
    ensures forall id :: id in ids <==> exists i :: 0 <= i < |q| && CheckboxId(q[i].0, q[i].1) == Some(id)
  {
    if q == [] then []
    else
      var rest := CheckboxIds(q[1..]);
      assert forall i :: 1 <= i < |q| ==> q[1..][i - 1] == q[i];
      (match CheckboxId(q[0].0, q[0].1)
       case Some(id) => [id]
       case None => []) + rest
  }

  // ---------------------------------------------------------------------------
  // The legacy `module=a,b,c` parameter (json-loader.js:47-55)

  /** `parts.map(id => id.trim()).filter(id => id)`. */
  function TrimmedTokens(parts: seq<string>): (ids: seq<string>)
    ensures forall id :: id in ids <==> id != "" && exists i :: 0 <= i < |parts| && Trim(parts[i]) == id
  {
    if parts == [] then []
    else
      var t := Trim(parts[0]);
      var rest := TrimmedTokens(parts[1..]);
      assert forall i :: 1 <= i < |parts| ==> parts[1..][i - 1] == parts[i];
      (if t != "" then [t] else []) + rest
  }

  /** The legacy ids: the trimmed, non-empty comma pieces of the first `module` parameter, when that is not empty. */
  function LegacyIds(q: Query): (ids: seq<string>)
    ensures forall id :: id in ids ==> id != "" && ',' !in id
    ensures Get(q, "module").None? || Get(q, "module").value == "" ==> ids == []
  {
    match Get(q, "module")
    case None => []
    case Some(v) =>
      if v == "" then []
      else
        var parts := Split(v, ',');
        forall i | 0 <= i < |parts| ensures ',' !in Trim(parts[i]) {
          TrimKeepsOut(parts[i], ',');
        }
        TrimmedTokens(parts)
  }

  // ---------------------------------------------------------------------------
  // The de-duplicating pushes

  /** `if (!list.includes(x)) list.push(x)`. */
  function PushNew(list: seq<string>, x: string): seq<string> {
    if x in list then list else list + [x]
  }

  /** The pushes for every element of `xs`, in order. */
  function PushAll(list: seq<string>, xs: seq<string>): seq<string>
    decreases xs
  {
    if xs == [] then list else PushAll(PushNew(list, xs[0]), xs[1..])
  }

  predicate NoDup(xs: seq<string>) {
    forall i, j :: 0 <= i < j < |xs| ==> xs[i] != xs[j]
  }

  /** The position of the first occurrence of `x` in `xs`. */
  function FirstIndex(xs: seq<string>, x: string): (k: nat)
    requires x in xs
    ensures k < |xs| && xs[k] == x && x !in xs[..k]
  {
    if xs[0] == x then 0
    else
      var k := FirstIndex(xs[1..], x);
      assert xs[..k + 1] == [xs[0]] + xs[1..][..k];
      k + 1
  }

  /** Pushing all of `xs` then all of `ys` is pushing all of `xs + ys`. */
  lemma {:induction false} PushAllAppend(list: seq<string>, xs: seq<string>, ys: seq<string>)
    ensures PushAll(PushAll(list, xs), ys) == PushAll(list, xs + ys)
    decreases xs
  {
    if xs == [] {
      assert xs + ys == ys;
    } else {
      var next := PushNew(list, xs[0]);
      PushAllAppend(next, xs[1..], ys);
      assert (xs + ys)[0] == xs[0];
      assert (xs + ys)[1..] == xs[1..] + ys;
      assert PushAll(list, xs + ys) == PushAll(next, xs[1..] + ys);
    }
  }

  /**
   * Pushing into an empty list keeps exactly the distinct elements of `xs`, each once,
   * ordered by where it first occurs in `xs`.
   */
  lemma {:induction false} PushAllDistinct(xs: seq<string>)
    ensures var r := PushAll([], xs);
      && NoDup(r)
      && (forall x :: x in r <==> x in xs)
      && (forall i, j :: 0 <= i < j < |r| ==> FirstIndex(xs, r[i]) < FirstIndex(xs, r[j]))
    decreases |xs|
  {
    if xs != [] {
      var n := |xs| - 1;
      var front := xs[..n];
      PushAllDistinct(front);
      PushAllAppend([], front, [xs[n]]);
      assert front + [xs[n]] == xs;
      var r0 := PushAll([], front);
      assert PushAll([], xs) == PushNew(r0, xs[n]);
      FirstIndexPrefix(xs, n);
      if xs[n] !in r0 {
        assert xs[n] !in front;
        FirstIndexUnique(xs, xs[n], n);
      }
    }
  }

  /** An element of a prefix first occurs where it first occurs in the prefix. */
  lemma FirstIndexPrefix(xs: seq<string>, n: nat)
    requires n <= |xs|
    ensures forall x :: x in xs[..n] ==> FirstIndex(xs, x) == FirstIndex(xs[..n], x) < n
  {
    forall x | x in xs[..n] ensures FirstIndex(xs, x) == FirstIndex(xs[..n], x) {
      var k := FirstIndex(xs[..n], x);
      assert xs[..k] == xs[..n][..k];
      FirstIndexUnique(xs, x, k);
    }
  }

  /** A position holding `x` with no `x` before it is the first index of `x`. */
  lemma FirstIndexUnique(xs: seq<string>, x: string, k: nat)
    requires k < |xs| && xs[k] == x && x !in xs[..k]
    ensures FirstIndex(xs, x) == k
  {
  }

  // ---------------------------------------------------------------------------
  // getEnabledModules (json-loader.js:32-58)

  /** Every id the query enables, in the order the source considers them. */
  function Candidates(q: Query): seq<string> {
    CheckboxIds(q) + LegacyIds(q)
  }

  /** The result of `getEnabledModules()`. */
  function EnabledModules(q: Query): seq<string> {
    PushAll([], Candidates(q))
  }

  /** Pushing `x` and then `rest` is the push of `[x] + rest`. */
  lemma PushAllCons(list: seq<string>, x: string, rest: seq<string>)
    ensures PushAll(list, [x] + rest) == PushAll(PushNew(list, x), rest)
  {
    assert ([x] + rest)[0] == x && ([x] + rest)[1..] == rest;
  }

  /** The pushes from the `j`-th element on: push that one, then the rest. */
  lemma PushAllStep(list: seq<string>, xs: seq<string>, j: nat)
    requires j < |xs|
    ensures PushAll(list, xs[j..]) == PushAll(PushNew(list, xs[j]), xs[j + 1..])
  {
    assert xs[j..] == [xs[j]] + xs[j + 1..];
    PushAllCons(list, xs[j], xs[j + 1..]);
  }

  /** One parameter's contribution to the checkbox ids. */
  lemma CheckboxIdsStep(q: Query, i: nat)
    requires i < |q|
    ensures CheckboxId(q[i].0, q[i].1).None? ==> CheckboxIds(q[i..]) == CheckboxIds(q[i + 1..])
    ensures CheckboxId(q[i].0, q[i].1).Some? ==> CheckboxIds(q[i..]) == [CheckboxId(q[i].0, q[i].1).value] + CheckboxIds(q[i + 1..])
  {
    assert q[i..][0] == q[i] && q[i..][1..] == q[i + 1..];
  }

  /** The first loop: the checkbox parameters, each id pushed unless already listed. */
  method PushCheckboxIds(q: Query) returns (enabled: seq<string>)
    ensures enabled == PushAll([], CheckboxIds(q))
  {
    enabled := [];
    var i := 0;
    while i < |q|
      invariant 0 <= i <= |q|
      invariant PushAll(enabled, CheckboxIds(q[i..])) == PushAll([], CheckboxIds(q))
    {
      CheckboxIdsStep(q, i);
      var id := CheckboxId(q[i].0, q[i].1);
      if id.Some? {
        PushAllCons(enabled, id.value, CheckboxIds(q[i + 1..]));
      }
      enabled := PushCheckbox(enabled, q[i].0, q[i].1);
      i := i + 1;
    }
    assert q[|q|..] == [];
  }

  /** One turn of the first loop: a checked `module_<id>` parameter pushes `<id>` unless already listed. */
  method PushCheckbox(enabled: seq<string>, key: string, value: string) returns (enabled': seq<string>)
    ensures CheckboxId(key, value).None? ==> enabled' == enabled
    ensures CheckboxId(key, value).Some? ==> enabled' == PushNew(enabled, CheckboxId(key, value).value)
  {
    enabled' := enabled;
    if |key| >= |Prefix| && key[..|Prefix|] == Prefix && value == "1" {
      var moduleId := key[|Prefix|..];
      if moduleId != "" && moduleId !in enabled {
        enabled' := enabled + [moduleId];
      }
    }
  }

  /** The `legacyModules.forEach`: each id pushed unless already listed. */
  method PushLegacyIds(enabled: seq<string>, legacy: seq<string>) returns (enabled': seq<string>)
    ensures enabled' == PushAll(enabled, legacy)
  {
    enabled' := enabled;
    var j := 0;
    while j < |legacy|
      invariant 0 <= j <= |legacy|
      invariant PushAll(enabled', legacy[j..]) == PushAll(enabled, legacy)
    {
      PushAllStep(enabled', legacy, j);
      if legacy[j] !in enabled' {
        enabled' := enabled' + [legacy[j]];
      }
      j := j + 1;
    }
    assert legacy[|legacy|..] == [];
  }

  /** The source's two loops, each pushing the ids not yet listed. */
  method GetEnabledModules(q: Query) returns (enabled: seq<string>)
    ensures enabled == EnabledModules(q)
  {
    enabled := PushCheckboxIds(q);
    enabled := PushLegacyIds(enabled, LegacyIds(q));
    PushAllAppend([], CheckboxIds(q), LegacyIds(q));
  }

  /**
   * `getEnabledModules()` lists no id twice; it lists exactly the checkbox ids and
   * the legacy ids; and each comes in the order of its first mention, checkbox
   * parameters first.
   */
  lemma EnabledModulesFacts(q: Query)
    ensures var r := EnabledModules(q);
      && NoDup(r)
      && (forall id :: id in r <==> id in CheckboxIds(q) || id in LegacyIds(q))
      && (forall i, j :: 0 <= i < j < |r| ==> FirstIndex(Candidates(q), r[i]) < FirstIndex(Candidates(q), r[j]))
      && (forall id :: id in r ==> id != "")
  {
    PushAllDistinct(Candidates(q));
  }

  /** The pieces of "baz,foo". */
  lemma SplitExample()
    ensures Split("baz,foo", ',') == ["baz", "foo"]
  {
    assert "" + ['f'] == "f";
    assert "f" + ['o'] == "fo";
    assert "fo" + ['o'] == "foo";
    assert SplitFrom("", ',', "foo") == ["foo"];
    assert SplitFrom("o", ',', "fo") == ["foo"];
    assert SplitFrom("oo", ',', "f") == ["foo"];
    assert SplitFrom("foo", ',', "") == ["foo"];
    assert "" + ['b'] == "b";
    assert "b" + ['a'] == "ba";
    assert "ba" + ['z'] == "baz";
    assert SplitFrom(",foo", ',', "baz") == ["baz", "foo"];
    assert SplitFrom("z,foo", ',', "ba") == ["baz", "foo"];
    assert SplitFrom("az,foo", ',', "b") == ["baz", "foo"];
  }

  /** The query of the example below. */
  function ExampleParams(): Query {
    [("module_foo", "1"), ("module_bar", "0"), ("module", "baz,foo")]
  }

  lemma ExampleCheckbox()
    ensures CheckboxIds(ExampleParams()) == ["foo"]
  {
    var q := ExampleParams();
    assert CheckboxId("module_foo", "1") == Some("foo") by {
      assert "module_foo"[..|Prefix|] == Prefix;
      assert "module_foo"[|Prefix|..] == "foo";
    }
    assert CheckboxId("module_bar", "0") == None;
    assert CheckboxId("module", "baz,foo") == None;
    CheckboxIdsStep(q, 2);
    assert q[3..] == [];
    CheckboxIdsStep(q, 1);
    CheckboxIdsStep(q, 0);
    assert q[0..] == q;
  }

  lemma ExampleLegacy()
    ensures LegacyIds(ExampleParams()) == ["baz", "foo"]
  {
    ExampleModuleParam();
    SplitExample();
    ExampleTrimmed();
  }

  lemma ExampleModuleParam()
    ensures Get(ExampleParams(), "module") == Some("baz,foo")
  {
    var q := ExampleParams();
    assert q[1..][1..][0].0 == "module";
  }

  lemma ExampleTrimmed()
    ensures TrimmedTokens(["baz", "foo"]) == ["baz", "foo"]
  {
    TrimUnspaced("foo");
    TrimUnspaced("baz");
    assert TrimmedTokens(["foo"]) == ["foo"];
    assert ["baz", "foo"][1..] == ["foo"];
  }

  /** Pushing `foo`, `baz`, `foo` into an empty list keeps `foo` then `baz`. */
  lemma ExamplePushes()
    ensures PushAll([], ["foo", "baz", "foo"]) == ["foo", "baz"]
  {
    PushAllCons([], "foo", ["baz", "foo"]);
    assert PushNew([], "foo") == ["foo"];
    PushAllCons(["foo"], "baz", ["foo"]);
    assert "baz" != "foo" by { assert "baz"[0] != "foo"[0]; }
    assert PushNew(["foo"], "baz") == ["foo", "baz"];
    PushAllCons(["foo", "baz"], "foo", []);
    assert PushNew(["foo", "baz"], "foo") == ["foo", "baz"];
  }

  /** `?module_foo=1&module_bar=0&module=baz,foo` enables `foo`, then `baz`. */
  lemma ExampleQuery()
    ensures EnabledModules(ExampleParams()) == ["foo", "baz"]
  {
    var q := ExampleParams();
    assert Candidates(q) == ["foo", "baz", "foo"] by {
      ExampleCheckbox();
      ExampleLegacy();
      assert ["foo"] + ["baz", "foo"] == ["foo", "baz", "foo"];
    }
    ExamplePushes();
  }
}
