/**
 * `mergeModuleAvailability` (json-loader.js:92-136): folds a module's availability
 * map into the base map role by role.  A role the base lacks or holds falsy is
 * inserted as the module wrote it; a role both have gets its move files and cards
 * combined and the module's other fields laid over the base's.
 *
 * The source pushes into the base role's own `_movesFiles` array (line 99 aliases
 * it).  `BaseAfterMerge` is the base map as those pushes leave it, whether the loop
 * returns or throws; `MergeModuleAvailability` hands it back beside its result.
 */
module Availability {
  import opened JsValue

  // ---------------------------------------------------------------------------
  // One role present on both sides (json-loader.js:99-125)

  /**
   * The role's list of extra move files (json-loader.js:99-107, 118): the prior
   * `_movesFiles` (or none), then the role's own `_movesFile` unless already listed,
   * then the module's `_movesFile` with no duplicate check.  A truthy `_movesFiles`
   * that is not an array is refused with a TypeError.
   */
  function MovesFiles(prior: Value, ownFile: Value, moduleFile: Value): (r: Result<seq<Value>>)
    ensures r.Err? <==> Truthy(prior) && !prior.Arr?
    ensures r.Ok? ==>
      var xs := if prior.Arr? then prior.items else [];
      var added := if Truthy(ownFile) && ownFile !in xs then 1 else 0;
      && |r.value| == |xs| + added + (if Truthy(moduleFile) then 1 else 0)
      && r.value[..|xs|] == xs
      && (Truthy(ownFile) && ownFile !in xs ==> r.value[|xs|] == ownFile)
      && (Truthy(ownFile) ==> ownFile in r.value)
      && (Truthy(moduleFile) ==> r.value[|r.value| - 1] == moduleFile)
      && (forall x :: x in r.value ==> x in xs || x == ownFile || x == moduleFile)
  {
    if Truthy(prior) && !prior.Arr? then Err(TypeError)
    else
      var xs := if prior.Arr? then prior.items else [];
      var withOwn := if Truthy(ownFile) && ownFile !in xs then xs + [ownFile] else xs;
      Ok(if Truthy(moduleFile) then withOwn + [moduleFile] else withOwn)
  }

  /** `ys.filter(c => !xs.includes(c))`. */
  function NotIn(ys: seq<Value>, xs: seq<Value>): (r: seq<Value>)
    ensures forall y :: y in r <==> y in ys && y !in xs
    ensures |r| <= |ys|
  {
    if ys == [] then []
    else (if ys[0] in xs then [] else [ys[0]]) + NotIn(ys[1..], xs)
  }

  /** The filter works element by element: filtering a concatenation filters each part, in order. */
  lemma {:induction false} NotInAppend(ys1: seq<Value>, ys2: seq<Value>, xs: seq<Value>)
    ensures NotIn(ys1 + ys2, xs) == NotIn(ys1, xs) + NotIn(ys2, xs)
    decreases |ys1|
  {
    if ys1 == [] {
      assert ys1 + ys2 == ys2;
    } else {
      var head := if ys1[0] in xs then [] else [ys1[0]];
      calc {
        NotIn(ys1 + ys2, xs);
        { assert (ys1 + ys2)[0] == ys1[0] && (ys1 + ys2)[1..] == ys1[1..] + ys2; }
        head + NotIn(ys1[1..] + ys2, xs);
        { NotInAppend(ys1[1..], ys2, xs); }
        head + (NotIn(ys1[1..], xs) + NotIn(ys2, xs));
        (head + NotIn(ys1[1..], xs)) + NotIn(ys2, xs);
      }
    }
  }

  /** One card is kept exactly when the existing list lacks it. */
  lemma NotInSingle(y: Value, xs: seq<Value>)
    ensures NotIn([y], xs) == if y in xs then [] else [y]
  {
    assert [y][1..] == [];
  }

  /** Repeats survive: a card the existing list lacks is kept as often as it occurs. */
  lemma {:induction false} NotInCount(ys: seq<Value>, xs: seq<Value>, y: Value)
    ensures multiset(NotIn(ys, xs))[y] == if y in xs then 0 else multiset(ys)[y]
    decreases |ys|
  {
    if ys != [] {
      NotInCons(ys, xs);
      NotInHeadCount(ys[0], xs, y);
      NotInCount(ys[1..], xs, y);
    }
  }

  /** The filter of a non-empty list, and the list, as multisets of their head and tail parts. */
  lemma NotInCons(ys: seq<Value>, xs: seq<Value>)
    requires ys != []
    ensures multiset(NotIn(ys, xs)) == multiset(NotIn([ys[0]], xs)) + multiset(NotIn(ys[1..], xs))
    ensures multiset(ys) == multiset([ys[0]]) + multiset(ys[1..])
  {
    NotInSingle(ys[0], xs);
    assert ys == [ys[0]] + ys[1..];
  }

  lemma NotInHeadCount(y0: Value, xs: seq<Value>, y: Value)
    ensures multiset(NotIn([y0], xs))[y] == if y in xs then 0 else multiset([y0])[y]
  {
    NotInSingle(y0, xs);
  }

  /**
   * The combined cards (json-loader.js:110-112): the existing cards, then the module
   * cards the existing list lacks.  A truthy non-array on either side is a TypeError.
   */
  function MergeCards(existingCards: Value, moduleCards: Value): (r: Result<seq<Value>>)
    ensures r.Err? <==> (Truthy(existingCards) && !existingCards.Arr?) || (Truthy(moduleCards) && !moduleCards.Arr?)
    ensures r.Ok? ==>
      var xs := if existingCards.Arr? then existingCards.items else [];
      var ys := if moduleCards.Arr? then moduleCards.items else [];
      && r.value == xs + NotIn(ys, xs)
      && |xs| <= |r.value|
      && r.value[..|xs|] == xs
      && (forall c :: c in r.value <==> c in xs || c in ys)
      && (forall k :: |xs| <= k < |r.value| ==> r.value[k] !in xs)
  {
    if (Truthy(existingCards) && !existingCards.Arr?) || (Truthy(moduleCards) && !moduleCards.Arr?) then Err(TypeError)
    else
      var xs := if existingCards.Arr? then existingCards.items else [];
      var ys := if moduleCards.Arr? then moduleCards.items else [];
      var r := xs + NotIn(ys, xs);
      assert forall k :: |xs| <= k < |r| ==> r[k] in NotIn(ys, xs);
      Ok(r)
  }

  /** An array that is written as `undefined` when empty (json-loader.js:118-119). */
  function ListOrUndefined(xs: seq<Value>): Value {
    if xs == [] then Undefined else Arr(xs)
  }

  /** The fields of `{...existing, ...roleData, _movesFiles, cards}` (json-loader.js:115-120). */
  function RoleFields(existing: seq<Field>, roleData: seq<Field>, files: seq<Value>, cards: seq<Value>): seq<Field> {
    var spread := Assign(Assign([], existing), roleData);
    Put(Put(spread, "_movesFiles", ListOrUndefined(files)), "cards", ListOrUndefined(cards))
  }

  /**
   * The new value of a role found in both maps.  `existing` is the truthy
   * `result[roleName]`, `baseRole` is `baseMap[roleName]`, read again at line 123.
   * Reading a property of a null `roleData` or `baseRole` throws.
   */
  function MergedRole(existing: Value, roleData: Value, baseRole: Value): (r: Result<Value>)
    requires Truthy(existing)
    ensures r.Ok? ==> r.value.Obj?
    ensures roleData.Null? ==> r.Err?
  {
    var prior := Prop(existing, "_movesFiles").value;
    var ownFile := Prop(existing, "_movesFile").value;
    match Prop(roleData, "_movesFile")
    case Err(e) => Err(e)
    case Ok(moduleFile) =>
      match MovesFiles(prior, ownFile, moduleFile)
      case Err(e) => Err(e)
      case Ok(files) =>
        match MergeCards(Prop(existing, "cards").value, Prop(roleData, "cards").value)
        case Err(e) => Err(e)
        case Ok(cards) =>
          match Prop(baseRole, "_movesFile")
          case Err(e) => Err(e)
          case Ok(baseFile) =>
            var fields := RoleFields(Spread(existing), Spread(roleData), files, cards);
            Ok(Obj(if Truthy(baseFile) then Put(fields, "_movesFile", baseFile) else fields))
  }

  /** The pieces a successful merge of one role is built from. */
  lemma MergedRoleUnfold(existing: Value, roleData: Value, baseRole: Value)
    requires Truthy(existing) && MergedRole(existing, roleData, baseRole).Ok?
    ensures !roleData.Undefined? && !roleData.Null? && !baseRole.Undefined? && !baseRole.Null?
    ensures
      var files := MovesFiles(Prop(existing, "_movesFiles").value, Prop(existing, "_movesFile").value, Prop(roleData, "_movesFile").value);
      var cards := MergeCards(Prop(existing, "cards").value, Prop(roleData, "cards").value);
      var baseFile := Prop(baseRole, "_movesFile").value;
      && files.Ok? && cards.Ok?
      && var fields := RoleFields(Spread(existing), Spread(roleData), files.value, cards.value);
      MergedRole(existing, roleData, baseRole).value.fields == if Truthy(baseFile) then Put(fields, "_movesFile", baseFile) else fields
  {
  }

  /** The role object built from its pieces, with `_movesFile` reset when `baseFile` is truthy. */
  function BuiltRole(existing: seq<Field>, roleData: seq<Field>, files: seq<Value>, cards: seq<Value>, baseFile: Value): seq<Field> {
    var fields := RoleFields(existing, roleData, files, cards);
    if Truthy(baseFile) then Put(fields, "_movesFile", baseFile) else fields
  }

  /** Reading one key of a role built from its pieces. */
  lemma BuiltRoleLookup(existing: seq<Field>, roleData: seq<Field>, files: seq<Value>, cards: seq<Value>, baseFile: Value, k: string)
    requires UniqueKeys(existing) && UniqueKeys(roleData)
    ensures var fs := BuiltRole(existing, roleData, files, cards, baseFile);
      && (k == "_movesFiles" ==> Lookup(fs, k) == ListOrUndefined(files))
      && (k == "cards" ==> Lookup(fs, k) == ListOrUndefined(cards))
      && (k == "_movesFile" && Truthy(baseFile) ==> Lookup(fs, k) == baseFile)
      && (k == "_movesFile" && !Truthy(baseFile) ==> Lookup(fs, k) == OverValue(existing, roleData, k))
      && (k != "_movesFiles" && k != "cards" && k != "_movesFile" ==> Lookup(fs, k) == OverValue(existing, roleData, k))
  {
    var spread := Assign(Assign([], existing), roleData);
    var withFiles := Put(spread, "_movesFiles", ListOrUndefined(files));
    var fields := Put(withFiles, "cards", ListOrUndefined(cards));
    AssignLookup(Assign([], existing), roleData, k);
    AssignLookupEmpty(existing, k);
    PutLookup(spread, "_movesFiles", ListOrUndefined(files), k);
    PutLookup(withFiles, "cards", ListOrUndefined(cards), k);
    PutLookup(fields, "_movesFile", baseFile, k);
  }

  /** The keys of a role built from its pieces. */
  lemma BuiltRoleKeys(existing: seq<Field>, roleData: seq<Field>, files: seq<Value>, cards: seq<Value>, baseFile: Value)
    ensures forall k :: k in KeyList(BuiltRole(existing, roleData, files, cards, baseFile)) <==>
      k in KeyList(existing) || k in KeyList(roleData) || k == "_movesFiles" || k == "cards"
      || (k == "_movesFile" && Truthy(baseFile))
  {
    var spread := Assign(Assign([], existing), roleData);
    var withFiles := Put(spread, "_movesFiles", ListOrUndefined(files));
    var fields := Put(withFiles, "cards", ListOrUndefined(cards));
    AssignKeys([], existing);
    AssignKeys(Assign([], existing), roleData);
    PutKeys(spread, "_movesFiles", ListOrUndefined(files));
    PutKeys(withFiles, "cards", ListOrUndefined(cards));
    PutKeys(fields, "_movesFile", baseFile);
  }

  /**
   * What a merged role holds.  `_movesFiles` and `cards` are the combined lists
   * (undefined when empty); `_movesFile` is the base role's whenever that is truthy;
   * every other field is the module's where it has one and the existing role's
   * otherwise; and the role has exactly the keys of both sides, the two lists, and
   * `_movesFile` when the base role has one.
   */
  lemma MergedRoleFields(existing: Value, roleData: Value, baseRole: Value)
    requires Truthy(existing) && MergedRole(existing, roleData, baseRole).Ok?
    requires UniqueKeys(Spread(existing)) && UniqueKeys(Spread(roleData))
    ensures !roleData.Undefined? && !roleData.Null? && !baseRole.Undefined? && !baseRole.Null?
    ensures
      var fs := MergedRole(existing, roleData, baseRole).value.fields;
      var files := MovesFiles(Prop(existing, "_movesFiles").value, Prop(existing, "_movesFile").value, Prop(roleData, "_movesFile").value);
      var cards := MergeCards(Prop(existing, "cards").value, Prop(roleData, "cards").value);
      var baseFile := Prop(baseRole, "_movesFile").value;
      && files.Ok? && cards.Ok?
      && Lookup(fs, "_movesFiles") == ListOrUndefined(files.value)
      && Lookup(fs, "cards") == ListOrUndefined(cards.value)
      && (Truthy(baseFile) ==> Lookup(fs, "_movesFile") == baseFile)
      && (!Truthy(baseFile) ==> Lookup(fs, "_movesFile") == OverValue(Spread(existing), Spread(roleData), "_movesFile"))
      && (forall k :: k != "_movesFiles" && k != "cards" && k != "_movesFile" ==> Lookup(fs, k) == OverValue(Spread(existing), Spread(roleData), k))
      && (forall k :: k in KeyList(fs) <==>
            k in KeyList(Spread(existing)) || k in KeyList(Spread(roleData)) || k == "_movesFiles" || k == "cards"
            || (k == "_movesFile" && Truthy(baseFile)))
  {
    MergedRoleUnfold(existing, roleData, baseRole);
    var files := MovesFiles(Prop(existing, "_movesFiles").value, Prop(existing, "_movesFile").value, Prop(roleData, "_movesFile").value).value;
    var cards := MergeCards(Prop(existing, "cards").value, Prop(roleData, "cards").value).value;
    var baseFile := Prop(baseRole, "_movesFile").value;
    var fs := MergedRole(existing, roleData, baseRole).value.fields;
    var es, rs := Spread(existing), Spread(roleData);
    assert fs == BuiltRole(es, rs, files, cards, baseFile);
    forall k ensures k != "_movesFiles" && k != "cards" && k != "_movesFile" ==> Lookup(fs, k) == OverValue(es, rs, k) {
      BuiltRoleLookup(es, rs, files, cards, baseFile, k);
    }
    BuiltRoleLookup(es, rs, files, cards, baseFile, "_movesFiles");
    BuiltRoleLookup(es, rs, files, cards, baseFile, "cards");
    BuiltRoleLookup(es, rs, files, cards, baseFile, "_movesFile");
    BuiltRoleKeys(es, rs, files, cards, baseFile);
  }

  /** A field of `{...existing, ...roleData}`: the module's when it has the key, else the existing role's. */
  function OverValue(existing: seq<Field>, roleData: seq<Field>, k: string): Value {
    if k in KeyList(roleData) then Lookup(roleData, k) else Lookup(existing, k)
  }

  /** Spreading onto an empty object reads like the spread fields (the first of a duplicated key is never shadowed by absence). */
  lemma {:induction false} AssignLookupEmpty(fs: seq<Field>, k: string)
    ensures k !in KeyList(fs) ==> Lookup(Assign([], fs), k) == Undefined
    ensures UniqueKeys(fs) ==> Lookup(Assign([], fs), k) == Lookup(fs, k)
  {
    AssignKeys([], fs);
    if UniqueKeys(fs) {
      AssignLookup([], fs, k);
    }
  }

  // ---------------------------------------------------------------------------
  // The loop over the module's roles (json-loader.js:93-135)

  /** The value `result[roleName]` takes for one module entry, given its current value. */
  function RoleValue(baseMap: Value, existing: Value, entry: Field): (r: Result<Value>)
    ensures !Truthy(existing) ==> r == Ok(entry.val)
    ensures Truthy(existing) && r.Ok? ==> r.value.Obj?
  {
    if !Truthy(existing) then Ok(entry.val)
    else
      match Prop(baseMap, entry.key)
      case Err(e) => Err(e)
      case Ok(baseRole) => MergedRole(existing, entry.val, baseRole)
  }

  /** One pass of the loop body: `result[roleName]` is reassigned. */
  function RoleStep(baseMap: Value, result: seq<Field>, entry: Field): Result<seq<Field>> {
    match RoleValue(baseMap, Lookup(result, entry.key), entry)
    case Err(e) => Err(e)
    case Ok(role) => Ok(Put(result, entry.key, role))
  }

  /** The loop over `entries` from the current `result` on; a throw ends it. */
  function MergeRoles(baseMap: Value, result: seq<Field>, entries: seq<Field>): Result<seq<Field>>
    decreases entries
  {
    if entries == [] then Ok(result)
    else
      match RoleStep(baseMap, result, entries[0])
      case Err(e) => Err(e)
      case Ok(next) => MergeRoles(baseMap, next, entries[1..])
  }

  /** `mergeModuleAvailability(baseMap, moduleMap)` as a value. */
  function MergedAvailability(baseMap: Value, moduleMap: Value): Result<Value> {
    match Entries(moduleMap)
    case Err(e) => Err(e)
    case Ok(entries) =>
      match MergeRoles(baseMap, Assign([], Spread(baseMap)), entries)
      case Err(e) => Err(e)
      case Ok(fields) => Ok(Obj(fields))
  }

  /** The source's loop, reassigning `result[roleName]` once per module role. */
  method MergeModuleAvailability(baseMap: Value, moduleMap: Value) returns (r: Result<Value>, baseAfter: Value)
    ensures r == MergedAvailability(baseMap, moduleMap)
    ensures baseAfter == BaseAfterMerge(baseMap, moduleMap)
    ensures moduleMap.Undefined? || moduleMap.Null? ==> r == Err(TypeError) && baseAfter == baseMap
  {
    var entries := Entries(moduleMap);
    if entries.Err? {
      return Err(entries.error), baseMap;
    }
    var rest := entries.value;
    var result := Assign([], Spread(baseMap));
    var data := if baseMap.Obj? then baseMap.fields else [];
    ghost var merged, left := MergeRoles(baseMap, result, rest), PushedRoles(baseMap, data, result, rest);
    while rest != []
      invariant MergeRoles(baseMap, result, rest) == merged
      invariant PushedRoles(baseMap, data, result, rest) == left
      decreases |rest|
    {
      var e := rest[0];
      data := PushedAt(data, result, e);
      var role := MergeRole(baseMap, Lookup(result, e.key), e);
      if role.Err? {
        return Err(role.error), if baseMap.Obj? then Obj(data) else baseMap;
      }
      result := Put(result, e.key, role.value);
      rest := rest[1..];
    }
    return Ok(Obj(result)), if baseMap.Obj? then Obj(data) else baseMap;
  }

  /** The body of the loop for one entry: the value `result[roleName]` is to take, or the throw. */
  method MergeRole(baseMap: Value, existing: Value, entry: Field) returns (role: Result<Value>)
    ensures role == RoleValue(baseMap, existing, entry)
  {
    if Truthy(existing) {
      var baseRole := Prop(baseMap, entry.key);
      if baseRole.Err? {
        return Err(baseRole.error);
      }
      role := MergedRole(existing, entry.val, baseRole.value);
    } else {
      role := Ok(entry.val);
    }
  }

  // ---------------------------------------------------------------------------
  // What the fold keeps and changes

  /** After the loop the keys are those of the starting map plus the module's roles. */
  lemma {:induction false} RolesKeys(baseMap: Value, result: seq<Field>, entries: seq<Field>)
    requires MergeRoles(baseMap, result, entries).Ok?
    ensures forall k :: k in KeyList(MergeRoles(baseMap, result, entries).value) <==> k in KeyList(result) || k in KeyList(entries)
    decreases entries
  {
    if entries != [] {
      var e := entries[0];
      var role := RoleValue(baseMap, Lookup(result, e.key), e).value;
      PutKeys(result, e.key, role);
      RolesKeys(baseMap, Put(result, e.key, role), entries[1..]);
      assert KeyList(entries) == [e.key] + KeyList(entries[1..]);
    }
  }

  /** The loop keeps the keys unique. */
  lemma {:induction false} RolesUnique(baseMap: Value, result: seq<Field>, entries: seq<Field>)
    requires MergeRoles(baseMap, result, entries).Ok? && UniqueKeys(result)
    ensures UniqueKeys(MergeRoles(baseMap, result, entries).value)
    decreases entries
  {
    if entries != [] {
      var e := entries[0];
      var role := RoleValue(baseMap, Lookup(result, e.key), e).value;
      PutKeys(result, e.key, role);
      RolesUnique(baseMap, Put(result, e.key, role), entries[1..]);
    }
  }

  /** A role the module does not mention keeps its value. */
  lemma {:induction false} RolesUntouched(baseMap: Value, result: seq<Field>, entries: seq<Field>, k: string)
    requires MergeRoles(baseMap, result, entries).Ok? && k !in KeyList(entries)
    ensures Lookup(MergeRoles(baseMap, result, entries).value, k) == Lookup(result, k)
    decreases entries
  {
    if entries != [] {
      var e := entries[0];
      var role := RoleValue(baseMap, Lookup(result, e.key), e).value;
      assert KeyList(entries) == [e.key] + KeyList(entries[1..]);
      PutLookup(result, e.key, role, k);
      RolesUntouched(baseMap, Put(result, e.key, role), entries[1..], k);
    }
  }

  /**
   * With the module's roles distinct, each role ends up with the value its one step
   * computes from the role's value in the starting map: the module's value verbatim
   * when that was falsy, the merged role otherwise.
   */
  lemma {:induction false} RolesEntry(baseMap: Value, result: seq<Field>, entries: seq<Field>, j: nat)
    requires UniqueKeys(entries) && j < |entries|
    requires MergeRoles(baseMap, result, entries).Ok?
    ensures var m := RoleValue(baseMap, Lookup(result, entries[j].key), entries[j]);
      m.Ok? && Lookup(MergeRoles(baseMap, result, entries).value, entries[j].key) == m.value
    decreases entries
  {
    var e := entries[0];
    var role := RoleValue(baseMap, Lookup(result, e.key), e).value;
    var next := Put(result, e.key, role);
    if j == 0 {
      assert e.key !in KeyList(entries[1..]) by {
        forall i | 0 <= i < |entries[1..]| ensures entries[1..][i].key != e.key {
          assert entries[1..][i] == entries[i + 1];
        }
      }
      RolesUntouched(baseMap, next, entries[1..], e.key);
      PutLookup(result, e.key, role, e.key);
    } else {
      assert entries[1..][j - 1] == entries[j];
      RolesEntry(baseMap, next, entries[1..], j - 1);
      PutLookup(result, e.key, role, entries[j].key);
    }
  }

  /** With distinct module roles, the loop throws exactly when one of its steps does. */
  lemma {:induction false} RolesThrow(baseMap: Value, result: seq<Field>, entries: seq<Field>)
    requires UniqueKeys(entries)
    ensures MergeRoles(baseMap, result, entries).Ok? <==>
      forall j :: 0 <= j < |entries| ==> RoleValue(baseMap, Lookup(result, entries[j].key), entries[j]).Ok?
    decreases entries
  {
    if entries != [] {
      var e := entries[0];
      var m := RoleValue(baseMap, Lookup(result, e.key), e);
      if m.Ok? {
        var next := Put(result, e.key, m.value);
        RolesThrow(baseMap, next, entries[1..]);
        forall j | 1 <= j < |entries|
          ensures Lookup(next, entries[j].key) == Lookup(result, entries[j].key)
          ensures entries[1..][j - 1] == entries[j]
        {
          PutLookup(result, e.key, m.value, entries[j].key);
        }
      }
    }
  }

  /**
   * The whole merge.  It throws on a null or undefined module map.  Otherwise, when
   * it succeeds: the result is an object whose roles are the base's plus the
   * module's; a role the module does not mention keeps the base's value; a module
   * role the base lacks (or has falsy) is the module's value verbatim; a role in both
   * is the merged role built from the base's.
   */
  lemma AvailabilityMerge(baseMap: Value, moduleMap: Value)
    requires UniqueKeys(Spread(baseMap)) && UniqueKeys(Spread(moduleMap))
    ensures moduleMap.Undefined? || moduleMap.Null? ==> MergedAvailability(baseMap, moduleMap) == Err(TypeError)
    ensures MergedAvailability(baseMap, moduleMap).Ok? ==>
      var fs := MergedAvailability(baseMap, moduleMap).value.fields;
      var base := Spread(baseMap);
      var roles := Spread(moduleMap);
      && UniqueKeys(fs)
      && (forall k :: k in KeyList(fs) <==> k in KeyList(base) || k in KeyList(roles))
      && (forall k :: k !in KeyList(roles) ==> Lookup(fs, k) == Lookup(base, k))
      && (forall j :: 0 <= j < |roles| && !Truthy(Lookup(base, roles[j].key)) ==> Lookup(fs, roles[j].key) == roles[j].val)
      && (forall j :: 0 <= j < |roles| && Truthy(Lookup(base, roles[j].key)) ==>
            var m := RoleValue(baseMap, Lookup(base, roles[j].key), roles[j]);
            m.Ok? && m.value.Obj? && Lookup(fs, roles[j].key) == m.value)
  {
    if MergedAvailability(baseMap, moduleMap).Ok? {
      MergedKeys(baseMap, moduleMap);
      MergedLookups(baseMap, moduleMap);
    }
  }

  /** The merged map has unique keys: those of the base and those of the module. */
  lemma MergedKeys(baseMap: Value, moduleMap: Value)
    requires UniqueKeys(Spread(baseMap)) && MergedAvailability(baseMap, moduleMap).Ok?
    ensures var fs := MergedAvailability(baseMap, moduleMap).value.fields;
      && UniqueKeys(fs)
      && (forall k :: k in KeyList(fs) <==> k in KeyList(Spread(baseMap)) || k in KeyList(Spread(moduleMap)))
  {
    var base := Spread(baseMap);
    var roles := Spread(moduleMap);
    var start := Assign([], base);
    assert MergedAvailability(baseMap, moduleMap).value.fields == MergeRoles(baseMap, start, roles).value;
    AssignKeys([], base);
    AssignUnique([], base);
    RolesKeys(baseMap, start, roles);
    RolesUnique(baseMap, start, roles);
  }

  /** What the merged map holds under each key. */
  lemma MergedLookups(baseMap: Value, moduleMap: Value)
    requires UniqueKeys(Spread(baseMap)) && UniqueKeys(Spread(moduleMap))
    requires MergedAvailability(baseMap, moduleMap).Ok?
    ensures var fs := MergedAvailability(baseMap, moduleMap).value.fields;
      var base := Spread(baseMap);
      var roles := Spread(moduleMap);
      && (forall k :: k !in KeyList(roles) ==> Lookup(fs, k) == Lookup(base, k))
      && (forall j :: 0 <= j < |roles| && !Truthy(Lookup(base, roles[j].key)) ==> Lookup(fs, roles[j].key) == roles[j].val)
      && (forall j :: 0 <= j < |roles| && Truthy(Lookup(base, roles[j].key)) ==>
            var m := RoleValue(baseMap, Lookup(base, roles[j].key), roles[j]);
            m.Ok? && m.value.Obj? && Lookup(fs, roles[j].key) == m.value)
  {
    var base := Spread(baseMap);
    var roles := Spread(moduleMap);
    var start := Assign([], base);
    assert MergedAvailability(baseMap, moduleMap).value.fields == MergeRoles(baseMap, start, roles).value;
    forall k ensures Lookup(start, k) == Lookup(base, k) {
      AssignLookupEmpty(base, k);
    }
    forall k | k !in KeyList(roles) ensures Lookup(MergeRoles(baseMap, start, roles).value, k) == Lookup(base, k) {
      RolesUntouched(baseMap, start, roles, k);
    }
    forall j | 0 <= j < |roles|
      ensures var m := RoleValue(baseMap, Lookup(start, roles[j].key), roles[j]);
        m.Ok? && Lookup(MergeRoles(baseMap, start, roles).value, roles[j].key) == m.value
    {
      RolesEntry(baseMap, start, roles, j);
    }
  }

  // ---------------------------------------------------------------------------
  // What a merge leaves in the map it was given (json-loader.js:99-106)

  /** A role whose `_movesFiles` is an array: `existingMovesFiles` is then that array itself. */
  predicate HoldsFileList(role: Value) {
    role.Obj? && Lookup(role.fields, "_movesFiles").Arr?
  }

  /**
   * A role of the map after lines 99-106 ran for it as far as they go: the push of
   * its own `_movesFile` and, when `roleData._movesFile` can be read, the push of
   * the module's stay in its `_movesFiles` array.  A role without such an array is
   * untouched: its list is a fresh array, or nothing was pushed before a throw.
   */
  function PushedRole(role: Value, roleData: Value): Value {
    if !HoldsFileList(role) then role
    else
      var list, own := Lookup(role.fields, "_movesFiles"), Lookup(role.fields, "_movesFile");
      var moduleFile := match Prop(roleData, "_movesFile") case Err(_) => Undefined case Ok(m) => m;
      Obj(Put(role.fields, "_movesFiles", Arr(MovesFiles(list, own, moduleFile).value)))
  }

  /** The pushes for module role `e`: only into a role `result` holds truthy, and only into an array. */
  function PushedAt(data: seq<Field>, result: seq<Field>, e: Field): seq<Field> {
    if Truthy(Lookup(result, e.key)) && HoldsFileList(Lookup(data, e.key)) then Put(data, e.key, PushedRole(Lookup(data, e.key), e.val))
    else data
  }

  /**
   * The map's roles (`data`) as the loop over `entries` leaves them, whether it runs
   * to the end or throws: every role merged, and the role it throws in, carry their
   * pushes. `result` is the loop's own object, which decides whether a role is merged.
   */
  function PushedRoles(baseMap: Value, data: seq<Field>, result: seq<Field>, entries: seq<Field>): seq<Field>
    decreases entries
  {
    if entries == [] then data
    else
      var e := entries[0];
      var pushed := PushedAt(data, result, e);
      match RoleValue(baseMap, Lookup(result, e.key), e)
      case Err(_) => pushed
      case Ok(role) => PushedRoles(baseMap, pushed, Put(result, e.key, role), entries[1..])
  }

  /**
   * `baseMap` after `mergeModuleAvailability(baseMap, moduleMap)` returned or threw:
   * `{ ...baseMap }` shares the role objects, so the pushes into their arrays show in it.
   */
  function BaseAfterMerge(baseMap: Value, moduleMap: Value): Value {
    match Entries(moduleMap)
    case Err(_) => baseMap
    case Ok(entries) =>
      if baseMap.Obj? then Obj(PushedRoles(baseMap, baseMap.fields, Assign([], Spread(baseMap)), entries))
      else baseMap
  }

  /** `after` is `before` with, at most, entries appended to its `_movesFiles` array. */
  ghost predicate RoleGrown(before: Value, after: Value) {
    before == after
    || (&& HoldsFileList(before) && HoldsFileList(after)
        && (forall k :: k != "_movesFiles" ==> Lookup(after.fields, k) == Lookup(before.fields, k))
        && var xs, ys := Lookup(before.fields, "_movesFiles").items, Lookup(after.fields, "_movesFiles").items;
        |xs| <= |ys| && ys[..|xs|] == xs)
  }

  /**
   * The pushes into one role: its other fields are kept and its list only grows,
   * its own `_movesFile` ends up listed, the module's readable stay comes last, and
   * a null or missing module role (which throws at line 105) adds at most one entry.
   */
  lemma PushedRoleFacts(role: Value, roleData: Value)
    requires HoldsFileList(role)
    ensures RoleGrown(role, PushedRole(role, roleData))
    ensures
      var xs := Lookup(role.fields, "_movesFiles").items;
      var ys := Lookup(PushedRole(role, roleData).fields, "_movesFiles").items;
      var own, moduleFile := Lookup(role.fields, "_movesFile"), Prop(roleData, "_movesFile");
      && (Truthy(own) ==> own in ys)
      && (moduleFile.Ok? && Truthy(moduleFile.value) ==> |ys| > 0 && ys[|ys| - 1] == moduleFile.value)
      && (moduleFile.Err? ==> |ys| <= |xs| + 1)
  {
    var moduleFile := match Prop(roleData, "_movesFile") case Err(_) => Undefined case Ok(m) => m;
    var files := Arr(MovesFiles(Lookup(role.fields, "_movesFiles"), Lookup(role.fields, "_movesFile"), moduleFile).value);
    assert PushedRole(role, roleData) == Obj(Put(role.fields, "_movesFiles", files));
    forall k ensures Lookup(Put(role.fields, "_movesFiles", files), k) == if k == "_movesFiles" then files else Lookup(role.fields, k) {
      PutLookup(role.fields, "_movesFiles", files, k);
    }
  }

  lemma RoleGrownTrans(a: Value, b: Value, c: Value)
    requires RoleGrown(a, b) && RoleGrown(b, c)
    ensures RoleGrown(a, c)
  {
    if a != b && b != c {
      var xs, ys, zs := Lookup(a.fields, "_movesFiles").items, Lookup(b.fields, "_movesFiles").items, Lookup(c.fields, "_movesFiles").items;
      assert zs[..|xs|] == zs[..|ys|][..|xs|];
    }
  }

  /**
   * The loop, up to its end or its throw, has only grown `_movesFiles` lists: every role keeps all its
   * other fields, and a role the module does not name is left as it was.
   */
  lemma {:induction false} PushedRolesGrown(baseMap: Value, data: seq<Field>, result: seq<Field>, entries: seq<Field>, k: string)
    ensures RoleGrown(Lookup(data, k), Lookup(PushedRoles(baseMap, data, result, entries), k))
    ensures k !in KeyList(entries) ==> Lookup(PushedRoles(baseMap, data, result, entries), k) == Lookup(data, k)
    decreases entries
  {
    if entries != [] {
      var e := entries[0];
      var existing := Lookup(result, e.key);
      var pushed := PushedAt(data, result, e);
      assert KeyList(entries) == [e.key] + KeyList(entries[1..]);
      if Truthy(existing) && HoldsFileList(Lookup(data, e.key)) {
        PutLookup(data, e.key, PushedRole(Lookup(data, e.key), e.val), k);
        if k == e.key {
          PushedRoleFacts(Lookup(data, e.key), e.val);
        }
      }
      assert RoleGrown(Lookup(data, k), Lookup(pushed, k));
      var role := RoleValue(baseMap, existing, e);
      if role.Ok? {
        PushedRolesGrown(baseMap, pushed, Put(result, e.key, role.value), entries[1..], k);
        RoleGrownTrans(Lookup(data, k), Lookup(pushed, k), Lookup(PushedRoles(baseMap, data, result, entries), k));
      }
    }
  }

  /** The map a merge leaves behind, whether it throws or not: roles grown only in their `_movesFiles`, roles the module does not name untouched. */
  lemma BaseAfterMergeGrown(baseMap: Value, moduleMap: Value)
    ensures var r := BaseAfterMerge(baseMap, moduleMap);
      && (!baseMap.Obj? ==> r == baseMap)
      && (baseMap.Obj? ==>
            && r.Obj?
            && (forall k :: RoleGrown(Lookup(baseMap.fields, k), Lookup(r.fields, k)))
            && (forall k :: k !in KeyList(Spread(moduleMap)) ==> Lookup(r.fields, k) == Lookup(baseMap.fields, k)))
  {
    if baseMap.Obj? && Entries(moduleMap).Ok? {
      var entries := Entries(moduleMap).value;
      var r := BaseAfterMerge(baseMap, moduleMap);
      forall k ensures
        && RoleGrown(Lookup(baseMap.fields, k), Lookup(r.fields, k))
        && (k !in KeyList(Spread(moduleMap)) ==> Lookup(r.fields, k) == Lookup(baseMap.fields, k))
      {
        PushedRolesGrown(baseMap, baseMap.fields, Assign([], Spread(baseMap)), entries, k);
      }
    }
  }
}
