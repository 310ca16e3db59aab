/**
 * The loader itself (json-loader.js:64-82, 242-332, 351-555): the `window`
 * variables it publishes, the cached modules configuration and the published
 * `moveSourceMap` are the fields of a `Loader`; the network, the `file:`
 * protocol check and the page's query string are its fixed environment.
 *
 * Every fetch has a sequence number, and the loader counts the fetches it has
 * made, so that the same URL may answer differently at different times.  Each
 * method is specified by a function from the loader's state before the call to
 * the result and the state after it; the lemmas state what those functions keep.
 */
module JsonLoader {
  import opened JsValue
  import opened Paths
  import opened Transport
  import opened QueryParams
  import opened Translations
  import opened Availability
  import opened Moves

  /** The `window` variables the loader writes, by name. */
  type Store = map<string, Value>

  /** `window[name]`: undefined when never written. */
  function Window(store: Store, name: string): Value {
    if name in store then store[name] else Undefined
  }

  /** What the loader cannot change: the network, whether the page runs from `file:`, and the query string. */
  datatype Env = Env(net: Network, fileProtocol: bool, query: Query)

  /** The loader's state: the `window` store, the fetches made so far, the `modulesConfig` cache and `window.moveSourceMap`. */
  datatype World = World(store: Store, fetches: nat, modulesConfig: Value, moveSourceMap: Option<SourceMap>)

  /** What a call resolves with (or rejects with) and the state it leaves. */
  datatype Outcome = Outcome(result: Result<Value>, world: World)

  function Lang(env: Env): string {
    CurrentLanguage(env.query)
  }

  /** Spends `f`'s fetches. */
  function After(w: World, f: Fetched): World {
    w.(fetches := w.fetches + f.attempts)
  }

  // ---------------------------------------------------------------------------
  // loadJsonData (json-loader.js:270-290)

  /**
   * Under `file:` nothing is fetched.  Otherwise the file is fetched with retries;
   * a failure is rethrown, a response that is not ok (a 404) is an error of its
   * own, a body that is not JSON a syntax error.  Parsed data is published under
   * `variableName`; the log line then reads `data.length`, which throws for `null`.
   */
  function LoadJson(env: Env, w: World, filePath: string, variableName: string): Outcome {
    if env.fileProtocol then Outcome(Err(FileProtocol), w)
    else
      var f := Retry(env.net, filePath, w.fetches, 0, 3);
      var w' := After(w, f);
      match f.result
      case Err(e) => Outcome(Err(e), w')
      case Ok(response) =>
        if !IsOk(response) then Outcome(Err(LoadFailed(response.status)), w')
        else
          match response.body
          case None => Outcome(Err(SyntaxError), w')
          case Some(data) =>
            var w'' := w'.(store := w'.store[variableName := data]);
            if Prop(data, "length").Err? then Outcome(Err(TypeError), w'') else Outcome(Ok(data), w'')
  }

  /**
   * A load publishes at most the one variable and touches nothing else but the
   * fetch count; it succeeds exactly when the last fetch answered ok with a
   * non-null JSON body, and then the variable holds what it resolves with.  A
   * `null` body is published even though the load fails.
   */
  lemma LoadJsonFacts(env: Env, w: World, filePath: string, variableName: string)
    ensures var o := LoadJson(env, w, filePath, variableName);
      && o.world.modulesConfig == w.modulesConfig && o.world.moveSourceMap == w.moveSourceMap
      && o.world.fetches >= w.fetches
      && (forall k :: k != variableName ==> Window(o.world.store, k) == Window(w.store, k))
      && (o.world.store.Keys <= w.store.Keys + {variableName})
      && (env.fileProtocol ==> o == Outcome(Err(FileProtocol), w))
      && (o.result.Ok? <==>
            var f := Retry(env.net, filePath, w.fetches, 0, 3);
            !env.fileProtocol && f.result.Ok? && IsOk(f.result.value)
            && f.result.value.body.Some? && Defined(f.result.value.body.value))
      && (o.result.Ok? ==> Window(o.world.store, variableName) == o.result.value)
      && (o.result == Err(TypeError) ==> !Defined(Window(o.world.store, variableName)))
  {
  }

  // ---------------------------------------------------------------------------
  // loadJsonDataWithTranslations (json-loader.js:299-332)

  /**
   * What the translation fetch makes of the loaded `data`: nothing when the
   * fetch threw, answered not ok or did not parse, or when merging threw;
   * otherwise the merge by id when asked for and both are arrays, and the
   * translation data itself in every other case.
   */
  function TranslationStep(data: Value, mergeById: bool, fetched: Result<Response>): Option<Value> {
    match fetched
    case Err(_) => None
    case Ok(response) =>
      if !IsOk(response) || response.body.None? then None
      else
        var translationData := response.body.value;
        if mergeById && data.Arr? && translationData.Arr? then
          match MergeTranslations(data, translationData)
          case Ok(merged) => Some(merged)
          case Err(_) => None
        else Some(translationData)
  }

  function LoadTranslated(env: Env, w: World, filePath: string, variableName: string, mergeById: bool): Outcome {
    var base := LoadJson(env, w, filePath, variableName);
    if base.result.Err? || Lang(env) == "en" then base
    else
      var f := Retry(env.net, Localize(filePath, Lang(env)), base.world.fetches, 0, 3);
      var w' := After(base.world, f);
      match TranslationStep(base.result.value, mergeById, f.result)
      case None => Outcome(base.result, w')
      case Some(data) => Outcome(Ok(data), w'.(store := w'.store[variableName := data]))
  }

  /**
   * The base load's failure is the call's failure; for English nothing more is
   * fetched.  Otherwise a translation failure of any kind keeps the English data,
   * a merge by id gives the merged array (or the English data when the merge
   * throws) and keeps the base array's length, and a replacement returns the
   * translation as it is.  Whatever the call resolves with is what the variable
   * holds, and no other variable changes.
   */
  lemma LoadTranslatedFacts(env: Env, w: World, filePath: string, variableName: string, mergeById: bool)
    ensures var base := LoadJson(env, w, filePath, variableName);
      var o := LoadTranslated(env, w, filePath, variableName, mergeById);
      && (base.result.Err? ==> o == base)
      && (Lang(env) == "en" ==> o == base)
      && (o.result.Ok? ==> Window(o.world.store, variableName) == o.result.value)
      && (forall k :: k != variableName ==> Window(o.world.store, k) == Window(w.store, k))
      && o.world.modulesConfig == w.modulesConfig && o.world.moveSourceMap == w.moveSourceMap
      && (base.result.Ok? && Lang(env) != "en" ==>
            var f := Retry(env.net, Localize(filePath, Lang(env)), base.world.fetches, 0, 3);
            var data := base.result.value;
            && o.world.fetches == base.world.fetches + f.attempts
            && (f.result.Err? || !IsOk(f.result.value) || f.result.value.body.None? ==> o.result == Ok(data))
            && (f.result.Ok? && IsOk(f.result.value) && f.result.value.body.Some? ==>
                  var t := f.result.value.body.value;
                  && (mergeById && data.Arr? && t.Arr? ==>
                        var m := MergeTranslations(data, t);
                        o.result == (if m.Ok? then Ok(m.value) else Ok(data)))
                  && (mergeById && data.Arr? && t.Arr? && o.result.Ok? ==>
                        o.result.value.Arr? && |o.result.value.items| == |data.items|)
                  && (!(mergeById && data.Arr? && t.Arr?) ==> o.result == Ok(t))))
  {
    LoadJsonFacts(env, w, filePath, variableName);
    var base := LoadJson(env, w, filePath, variableName);
    if base.result.Ok? && Lang(env) != "en" {
      var f := Retry(env.net, Localize(filePath, Lang(env)), base.world.fetches, 0, 3);
      if f.result.Ok? && IsOk(f.result.value) && f.result.value.body.Some? {
        MergeTranslationsShape(base.result.value, f.result.value.body.value);
      }
    }
  }

  // ---------------------------------------------------------------------------
  // loadModulesConfig (json-loader.js:64-82)

  /** `{ modules: [] }`. */
  function EmptyConfig(): Value {
    Obj([Field("modules", Arr([]))])
  }

  /** `fetchWithTranslations(path)` from state `w`. */
  function FetchFrom(env: Env, w: World, path: string): Fetched {
    FetchTranslated(env.net, w.fetches, Lang(env), path)
  }

  /** The translated fetch when the localised attempt is final: a thrown fetch or an ok response. */
  lemma FetchFromLocalized(env: Env, w: World, path: string)
    requires Lang(env) != "en"
    requires var first := Retry(env.net, Localize(StripLocale(path), Lang(env)), w.fetches, 0, 3);
      first.result.Err? || IsOk(first.result.value)
    ensures FetchFrom(env, w, path) == Retry(env.net, Localize(StripLocale(path), Lang(env)), w.fetches, 0, 3)
  {
  }

  /** The translated fetch after a localised response that is not ok: the base path, after the first attempts. */
  lemma FetchFromBase(env: Env, w: World, path: string, attempts: nat)
    requires Lang(env) != "en"
    requires var first := Retry(env.net, Localize(StripLocale(path), Lang(env)), w.fetches, 0, 3);
      first.result.Ok? && !IsOk(first.result.value) && first.attempts == attempts
    ensures var second := Retry(env.net, StripLocale(path), w.fetches + attempts, 0, 3);
      FetchFrom(env, w, path).result == second.result
      && FetchFrom(env, w, path).attempts == attempts + second.attempts
  {
    FallbackFetched(env.net, w.fetches, Lang(env), path, attempts);
  }

  function ModulesConfig(env: Env, w: World): World {
    if Truthy(w.modulesConfig) then w
    else
      var f := FetchFrom(env, w, "data/modules.json");
      var config :=
        if f.result.Ok? && IsOk(f.result.value) && f.result.value.body.Some? then f.result.value.body.value
        else EmptyConfig();
      After(w, f).(modulesConfig := config)
  }

  /**
   * After a fetch of the configuration: its attempts are spent, and the cache holds
   * the fetched JSON, or `{modules: []}` when the fetch threw, was not ok or was not JSON.
   */
  ghost predicate ConfigFetched(env: Env, w: World, w': World) {
    var f := FetchFrom(env, w, "data/modules.json");
    var parsed := f.result.Ok? && IsOk(f.result.value) && f.result.value.body.Some?;
    && w'.fetches == w.fetches + f.attempts
    && (parsed ==> w'.modulesConfig == f.result.value.body.value)
    && (!parsed ==> w'.modulesConfig == EmptyConfig())
  }

  /**
   * A truthy cache is returned with no fetch; otherwise the configuration is
   * fetched, and whatever comes back (the fetched JSON, or `{modules: []}` when the
   * fetch failed in any way) becomes the cache.  A second call after a truthy
   * result fetches nothing and returns the same value; only a falsy JSON document
   * leaves the cache to be fetched again.
   */
  lemma ModulesConfigFacts(env: Env, w: World)
    ensures var w' := ModulesConfig(env, w);
      && (Truthy(w.modulesConfig) ==> w' == w)
      && w'.store == w.store && w'.moveSourceMap == w.moveSourceMap
      && (!Truthy(w.modulesConfig) ==> ConfigFetched(env, w, w'))
      && (!Truthy(w'.modulesConfig) ==>
            var f := FetchFrom(env, w, "data/modules.json");
            f.result.Ok? && IsOk(f.result.value) && f.result.value.body.Some?)
      && (Truthy(w'.modulesConfig) ==> ModulesConfig(env, w') == w')
  {
    if !Truthy(w.modulesConfig) {
      ModulesConfigFetch(env, w);
    }
  }

  /** A falsy cache is replaced by what the fetch gave. */
  lemma ModulesConfigFetch(env: Env, w: World)
    requires !Truthy(w.modulesConfig)
    ensures ConfigFetched(env, w, ModulesConfig(env, w))
  {
  }

  // ---------------------------------------------------------------------------
  // loadAvailabilityMap (json-loader.js:481-525)

  /** `modules.find(m => m.id === id)`: the first module with that id; reading `id` of a null or undefined entry before it throws. */
  function FindModule(modules: seq<Value>, id: string): (r: Result<Option<Value>>)
    ensures r.Ok? && r.value.Some? ==> r.value.value in modules && IdValue(r.value.value) == Str(id)
    ensures r.Ok? && r.value.None? ==> forall i :: 0 <= i < |modules| ==> Defined(modules[i]) && IdValue(modules[i]) != Str(id)
    ensures r.Err? ==> r.error == TypeError && exists i :: 0 <= i < |modules| && !Defined(modules[i])
  {
    if modules == [] then Ok(None)
    else if !Defined(modules[0]) then Err(TypeError)
    else if IdValue(modules[0]) == Str(id) then Ok(Some(modules[0]))
    else
      var r := FindModule(modules[1..], id);
      assert forall m :: m in modules[1..] ==> m in modules;
      r
  }

  /**
   * `find` stops at the first entry that is null or undefined (reading its `id`
   * throws) or that carries the id (the module found); when there is no such entry
   * nothing is found.  Entries after it play no part.
   */
  lemma {:induction false} FindModuleFirst(modules: seq<Value>, id: string) returns (i: nat)
    ensures i <= |modules|
    ensures forall j :: 0 <= j < i ==> Defined(modules[j]) && IdValue(modules[j]) != Str(id)
    ensures i == |modules| ==> FindModule(modules, id) == Ok(None)
    ensures i < |modules| && !Defined(modules[i]) ==> FindModule(modules, id) == Err(TypeError)
    ensures i < |modules| && Defined(modules[i]) ==>
      IdValue(modules[i]) == Str(id) && FindModule(modules, id) == Ok(Some(modules[i]))
    decreases |modules|
  {
    if modules == [] || !Defined(modules[0]) || IdValue(modules[0]) == Str(id) {
      i := 0;
    } else {
      var k := FindModuleFirst(modules[1..], id);
      i := k + 1;
      assert FindModule(modules, id) == FindModule(modules[1..], id);
      assert forall j :: 1 <= j <= k ==> modules[j] == modules[1..][j - 1];
    }
  }

  /** `${moduleInfo.path}/availability.json`. */
  function ModulePath(info: Value): string
    requires Defined(info)
  {
    ToJsString(Prop(info, "path").value) + "/availability.json"
  }

  /**
   * One module inside the `try`: a failed fetch, an answer that is not ok or a body
   * that is not JSON leaves `data` as it was. A merge that throws does not reassign
   * `data`, but the `_movesFiles` arrays it pushed into before the throw are `data`'s
   * own, so those pushes stay.
   */
  function ModuleStep(data: Value, fetched: Result<Response>): Value {
    match fetched
    case Err(_) => data
    case Ok(response) =>
      if !IsOk(response) || response.body.None? then data
      else
        match MergedAvailability(data, response.body.value)
        case Ok(merged) => merged
        case Err(_) => BaseAfterMerge(data, response.body.value)
  }

  /** The loop over the enabled module ids from `data` on; an unknown id is skipped and a throwing `find` ends it. */
  function MergeModules(env: Env, w: World, data: Value, modules: seq<Value>, ids: seq<string>): Outcome
    decreases ids
  {
    if ids == [] then Outcome(Ok(data), w)
    else
      match FindModule(modules, ids[0])
      case Err(e) => Outcome(Err(e), w)
      case Ok(found) =>
        if found.None? then MergeModules(env, w, data, modules, ids[1..])
        else
          var f := FetchFrom(env, w, ModulePath(found.value));
          MergeModules(env, After(w, f), ModuleStep(data, f.result), modules, ids[1..])
  }

  /**
   * The loop only spends fetches, and with no id naming a module it returns `data`
   * with no fetch at all.
   */
  lemma {:induction false} MergeModulesFacts(env: Env, w: World, data: Value, modules: seq<Value>, ids: seq<string>)
    ensures var o := MergeModules(env, w, data, modules, ids);
      && o.world == w.(fetches := o.world.fetches)
      && o.world.fetches >= w.fetches
      && (o.result.Err? ==> o.result.error == TypeError)
      && ((forall i :: 0 <= i < |ids| ==> FindModule(modules, ids[i]) == Ok(None)) ==> o == Outcome(Ok(data), w))
    decreases ids
  {
    if ids != [] {
      match FindModule(modules, ids[0])
      case Err(e) =>
      case Ok(found) =>
        if found.None? {
          MergeModulesFacts(env, w, data, modules, ids[1..]);
        } else {
          var f := FetchFrom(env, w, ModulePath(found.value));
          MergeModulesFacts(env, After(w, f), ModuleStep(data, f.result), modules, ids[1..]);
        }
    }
  }

  /**
   * A module changes the data only when its fetch answered ok with a JSON body. A
   * merge that succeeds gives the merged map; one that throws leaves `data`'s roles
   * grown at most in their `_movesFiles` lists, and the roles the module does not
   * name untouched.
   */
  lemma ModuleStepKeeps(data: Value, fetched: Result<Response>)
    ensures ModuleStep(data, fetched) != data ==>
      && fetched.Ok? && IsOk(fetched.value) && fetched.value.body.Some?
      && var moduleMap, step := fetched.value.body.value, ModuleStep(data, fetched);
      match MergedAvailability(data, moduleMap)
      case Ok(merged) => step == merged
      case Err(_) =>
        && data.Obj? && step.Obj?
        && (forall k :: RoleGrown(Lookup(data.fields, k), Lookup(step.fields, k)))
        && (forall k :: k !in KeyList(Spread(moduleMap)) ==> Lookup(step.fields, k) == Lookup(data.fields, k))
  {
    if fetched.Ok? && IsOk(fetched.value) && fetched.value.body.Some? {
      BaseAfterMergeGrown(data, fetched.value.body.value);
    }
  }

  function LoadAvailability(env: Env, w: World): Outcome {
    var base := LoadTranslated(env, w, "data/availability.json", "availableMap", false);
    if base.result.Err? then base
    else
      var ids := EnabledModules(env.query);
      if ids == [] then base
      else AvailabilityModules(env, base.world, base.result.value, ids)
  }

  /** The module half of `loadAvailabilityData`: the configuration is read and the enabled modules merged into `data`. */
  function AvailabilityModules(env: Env, w: World, data: Value, ids: seq<string>): Outcome {
    var w' := ModulesConfig(env, w);
    match Prop(w'.modulesConfig, "modules")
    case Err(_) => Outcome(Err(TypeError), w')
    case Ok(modules) =>
      if !Truthy(modules) || Prop(modules, "length") == Ok(Num(0)) then Outcome(Ok(data), w')
      else if !modules.Arr? then Outcome(Err(TypeError), w')   // `modules.find` is not a function
      else
        var m := MergeModules(env, w', data, modules.items, ids);
        if m.result.Err? then m
        else Outcome(m.result, m.world.(store := m.world.store["availableMap" := m.result.value]))
  }

  /**
   * With no module enabled the call is the plain translated load.  Whenever the
   * call resolves, `window.availableMap` holds the value it resolves with, and no
   * other variable changed.
   */
  lemma LoadAvailabilityFacts(env: Env, w: World)
    ensures var o := LoadAvailability(env, w);
      && (EnabledModules(env.query) == [] ==> o == LoadTranslated(env, w, "data/availability.json", "availableMap", false))
      && (o.result.Ok? ==> Window(o.world.store, "availableMap") == o.result.value)
      && (forall k :: k != "availableMap" ==> Window(o.world.store, k) == Window(w.store, k))
      && o.world.moveSourceMap == w.moveSourceMap
  {
    var base := LoadTranslated(env, w, "data/availability.json", "availableMap", false);
    LoadTranslatedFacts(env, w, "data/availability.json", "availableMap", false);
    if base.result.Ok? && EnabledModules(env.query) != [] {
      AvailabilityModulesFacts(env, base.world, base.result.value, EnabledModules(env.query));
    }
  }

  /** After the base availability is published, the module half keeps it published and touches no other variable. */
  lemma AvailabilityModulesFacts(env: Env, w: World, data: Value, ids: seq<string>)
    requires Window(w.store, "availableMap") == data
    ensures var o := AvailabilityModules(env, w, data, ids);
      && (o.result.Ok? ==> Window(o.world.store, "availableMap") == o.result.value)
      && (forall k :: k != "availableMap" ==> Window(o.world.store, k) == Window(w.store, k))
      && o.world.moveSourceMap == w.moveSourceMap
  {
    var w' := ModulesConfig(env, w);
    ModulesConfigFacts(env, w);
    match Prop(w'.modulesConfig, "modules")
    case Err(_) =>
    case Ok(modules) =>
      if modules.Arr? {
        MergeModulesFacts(env, w', data, modules.items, ids);
      }
  }

  // ---------------------------------------------------------------------------
  // loadAliasesData (json-loader.js:547-555)

  function LoadAliases(env: Env, w: World): Outcome {
    var o := LoadTranslated(env, w, "data/aliases.json", "aliasesConfig", false);
    if o.result.Ok? then o
    else Outcome(Ok(Arr([])), o.world.(store := o.world.store["aliasesConfig" := Arr([])]))
  }

  /** Loading the aliases never fails: on any error they become the empty list, and the variable holds what the call returns. */
  lemma LoadAliasesFacts(env: Env, w: World)
    ensures var o := LoadAliases(env, w);
      && o.result.Ok?
      && Window(o.world.store, "aliasesConfig") == o.result.value
      && (LoadTranslated(env, w, "data/aliases.json", "aliasesConfig", false).result.Err? ==> o.result == Ok(Arr([])))
  {
    LoadTranslatedFacts(env, w, "data/aliases.json", "aliasesConfig", false);
  }

  // ---------------------------------------------------------------------------
  // loadAllRoleMoves (json-loader.js:351-466)

  /**
   * `loadMultipleJsonData(roleConfigs)`: every task's file is loaded, in task
   * order; the call fails with the first failure among them.
   */
  function LoadAllFrom(env: Env, w: World, tasks: seq<Task>, failure: Option<Exception>): (Option<Exception>, World)
    decreases tasks
  {
    if tasks == [] then (failure, w)
    else
      var o := LoadJson(env, w, ToJsString(tasks[0].filePath), tasks[0].variableName);
      var failure' := if failure.None? && o.result.Err? then Some(o.result.error) else failure;
      LoadAllFrom(env, o.world, tasks[1..], failure')
  }

  /** A move file's translation: merged into `window[variableName]` when fetched, parsed and merged without a throw. */
  function MovesTranslation(baseMoves: Value, fetched: Result<Response>): Option<Value> {
    match fetched
    case Err(_) => None
    case Ok(response) =>
      if !IsOk(response) || response.body.None? then None
      else
        match MergeTranslations(baseMoves, response.body.value)
        case Ok(merged) => Some(merged)
        case Err(_) => None
  }

  /** The translation loop from `tasks[0]` on; `filePath.replace` on a path that is not a string throws outside the `try`. */
  function TranslateFrom(env: Env, w: World, tasks: seq<Task>): Outcome
    decreases tasks
  {
    if tasks == [] then Outcome(Ok(Undefined), w)
    else
      var config := tasks[0];
      if !config.filePath.Str? then Outcome(Err(TypeError), w)
      else
        var f := Retry(env.net, Localize(config.filePath.s, Lang(env)), w.fetches, 0, 3);
        var w' := After(w, f);
        var w'' :=
          match MovesTranslation(Window(w.store, config.variableName), f.result)
          case None => w'
          case Some(merged) => w'.(store := w'.store[config.variableName := merged]);
        TranslateFrom(env, w'', tasks[1..])
  }

  /** The combination and the publication of `window.moveSourceMap`. */
  function Publish(w: World, tasks: seq<Task>): Outcome {
    match Combine(w.store, tasks)
    case Err(e) => Outcome(Err(e), w)
    case Ok(c) => Outcome(Ok(Arr(c.moves)), w.(moveSourceMap := Some(c.sources)))
  }

  /** Everything after the plan: load, translate unless English, combine. */
  function LoadAndPublish(env: Env, w: World, tasks: seq<Task>): Outcome {
    var (failure, w1) := LoadAllFrom(env, w, tasks, None);
    if failure.Some? then Outcome(Err(failure.value), w1)
    else
      var tr := if Lang(env) != "en" then TranslateFrom(env, w1, tasks) else Outcome(Ok(Undefined), w1);
      if tr.result.Err? then tr else Publish(tr.world, tasks)
  }

  function LoadRoleMoves(env: Env, w: World): Outcome {
    var availableMap := Window(w.store, "availableMap");
    if !Truthy(availableMap) then Outcome(Err(MissingAvailableMap), w)
    else
      match Plan(Spread(availableMap))
      case Err(e) => Outcome(Err(e), w)
      case Ok(tasks) => if tasks == [] then Outcome(Ok(Undefined), w) else LoadAndPublish(env, w, tasks)
  }

  /** What a list the combination resolves with says about the store it read and the source map it published. */
  ghost predicate ListsMoves(o: Outcome, tasks: seq<Task>) {
    o.result.Ok? && o.result.value.Arr? ==>
      var t := Tagged(o.world.store, tasks);
      var ms := o.result.value.items;
      && |ms| == |t|
      && (forall i :: 0 <= i < |t| ==> Defined(t[i].0) && ms[i] == Normalize(t[i].0))
      && o.world.moveSourceMap.Some?
      && (forall id :: id in o.world.moveSourceMap.value <==> SourcesFor(t, id) != [])
      && (forall id :: id in o.world.moveSourceMap.value ==> o.world.moveSourceMap.value[id] == SourcesFor(t, id))
  }

  lemma PublishFacts(w: World, tasks: seq<Task>)
    ensures Publish(w, tasks).world.store == w.store
    ensures ListsMoves(Publish(w, tasks), tasks)
  {
    CombineFacts(w.store, tasks);
  }

  lemma LoadAndPublishFacts(env: Env, w: World, tasks: seq<Task>)
    ensures ListsMoves(LoadAndPublish(env, w, tasks), tasks)
  {
    var (failure, w1) := LoadAllFrom(env, w, tasks, None);
    var tr := if Lang(env) != "en" then TranslateFrom(env, w1, tasks) else Outcome(Ok(Undefined), w1);
    PublishFacts(tr.world, tasks);
  }

  /**
   * Without a published availability map the call fails and changes nothing; with
   * no move file named it resolves to undefined and changes nothing.  When it
   * resolves to a list, that list is every move of the loaded (and translated)
   * files, tasks in order, each normalised, and `window.moveSourceMap` gives each
   * id the `{file, role}` of every occurrence, in the same order; the tasks behind
   * it name each file once, each at its first candidate, in candidate order.
   */
  lemma LoadRoleMovesFacts(env: Env, w: World)
    ensures var o := LoadRoleMoves(env, w);
      && (!Truthy(Window(w.store, "availableMap")) ==> o == Outcome(Err(MissingAvailableMap), w))
      && (Truthy(Window(w.store, "availableMap")) && Plan(Spread(Window(w.store, "availableMap"))) == Ok([]) ==>
            o == Outcome(Ok(Undefined), w))
      && (o.result.Ok? && o.result.value.Arr? ==>
            var tasks := Plan(Spread(Window(w.store, "availableMap"))).value;
            && (forall i, j :: 0 <= i < j < |tasks| ==> tasks[i].filePath != tasks[j].filePath)
            && (exists idx :: FirstsInOrder(tasks, AllCandidates(Spread(Window(w.store, "availableMap"))), idx))
            && ListsMoves(o, tasks))
  {
    var availableMap := Window(w.store, "availableMap");
    if Truthy(availableMap) && Plan(Spread(availableMap)).Ok? {
      var tasks := Plan(Spread(availableMap)).value;
      var idx := PlanFacts(Spread(availableMap));
      if tasks != [] {
        LoadAndPublishFacts(env, w, tasks);
      }
    }
  }

  // ---------------------------------------------------------------------------
  // The loader object

  class Loader {
    const env: Env
    var store: Store
    var fetches: nat
    var modulesConfig: Value
    var moveSourceMap: Option<SourceMap>

    function State(): World
      reads this
    {
      World(store, fetches, modulesConfig, moveSourceMap)
    }

    /** A fresh page: nothing published, nothing fetched, `modulesConfig = null`. */
    constructor(env: Env)
      ensures this.env == env && State() == World(map[], 0, Null, None)
    {
      this.env := env;
      store := map[];
      fetches := 0;
      modulesConfig := Null;
      moveSourceMap := None;
    }

    /** `fetchWithRetry(url)` with the defaults (three retries). */
    method FetchRetrying(url: string) returns (r: Result<Response>)
      modifies this
      ensures var f := Retry(env.net, url, old(fetches), 0, 3);
        r == f.result && State() == After(old(State()), f)
    {
      var result, attempts, _ := FetchWithRetry(env.net, url, fetches, 0, 3);
      fetches := fetches + attempts;
      return result;
    }

    /** `fetchWithTranslations(path)` (json-loader.js:242-262). */
    method FetchWithTranslations(path: string) returns (r: Result<Response>)
      modifies this
      ensures var f := FetchFrom(env, old(State()), path);
        r == f.result && State() == After(old(State()), f)
    {
      var basePath := StripLocale(path);
      var currentLang := CurrentLanguage(env.query);
      if currentLang != "en" {
        ghost var w := State();
        var translatedPath := Localize(basePath, currentLang);
        var response := FetchRetrying(translatedPath);
        if response.Err? || IsOk(response.value) {
          FetchFromLocalized(env, w, path);
          return response;
        }
        FetchFromBase(env, w, path, fetches - w.fetches);
      }
      r := FetchRetrying(basePath);
    }

    /** `loadJsonData(filePath, variableName)`. */
    method LoadJsonData(filePath: string, variableName: string) returns (r: Result<Value>)
      modifies this
      ensures Outcome(r, State()) == LoadJson(env, old(State()), filePath, variableName)
    {
      if env.fileProtocol {
        return Err(FileProtocol);
      }
      var response := FetchRetrying(filePath);
      if response.Err? {
        return Err(response.error);
      }
      if !IsOk(response.value) {
        return Err(LoadFailed(response.value.status));
      }
      if response.value.body.None? {
        return Err(SyntaxError);
      }
      var data := response.value.body.value;
      store := store[variableName := data];
      if Prop(data, "length").Err? {
        return Err(TypeError);
      }
      return Ok(data);
    }

    /** `loadJsonDataWithTranslations(filePath, variableName, mergeById)`. */
    method LoadJsonDataWithTranslations(filePath: string, variableName: string, mergeById: bool) returns (r: Result<Value>)
      modifies this
      ensures Outcome(r, State()) == LoadTranslated(env, old(State()), filePath, variableName, mergeById)
    {
      r := LoadJsonData(filePath, variableName);
      if r.Err? {
        return;
      }
      var data := r.value;
      var currentLang := CurrentLanguage(env.query);
      if currentLang != "en" {
        var translationPath := Localize(filePath, currentLang);
        var response := FetchRetrying(translationPath);
        if response.Ok? && IsOk(response.value) && response.value.body.Some? {
          var translationData := response.value.body.value;
          if mergeById && data.Arr? && translationData.Arr? {
            var merged := MergeTranslations(data, translationData);
            if merged.Ok? {
              data := merged.value;
              store := store[variableName := data];
            }
          } else {
            data := translationData;
            store := store[variableName := data];
          }
        }
      }
      return Ok(data);
    }

    /** `loadModulesConfig()`: the cache, else a fetch whose outcome is cached. */
    method LoadModulesConfig() returns (config: Value)
      modifies this
      ensures State() == ModulesConfig(env, old(State()))
      ensures config == modulesConfig
    {
      if Truthy(modulesConfig) {
        return modulesConfig;
      }
      var response := FetchWithTranslations("data/modules.json");
      if response.Ok? && IsOk(response.value) && response.value.body.Some? {
        modulesConfig := response.value.body.value;
        return modulesConfig;
      }
      modulesConfig := EmptyConfig();
      return modulesConfig;
    }

    /** The `for (const moduleId of enabledModuleIds)` loop of `loadAvailabilityMap`. */
    method MergeEnabledModules(data: Value, modules: seq<Value>, ids: seq<string>) returns (r: Result<Value>)
      modifies this
      ensures Outcome(r, State()) == MergeModules(env, old(State()), data, modules, ids)
    {
      var merged := data;
      for k := 0 to |ids|
        invariant MergeModules(env, State(), merged, modules, ids[k..]) == MergeModules(env, old(State()), data, modules, ids)
      {
        assert ids[k..][0] == ids[k] && ids[k..][1..] == ids[k + 1..];
        var moduleInfo := FindModule(modules, ids[k]);
        if moduleInfo.Err? {
          return Err(moduleInfo.error);
        }
        if moduleInfo.value.Some? {
          var response := FetchWithTranslations(ModulePath(moduleInfo.value.value));
          if response.Ok? && IsOk(response.value) && response.value.body.Some? {
            var next, pushed := MergeModuleAvailability(merged, response.value.body.value);
            merged := if next.Ok? then next.value else pushed;
          }
        }
      }
      assert ids[|ids|..] == [];
      return Ok(merged);
    }

    /** `loadAvailabilityMap()`. */
    method LoadAvailabilityMap() returns (r: Result<Value>)
      modifies this
      ensures Outcome(r, State()) == LoadAvailability(env, old(State()))
    {
      r := LoadJsonDataWithTranslations("data/availability.json", "availableMap", false);
      if r.Err? {
        return;
      }
      var data := r.value;
      var enabledModuleIds := GetEnabledModules(env.query);
      if |enabledModuleIds| == 0 {
        return Ok(data);
      }
      var config := LoadModulesConfig();
      var modules := Prop(config, "modules");
      if modules.Err? {
        return Err(TypeError);
      }
      if !Truthy(modules.value) || Prop(modules.value, "length") == Ok(Num(0)) {
        return Ok(data);
      }
      if !modules.value.Arr? {
        return Err(TypeError);
      }
      r := MergeEnabledModules(data, modules.value.items, enabledModuleIds);
      if r.Ok? {
        store := store["availableMap" := r.value];
      }
    }

    /** `loadStatsData()`: merged by id. */
    method LoadStatsData() returns (r: Result<Value>)
      modifies this
      ensures Outcome(r, State()) == LoadTranslated(env, old(State()), "data/stats.json", "hexStats", true)
    {
      r := LoadJsonDataWithTranslations("data/stats.json", "hexStats", true);
    }

    /** `loadCategoriesData()`: replaced by the translation. */
    method LoadCategoriesData() returns (r: Result<Value>)
      modifies this
      ensures Outcome(r, State()) == LoadTranslated(env, old(State()), "data/categories.json", "categoriesConfig", false)
    {
      r := LoadJsonDataWithTranslations("data/categories.json", "categoriesConfig", false);
    }

    /** `loadTermsData()`: replaced by the translation. */
    method LoadTermsData() returns (r: Result<Value>)
      modifies this
      ensures Outcome(r, State()) == LoadTranslated(env, old(State()), "data/terms.json", "termsGlossary", false)
    {
      r := LoadJsonDataWithTranslations("data/terms.json", "termsGlossary", false);
    }

    /** `loadAliasesData()`. */
    method LoadAliasesData() returns (r: Value)
      modifies this
      ensures Outcome(Ok(r), State()) == LoadAliases(env, old(State()))
    {
      var loaded := LoadJsonDataWithTranslations("data/aliases.json", "aliasesConfig", false);
      if loaded.Ok? {
        return loaded.value;
      }
      store := store["aliasesConfig" := Arr([])];
      return Arr([]);
    }

    /** `loadMultipleJsonData(roleConfigs)`, one load after the other. */
    method LoadMultipleJsonData(tasks: seq<Task>) returns (failure: Option<Exception>)
      modifies this
      ensures (failure, State()) == LoadAllFrom(env, old(State()), tasks, None)
    {
      failure := None;
      for k := 0 to |tasks|
        invariant LoadAllFrom(env, State(), tasks[k..], failure) == LoadAllFrom(env, old(State()), tasks, None)
      {
        assert tasks[k..][0] == tasks[k] && tasks[k..][1..] == tasks[k + 1..];
        var loaded := LoadJsonData(ToJsString(tasks[k].filePath), tasks[k].variableName);
        if failure.None? && loaded.Err? {
          failure := Some(loaded.error);
        }
      }
      assert tasks[|tasks|..] == [];
    }

    /** The translation loop of `loadAllRoleMoves`. */
    method TranslateMoveFiles(tasks: seq<Task>) returns (r: Result<Value>)
      modifies this
      ensures Outcome(r, State()) == TranslateFrom(env, old(State()), tasks)
    {
      var currentLang := CurrentLanguage(env.query);
      for k := 0 to |tasks|
        invariant TranslateFrom(env, State(), tasks[k..]) == TranslateFrom(env, old(State()), tasks)
      {
        assert tasks[k..][0] == tasks[k] && tasks[k..][1..] == tasks[k + 1..];
        var config := tasks[k];
        if !config.filePath.Str? {
          return Err(TypeError);
        }
        var translationPath := Localize(config.filePath.s, currentLang);
        var baseMoves := Window(store, config.variableName);
        var response := FetchRetrying(translationPath);
        if response.Ok? && IsOk(response.value) && response.value.body.Some? {
          var merged := MergeTranslations(baseMoves, response.value.body.value);
          if merged.Ok? {
            store := store[config.variableName := merged.value];
          }
        }
      }
      assert tasks[|tasks|..] == [];
      return Ok(Undefined);
    }

    /** `loadAllRoleMoves()`: plan, load, translate, combine, publish `moveSourceMap`. */
    method LoadAllRoleMoves() returns (r: Result<Value>)
      modifies this
      ensures Outcome(r, State()) == LoadRoleMoves(env, old(State()))
    {
      var availableMap := Window(store, "availableMap");
      if !Truthy(availableMap) {
        return Err(MissingAvailableMap);
      }
      var roleConfigs := PlanTasks(Spread(availableMap));
      if roleConfigs.Err? {
        return Err(roleConfigs.error);
      }
      var tasks := roleConfigs.value;
      if |tasks| == 0 {
        return Ok(Undefined);
      }
      var failure := LoadMultipleJsonData(tasks);
      if failure.Some? {
        return Err(failure.value);
      }
      var currentLang := CurrentLanguage(env.query);
      if currentLang != "en" {
        r := TranslateMoveFiles(tasks);
        if r.Err? {
          return;
        }
      }
      var combined := CombineMoves(store, tasks);
      if combined.Err? {
        return Err(combined.error);
      }
      moveSourceMap := Some(combined.value.sources);
      return Ok(Arr(combined.value.moves));
    }
  }
}
