# JsonLoader — a verified model of the data-loading and merge pipeline

`json-loader.js` is the browser-side loader of a game-reference page. It reads
the language and the enabled optional modules from the query string. It fetches
JSON files with retries and a per-language fallback, and lays translations over
base data by id. It folds each enabled module's availability map into the base
map. Finally it plans, loads and combines the per-role move files into one list,
along with the `moveSourceMap` that says which file and role every move came from.

This project models that pipeline in Dafny:

| file | module | what it holds |
|---|---|---|
| `js_value.dfy` | `JsValue` | JSON values as JavaScript sees them (`undefined`, `null`, booleans, integers, strings, arrays, ordered objects), truthiness, `typeof`, property reads that throw, spreads and `Object.assign`, throws as `Result` |
| `js_string.dfy` | `JsString` | `split` on one character, `join`, `trim` |
| `params.dfy` | `QueryParams` | `getCurrentLanguage`, `getEnabledModules` |
| `paths.dfy` | `Paths` | the locale strip and the `data/<lang>/` substitution, with `String.prototype.replace`'s `$` patterns |
| `transport.dfy` | `Transport` | `fetchWithRetry` and `fetchWithTranslations` over an abstract network |
| `deep_merge.dfy` | `MergeEngine`, `MergeEngineFacts` | `deepMerge` and what it keeps for each shape of operands |
| `translations.dfy` | `Translations` | `mergeTranslations`: the id index (a loop) and the `baseData.map` step |
| `availability.dfy` | `Availability` | `mergeModuleAvailability`: the loop over module roles and the merge of one role |
| `moves.dfy` | `Moves` | the two pure halves of `loadAllRoleMoves`: the task plan with its `loadedPaths` set, and the combination into `allMoves` and `moveSourceMap` |
| `loader.dfy` | `JsonLoader` | the loader as a class: the `window` variables it publishes, the fetch count, the `modulesConfig` cache and `window.moveSourceMap` are its fields; every public load is a method |

The network is a function from a URL and a fetch's sequence number to an
outcome: a response (status, and the body's JSON value when it parses) or a
rejection. Each loader method is specified by a function from the state before
the call to what the call resolves or rejects with and the state after it. The
lemmas state what those functions keep. Where the source loops or pushes, the
model is a method whose loop is proved equal to its specification function:
`GetEnabledModules`, `BuildTranslationMap`, `MergeModuleAvailability`,
`PlanTasks`, `CombineMoves` and the `Loader` methods. `FetchWithRetry` is a
recursive method, as the source's function is.

## Model

| member | source | states |
|---|---|---|
| `QueryParams.Get` | json-loader.js:19 | `params.get(key)` is present exactly when some pair has the key, and is then the value of the first such pair |
| `QueryParams.CurrentLanguage` | json-loader.js:16-23 | the language is never empty; it is the `lang` parameter when present and non-empty, and "en" otherwise |
| `QueryParams.CheckboxId` | json-loader.js:38-40 | a pair names a module exactly when its key is `module_` followed by at least one character and its value is exactly "1"; the id is the rest of the key |
| `QueryParams.CheckboxIds` | json-loader.js:37-44 | the checkbox ids are exactly the ids that some parameter names |
| `QueryParams.TrimmedTokens` | json-loader.js:49 | the kept tokens are exactly the non-empty trimmed pieces |
| `QueryParams.LegacyIds` | json-loader.js:47-49 | legacy ids are non-empty and contain no comma; a missing or empty `module` parameter gives none |
| `QueryParams.FirstIndex` | json-loader.js:40 | the first position holding an id, the order `includes`-guarded pushes keep |
| `QueryParams.PushAllAppend` | json-loader.js:40-53 | pushing one list and then another is pushing their concatenation, so the two loops are one de-duplicating pass |
| `QueryParams.PushAllDistinct` | json-loader.js:40-53 | guarded pushes into an empty list keep each distinct id once, ordered by its first occurrence |
| `QueryParams.FirstIndexUnique` | json-loader.js:40 | a position with no earlier copy of its id is that id's first index |
| `QueryParams.PushAllCons` | json-loader.js:40-41 | one guarded push followed by the rest is the push of the whole list |
| `QueryParams.CheckboxIdsStep` | json-loader.js:37-44 | a parameter that names no module contributes nothing; one that does contributes its id in front |
| `QueryParams.PushCheckbox` | json-loader.js:38-42 | a parameter that names no module leaves the list alone; one that does pushes its id unless already listed |
| `QueryParams.PushCheckboxIds` | json-loader.js:36-44 | the first loop computes the guarded pushes of the checkbox ids into an empty list |
| `QueryParams.PushLegacyIds` | json-loader.js:50-54 | the `forEach` over the legacy ids computes their guarded pushes onto the list so far |
| `QueryParams.PushAllStep` | json-loader.js:50-54 | the guarded pushes from the `j`-th id on are that id's guarded push followed by the rest |
| `QueryParams.FirstIndexPrefix` | json-loader.js:40 | an id already seen in a prefix first occurs where it first occurs in that prefix |
| `QueryParams.GetEnabledModules` | json-loader.js:32-58 | the two loops, with their `includes` checks, compute `EnabledModules` |
| `QueryParams.EnabledModulesFacts` | json-loader.js:32-58 | the result has no duplicates and holds exactly the checkbox ids and the legacy ids; each comes in order of first mention, checkbox parameters first |
| `QueryParams.SplitExample` | json-loader.js:49 | "baz,foo" splits into "baz" and "foo" |
| `QueryParams.ExampleCheckbox` | json-loader.js:37-44 | in `module_foo=1&module_bar=0&module=baz,foo` only `foo` is a checkbox id |
| `QueryParams.ExampleLegacy` | json-loader.js:47-49 | the same query's legacy ids are `baz`, `foo` |
| `QueryParams.ExampleModuleParam` | json-loader.js:47 | the first `module` parameter of that query is "baz,foo" |
| `QueryParams.ExampleTrimmed` | json-loader.js:49 | trimming "baz" and "foo" keeps both |
| `QueryParams.ExamplePushes` | json-loader.js:50-53 | pushing `foo`, `baz`, `foo` keeps `foo`, `baz` |
| `QueryParams.ExampleQuery` | json-loader.js:32-58 | that query enables `foo` then `baz` |
| `JsString.Split` | json-loader.js:49 | a split has at least one piece and no piece holds the separator |
| `JsString.SplitJoin` | json-loader.js:49 | joining the pieces of a split with the separator gives the string back |
| `JsString.SplitNoSep` | json-loader.js:363-364 | a string without the separator splits into itself alone |
| `JsString.Trim` | json-loader.js:49 | the trimmed string neither starts nor ends with white space, and what was cut off at both ends is white space |
| `JsString.TrimKeepsOut` | json-loader.js:49 | trimming brings in no character the string lacks |
| `JsString.TrimUnspaced` | json-loader.js:49 | a string that neither starts nor ends with white space is its own trim |
| `Paths.StripLocale` | json-loader.js:244 | a path starting `data/xx/` with two lower-case letters loses that segment (three characters shorter); any other path is unchanged; being under `data/` is kept |
| `Paths.Localize` | json-loader.js:249 | a path outside `data/` is left alone |
| `Paths.LocalizeLiteral` | json-loader.js:249 | for a language code without `$` the code is inserted as a directory after `data/` |
| `Paths.StripLocalize` | json-loader.js:244-249 | for a two-letter lower-case language and a path under `data/`, the translated path has a locale segment and stripping it gives the path back |
| `Paths.OutsideData` | json-loader.js:244-249 | a path outside `data/` passes both rewrites unchanged |
| `Paths.StripOnce` | json-loader.js:244 | only one locale segment is removed: `data/es/fr/x.json` becomes `data/fr/x.json` |
| `Paths.DollarAmpersand` | json-loader.js:249 | a `lang` of `$&` inserts the matched `data/` again, as `String.prototype.replace` expands it |
| `Paths.ExpandDollarAmpersand` | json-loader.js:249 | the replacement `data/$&/` expands to `data/data//` when the match is `data/` |
| `Paths.ExpandLiteral` | json-loader.js:249 | a replacement string without `$` is inserted as it is |
| `Transport.Attempt` | json-loader.js:204-217 | an attempt ends the retries exactly when the fetch answered ok or 404, with that response |
| `Transport.RetryFacts` | json-loader.js:202-233 | at least one and at most `maxRetries - retryCount + 1` fetches; a wait of `2^k * 1000` ms before each retry; every fetch but the last failed; an ok or 404 response is returned as it is, and an error is thrown only when no retry is left |
| `Transport.RetryResult` | json-loader.js:202-233 | there is at least one fetch, and the result is what the last fetch gave |
| `Transport.DefaultSchedule` | json-loader.js:202-226 | with every fetch failing and the default three retries there are four fetches, waits of 1000, 2000 and 4000 ms, and an error |
| `Transport.FetchWithRetry` | json-loader.js:202-233 | the recursive retry, counting `retryCount` up, computes `Retry` |
| `Transport.TranslatedFallback` | json-loader.js:242-262 | for a language other than "en": a thrown or ok localised fetch is final; a non-ok localised response is a 404 and is followed by the base-path fetch, whose result is returned |
| `Transport.NotFoundFallback` | json-loader.js:248-261 | after a localised response that is not ok (a 404), the result is the base-path fetch made after the localised attempts, and more fetches are spent |
| `Transport.FallbackFetched` | json-loader.js:248-261 | after a localised response that is not ok, the translated fetch's result is the base-path fetch's result and its fetch count is the sum of both |
| `Transport.EnglishFetchesBase` | json-loader.js:244-261 | for "en" only the stripped base path is fetched |
| `MergeEngineFacts.ScalarCases` | json-loader.js:145-166 | a falsy override returns the base; when the base or the override is not `typeof 'object'`, the override wins |
| `MergeEngineFacts.ElementsThrow` | json-loader.js:148-153 | the `base.map` throws exactly when one callback does |
| `MergeEngineFacts.ElementsValue` | json-loader.js:148-153 | a successful `base.map` keeps the length and holds each callback's value at its index |
| `MergeEngineFacts.ArrayMerge` | json-loader.js:146-153 | for two arrays the result has the base's length; each position is the recursive merge when both elements are `typeof 'object'`, else the override element when defined, else the base element; it throws exactly when a recursive merge does |
| `MergeEngineFacts.ArrayMergeThrows` | json-loader.js:146-153 | the merge of two arrays throws exactly when the recursive merge of some pair of `typeof 'object'` elements does |
| `MergeEngineFacts.ArrayMergeValue` | json-loader.js:146-153 | a successful merge of two arrays keeps the base's length and holds at each index the recursive merge, the defined override element, or the base element |
| `MergeEngineFacts.ElementCases` | json-loader.js:148-152 | each callback of the `base.map` is the recursive merge for two `typeof 'object'` elements, else the defined override element, else the base element |
| `MergeEngineFacts.ArrayTail` | json-loader.js:148-152 | past the end of a shorter override the base elements come through unchanged |
| `MergeEngineFacts.ArrayNullElement` | json-loader.js:145-152 | a null override element keeps an object-typed base element and replaces any other |
| `MergeEngineFacts.StepsFrom` | json-loader.js:157-163 | the forEach's steps are, in order, the value written at each override key |
| `MergeEngineFacts.FieldsArePutAll` | json-loader.js:156-164 | the object forEach is the base's copy with each override key written in turn |
| `MergeEngineFacts.PutAllThrows` | json-loader.js:157-163 | the writes throw exactly when one value does |
| `MergeEngineFacts.PutAllLookup` | json-loader.js:157-163 | an unwritten key reads as before; a written key reads as the value written |
| `MergeEngineFacts.PutAllKeys` | json-loader.js:156-164 | the keys afterwards are the copy's and the written ones |
| `MergeEngineFacts.PutAllUnique` | json-loader.js:156-164 | the writes keep the keys unique |
| `MergeEngineFacts.FieldIsKeyMerge` | json-loader.js:158-162 | the value written at an override key depends only on the two values found at that key |
| `MergeEngineFacts.ObjectMergeUnfold` | json-loader.js:155-164 | for two objects the merge writes each override key's merged value onto a copy of the base |
| `MergeEngineFacts.ObjectMergeThrows` | json-loader.js:155-164 | for two objects the merge throws exactly when the recursive merge at some key does |
| `MergeEngineFacts.ObjectMerge` | json-loader.js:155-164 | for two objects a base key absent from the override keeps its value; an override key gets the recursive merge when both sides are `typeof 'object'` and the override's value otherwise; the keys are those of both |
| `MergeEngineFacts.ObjectMergeKeys` | json-loader.js:155-164 | for two objects the result's keys are those of both, unique when the base's are |
| `MergeEngineFacts.ObjectMergeLookups` | json-loader.js:155-164 | for two objects a key only the base has keeps its value, and an override key reads as the merge of the two values at that key |
| `MergeEngineFacts.NullBaseThrows` | json-loader.js:155-159 | a null base meeting a non-empty object override throws, since `null[key]` is read |
| `MergeEngineFacts.LookupNullFree` | json-loader.js:158 | reading a key of null-free fields gives a null-free value |
| `MergeEngineFacts.NullFreeNeverThrows` | json-loader.js:144-167 | a base without nulls never makes the merge throw, whatever the override |
| `MergeEngineFacts.ElementsNeverThrow` | json-loader.js:148-153 | over null-free base elements the array map never throws |
| `MergeEngineFacts.FieldsNeverThrow` | json-loader.js:156-164 | over a null-free object base the key forEach never throws |
| `MergeEngineFacts.FieldNeverThrows` | json-loader.js:157-162 | over a null-free base no single key of the forEach throws |
| `MergeEngineFacts.FieldStep` | json-loader.js:156-164 | over a null-free base the forEach passes the `i`-th key and goes on with that key written |
| `MergeEngineFacts.MergeFieldsStep` | json-loader.js:156-164 | a key whose merge does not throw is written to the result before the forEach goes on to the next key |
| `MergeEngineFacts.MergeFieldsDone` | json-loader.js:156-166 | past the last key the forEach leaves the result as it is |
| `MergeEngineFacts.BasePropNullFree` | json-loader.js:158 | reading any key of a null-free object or array succeeds and gives a null-free value |
| `Translations.BuildTranslationMap` | json-loader.js:181-186 | the forEach that fills `translationMap` computes `TranslationIndex` |
| `Translations.PrefixErrSticks` | json-loader.js:181-186 | once an item throws, the whole forEach throws with that error |
| `Translations.IndexThrows` | json-loader.js:182-183 | building the map throws exactly when some translation item is null or undefined |
| `Translations.StepOk` | json-loader.js:182-185 | one step records the item under its id exactly when that id is truthy |
| `Translations.IndexDomain` | json-loader.js:182-185 | an id is in the map exactly when it is the truthy id of some item, so falsy ids are ignored |
| `Translations.IndexKeyFrom` | json-loader.js:182-185 | an id in the map is truthy and is the id of some item |
| `Translations.IndexHasKey` | json-loader.js:182-185 | the truthy id of any item is in the map |
| `Translations.LastWithIdExtend` | json-loader.js:182-185 | the last item with an id stays the last when an item with another id follows |
| `Translations.IndexLastWinsAt` | json-loader.js:182-185 | the map holds, for an id, the last item carrying it |
| `Translations.IndexLastWins` | json-loader.js:182-185 | for duplicated ids the last entry wins, for every id at once |
| `Translations.MapAllFacts` | json-loader.js:189-192 | `array.map` throws exactly when a callback does, and otherwise keeps length and order |
| `Translations.MergeTranslationsShape` | json-loader.js:175-193 | missing or non-array translation data returns the base as it is; otherwise the result keeps the base's length and order, an item whose id has an entry becomes `deepMerge(item, entry)` with the last such entry, and every other item passes through, so translation-only ids never appear |
| `Translations.IndexValuesTruthy` | json-loader.js:182-185 | every value in the map is a truthy translation item |
| `Translations.NoMatchingIds` | json-loader.js:188-192 | with no entry for any base id the base comes back as it is |
| `Availability.MovesFiles` | json-loader.js:99-107 | the list is the prior `_movesFiles`, then the role's own `_movesFile` at the next position unless already listed, then the module's `_movesFile` last with no duplicate check; a truthy non-array prior list throws |
| `Availability.NotIn` | json-loader.js:112 | the filter keeps exactly the module cards the existing list lacks |
| `Availability.NotInAppend` | json-loader.js:112 | filtering a concatenation filters each part and keeps their order |
| `Availability.NotInSingle` | json-loader.js:112 | one card is kept exactly when the existing list lacks it |
| `Availability.NotInCount` | json-loader.js:112 | a card the existing list lacks is kept as many times as the module lists it; any other card not at all |
| `Availability.NotInCons` | json-loader.js:112 | the filter of a list, as a multiset, is the filter of its head plus the filter of its tail |
| `Availability.NotInHeadCount` | json-loader.js:112 | one card contributes to a count only when the existing list lacks it |
| `Availability.MergeCards` | json-loader.js:110-112 | the cards are the existing ones followed by the filter of the module cards, whose order and repeats `NotInAppend`, `NotInSingle` and `NotInCount` fix; every appended card is new to the existing list; a truthy non-array on either side throws |
| `Availability.MergedRole` | json-loader.js:96-125 | a merged role is an object, and a null module role throws |
| `Availability.MergedRoleUnfold` | json-loader.js:99-125 | a merged role is built from the two lists, the spread fields and the base role's `_movesFile` |
| `Availability.BuiltRoleLookup` | json-loader.js:115-124 | each key of the built role reads as the reset `_movesFile`, the lists (undefined when empty), or the module's field over the existing one |
| `Availability.BuiltRoleKeys` | json-loader.js:115-124 | the built role's keys are both sides' keys, the two lists and `_movesFile` when reset |
| `Availability.MergedRoleFields` | json-loader.js:99-125 | `_movesFiles` and `cards` are the combined lists, undefined when empty; `_movesFile` is the base role's whenever that is truthy; other fields are the module's over the existing role's; the keys are exactly those of both sides plus these |
| `Availability.AssignLookupEmpty` | json-loader.js:115-117 | spreading unique fields onto an empty object reads like the fields |
| `Availability.RoleValue` | json-loader.js:96-131 | a role the result lacks (or has falsy) takes the module's value verbatim; otherwise it becomes an object |
| `Availability.MergeModuleAvailability` | json-loader.js:92-136 | the loop reassigning `result[roleName]` computes `MergedAvailability`, and also hands back the base map as the pushes into its `_movesFiles` arrays leave it (`BaseAfterMerge`), whether the loop returns or throws; a null or undefined module map throws and changes nothing |
| `Availability.PushedRoleFacts` | json-loader.js:99-106 | the pushes into one role keep its other fields and only append to its list; its own `_movesFile` ends up listed; the module's readable `_movesFile` comes last; a null or missing module role, which throws at line 105, adds at most the role's own file |
| `Availability.RoleGrownTrans` | json-loader.js:99-106 | a list grown twice by appending is grown once by appending |
| `Availability.PushedRolesGrown` | json-loader.js:95-106 | over the loop, up to a throw, each role of the base map only has its `_movesFiles` list appended to, and a role no module entry names is untouched |
| `Availability.BaseAfterMergeGrown` | json-loader.js:92-131 | after a merge that returns or throws, the base map given to it keeps every role, each grown at most in its `_movesFiles` list, and the roles the module does not name are untouched |
| `Availability.MergeRole` | json-loader.js:95-131 | one turn of the loop computes the role's new value from the current one, or throws |
| `Availability.RolesKeys` | json-loader.js:93-131 | the roles afterwards are the starting map's plus the module's |
| `Availability.RolesUnique` | json-loader.js:93-131 | the loop keeps role names unique |
| `Availability.RolesUntouched` | json-loader.js:95-131 | a role the module does not mention keeps its value |
| `Availability.RolesEntry` | json-loader.js:95-131 | each module role ends up with the value its step computes from the starting map |
| `Availability.RolesThrow` | json-loader.js:95-131 | with distinct module roles the loop throws exactly when one step does |
| `Availability.AvailabilityMerge` | json-loader.js:92-136 | a null or undefined module map throws; otherwise the roles are the base's plus the module's, unmentioned roles keep the base value, new roles are the module's value verbatim, and roles on both sides are the merged role |
| `Availability.MergedKeys` | json-loader.js:92-136 | the merged map's roles are unique and are the base's plus the module's |
| `Availability.MergedLookups` | json-loader.js:92-136 | unmentioned roles keep the base value, new roles take the module's value verbatim, roles on both sides are the merged role |
| `Moves.PascalRef` | json-loader.js:363-366 | a derived variable-name stem contains no space |
| `Moves.PascalFrom` | json-loader.js:363-366 | capitalising the space-separated pieces equals the character-by-character reading, from any partly read piece |
| `Moves.PascalNameRef` | json-loader.js:363-383 | splitting on spaces, capitalising and joining drops the spaces and upper-cases the first letter of each word |
| `Moves.SharedVariableName` | json-loader.js:363-366 | the roles "lord" and "Lord" get the same variable name, so the file loaded second overwrites the first in `window` |
| `Moves.SnocFacts` | json-loader.js:362-392 | a further candidate adds its path to `loadedPaths` and joins the tasks exactly when its path is new |
| `Moves.InPathSet` | json-loader.js:373-390 | every candidate's path is in `loadedPaths` |
| `Moves.PathSetMember` | json-loader.js:373-390 | every path in `loadedPaths` comes from some candidate |
| `Moves.DedupCovers` | json-loader.js:362-392 | the tasks cover every candidate path, and there are none only when there is no candidate |
| `Moves.DedupDistinct` | json-loader.js:362-392 | every task is a candidate and no two tasks share a file path |
| `Moves.DedupFirsts` | json-loader.js:362-392 | the kept tasks sit at increasing candidate positions, each a candidate whose path no earlier candidate has |
| `Moves.PrefixesAgree` | json-loader.js:362-392 | a further candidate leaves the earlier kept positions and their prefixes as they were |
| `Moves.DedupSubset` | json-loader.js:362-392 | every task is one of the candidates |
| `Moves.DedupPathsDistinct` | json-loader.js:362-392 | no two tasks share a file path |
| `Moves.PlanFacts` | json-loader.js:356-394 | the plan throws exactly when some role is null or undefined; otherwise it lists each candidate path once, at its first candidate, in candidate order (roles in map order, a role's `_movesFile` before its `_movesFiles`) |
| `Moves.AllCandidatesStep` | json-loader.js:360-394 | the candidates of one more role are appended after those before it |
| `Moves.PlanModuleFiles` | json-loader.js:377-392 | the `_movesFiles.forEach` extends the tasks and `loadedPaths` by one role's module files |
| `Moves.ModuleTasksSnoc` | json-loader.js:378-390 | one more module file appends its task, named `<Role>ModuleMoves<i>` |
| `Moves.PushIfUnseen` | json-loader.js:361-390 | a candidate whose path is new is pushed and its path recorded; one already seen changes nothing |
| `Moves.RoleCandidatesSplit` | json-loader.js:362-392 | a role's candidates are its `_movesFile` task followed by its `_movesFiles` tasks |
| `Moves.PlanRole` | json-loader.js:360-393 | one role's turn extends the tasks and `loadedPaths` by its candidates |
| `Moves.PlanTasks` | json-loader.js:356-394 | the walk with its `loadedPaths` set computes `Plan` |
| `Moves.NormalizeFacts` | json-loader.js:452-455 | a move with a truthy category is unchanged; otherwise its category reads "Moves" and an object move keeps every other property; normalising twice is normalising once |
| `Moves.NormalizeAdds` | json-loader.js:452-455 | a move with a falsy category gets the category "Moves" |
| `Moves.NormalizeKeeps` | json-loader.js:452-455 | an object move with a falsy category keeps every other property |
| `Moves.NormalizeTwice` | json-loader.js:452-455 | normalising twice is normalising once |
| `Moves.AddMoveTracks` | json-loader.js:440-456 | one move keeps the combination equal to its reference reading |
| `Moves.AddMoveMoves` | json-loader.js:442-457 | one move appends its normalised value, keeping the move list in step with the tagged moves |
| `Moves.AddMoveSources` | json-loader.js:444-450 | one move records its source under its own id and leaves every other id's sources alone |
| `Moves.SourcesForSnoc` | json-loader.js:444-450 | one more move adds its `{file, role}` to its own id's list and to no other |
| `Moves.AddMovesTracks` | json-loader.js:438-457 | one task's array keeps the combination equal to its reference reading |
| `Moves.FoldTracks` | json-loader.js:433-459 | the whole forEach equals the reference reading of the tagged moves |
| `Moves.CombineFacts` | json-loader.js:433-462 | the combination throws exactly when some loaded move is null or undefined; otherwise the list is every loaded move in task order, each normalised, and `moveSourceMap[id]` holds one `{file, role}` per occurrence of `id`, in order, with no entry for other ids |
| `Moves.FoldStep` | json-loader.js:437-459 | one more task extends the fold by that task's moves |
| `Moves.AddTaskMoves` | json-loader.js:438-457 | one task's `moves.map` adds its moves, or throws on a null or undefined move |
| `Moves.AddMovesSnoc` | json-loader.js:438-457 | one more defined move extends the task's moves by that move |
| `Moves.CombineMoves` | json-loader.js:433-459 | the forEach pushing into `allMoves` and `moveSourceMap` computes `Combine` |
| `JsonLoader.LoadJsonFacts` | json-loader.js:270-290 | a load writes at most its one variable and only spends fetches; it succeeds exactly when the last fetch answered ok with a non-null JSON body, and the variable then holds the result; a `null` body is published though the load fails |
| `JsonLoader.LoadTranslatedFacts` | json-loader.js:299-332 | a failed base load is the call's failure; "en" fetches nothing more; any translation failure keeps the English data; a merge by id gives the merged array, or the English data when the merge throws, and keeps the base array's length; a replacement returns the translation; the variable holds what the call resolves with and no other variable changes |
| `JsonLoader.ModulesConfigFacts` | json-loader.js:64-82 | a truthy cache is returned with no fetch; otherwise the fetch's attempts are spent and the fetched JSON, or `{modules: []}` when the fetch threw, was not ok or was not JSON, becomes the cache; a second call after a truthy result fetches nothing and returns the same value |
| `JsonLoader.ModulesConfigFetch` | json-loader.js:69-81 | a falsy cache is replaced by the fetched JSON, or by `{modules: []}` when the fetch threw, was not ok or was not JSON, and the fetch's attempts are spent |
| `JsonLoader.FindModule` | json-loader.js:500 | a found module is one of the list carrying the id; none is found only when every module is defined and lacks it; a throw is a TypeError from some null or undefined entry |
| `JsonLoader.FindModuleFirst` | json-loader.js:500 | `find` stops at the first entry that is null or undefined (a throw) or carries the id (the module found); with no such entry nothing is found; later entries play no part |
| `JsonLoader.MergeModulesFacts` | json-loader.js:499-520 | the loop only spends fetches; with no id naming a module it returns the data with no fetch at all |
| `JsonLoader.ModuleStepKeeps` | json-loader.js:508-519 | a module changes the data only when its fetch answered ok with a JSON body; a merge that returns gives the merged map; one that throws leaves the data's roles grown at most in their `_movesFiles` lists, by the pushes made before the throw, and the roles the module does not name untouched |
| `JsonLoader.LoadAvailabilityFacts` | json-loader.js:481-525 | with no module enabled the call is the plain translated load; whenever it resolves `availableMap` holds what it resolves with and no other variable changes |
| `JsonLoader.AvailabilityModulesFacts` | json-loader.js:491-525 | with the base availability published, merging the modules keeps `availableMap` equal to what the call resolves with and changes no other variable |
| `JsonLoader.LoadAliasesFacts` | json-loader.js:547-555 | loading the aliases never fails: on any error they are the empty list, and the variable holds what the call returns |
| `JsonLoader.PublishFacts` | json-loader.js:433-462 | the combination publishes `moveSourceMap` and leaves the `window` variables alone |
| `JsonLoader.LoadAndPublishFacts` | json-loader.js:404-462 | a list the load, translation and combination resolve with is the combination of what they stored |
| `JsonLoader.LoadRoleMovesFacts` | json-loader.js:351-466 | a missing `availableMap` fails and changes nothing; no move file resolves to undefined and changes nothing; a resolved list is every move of the loaded files, tasks in order, each normalised, with `moveSourceMap` giving each id the `{file, role}` of every occurrence; the tasks name each file once, at its first candidate, in candidate order |
| `JsonLoader.Loader.constructor` | json-loader.js:9-10 | a fresh page: nothing published, nothing fetched, `modulesConfig` null |
| `JsonLoader.Loader.FetchRetrying` | json-loader.js:202-233 | `fetchWithRetry(url)` with three retries, spending its fetches |
| `JsonLoader.Loader.FetchWithTranslations` | json-loader.js:242-262 | the translated fetch from the current state |
| `JsonLoader.FetchFromLocalized` | json-loader.js:248-254 | for a language other than "en", a thrown or ok localised fetch is the whole translated fetch |
| `JsonLoader.FetchFromBase` | json-loader.js:248-261 | after a localised response that is not ok, the translated fetch is the base-path fetch, after the localised attempts |
| `JsonLoader.Loader.LoadJsonData` | json-loader.js:270-290 | result and new state are `LoadJson` of the old state |
| `JsonLoader.Loader.LoadJsonDataWithTranslations` | json-loader.js:299-332 | result and new state are `LoadTranslated` of the old state |
| `JsonLoader.Loader.LoadModulesConfig` | json-loader.js:64-82 | the new state is `ModulesConfig` of the old one and the result is the cache |
| `JsonLoader.Loader.MergeEnabledModules` | json-loader.js:499-520 | the loop over enabled ids computes `MergeModules` |
| `JsonLoader.Loader.LoadAvailabilityMap` | json-loader.js:481-525 | result and new state are `LoadAvailability` of the old state |
| `JsonLoader.Loader.LoadStatsData` | json-loader.js:472-474 | the translated load of `data/stats.json` into `hexStats`, merged by id |
| `JsonLoader.Loader.LoadCategoriesData` | json-loader.js:531-533 | the translated load of `data/categories.json` into `categoriesConfig`, replaced by the translation |
| `JsonLoader.Loader.LoadTermsData` | json-loader.js:539-541 | the translated load of `data/terms.json` into `termsGlossary`, replaced by the translation |
| `JsonLoader.Loader.LoadAliasesData` | json-loader.js:547-555 | result and new state are `LoadAliases` of the old state |
| `JsonLoader.Loader.LoadMultipleJsonData` | json-loader.js:339-345 | every task's file is loaded in order, failing with the first failure |
| `JsonLoader.Loader.TranslateMoveFiles` | json-loader.js:406-431 | the translation loop over the move files computes `TranslateFrom` |
| `JsonLoader.Loader.LoadAllRoleMoves` | json-loader.js:351-466 | result and new state are `LoadRoleMoves` of the old state |

## Left out

- Real `fetch`, `response.json()` and `setTimeout`: the network is a parameter, a body is its JSON value or nothing, and the waits are returned as a list of delays instead of being slept.
- `location.protocol` and `window.location.search`: whether the page runs from `file:` and the decoded query pairs are fixed parts of the loader's environment; `URLSearchParams` percent-decoding is not modelled.
- `console.log`, `console.warn` and `console.error` output, and the `statusText` in error messages.
- The concurrency of `Promise.all` in `loadMultipleJsonData` and `loadAllGameData`: the loads run one after the other in task order, fetch numbers follow that one interleaving, and the failure reported is the first in task order.
- `loadAllGameData` (json-loader.js:562-582): its only logic is the `Promise.all` above followed by `loadAllRoleMoves`, which is modelled.
- Lookup-table keys: `translationMap`, `moveSourceMap` and `loadedPaths` are keyed by the JSON value itself; JavaScript coerces object keys to strings (so ids `1` and `"1"` collide) and the `Set` compares objects by identity, while the model compares values structurally.
- MovesFiles, NotIn: the `includes` checks on `_movesFiles` (json-loader.js:100) and on `cards` (json-loader.js:112) compare objects and arrays by identity in JavaScript, so a module card equal to but distinct from an existing one is kept there and dropped here; the model compares values structurally.
- Object key order: keys keep insertion order; JavaScript lists array-index-like keys first.
- Prototype properties such as `constructor` or `__proto__` are not modelled; a missing key reads as undefined.
- Numbers are integers; fractions, NaN and `-0` are not modelled.
- `toUpperCase` is modelled on ASCII letters only.
- BaseAfterMerge, ModuleStep: the pushes into a role's own `_movesFiles` array are modelled by handing the changed base map back. This covers a base map that is an object with unique role names, as JSON objects have. An array used as the base map is handed back unchanged, although its elements' arrays would be pushed into too.
- LoadAvailability: the base load publishes its data as `window.availableMap` before the module loop. When a later `find` throws, json-loader.js:523 is skipped, and that published object still shows the pushes made by earlier merges. The model's store keeps the published value as loaded.
- MovesFiles: a truthy prior `_movesFiles` that is not an array always throws here. In JavaScript, `includes` (run when the role's own `_movesFile` is truthy) throws for anything but a string, and `push` (run when a file is added) throws for any non-array. When neither runs or throws, `existingMovesFiles.length > 0` decides. A non-empty string, or an object whose `length` is a positive number, is kept as `_movesFiles`. A number, `true`, or an object without a positive `length` becomes `undefined`.
- MergeCards: a truthy non-array `cards` always throws here. In JavaScript the same holds for the module's `cards` (no `filter`) and for an existing non-string (not iterable), but an existing string is spread into its characters and `includes` tests substrings.
- AvailabilityMerge: stated for maps whose own keys are unique, as JSON objects' are.
- MergedRoleFields: stated for roles whose own keys are unique, as JSON objects' are.
- NormalizeFacts: the clause that every other property is kept is stated for object moves with unique keys only.
- The `window` store: one page's variables; writes from other scripts or pages are not modelled.
- The repository's own description of `fetchWithTranslations` has it fall back to the base path whenever the localised fetch fails. The code (json-loader.js:248-261) falls back only on a response that is not ok; a fetch that throws after its retries propagates. The model follows the code (`Transport.TranslatedFallback`).
- wizard.js and modules.js are not part of this model (DOM templating and event wiring).
