/**
 * The two pure halves of `loadAllRoleMoves` (json-loader.js:351-466): planning
 * which move files to load from the availability map (lines 356-394), and
 * combining the loaded arrays into one list of moves plus the map from each move
 * id to the files and roles it came from (lines 433-462).  The loads in between
 * live in the loader; here the loaded data is the `window` store they filled.
 */
module Moves {
  import opened JsValue
  import opened JsString

  // ---------------------------------------------------------------------------
  // Variable names derived from role names (json-loader.js:363-366, 380-383)

  /** `c.toUpperCase()` for one character, on the ASCII letters. */
  function Upper(c: char): char {
    if 'a' <= c <= 'z' then (c as int - 32) as char else c
  }

  /** `part.charAt(0).toUpperCase() + part.slice(1)`. */
  function Capitalize(part: string): string {
    if part == [] then [] else [Upper(part[0])] + part[1..]
  }

  /** `parts.map(Capitalize).join('')`. */
  function ConcatCapitalized(parts: seq<string>): string {
    if parts == [] then "" else Capitalize(parts[0]) + ConcatCapitalized(parts[1..])
  }

  /** `roleName.split(' ').map(...).join('')`: the role name in PascalCase. */
  function PascalName(roleName: string): string {
    ConcatCapitalized(Split(roleName, ' '))
  }

  /**
   * The same name read character by character: spaces are dropped and a character
   * is upper-cased when it starts the name or follows a space.
   */
  function PascalRef(s: string, atStart: bool): (r: string)
    ensures ' ' !in r
    decreases s
  {
    if s == [] then ""
    else if s[0] == ' ' then PascalRef(s[1..], true)
    else [if atStart then Upper(s[0]) else s[0]] + PascalRef(s[1..], false)
  }

  lemma {:induction false} PascalFrom(s: string, cur: string)
    ensures ConcatCapitalized(SplitFrom(s, ' ', cur)) == Capitalize(cur) + PascalRef(s, cur == [])
    decreases s
  {
    if s == [] {
      ConcatCons(cur, []);
    } else if s[0] == ' ' {
      PascalFrom(s[1..], "");
      ConcatCons(cur, SplitFrom(s[1..], ' ', ""));
    } else {
      PascalFrom(s[1..], cur + [s[0]]);
      CapitalizeSnoc(cur, s[0]);
    }
  }

  lemma ConcatCons(part: string, rest: seq<string>)
    ensures ConcatCapitalized([part] + rest) == Capitalize(part) + ConcatCapitalized(rest)
  {
    assert ([part] + rest)[0] == part && ([part] + rest)[1..] == rest;
  }

  lemma CapitalizeSnoc(cur: string, c: char)
    ensures Capitalize(cur + [c]) == Capitalize(cur) + [if cur == [] then Upper(c) else c]
  {
    if cur != [] {
      assert (cur + [c])[1..] == cur[1..] + [c];
    }
  }

  /**
   * Splitting on spaces, capitalising each piece and joining them is the
   * character-by-character reading: the name has no spaces, and each word (a
   * run between spaces) keeps its letters with the first one upper-cased.
   */
  lemma PascalNameRef(roleName: string)
    ensures PascalName(roleName) == PascalRef(roleName, true)
    ensures ' ' !in PascalName(roleName)
  {
    PascalFrom(roleName, "");
  }

  /** Two differently spelt roles can share a variable name, so the file loaded second overwrites the first in `window`. */
  lemma SharedVariableName()
    ensures PascalName("lord") == PascalName("Lord") == "Lord"
  {
    SplitNoSep("lord", ' ');
    SplitNoSep("Lord", ' ');
    assert ConcatCapitalized(["lord"]) == Capitalize("lord") + ConcatCapitalized([]);
    assert ConcatCapitalized(["Lord"]) == Capitalize("Lord") + ConcatCapitalized([]);
  }

  // ---------------------------------------------------------------------------
  // Planning the loads (json-loader.js:356-394)

  /** One entry of `roleConfigs`. */
  datatype Task = Task(filePath: Value, variableName: string, roleName: string)

  /** The files role `roleName` asks for, before the de-duplication across roles. */
  function ModuleTasks(name: string, roleName: string, files: seq<Value>): seq<Task> {
    seq(|files|, i requires 0 <= i < |files| => Task(files[i], name + "ModuleMoves" + IntString(i), roleName))
  }

  /**
   * A role's candidate tasks in order: its truthy `_movesFile` (variable
   * `<Pascal>Moves`), then every element `i` of an array `_movesFiles` (variable
   * `<Pascal>ModuleMoves<i>`).  Reading either property throws on a null or
   * undefined role, which the caller excludes.
   */
  function RoleCandidates(roleName: string, roleData: Value): seq<Task>
    requires !roleData.Undefined? && !roleData.Null?
  {
    var name := PascalName(roleName);
    var primary := Prop(roleData, "_movesFile").value;
    var files := Prop(roleData, "_movesFiles").value;
    (if Truthy(primary) then [Task(primary, name + "Moves", roleName)] else [])
      + (if files.Arr? then ModuleTasks(name, roleName, files.items) else [])
  }

  predicate RolesDefined(entries: seq<Field>) {
    forall i :: 0 <= i < |entries| ==> !entries[i].val.Undefined? && !entries[i].val.Null?
  }

  /** Every role's candidates, roles in entry order. */
  function AllCandidates(entries: seq<Field>): seq<Task>
    requires RolesDefined(entries)
  {
    if entries == [] then []
    else
      var last := entries[|entries| - 1];
      AllCandidates(entries[..|entries| - 1]) + RoleCandidates(last.key, last.val)
  }

  /** The file paths of some tasks. */
  function PathSet(ts: seq<Task>): set<Value> {
    if ts == [] then {} else PathSet(ts[..|ts| - 1]) + {ts[|ts| - 1].filePath}
  }

  /** The tasks kept by the `loadedPaths` set: a candidate stays iff no earlier candidate has its path. */
  function Dedup(ts: seq<Task>): seq<Task> {
    if ts == [] then []
    else
      var init := ts[..|ts| - 1];
      if ts[|ts| - 1].filePath in PathSet(init) then Dedup(init) else Dedup(init) + [ts[|ts| - 1]]
  }

  /**
   * The task list of `loadAllRoleMoves` for the entries of the availability map:
   * a role whose value is null or undefined makes the walk throw.
   */
  function Plan(entries: seq<Field>): Result<seq<Task>> {
    if RolesDefined(entries) then Ok(Dedup(AllCandidates(entries))) else Err(TypeError)
  }

  lemma SnocFacts(ts: seq<Task>, t: Task)
    ensures PathSet(ts + [t]) == PathSet(ts) + {t.filePath}
    ensures Dedup(ts + [t]) == if t.filePath in PathSet(ts) then Dedup(ts) else Dedup(ts) + [t]
  {
    assert (ts + [t])[..|ts|] == ts;
  }

  lemma {:induction false} InPathSet(ts: seq<Task>, i: nat)
    requires i < |ts|
    ensures ts[i].filePath in PathSet(ts)
    decreases |ts|
  {
    if i < |ts| - 1 {
      InPathSet(ts[..|ts| - 1], i);
    }
  }

  lemma {:induction false} PathSetMember(ts: seq<Task>, p: Value) returns (i: nat)
    requires p in PathSet(ts)
    ensures i < |ts| && ts[i].filePath == p
    decreases |ts|
  {
    if ts[|ts| - 1].filePath == p {
      i := |ts| - 1;
    } else {
      i := PathSetMember(ts[..|ts| - 1], p);
    }
  }

  /** De-duplication loses no path: the kept tasks cover every candidate path, and the plan is empty only when there is no candidate. */
  lemma {:induction false} DedupCovers(ts: seq<Task>)
    ensures PathSet(Dedup(ts)) == PathSet(ts)
    ensures Dedup(ts) == [] <==> ts == []
  {
    if ts != [] {
      var init := ts[..|ts| - 1];
      var t := ts[|ts| - 1];
      assert ts == init + [t];
      DedupCovers(init);
      SnocFacts(init, t);
      SnocFacts(Dedup(init), t);
      if t.filePath in PathSet(init) {
        var i := PathSetMember(init, t.filePath);
        assert init != [];
      }
    }
  }

  lemma {:induction false} DedupSubset(ts: seq<Task>)
    ensures forall i :: 0 <= i < |Dedup(ts)| ==> Dedup(ts)[i] in ts
  {
    if ts != [] {
      var init := ts[..|ts| - 1];
      var t := ts[|ts| - 1];
      var d := Dedup(init);
      assert ts == init + [t];
      SnocFacts(init, t);
      DedupSubset(init);
      forall i | 0 <= i < |Dedup(ts)| ensures Dedup(ts)[i] in ts {
        if i < |d| {
          assert Dedup(ts)[i] == d[i] && d[i] in init;
        }
      }
    }
  }

  lemma {:induction false} DedupPathsDistinct(ts: seq<Task>)
    ensures forall i, j :: 0 <= i < j < |Dedup(ts)| ==> Dedup(ts)[i].filePath != Dedup(ts)[j].filePath
  {
    if ts != [] {
      var init := ts[..|ts| - 1];
      var t := ts[|ts| - 1];
      var d := Dedup(init);
      assert ts == init + [t];
      SnocFacts(init, t);
      DedupPathsDistinct(init);
      if t.filePath !in PathSet(init) {
        DedupCovers(init);
        var r := d + [t];
        forall i, j | 0 <= i < j < |r| ensures r[i].filePath != r[j].filePath {
          if j == |d| {
            InPathSet(d, i);
          } else {
            assert r[i] == d[i] && r[j] == d[j];
          }
        }
      }
    }
  }

  /** Every kept task is a candidate, and no two kept tasks share a file path. */
  lemma DedupDistinct(ts: seq<Task>)
    ensures forall i :: 0 <= i < |Dedup(ts)| ==> Dedup(ts)[i] in ts
    ensures forall i, j :: 0 <= i < j < |Dedup(ts)| ==> Dedup(ts)[i].filePath != Dedup(ts)[j].filePath
  {
    DedupSubset(ts);
    DedupPathsDistinct(ts);
  }

  /**
   * `idx` places the kept tasks among the candidates: in increasing positions, each
   * one a candidate whose path no earlier candidate has.
   */
  ghost predicate FirstsInOrder(kept: seq<Task>, cands: seq<Task>, idx: seq<nat>) {
    && |idx| == |kept|
    && (forall i :: 0 <= i < |idx| ==>
          idx[i] < |cands| && kept[i] == cands[idx[i]] && cands[idx[i]].filePath !in PathSet(cands[..idx[i]]))
    && (forall i, j :: 0 <= i < j < |idx| ==> idx[i] < idx[j])
  }

  /** The kept tasks are first candidates for their paths, in candidate order. */
  lemma {:induction false} DedupFirsts(ts: seq<Task>) returns (idx: seq<nat>)
    ensures FirstsInOrder(Dedup(ts), ts, idx)
  {
    if ts == [] {
      idx := [];
    } else {
      var init := ts[..|ts| - 1];
      var t := ts[|ts| - 1];
      assert ts == init + [t];
      SnocFacts(init, t);
      var idx0 := DedupFirsts(init);
      PrefixesAgree(init, t, idx0);
      if t.filePath in PathSet(init) {
        idx := idx0;
      } else {
        idx := idx0 + [|init|];
        assert ts[..|init|] == init;
      }
    }
  }

  /** Extending the candidates moves no earlier first candidate. */
  lemma PrefixesAgree(init: seq<Task>, t: Task, idx: seq<nat>)
    requires FirstsInOrder(Dedup(init), init, idx)
    ensures forall i :: 0 <= i < |idx| ==>
      (init + [t])[idx[i]] == init[idx[i]] && (init + [t])[..idx[i]] == init[..idx[i]]
  {
  }

  /** The plan of `loadAllRoleMoves`: every candidate path once, at its first candidate, in role order. */
  lemma PlanFacts(entries: seq<Field>) returns (idx: seq<nat>)
    ensures Plan(entries).Err? <==> exists i :: 0 <= i < |entries| && (entries[i].val.Undefined? || entries[i].val.Null?)
    ensures Plan(entries).Ok? ==>
      var ts := Plan(entries).value;
      && PathSet(ts) == PathSet(AllCandidates(entries))
      && (ts == [] <==> AllCandidates(entries) == [])
      && (forall i :: 0 <= i < |ts| ==> ts[i] in AllCandidates(entries))
      && (forall i, j :: 0 <= i < j < |ts| ==> ts[i].filePath != ts[j].filePath)
      && FirstsInOrder(ts, AllCandidates(entries), idx)
  {
    idx := [];
    if RolesDefined(entries) {
      DedupCovers(AllCandidates(entries));
      DedupDistinct(AllCandidates(entries));
      idx := DedupFirsts(AllCandidates(entries));
    }
  }

  lemma AllCandidatesStep(entries: seq<Field>, k: nat)
    requires k < |entries| && RolesDefined(entries[..k])
    requires !entries[k].val.Undefined? && !entries[k].val.Null?
    ensures RolesDefined(entries[..k + 1])
    ensures AllCandidates(entries[..k + 1]) == AllCandidates(entries[..k]) + RoleCandidates(entries[k].key, entries[k].val)
  {
    var pre := entries[..k + 1];
    assert pre[..k] == entries[..k];
    forall i | 0 <= i < |pre| ensures !pre[i].val.Undefined? && !pre[i].val.Null? {
      if i < k {
        assert pre[i] == entries[..k][i];
      }
    }
  }

  lemma ModuleTasksSnoc(name: string, roleName: string, files: seq<Value>, done: seq<Task>, i: nat)
    requires i < |files|
    ensures var more := ModuleTasks(name, roleName, files);
      done + more[..i + 1] == (done + more[..i]) + [Task(files[i], name + "ModuleMoves" + IntString(i), roleName)]
  {
    var more := ModuleTasks(name, roleName, files);
    assert more[..i + 1] == more[..i] + [more[i]];
  }

  /** `if (!loadedPaths.has(filePath)) { roleConfigs.push(...); loadedPaths.add(filePath) }`. */
  method PushIfUnseen(t: Task, tasks: seq<Task>, loaded: set<Value>, ghost cands: seq<Task>)
    returns (tasks': seq<Task>, loaded': set<Value>)
    requires tasks == Dedup(cands) && loaded == PathSet(cands)
    ensures tasks' == Dedup(cands + [t]) && loaded' == PathSet(cands + [t])
  {
    SnocFacts(cands, t);
    tasks', loaded' := tasks, loaded;
    if t.filePath !in loaded {
      tasks' := tasks + [t];
      loaded' := loaded + {t.filePath};
    }
  }

  /** The `_movesFiles.forEach` of one role. */
  method PlanModuleFiles(name: string, roleName: string, files: seq<Value>, tasks: seq<Task>, loaded: set<Value>, ghost done: seq<Task>)
    returns (tasks': seq<Task>, loaded': set<Value>)
    requires tasks == Dedup(done) && loaded == PathSet(done)
    ensures tasks' == Dedup(done + ModuleTasks(name, roleName, files))
    ensures loaded' == PathSet(done + ModuleTasks(name, roleName, files))
  {
    tasks', loaded' := tasks, loaded;
    ghost var more := ModuleTasks(name, roleName, files);
    ghost var cands := done;
    for i := 0 to |files|
      invariant cands == done + more[..i]
      invariant tasks' == Dedup(cands) && loaded' == PathSet(cands)
    {
      var t := Task(files[i], name + "ModuleMoves" + IntString(i), roleName);
      ModuleTasksSnoc(name, roleName, files, done, i);
      tasks', loaded' := PushIfUnseen(t, tasks', loaded', cands);
      cands := cands + [t];
    }
    assert more[..|files|] == more;
  }

  /** A role's candidates are its primary task (if any) followed by its module tasks. */
  lemma RoleCandidatesSplit(roleName: string, roleData: Value, seen: seq<Task>, done: seq<Task>)
    requires !roleData.Undefined? && !roleData.Null?
    requires var primary := Prop(roleData, "_movesFile").value;
      done == seen + (if Truthy(primary) then [Task(primary, PascalName(roleName) + "Moves", roleName)] else [])
    ensures var files := Prop(roleData, "_movesFiles").value;
      seen + RoleCandidates(roleName, roleData)
        == if files.Arr? then done + ModuleTasks(PascalName(roleName), roleName, files.items) else done
  {
    var primary := Prop(roleData, "_movesFile").value;
    var files := Prop(roleData, "_movesFiles").value;
    var a: seq<Task> := if Truthy(primary) then [Task(primary, PascalName(roleName) + "Moves", roleName)] else [];
    var b: seq<Task> := if files.Arr? then ModuleTasks(PascalName(roleName), roleName, files.items) else [];
    assert RoleCandidates(roleName, roleData) == a + b;
    AppendShift(seen, a, b, done);
    if !files.Arr? {
      assert done + b == done;
    }
  }

  lemma AppendShift(seen: seq<Task>, a: seq<Task>, b: seq<Task>, done: seq<Task>)
    requires done == seen + a
    ensures seen + (a + b) == done + b
  {
  }

  /** One turn of the walk: role `roleName`'s candidates checked against `loadedPaths` and pushed. */
  method PlanRole(roleName: string, roleData: Value, tasks: seq<Task>, loaded: set<Value>, ghost seen: seq<Task>)
    returns (tasks': seq<Task>, loaded': set<Value>)
    requires !roleData.Undefined? && !roleData.Null?
    requires tasks == Dedup(seen) && loaded == PathSet(seen)
    ensures tasks' == Dedup(seen + RoleCandidates(roleName, roleData))
    ensures loaded' == PathSet(seen + RoleCandidates(roleName, roleData))
  {
    tasks', loaded' := tasks, loaded;
    var name := PascalName(roleName);
    var primary := Prop(roleData, "_movesFile").value;
    ghost var done := seen;
    if Truthy(primary) {
      var t := Task(primary, name + "Moves", roleName);
      tasks', loaded' := PushIfUnseen(t, tasks', loaded', seen);
      done := seen + [t];
    }
    var files := Prop(roleData, "_movesFiles").value;
    if files.Arr? {
      tasks', loaded' := PlanModuleFiles(name, roleName, files.items, tasks', loaded', done);
    }
    RoleCandidatesSplit(roleName, roleData, seen, done);
  }

  /** The walk over the availability map with its `loadedPaths` set. */
  method PlanTasks(entries: seq<Field>) returns (r: Result<seq<Task>>)
    ensures r == Plan(entries)
  {
    var tasks: seq<Task> := [];
    var loaded: set<Value> := {};
    for k := 0 to |entries|
      invariant RolesDefined(entries[..k])
      invariant tasks == Dedup(AllCandidates(entries[..k]))
      invariant loaded == PathSet(AllCandidates(entries[..k]))
    {
      var roleName := entries[k].key;
      var roleData := entries[k].val;
      if roleData.Undefined? || roleData.Null? {
        assert !RolesDefined(entries) by {
          assert entries[k].val == roleData;
        }
        return Err(TypeError);
      }
      AllCandidatesStep(entries, k);
      tasks, loaded := PlanRole(roleName, roleData, tasks, loaded, AllCandidates(entries[..k]));
    }
    assert entries[..|entries|] == entries;
    return Ok(tasks);
  }

  // ---------------------------------------------------------------------------
  // Combining the loaded arrays (json-loader.js:433-462)

  /** One `{file, role}` record of `moveSourceMap`. */
  datatype Source = Source(file: Value, role: string)

  type SourceMap = map<Value, seq<Source>>

  /** What the combination builds: `allMoves` and `moveSourceMap`. */
  datatype Combined = Combined(moves: seq<Value>, sources: SourceMap)

  predicate Defined(v: Value) {
    !v.Undefined? && !v.Null?
  }

  /** A move with a falsy `category` becomes `{...move, category: "Moves"}`; any other move is kept as it is. */
  function Normalize(move: Value): Value
    requires Defined(move)
  {
    if Truthy(Prop(move, "category").value) then move
    else Obj(Put(Assign([], Spread(move)), "category", Str("Moves")))
  }

  /**
   * A move that has a category keeps it; an object move without one gains
   * `category: "Moves"` and keeps every other property; normalising twice is
   * normalising once.
   */
  lemma NormalizeFacts(move: Value)
    requires Defined(move)
    ensures Truthy(Prop(move, "category").value) ==> Normalize(move) == move
    ensures Prop(Normalize(move), "category") == if Truthy(Prop(move, "category").value) then Prop(move, "category") else Ok(Str("Moves"))
    ensures move.Obj? && UniqueKeys(move.fields) && !Truthy(Prop(move, "category").value) ==>
      forall k :: k != "category" ==> Prop(Normalize(move), k) == Prop(move, k)
    ensures Normalize(Normalize(move)) == Normalize(move)
  {
    if !Truthy(Prop(move, "category").value) {
      NormalizeAdds(move);
      if move.Obj? && UniqueKeys(move.fields) {
        NormalizeKeeps(move);
      }
    }
    NormalizeTwice(move);
  }

  lemma NormalizeTwice(move: Value)
    requires Defined(move)
    ensures Normalize(Normalize(move)) == Normalize(move)
  {
    if !Truthy(Prop(move, "category").value) {
      NormalizeAdds(move);
      var once := Normalize(move);
      assert Truthy(Prop(once, "category").value);
    }
  }

  lemma NormalizeAdds(move: Value)
    requires Defined(move) && !Truthy(Prop(move, "category").value)
    ensures Prop(Normalize(move), "category") == Ok(Str("Moves"))
  {
    PutLookup(Assign([], Spread(move)), "category", Str("Moves"), "category");
  }

  lemma NormalizeKeeps(move: Value)
    requires move.Obj? && UniqueKeys(move.fields) && !Truthy(Prop(move, "category").value)
    ensures forall k :: k != "category" ==> Prop(Normalize(move), k) == Prop(move, k)
  {
    var fs := Assign([], Spread(move));
    forall k | k != "category" ensures Prop(Normalize(move), k) == Prop(move, k) {
      PutLookup(fs, "category", Str("Moves"), k);
      AssignLookup([], move.fields, k);
    }
  }

  /** `window[variableName]` as the combination reads it: its elements when it is an array, nothing otherwise. */
  function TaskMoves(store: map<string, Value>, t: Task): seq<Value> {
    if t.variableName in store && store[t.variableName].Arr? then store[t.variableName].items else []
  }

  predicate MovesDefined(moves: seq<Value>) {
    forall i :: 0 <= i < |moves| ==> Defined(moves[i])
  }

  predicate AllMovesDefined(store: map<string, Value>, tasks: seq<Task>) {
    forall k :: 0 <= k < |tasks| ==> MovesDefined(TaskMoves(store, tasks[k]))
  }

  /** `moveSourceMap[id]` created empty when absent, then pushed onto. */
  function Record(sources: SourceMap, id: Value, src: Source): SourceMap {
    sources[id := (if id in sources then sources[id] else []) + [src]]
  }

  /** One move of the `moves.map` callback. */
  function AddMove(c: Combined, move: Value, src: Source): Combined
    requires Defined(move)
  {
    Combined(c.moves + [Normalize(move)], Record(c.sources, IdValue(move), src))
  }

  /** The callback over one task's array. */
  function AddMoves(acc: Combined, moves: seq<Value>, src: Source): Combined
    requires MovesDefined(moves)
  {
    if moves == [] then acc
    else AddMove(AddMoves(acc, moves[..|moves| - 1], src), moves[|moves| - 1], src)
  }

  function SourceOf(t: Task): Source {
    Source(t.filePath, t.roleName)
  }

  /** The `roleConfigs.forEach` over the tasks in order. */
  function Fold(store: map<string, Value>, tasks: seq<Task>): Combined
    requires AllMovesDefined(store, tasks)
  {
    if tasks == [] then Combined([], map[])
    else
      var last := tasks[|tasks| - 1];
      AddMoves(Fold(store, tasks[..|tasks| - 1]), TaskMoves(store, last), SourceOf(last))
  }

  /** The combination; `m.id` of a null or undefined move throws (json-loader.js:440, 444). */
  function Combine(store: map<string, Value>, tasks: seq<Task>): Result<Combined> {
    if AllMovesDefined(store, tasks) then Ok(Fold(store, tasks)) else Err(TypeError)
  }

  // The reference reading: flatten every task's moves, each tagged with its source.

  function TagAll(moves: seq<Value>, src: Source): seq<(Value, Source)> {
    seq(|moves|, i requires 0 <= i < |moves| => (moves[i], src))
  }

  /** Every loaded move with the file and role it came from, tasks in order. */
  function Tagged(store: map<string, Value>, tasks: seq<Task>): seq<(Value, Source)> {
    if tasks == [] then []
    else
      var last := tasks[|tasks| - 1];
      Tagged(store, tasks[..|tasks| - 1]) + TagAll(TaskMoves(store, last), SourceOf(last))
  }

  /** The sources of the tagged moves whose id is `id`, in order. */
  function SourcesFor(tagged: seq<(Value, Source)>, id: Value): seq<Source> {
    if tagged == [] then []
    else
      var last := tagged[|tagged| - 1];
      SourcesFor(tagged[..|tagged| - 1], id) + (if IdValue(last.0) == id then [last.1] else [])
  }

  /** `c` is what combining the tagged moves `t` should give. */
  ghost predicate Tracks(c: Combined, t: seq<(Value, Source)>) {
    && |c.moves| == |t|
    && (forall i :: 0 <= i < |t| ==> Defined(t[i].0) && c.moves[i] == Normalize(t[i].0))
    && (forall id :: id in c.sources <==> SourcesFor(t, id) != [])
    && (forall id :: id in c.sources ==> c.sources[id] == SourcesFor(t, id))
  }

  lemma AddMoveTracks(c: Combined, t: seq<(Value, Source)>, move: Value, src: Source)
    requires Tracks(c, t) && Defined(move)
    ensures Tracks(AddMove(c, move, src), t + [(move, src)])
  {
    AddMoveMoves(c, t, move, src);
    AddMoveSources(c, t, move, src);
  }

  /** The move list grows by the normalised move, in step with the tagged moves. */
  lemma AddMoveMoves(c: Combined, t: seq<(Value, Source)>, move: Value, src: Source)
    requires |c.moves| == |t| && Defined(move)
    requires forall i :: 0 <= i < |t| ==> Defined(t[i].0) && c.moves[i] == Normalize(t[i].0)
    ensures var c', t' := AddMove(c, move, src), t + [(move, src)];
      |c'.moves| == |t'| && forall i :: 0 <= i < |t'| ==> Defined(t'[i].0) && c'.moves[i] == Normalize(t'[i].0)
  {
    var c' := AddMove(c, move, src);
    var t' := t + [(move, src)];
    assert forall i :: 0 <= i < |t| ==> t'[i] == t[i] && c'.moves[i] == c.moves[i];
  }

  /** The source map records the move's source under its id and leaves every other id alone. */
  lemma AddMoveSources(c: Combined, t: seq<(Value, Source)>, move: Value, src: Source)
    requires Defined(move)
    requires forall id :: id in c.sources <==> SourcesFor(t, id) != []
    requires forall id :: id in c.sources ==> c.sources[id] == SourcesFor(t, id)
    ensures var c', t' := AddMove(c, move, src), t + [(move, src)];
      && (forall id :: id in c'.sources <==> SourcesFor(t', id) != [])
      && (forall id :: id in c'.sources ==> c'.sources[id] == SourcesFor(t', id))
  {
    SourcesForSnoc(t, move, src);
  }

  /** Tagging one more move adds its source to its own id's list and to no other. */
  lemma SourcesForSnoc(t: seq<(Value, Source)>, move: Value, src: Source)
    ensures forall id :: SourcesFor(t + [(move, src)], id) == SourcesFor(t, id) + (if IdValue(move) == id then [src] else [])
  {
    var t' := t + [(move, src)];
    assert t'[..|t|] == t;
  }

  lemma {:induction false} AddMovesTracks(c: Combined, t: seq<(Value, Source)>, moves: seq<Value>, src: Source)
    requires Tracks(c, t) && MovesDefined(moves)
    ensures Tracks(AddMoves(c, moves, src), t + TagAll(moves, src))
    decreases |moves|
  {
    if moves == [] {
      assert t + TagAll(moves, src) == t;
    } else {
      var init := moves[..|moves| - 1];
      var m := moves[|moves| - 1];
      AddMovesTracks(c, t, init, src);
      AddMoveTracks(AddMoves(c, init, src), t + TagAll(init, src), m, src);
      TagAllSnoc(t, moves, src);
    }
  }

  lemma TagAllSnoc(t: seq<(Value, Source)>, moves: seq<Value>, src: Source)
    requires moves != []
    ensures t + TagAll(moves, src) == (t + TagAll(moves[..|moves| - 1], src)) + [(moves[|moves| - 1], src)]
  {
    assert TagAll(moves, src) == TagAll(moves[..|moves| - 1], src) + [(moves[|moves| - 1], src)];
  }

  lemma {:induction false} FoldTracks(store: map<string, Value>, tasks: seq<Task>)
    requires AllMovesDefined(store, tasks)
    ensures Tracks(Fold(store, tasks), Tagged(store, tasks))
  {
    if tasks != [] {
      var init := tasks[..|tasks| - 1];
      var last := tasks[|tasks| - 1];
      FoldTracks(store, init);
      AddMovesTracks(Fold(store, init), Tagged(store, init), TaskMoves(store, last), SourceOf(last));
    }
  }

  /**
   * The combined list is every loaded move, tasks in order, each normalised; and
   * `moveSourceMap[id]` holds one `{file, role}` per move with that id, in the same
   * order, with no entry for an id no move has.  Non-array variables contribute
   * nothing; a null or undefined move makes the whole combination throw.
   */
  lemma CombineFacts(store: map<string, Value>, tasks: seq<Task>)
    ensures Combine(store, tasks).Err? <==>
      exists k, i :: 0 <= k < |tasks| && 0 <= i < |TaskMoves(store, tasks[k])| && !Defined(TaskMoves(store, tasks[k])[i])
    ensures Combine(store, tasks).Ok? ==>
      var c := Combine(store, tasks).value;
      var t := Tagged(store, tasks);
      && |c.moves| == |t|
      && (forall i :: 0 <= i < |t| ==> Defined(t[i].0) && c.moves[i] == Normalize(t[i].0))
      && (forall id :: id in c.sources <==> SourcesFor(t, id) != [])
      && (forall id :: id in c.sources ==> c.sources[id] == SourcesFor(t, id))
  {
    if AllMovesDefined(store, tasks) {
      FoldTracks(store, tasks);
    }
  }

  lemma FoldStep(store: map<string, Value>, tasks: seq<Task>, k: nat)
    requires k < |tasks| && AllMovesDefined(store, tasks[..k]) && MovesDefined(TaskMoves(store, tasks[k]))
    ensures AllMovesDefined(store, tasks[..k + 1])
    ensures Fold(store, tasks[..k + 1]) == AddMoves(Fold(store, tasks[..k]), TaskMoves(store, tasks[k]), SourceOf(tasks[k]))
  {
    assert tasks[..k + 1][..k] == tasks[..k];
  }

  lemma AddMovesSnoc(acc: Combined, moves: seq<Value>, i: nat, src: Source)
    requires i < |moves| && MovesDefined(moves[..i]) && Defined(moves[i])
    ensures MovesDefined(moves[..i + 1])
    ensures AddMoves(acc, moves[..i + 1], src) == AddMove(AddMoves(acc, moves[..i], src), moves[i], src)
  {
    assert moves[..i + 1][..i] == moves[..i];
  }

  /** The `moves.map` over one task's array: each move recorded in `moveSourceMap` and normalised onto `allMoves`. */
  method AddTaskMoves(allMoves: seq<Value>, moveSourceMap: SourceMap, moves: seq<Value>, src: Source)
    returns (r: Result<Combined>)
    ensures r == if MovesDefined(moves) then Ok(AddMoves(Combined(allMoves, moveSourceMap), moves, src)) else Err(TypeError)
  {
    var all, sources := allMoves, moveSourceMap;
    ghost var acc := Combined(allMoves, moveSourceMap);
    for i := 0 to |moves|
      invariant MovesDefined(moves[..i])
      invariant Combined(all, sources) == AddMoves(acc, moves[..i], src)
    {
      var move := moves[i];
      if move.Undefined? || move.Null? {
        assert !Defined(moves[i]);
        return Err(TypeError);
      }
      var id := IdValue(move);
      var entry := if id in sources then sources[id] else [];
      AddMovesSnoc(acc, moves, i, src);
      sources := sources[id := entry + [src]];
      all := all + [Normalize(move)];
    }
    assert moves[..|moves|] == moves;
    return Ok(Combined(all, sources));
  }

  /** The `roleConfigs.forEach`, pushing into `allMoves` and `moveSourceMap`. */
  method CombineMoves(store: map<string, Value>, tasks: seq<Task>) returns (r: Result<Combined>)
    ensures r == Combine(store, tasks)
  {
    var allMoves: seq<Value> := [];
    var moveSourceMap: SourceMap := map[];
    for k := 0 to |tasks|
      invariant AllMovesDefined(store, tasks[..k])
      invariant Combined(allMoves, moveSourceMap) == Fold(store, tasks[..k])
    {
      var config := tasks[k];
      var moves := if config.variableName in store && store[config.variableName].Arr? then store[config.variableName].items else [];
      var step := AddTaskMoves(allMoves, moveSourceMap, moves, Source(config.filePath, config.roleName));
      if step.Err? {
        return Err(TypeError);
      }
      FoldStep(store, tasks, k);
      allMoves, moveSourceMap := step.value.moves, step.value.sources;
    }
    assert tasks[..|tasks|] == tasks;
    return Ok(Combined(allMoves, moveSourceMap));
  }
}
