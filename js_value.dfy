/**
 * JavaScript values as the loader sees them after `response.json()` and after
 * its own object spreads, together with the few language operations the loader
 * relies on: truthiness, `typeof x === 'object'`, property reads (which throw on
 * null and undefined), property writes, object spread and `Object.entries`.
 */
module JsValue {

  datatype Option<+T> = None | Some(value: T)

  /** `undefined` is a value of its own: the loader writes keys whose value is undefined. */
  datatype Value =
    | Undefined
    | Null
    | Bool(b: bool)
    | Num(n: int)
    | Str(s: string)
    | Arr(items: seq<Value>)
    | Obj(fields: seq<Field>)

  /** One own property of an object, in insertion order. */
  datatype Field = Field(key: string, val: Value)

  /** What the loader can throw (or reject with). */
  datatype Exception =
    | TypeError                  // property read on null/undefined, missing method, spread of a non-iterable
    | HttpError(status: int)     // non-404 failure status, thrown inside fetchWithRetry
    | NetworkError               // fetch itself rejected
    | SyntaxError                // response.json() on a body that is not JSON
    | LoadFailed(status: int)    // loadJsonData on a response that is not ok
    | FileProtocol               // loadJsonData under the file: protocol
    | MissingAvailableMap        // loadAllRoleMoves before the availability map is published

  datatype Result<+T> = Ok(value: T) | Err(error: Exception)

  /** JavaScript truthiness: undefined, null, false, 0 and "" are falsy. */
  predicate Truthy(v: Value) {
    match v
    case Undefined => false
    case Null => false
    case Bool(b) => b
    case Num(n) => n != 0
    case Str(s) => s != ""
    case Arr(_) => true
    case Obj(_) => true
  }

  /** `typeof v === 'object'`, which holds of null as well as of arrays and objects. */
  predicate IsObjectType(v: Value) {
    v.Null? || v.Arr? || v.Obj?
  }

  // ---------------------------------------------------------------------------
  // Decimal rendering of indices and integers

  function DigitChar(d: nat): char
    requires d < 10
  {
    "0123456789"[d]
  }

  /** The canonical property key of array index `n` ("0", "1", ..., "10", ...). */
  function IndexKey(n: nat): (s: string)
    ensures |s| >= 1
    ensures forall i :: 0 <= i < |s| ==> '0' <= s[i] <= '9'
  {
    if n < 10 then [DigitChar(n)] else IndexKey(n / 10) + [DigitChar(n % 10)]
  }

  /** `String(n)` for an integer (exact below 10^21, where JS switches to exponent form). */
  function IntString(n: int): string {
    if n < 0 then "-" + IndexKey(-n) else IndexKey(n)
  }

  /** The index `i` with `lo <= i < n` whose key is `k`, if any. */
  function FindIndex(k: string, lo: nat, n: nat): (r: Option<nat>)
    decreases n - lo
    ensures r.Some? ==> lo <= r.value < n && IndexKey(r.value) == k
    ensures r.None? ==> forall i :: lo <= i < n ==> IndexKey(i) != k
  {
    if lo >= n then None
    else if IndexKey(lo) == k then Some(lo)
    else FindIndex(k, lo + 1, n)
  }

  // ---------------------------------------------------------------------------
  // Objects as ordered field lists

  function KeyList(fs: seq<Field>): (ks: seq<string>)
    ensures |ks| == |fs|
    ensures forall i :: 0 <= i < |fs| ==> ks[i] == fs[i].key
  {
    if fs == [] then [] else [fs[0].key] + KeyList(fs[1..])
  }

  predicate UniqueKeys(fs: seq<Field>) {
    forall i, j :: 0 <= i < j < |fs| ==> fs[i].key != fs[j].key
  }

  /** `obj[k]` on an object: the value of key `k`, or undefined when absent. */
  function Lookup(fs: seq<Field>, k: string): (v: Value)
    ensures k !in KeyList(fs) ==> v == Undefined
  {
    if fs == [] then Undefined
    else if fs[0].key == k then fs[0].val
    else Lookup(fs[1..], k)
  }

  /** With unique keys, reading the key of the `j`-th field gives that field's value. */
  lemma {:induction false} LookupUnique(fs: seq<Field>, j: nat)
    requires UniqueKeys(fs) && j < |fs|
    ensures Lookup(fs, fs[j].key) == fs[j].val
  {
    if j > 0 {
      LookupUnique(fs[1..], j - 1);
    }
  }

  /** `obj[k] = v`: an existing key keeps its position, a new key goes last. */
  function Put(fs: seq<Field>, k: string, v: Value): (r: seq<Field>)
    ensures |r| == |fs| || r == fs + [Field(k, v)]
  {
    if fs == [] then [Field(k, v)]
    else if fs[0].key == k then [Field(k, v)] + fs[1..]
    else [fs[0]] + Put(fs[1..], k, v)
  }

  /** After `obj[k] = v`, reading `k` gives `v` and every other key reads as before. */
  lemma {:induction false} PutLookup(fs: seq<Field>, k: string, v: Value, k': string)
    ensures Lookup(Put(fs, k, v), k') == if k' == k then v else Lookup(fs, k')
  {
    if fs != [] && fs[0].key != k {
      PutLookup(fs[1..], k, v, k');
    }
  }

  /** The key list after `obj[k] = v`: unchanged for an existing key, extended by `k` for a new one. */
  lemma {:induction false} PutKeyList(fs: seq<Field>, k: string, v: Value)
    ensures KeyList(Put(fs, k, v)) == if k in KeyList(fs) then KeyList(fs) else KeyList(fs) + [k]
    ensures k !in KeyList(fs) ==> Put(fs, k, v) == fs + [Field(k, v)]
  {
    if fs != [] {
      assert KeyList(fs) == [fs[0].key] + KeyList(fs[1..]);
      if fs[0].key != k {
        PutKeyList(fs[1..], k, v);
        assert KeyList(Put(fs, k, v)) == [fs[0].key] + KeyList(Put(fs[1..], k, v));
      } else {
        assert KeyList(Put(fs, k, v)) == [k] + KeyList(fs[1..]);
      }
    }
  }

  /** Writing an existing key leaves the key order alone; writing a new key appends it. */
  lemma PutKeys(fs: seq<Field>, k: string, v: Value)
    ensures k in KeyList(fs) ==> KeyList(Put(fs, k, v)) == KeyList(fs)
    ensures k !in KeyList(fs) ==> Put(fs, k, v) == fs + [Field(k, v)]
    ensures forall k' :: k' in KeyList(Put(fs, k, v)) <==> k' in KeyList(fs) || k' == k
    ensures UniqueKeys(fs) ==> UniqueKeys(Put(fs, k, v))
  {
    PutKeyList(fs, k, v);
    var r := Put(fs, k, v);
    if UniqueKeys(fs) {
      forall i, j | 0 <= i < j < |r| ensures r[i].key != r[j].key {
        assert r[i].key == KeyList(r)[i] && r[j].key == KeyList(r)[j];
        if j < |fs| {
          assert KeyList(r)[i] == KeyList(fs)[i] && KeyList(r)[j] == KeyList(fs)[j];
        } else {
          assert KeyList(r)[i] == KeyList(fs)[i];
        }
      }
    }
  }

  /** The fields of `{...acc, ...fs}`: every field of `fs` written in order onto `acc`. */
  function Assign(acc: seq<Field>, fs: seq<Field>): seq<Field>
    decreases fs
  {
    if fs == [] then acc else Assign(Put(acc, fs[0].key, fs[0].val), fs[1..])
  }

  /** Keys `fs` does not mention read as in `acc`; keys it does mention read as in `fs`. */
  lemma {:induction false} AssignLookup(acc: seq<Field>, fs: seq<Field>, k: string)
    requires UniqueKeys(fs)
    ensures Lookup(Assign(acc, fs), k) == if k in KeyList(fs) then Lookup(fs, k) else Lookup(acc, k)
    decreases fs
  {
    if fs != [] {
      assert KeyList(fs) == [fs[0].key] + KeyList(fs[1..]);
      AssignLookup(Put(acc, fs[0].key, fs[0].val), fs[1..], k);
      PutLookup(acc, fs[0].key, fs[0].val, k);
    }
  }

  /** `{...acc, ...fs}` has exactly the keys of both. */
  lemma {:induction false} AssignKeys(acc: seq<Field>, fs: seq<Field>)
    ensures forall k :: k in KeyList(Assign(acc, fs)) <==> k in KeyList(acc) || k in KeyList(fs)
    decreases fs
  {
    if fs != [] {
      var acc' := Put(acc, fs[0].key, fs[0].val);
      assert KeyList(fs) == [fs[0].key] + KeyList(fs[1..]);
      PutKeys(acc, fs[0].key, fs[0].val);
      AssignKeys(acc', fs[1..]);
    }
  }

  /** Spreading onto an object with unique keys keeps them unique. */
  lemma {:induction false} AssignUnique(acc: seq<Field>, fs: seq<Field>)
    requires UniqueKeys(acc)
    ensures UniqueKeys(Assign(acc, fs))
    decreases fs
  {
    if fs != [] {
      PutKeys(acc, fs[0].key, fs[0].val);
      AssignUnique(Put(acc, fs[0].key, fs[0].val), fs[1..]);
    }
  }

  /** The own enumerable properties of a value, as `{...v}` and `Object.entries(v)` see them. */
  function Spread(v: Value): (fs: seq<Field>)
    ensures v.Obj? ==> fs == v.fields
    ensures v.Arr? ==> |fs| == |v.items| && forall i :: 0 <= i < |fs| ==> fs[i] == Field(IndexKey(i), v.items[i])
    ensures !v.Obj? && !v.Arr? && !v.Str? ==> fs == []
  {
    match v
    case Obj(fields) => fields
    case Arr(items) => seq(|items|, i requires 0 <= i < |items| => Field(IndexKey(i), items[i]))
    case Str(s) => seq(|s|, i requires 0 <= i < |s| => Field(IndexKey(i), Str([s[i]])))
    case _ => []
  }

  /** `Object.entries(v)`, which throws on null and undefined. */
  function Entries(v: Value): (r: Result<seq<Field>>)
    ensures r.Err? <==> v.Undefined? || v.Null?
    ensures r.Ok? ==> r.value == Spread(v)
  {
    if v.Undefined? || v.Null? then Err(TypeError) else Ok(Spread(v))
  }

  /** `v[k]`: throws on null and undefined; arrays and strings answer index keys and `length`. */
  function Prop(v: Value, k: string): (r: Result<Value>)
    ensures r.Err? <==> v.Undefined? || v.Null?
    ensures v.Obj? ==> r == Ok(Lookup(v.fields, k))
    ensures v.Bool? || v.Num? ==> r == Ok(Undefined)
  {
    match v
    case Undefined => Err(TypeError)
    case Null => Err(TypeError)
    case Obj(fields) => Ok(Lookup(fields, k))
    case Arr(items) =>
      if k == "length" then Ok(Num(|items|))
      else
        (match FindIndex(k, 0, |items|)
         case Some(i) => Ok(items[i])
         case None => Ok(Undefined))
    case Str(s) =>
      if k == "length" then Ok(Num(|s|))
      else
        (match FindIndex(k, 0, |s|)
         case Some(i) => Ok(Str([s[i]]))
         case None => Ok(Undefined))
    case _ => Ok(Undefined)
  }

  /** `v.id`, read as undefined where reading it would throw (callers rule those values out first). */
  function IdValue(v: Value): Value {
    match Prop(v, "id")
    case Ok(id) => id
    case Err(_) => Undefined
  }

  // ---------------------------------------------------------------------------
  // String conversion, as in a template literal `${v}`

  function ToJsString(v: Value): string {
    match v
    case Undefined => "undefined"
    case Null => "null"
    case Bool(b) => if b then "true" else "false"
    case Num(n) => IntString(n)
    case Str(s) => s
    case Arr(items) => JoinElements(v, 0)
    case Obj(_) => "[object Object]"
  }

  /** `items.join(',')` from index `i` on, where null and undefined elements print as "". */
  function JoinElements(a: Value, i: nat): string
    requires a.Arr? && i <= |a.items|
    decreases a, |a.items| - i
  {
    if i == |a.items| then ""
    else
      var e := if a.items[i].Undefined? || a.items[i].Null? then "" else ToJsString(a.items[i]);
      if i + 1 == |a.items| then e else e + "," + JoinElements(a, i + 1)
  }

  /** A value that holds no null anywhere inside it. */
  predicate NullFree(v: Value) {
    match v
    case Null => false
    case Arr(items) => forall i :: 0 <= i < |items| ==> NullFree(items[i])
    case Obj(fields) => forall i :: 0 <= i < |fields| ==> NullFree(fields[i].val)
    case _ => true
  }

  /** Every object inside `v` has unique keys, as every parsed or built JS object does. */
  predicate WellFormed(v: Value) {
    match v
    case Arr(items) => forall i :: 0 <= i < |items| ==> WellFormed(items[i])
    case Obj(fields) => UniqueKeys(fields) && forall i :: 0 <= i < |fields| ==> WellFormed(fields[i].val)
    case _ => true
  }
}
