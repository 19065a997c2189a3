/**
 * The parsed form of a JSON document, standing in for base::Value.
 * Parsing itself is not modelled: callers receive `Option<Value>`, `None`
 * meaning that the JSON reader rejected the text.
 */
module Json {
  import opened Wrappers

  datatype Value =
    | Null
    | Bool(b: bool)
    | Int(i: int)
    | Str(s: string)
    | List(items: seq<Value>)
    | Dict(entries: map<string, Value>)

  /** The member `key` of a dictionary, or None (base::Value::FindKey). */
  function FindKey(v: Value, key: string): (r: Option<Value>)
    ensures r.Some? <==> v.Dict? && key in v.entries
    ensures r.Some? ==> r.value == v.entries[key]
  {
    if v.Dict? && key in v.entries then Some(v.entries[key]) else None
  }

  /** The boolean member `key` (FindKeyOfType(key, BOOLEAN)); a member of another type is absent. */
  function FindBool(v: Value, key: string): (r: Option<bool>)
    ensures r.Some? <==> v.Dict? && key in v.entries && v.entries[key].Bool?
    ensures r.Some? ==> v.entries[key] == Bool(r.value)
  {
    match FindKey(v, key)
    case Some(Bool(b)) => Some(b)
    case _ => None
  }

  /** DictionaryValue::GetInteger: the member must exist and be an integer. */
  function GetInt(v: Value, key: string): (r: Option<int>)
    ensures r.Some? <==> v.Dict? && key in v.entries && v.entries[key].Int?
    ensures r.Some? ==> v.entries[key] == Int(r.value)
  {
    match FindKey(v, key)
    case Some(Int(i)) => Some(i)
    case _ => None
  }

  /** DictionaryValue::GetString: the member must exist and be a string. */
  function GetString(v: Value, key: string): (r: Option<string>)
    ensures r.Some? <==> v.Dict? && key in v.entries && v.entries[key].Str?
    ensures r.Some? ==> v.entries[key] == Str(r.value)
  {
    match FindKey(v, key)
    case Some(Str(s)) => Some(s)
    case _ => None
  }

  /** DictionaryValue::GetList: the member must exist and be a list. */
  function GetList(v: Value, key: string): (r: Option<seq<Value>>)
    ensures r.Some? <==> v.Dict? && key in v.entries && v.entries[key].List?
    ensures r.Some? ==> v.entries[key] == List(r.value)
  {
    match FindKey(v, key)
    case Some(List(items)) => Some(items)
    case _ => None
  }

  /**
   * A member stored under `key` is read back by the getter of its own type
   * and is rejected by the getters of every other type; storing it leaves
   * what the other keys find unchanged.
   */
  lemma StoredMemberReadBack(m: map<string, Value>, key: string, v: Value, other: string)
    ensures FindKey(Dict(m[key := v]), key) == Some(v)
    ensures other != key ==> FindKey(Dict(m[key := v]), other) == FindKey(Dict(m), other)
    ensures GetInt(Dict(m[key := v]), key) == (if v.Int? then Some(v.i) else None)
    ensures GetString(Dict(m[key := v]), key) == (if v.Str? then Some(v.s) else None)
    ensures GetList(Dict(m[key := v]), key) == (if v.List? then Some(v.items) else None)
    ensures FindBool(Dict(m[key := v]), key) == (if v.Bool? then Some(v.b) else None)
  {
  }

  /** Every getter fails on a value that is not a dictionary, whatever the key. */
  lemma GettersNeedDict(v: Value, key: string)
    requires !v.Dict?
    ensures FindKey(v, key).None? && GetInt(v, key).None? && GetString(v, key).None?
    ensures GetList(v, key).None? && FindBool(v, key).None?
  {
  }

  /**
   * base::Value::FindPath: follow `path` through nested dictionaries; any
   * missing key or non-dictionary on the way makes the lookup fail.
   */
  function FindPath(v: Value, path: seq<string>): (r: Option<Value>)
    decreases |path|
  {
    if path == [] then Some(v)
    else match FindKey(v, path[0])
      case None => None
      case Some(child) => FindPath(child, path[1..])
  }

  /** Nested dictionaries, one per path component, ending in `leaf`. */
  function Nest(path: seq<string>, leaf: Value): Value
    decreases |path|
  {
    if path == [] then leaf else Dict(map[path[0] := Nest(path[1..], leaf)])
  }

  /** A leaf placed at `path` by nesting is found again by FindPath. */
  lemma {:induction false} FindPathNest(path: seq<string>, leaf: Value)
    ensures FindPath(Nest(path, leaf), path) == Some(leaf)
    decreases |path|
  {
    if path != [] {
      FindPathNest(path[1..], leaf);
    }
  }

  /** A lookup through a value that is not a dictionary fails at the first step. */
  lemma FindPathNonDict(v: Value, path: seq<string>)
    requires path != [] && !v.Dict?
    ensures FindPath(v, path) == None
  {
  }

  /** Looking up `p + q` is looking up `p`, then `q` in what was found. */
  lemma {:induction false} FindPathAppend(v: Value, p: seq<string>, q: seq<string>)
    ensures FindPath(v, p + q) ==
            match FindPath(v, p) case None => None case Some(w) => FindPath(w, q)
    decreases |p|
  {
    if p == [] {
      assert p + q == q;
    } else {
      assert (p + q)[0] == p[0];
      assert (p + q)[1..] == p[1..] + q;
      match FindKey(v, p[0])
      case None =>
      case Some(child) => FindPathAppend(child, p[1..], q);
    }
  }
}
