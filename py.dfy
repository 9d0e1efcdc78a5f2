/** The Python built-in behaviour the core relies on, over dynamic values:
    truthiness, `x or default`, `dict.get`, `d[key]`, iteration (`for`, `list(...)`)
    membership in a set of strings (which hashes its operand), `item in container`
    and `d[key] = value`. */
module Py {
  import opened Models
  import opened Results
  import Text

  /** `bool(v)`: false exactly for None, False, zero and the empty str, list and dict. */
  function Truthy(v: Value): (b: bool)
    ensures !b <==> v == Null || v == Bool(false) || v == Int(0) || v == Str("") || v == List([]) || v == Dict([])
  {
    match v
    case Null => false
    case Str(s) => s != ""
    case Bool(b) => b
    case Int(i) => i != 0
    case List(items) => items != []
    case Dict(entries) => entries != []
    case _ => true
  }

  /** `v or fallback` */
  function Or(v: Value, fallback: Value): (r: Value)
    ensures Truthy(v) ==> r == v
    ensures !Truthy(v) ==> r == fallback
  {
    if Truthy(v) then v else fallback
  }

  predicate HasKey(entries: seq<(string, Value)>, key: string) {
    exists i | 0 <= i < |entries| :: entries[i].0 == key
  }

  /** The value stored under `key` in a dict. */
  function Find(entries: seq<(string, Value)>, key: string): (r: Option<Value>)
    ensures r.Some? <==> HasKey(entries, key)
    ensures r.Some? ==> exists i | 0 <= i < |entries| ::
              entries[i] == (key, r.value) && forall j | 0 <= j < i :: entries[j].0 != key
    decreases |entries|
  {
    if |entries| == 0 then None
    else if entries[0].0 == key then Some(entries[0].1)
    else
      var r := Find(entries[1..], key);
      assert forall j | 1 <= j < |entries| :: entries[1..][j - 1] == entries[j];
      r
  }

  /** Past a first entry with another key, the key is in the rest or nowhere. */
  lemma HasKeyOfTail(entries: seq<(string, Value)>, key: string)
    requires |entries| > 0 && entries[0].0 != key
    ensures HasKey(entries, key) <==> HasKey(entries[1..], key)
  {
    if HasKey(entries, key) {
      var i :| 0 <= i < |entries| && entries[i].0 == key;
      assert entries[1..][i - 1].0 == key;
    }
    if HasKey(entries[1..], key) {
      var i :| 0 <= i < |entries[1..]| && entries[1..][i].0 == key;
      assert entries[i + 1].0 == key;
    }
  }

  /** Looking a key up in two concatenated entry lists finds it in the first, if there. */
  lemma {:induction false} FindConcat(a: seq<(string, Value)>, b: seq<(string, Value)>, key: string)
    ensures Find(a + b, key) == if HasKey(a, key) then Find(a, key) else Find(b, key)
    decreases |a|
  {
    if |a| == 0 {
      assert a + b == b;
    } else if a[0].0 == key {
      assert (a + b)[0] == a[0];
    } else {
      FindConcat(a[1..], b, key);
      assert (a + b)[1..] == a[1..] + b;
      HasKeyOfTail(a, key);
    }
  }

  /** `d.get(key, default)` on a value known to be a dict. */
  function Lookup(entries: seq<(string, Value)>, key: string, default: Value): (r: Value)
    ensures !HasKey(entries, key) ==> r == default
    ensures HasKey(entries, key) ==> r == Find(entries, key).value
  {
    Find(entries, key).GetOr(default)
  }

  /** `v` is what `d.get(key, default)` binds: the value stored under `key`, or `default`
      when the key is missing. */
  predicate Given(entries: seq<(string, Value)>, key: string, default: Value, v: Value) {
    (HasKey(entries, key) ==> v == Find(entries, key).value) && (!HasKey(entries, key) ==> v == default)
  }

  /** The AttributeError of calling `get` on something that is not a dict. */
  const NoGet: Error := AttributeError("object has no attribute 'get'")

  /** `obj.get(key, default)`; only a dict has `get`. */
  function Get(obj: Value, key: string, default: Value): (r: Result<Value>)
    ensures r.Ok? <==> obj.Dict?
    ensures !obj.Dict? ==> r == Err(NoGet)
    ensures obj.Dict? ==> r == Ok(Lookup(obj.entries, key, default))
  {
    match obj
    case Dict(entries) => Ok(Lookup(entries, key, default))
    case _ => Err(NoGet)
  }

  /** `obj[key]` with a string key. */
  function Subscript(obj: Value, key: string): (r: Result<Value>)
    ensures r.Ok? <==> obj.Dict? && HasKey(obj.entries, key)
    ensures obj.Dict? && !HasKey(obj.entries, key) ==> r == Err(KeyError(key))
  {
    match obj
    case Dict(entries) =>
      (match Find(entries, key)
       case Some(v) => Ok(v)
       case None => Err(KeyError(key)))
    case List(_) => Err(TypeError("list indices must be integers or slices, not str"))
    case Str(_) => Err(TypeError("string indices must be integers"))
    case _ => Err(TypeError("object is not subscriptable"))
  }

  /** The elements `for x in v` visits: a list's items, a string's characters,
      a dict's keys; anything else is not iterable. */
  function Iterate(v: Value): (r: Result<seq<Value>>)
    ensures r.Ok? <==> v.List? || v.Str? || v.Dict?
    ensures v.List? ==> r == Ok(v.items)
    ensures v.Str? ==> r.Ok? && |r.value| == |v.s|
    ensures v.Dict? ==> r.Ok? && |r.value| == |v.entries|
  {
    match v
    case List(items) => Ok(items)
    case Str(s) => Ok(seq(|s|, i requires 0 <= i < |s| => Str([s[i]])))
    case Dict(entries) => Ok(seq(|entries|, i requires 0 <= i < |entries| => Str(entries[i].0)))
    case _ => Err(TypeError("object is not iterable"))
  }

  /** Lists, dicts and (non-frozen) dataclass instances have no hash. */
  predicate Hashable(v: Value) {
    !(v.List? || v.Dict? || v.Time? || v.Scope? || v.Metrics?)
  }

  /** `v in allowed` for a set of strings: hashes `v`, then only an equal string is a member. */
  function Member(v: Value, allowed: set<string>): (r: Result<bool>)
    ensures r.Ok? <==> Hashable(v)
    ensures r.Ok? ==> (r.value <==> v.Str? && v.s in allowed)
    ensures !Hashable(v) ==> r == Err(TypeError("unhashable type"))
  {
    if !Hashable(v) then Err(TypeError("unhashable type"))
    else Ok(v.Str? && v.s in allowed)
  }

  /** `item in container` for a string item: a substring of a string, an element of a
      list, a key of a dict; any other container raises. */
  function In(item: string, container: Value): (r: Result<bool>)
    ensures r.Ok? <==> container.Str? || container.List? || container.Dict?
    ensures container.Str? ==> r == Ok(Text.Contains(container.s, item))
    ensures container.List? ==> r == Ok(Str(item) in container.items)
    ensures container.Dict? ==> r == Ok(HasKey(container.entries, item))
  {
    match container
    case Str(s) => Ok(Text.Contains(s, item))
    case List(items) => Ok(Str(item) in items)
    case Dict(entries) => Ok(HasKey(entries, item))
    case _ => Err(TypeError("argument is not iterable"))
  }

  /** `d[key] = value`: the first entry with that key takes the new value in place;
      a new key is appended. */
  function Assign(entries: seq<(string, Value)>, key: string, value: Value): (r: seq<(string, Value)>)
    ensures HasKey(entries, key) ==> |r| == |entries| && forall i | 0 <= i < |r| :: r[i].0 == entries[i].0
    ensures !HasKey(entries, key) ==> r == entries + [(key, value)]
    decreases |entries|
  {
    if |entries| == 0 then [(key, value)]
    else if entries[0].0 == key then [(key, value)] + entries[1..]
    else
      HasKeyOfTail(entries, key);
      [entries[0]] + Assign(entries[1..], key, value)
  }

  /** After `d[key] = value`, `key` maps to `value` and every other key to what it did. */
  lemma {:induction false} AssignFind(entries: seq<(string, Value)>, key: string, value: Value, k: string)
    ensures Find(Assign(entries, key, value), k) == if k == key then Some(value) else Find(entries, k)
    decreases |entries|
  {
    if |entries| > 0 && entries[0].0 != key {
      AssignFind(entries[1..], key, value, k);
      var r := Assign(entries, key, value);
      assert r[1..] == Assign(entries[1..], key, value);
      if entries[0].0 != k {
        HasKeyOfTail(entries, k);
        HasKeyOfTail(r, k);
      }
    } else if |entries| > 0 && k != key {
      var r := Assign(entries, key, value);
      assert r[1..] == entries[1..];
      HasKeyOfTail(entries, k);
      HasKeyOfTail(r, k);
    }
  }
}
