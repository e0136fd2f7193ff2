// The JSON-shaped values the system passes between its components (Python
// dicts, lists, strings, numbers, booleans and None). A dict keeps its
// insertion order, as Python's does, so objects are sequences of pairs.
module Json {
  import opened Wrappers

  datatype Json =
    | JNull
    | JBool(b: bool)
    | JNum(n: real)
    | JStr(s: string)
    | JArr(items: seq<Json>)
    | JObj(fields: seq<(string, Json)>)

  /** Python truthiness: None, False, 0, "", [] and {} are false. */
  predicate Truthy(j: Json)
  {
    match j
    case JNull => false
    case JBool(b) => b
    case JNum(n) => n != 0.0
    case JStr(s) => s != ""
    case JArr(xs) => xs != []
    case JObj(fs) => fs != []
  }

  function Keys<V>(fields: seq<(string, V)>): (r: seq<string>)
    ensures |r| == |fields|
    ensures forall i :: 0 <= i < |r| ==> r[i] == fields[i].0
  {
    seq(|fields|, i requires 0 <= i < |fields| => fields[i].0)
  }

  /** The dict with `keys` in order, each holding its value. */
  function Zip<V>(keys: seq<string>, values: seq<V>): (r: seq<(string, V)>)
    requires |keys| == |values|
    ensures Keys(r) == keys
    ensures |r| == |values| && forall i :: 0 <= i < |r| ==> r[i].1 == values[i]
  {
    seq(|keys|, i requires 0 <= i < |keys| => (keys[i], values[i]))
  }

  lemma KeysConcat<V>(a: seq<(string, V)>, b: seq<(string, V)>)
    ensures Keys(a + b) == Keys(a) + Keys(b)
  {
  }

  predicate HasKey<V>(fields: seq<(string, V)>, key: string)
  {
    key in Keys(fields)
  }

  /** `d.get(key)` on a dict: the value stored under the key. */
  function Lookup<V>(fields: seq<(string, V)>, key: string): (r: Option<V>)
    ensures r.Some? <==> HasKey(fields, key)

  {
    if fields == [] then None
    else if fields[0].0 == key then Some(fields[0].1)
    else Lookup(fields[1..], key)
  }

  /** A value found under a key is stored in the dict under that key. */
  lemma {:induction false} LookupIn<V>(fields: seq<(string, V)>, key: string)
    requires HasKey(fields, key)
    ensures (key, Lookup(fields, key).value) in fields
  {
    if fields[0].0 != key {
      assert Keys(fields[1..]) == Keys(fields)[1..];
      LookupIn(fields[1..], key);
    }
  }

  /** The value under a key is the one at the key's first position. */
  lemma {:induction false} LookupAt<V>(fields: seq<(string, V)>, key: string, i: nat)
    requires i < |fields| && fields[i].0 == key
    requires forall j :: 0 <= j < i ==> fields[j].0 != key
    ensures Lookup(fields, key) == Some(fields[i].1)
  {
    if i > 0 {
      LookupAt(fields[1..], key, i - 1);
    }
  }

  /** Looking up in two dicts joined: the first one's value when it has the key, else the second's. */
  lemma {:induction false} LookupConcat<V>(x: seq<(string, V)>, y: seq<(string, V)>, key: string)
    ensures Lookup(x + y, key) == if HasKey(x, key) then Lookup(x, key) else Lookup(y, key)
  {
    if x == [] {
      assert x + y == y;
    } else {
      assert (x + y)[1..] == x[1..] + y;
      assert Keys(x) == [x[0].0] + Keys(x[1..]);
      LookupConcat(x[1..], y, key);
    }
  }

  /** `d[key] = value`: replaces in place when present, appends otherwise. */
  function Put<V>(fields: seq<(string, V)>, key: string, value: V): (r: seq<(string, V)>)
    ensures Lookup(r, key) == Some(value)
  {
    if fields == [] then [(key, value)]
    else if fields[0].0 == key then [(key, value)] + fields[1..]
    else
      var rest := Put(fields[1..], key, value);
      var r := [fields[0]] + rest;
      assert r[1..] == rest;
      r
  }

  /** Assignment leaves every other key's value as it was. */
  lemma {:induction false} PutOther<V>(fields: seq<(string, V)>, key: string, value: V, k: string)
    requires k != key
    ensures Lookup(Put(fields, key, value), k) == Lookup(fields, k)
  {
    if fields != [] && fields[0].0 != key {
      var rest := Put(fields[1..], key, value);
      PutOther(fields[1..], key, value, k);
      assert Put(fields, key, value) == [fields[0]] + rest;
      assert ([fields[0]] + rest)[1..] == rest;
    }
  }

  /** Assigning an existing key keeps every key in its place. */
  lemma {:induction false} PutOldKeys<V>(fields: seq<(string, V)>, key: string, value: V)
    requires HasKey(fields, key)
    ensures Keys(Put(fields, key, value)) == Keys(fields)
  {
    var tail := fields[1..];
    if fields[0].0 != key {
      assert Keys(fields) == [fields[0].0] + Keys(tail);
      PutOldKeys(tail, key, value);
      var rest := Put(tail, key, value);
      assert Put(fields, key, value) == [fields[0]] + rest;
      assert Keys([fields[0]] + rest) == [fields[0].0] + Keys(rest);
    } else {
      assert Put(fields, key, value) == [(key, value)] + tail;
    }
  }

  /** Assigning a new key appends it. */
  lemma {:induction false} PutNew<V>(fields: seq<(string, V)>, key: string, value: V)
    requires !HasKey(fields, key)
    ensures Put(fields, key, value) == fields + [(key, value)]
  {
    if fields != [] {
      var tail := fields[1..];
      assert Keys(fields)[0] == fields[0].0;
      assert Keys(tail) == Keys(fields)[1..];
      PutNew(tail, key, value);
      assert Put(fields, key, value) == [fields[0]] + Put(tail, key, value);
      assert [fields[0]] + (tail + [(key, value)]) == fields + [(key, value)];
    }
  }

  /** Assignment keeps the key order: an existing key stays in its place, a new one goes last. */
  lemma PutKeys<V>(fields: seq<(string, V)>, key: string, value: V)
    ensures HasKey(fields, key) ==> Keys(Put(fields, key, value)) == Keys(fields)
    ensures !HasKey(fields, key) ==> Keys(Put(fields, key, value)) == Keys(fields) + [key]
  {
    if HasKey(fields, key) {
      PutOldKeys(fields, key, value);
    } else {
      PutNew(fields, key, value);
    }
  }

  /** `obj.get(key)` on any value: only a dict has keys. */
  function Get(j: Json, key: string): Option<Json>
  {
    if j.JObj? then Lookup(j.fields, key) else None
  }

  /** `d.get(key, default)`; a stored None is returned as None. */
  function GetOr(fields: seq<(string, Json)>, key: string, default: Json): Json
  {
    Lookup(fields, key).GetOr(default)
  }

  /** Truncation toward zero, as Python's `int()` does on a float. */
  function TruncToInt(x: real): (r: int)
    ensures x >= 0.0 ==> r as real <= x < r as real + 1.0
    ensures x < 0.0 ==> r as real - 1.0 < x <= r as real
  {
    if x >= 0.0 then x.Floor else -((-x).Floor)
  }

  /**
   * Python's `float(s)` and `int(s)` on strings, None where they raise; the
   * numeric-literal grammar they accept is not part of this model.
   */
  datatype NumParse = NumParse(floatOf: string -> Option<real>, intOf: string -> Option<int>)

  /** `float(v)` for a decoded JSON value; None, lists and dicts raise. */
  function AsReal(j: Json, np: NumParse): (r: Result<real>)
    ensures j.JNum? ==> r == Ok(j.n)
    ensures j.JNull? || j.JArr? || j.JObj? ==> r.Err?
  {
    match j
    case JNum(n) => Ok(n)
    case JBool(b) => Ok(if b then 1.0 else 0.0)
    case JStr(s) => if np.floatOf(s).Some? then Ok(np.floatOf(s).value) else Err("could not convert string to float")
    case _ => Err("float() argument must be a string or a real number")
  }

  /** `int(v)` for a decoded JSON value: a float is truncated toward zero; None, lists and dicts raise. */
  function AsInt(j: Json, np: NumParse): (r: Result<int>)
    ensures j.JNum? && j.n >= 0.0 ==> r.Ok? && r.value as real <= j.n < r.value as real + 1.0
    ensures j.JNum? && j.n < 0.0 ==> r.Ok? && r.value as real - 1.0 < j.n <= r.value as real
    ensures j.JNull? || j.JArr? || j.JObj? ==> r.Err?
  {
    match j
    case JNum(n) => Ok(TruncToInt(n))
    case JBool(b) => Ok(if b then 1 else 0)
    case JStr(s) => if np.intOf(s).Some? then Ok(np.intOf(s).value) else Err("invalid literal for int()")
    case _ => Err("int() argument must be a string or a real number")
  }

  /** The dicts visited by `for d in v` where each `d` is then used as a dict; iterating anything else raises. */
  function IterDicts(v: Json): (r: Option<seq<Json>>)
    ensures r.Some? ==> forall i :: 0 <= i < |r.value| ==> r.value[i].JObj?
    ensures v.JArr? && (forall i :: 0 <= i < |v.items| ==> v.items[i].JObj?) ==> r == Some(v.items)
    ensures r.Some? && r.value != [] ==> v.JArr? && r.value == v.items
  {
    match v
    case JArr(items) => if forall i :: 0 <= i < |items| ==> items[i].JObj? then Some(items) else None
    case JObj(fields) => if fields == [] then Some([]) else None
    case JStr(s) => if s == "" then Some([]) else None
    case _ => None
  }

  /** `str(v)`, as an f-string inserts it: a string as it is, any other value as `show` renders it. */
  function Shown(v: Json, show: Json -> string): (r: string)
    ensures v.JStr? ==> r == v.s
  {
    if v.JStr? then v.s else show(v)
  }

  /** A string field: the value when it is a string, the default otherwise. */
  function StrOr(j: Option<Json>, default: string): string
  {
    if j.Some? && j.value.JStr? then j.value.s else default
  }

  const TypeError := "TypeError"

  /** Iterating a value with `for x in v`: a list's items, a string's characters or a dict's keys. */
  function Iterated(v: Json): Result<seq<Json>>
  {
    match v
    case JArr(items) => Ok(items)
    case JStr(s) => Ok(seq(|s|, i requires 0 <= i < |s| => JStr([s[i]])))
    case JObj(fields) => Ok(StrList(Keys(fields)))
    case _ => Err(TypeError)
  }

  function StrList(xs: seq<string>): (r: seq<Json>)
    ensures |r| == |xs| && forall i :: 0 <= i < |xs| ==> r[i] == JStr(xs[i])
  {
    if xs == [] then [] else [JStr(xs[0])] + StrList(xs[1..])
  }

  /** A list of strings back out of a decoded list; other elements are dropped. */
  function Strings(xs: seq<Json>): (r: seq<string>)
    ensures |r| <= |xs|
  {
    if xs == [] then []
    else (if xs[0].JStr? then [xs[0].s] else []) + Strings(xs[1..])
  }

  lemma {:induction false} StringsOfStrList(xs: seq<string>)
    ensures Strings(StrList(xs)) == xs
  {
    if xs != [] {
      StringsOfStrList(xs[1..]);
      assert StrList(xs)[1..] == StrList(xs[1..]);
    }
  }
}
