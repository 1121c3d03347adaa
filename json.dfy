/** The values that `json.loads`, a TOML loader and the HTTP client hand to the
    ingester, and the Python operations the ingester applies to them.

    A dict is an association list in insertion order, which is the order in
    which Python iterates over it; a dict built by a parser has distinct keys,
    so the first binding of a key is its only one. Floats are not modelled:
    every number is an integer. */
module Json {
  import opened Py

  datatype Json =
    | JNull
    | JBool(b: bool)
    | JInt(n: int)
    | JStr(s: string)
    | JList(items: seq<Json>)
    | JObj(fields: seq<(string, Json)>)

  /** The keys of a dict, in iteration order. */
  function Keys(fields: seq<(string, Json)>): (r: seq<string>)
    ensures |r| == |fields|
    ensures forall i :: 0 <= i < |fields| ==> r[i] == fields[i].0
  {
    if fields == [] then [] else [fields[0].0] + Keys(fields[1..])
  }

  /** The value a dict binds to `key`, if any (`d.get(key)` on a dict). */
  function Lookup(fields: seq<(string, Json)>, key: string): (r: Option<Json>)
    ensures r.None? <==> key !in Keys(fields)
    ensures r.Some? ==> (key, r.value) in fields
  {
    if fields == [] then None
    else if fields[0].0 == key then Some(fields[0].1)
    else Lookup(fields[1..], key)
  }

  /** The dict as a map from each key to the value it binds. */
  function ToMap(fields: seq<(string, Json)>): (m: map<string, Json>)
    ensures forall k :: k in m <==> k in Keys(fields)
    ensures forall k :: k in m ==> Lookup(fields, k) == Some(m[k])
  {
    if fields == [] then map[]
    else ToMap(fields[1..])[fields[0].0 := fields[0].1]
  }

  /** Python truthiness: `None`, `False`, zero and empty containers are false. */
  predicate Truthy(j: Json) {
    match j
    case JNull => false
    case JBool(b) => b
    case JInt(n) => n != 0
    case JStr(s) => s != ""
    case JList(items) => items != []
    case JObj(fields) => fields != []
  }

  /** `key in j` for a dict `j`. */
  predicate HasKey(j: Json, key: string) {
    j.JObj? && key in Keys(j.fields)
  }

  /** `j[key]` with a string key: a dict yields its value or raises KeyError;
      a list or string index by a string, and a scalar subscript, raise TypeError. */
  function Subscript(j: Json, key: string): (r: Result<Json>)
    ensures r.Ok? <==> HasKey(j, key)
    ensures r.Ok? ==> (key, r.value) in j.fields
    ensures r.Err? ==> r.exc == (if j.JObj? then KeyError else TypeError)
  {
    match j
    case JObj(fields) =>
      (match Lookup(fields, key)
       case Some(v) => Ok(v)
       case None => Err(KeyError))
    case _ => Err(TypeError)
  }

  /** `j.get(key, default)`: only a dict has a `get` method. */
  function GetOr(j: Json, key: string, default: Json): (r: Result<Json>)
    ensures r.Ok? <==> j.JObj?
    ensures r.Ok? && HasKey(j, key) ==> r == Subscript(j, key)
    ensures r.Ok? && !HasKey(j, key) ==> r.value == default
    ensures r.Err? ==> r.exc == AttributeError
  {
    match j
    case JObj(fields) =>
      (match Lookup(fields, key)
       case Some(v) => Ok(v)
       case None => Ok(default))
    case _ => Err(AttributeError)
  }

  /** The elements `for x in j` visits: a list's items, a string's characters
      (one-character strings), a dict's keys; a scalar is not iterable. */
  function Elements(j: Json): (r: Result<seq<Json>>)
    ensures r.Ok? <==> (j.JList? || j.JStr? || j.JObj?)
    ensures j.JList? ==> r == Ok(j.items)
    ensures j.JStr? ==> r.Ok? && |r.value| == |j.s|
    ensures j.JObj? ==> r.Ok? && |r.value| == |j.fields|
  {
    match j
    case JList(items) => Ok(items)
    case JStr(s) => Ok(seq(|s|, i requires 0 <= i < |s| => JStr([s[i]])))
    case JObj(fields) => Ok(seq(|fields|, i requires 0 <= i < |fields| => JStr(fields[i].0)))
    case _ => Err(TypeError)
  }

  /** `len(j)`: defined for lists, strings and dicts. */
  function Len(j: Json): (r: Result<nat>)
    ensures r.Ok? <==> Elements(j).Ok?
    ensures r.Ok? ==> r.value == |Elements(j).value|
  {
    match j
    case JList(items) => Ok(|items|)
    case JStr(s) => Ok(|s|)
    case JObj(fields) => Ok(|fields|)
    case _ => Err(TypeError)
  }

  /** Decimal digits of a natural number, most significant first. */
  function NatToString(n: nat): (r: string)
    ensures |r| >= 1
    ensures forall i :: 0 <= i < |r| ==> '0' <= r[i] <= '9'
    decreases n
  {
    if n < 10 then [(('0' as int) + n) as char]
    else NatToString(n / 10) + [(('0' as int) + n % 10) as char]
  }

  function IntToString(n: int): string {
    if n < 0 then "-" + NatToString(-n) else NatToString(n)
  }

  /** `str(j)`, as an f-string renders a value: a string is itself, other
      values are shown by `Repr`. */
  function Str(j: Json): (r: string)
    ensures j.JStr? ==> r == j.s
  {
    match j
    case JStr(s) => s
    case _ => Repr(j)
  }

  /** `repr(j)`. Strings are shown between single quotes; the escaping Python
      applies to quotes, backslashes and unprintable characters inside them is
      not modelled. */
  function Repr(j: Json): string
    decreases j, 1
  {
    match j
    case JNull => "None"
    case JBool(b) => if b then "True" else "False"
    case JInt(n) => IntToString(n)
    case JStr(s) => "'" + s + "'"
    case JList(items) =>
      assert forall i :: 0 <= i < |items| ==> items[i] < j;
      "[" + ReprItems(j, items) + "]"
    case JObj(fields) =>
      assert forall i :: 0 <= i < |fields| ==> fields[i].1 < j;
      "{" + ReprFields(j, fields) + "}"
  }

  function ReprItems(parent: Json, items: seq<Json>): string
    requires forall i :: 0 <= i < |items| ==> items[i] < parent
    decreases parent, 0, |items|
  {
    if items == [] then ""
    else Repr(items[0]) + (if |items| == 1 then "" else ", " + ReprItems(parent, items[1..]))
  }

  function ReprFields(parent: Json, fields: seq<(string, Json)>): string
    requires forall i :: 0 <= i < |fields| ==> fields[i].1 < parent
    decreases parent, 0, |fields|
  {
    if fields == [] then ""
    else
      "'" + fields[0].0 + "': " + Repr(fields[0].1)
      + (if |fields| == 1 then "" else ", " + ReprFields(parent, fields[1..]))
  }
}
