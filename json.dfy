/**
 * JSON values as the backend sees them after `json.loads`, and the handful of
 * Python dictionary operations the tools rely on.
 *
 * A Python `dict` keeps its keys in insertion order, and that order is visible
 * (`list(update.keys())`, the order of request parameters).  A dictionary is
 * therefore an association list; `Put` is `d[k] = v` and `Update` is
 * `d.update(u)`.  Numbers are integers only.
 */
module Json {

  datatype Option<+T> = None | Some(value: T) {
    function GetOr(default: T): T {
      match this
      case Some(v) => v
      case None => default
    }
  }

  /** A success value, or the text of the Python exception that was raised. */
  datatype Result<+T> = Ok(value: T) | Fail(message: string) {
    predicate IsFailure() { Fail? }
    function PropagateFailure<U>(): Result<U> requires Fail? { Fail(message) }
    function Extract(): T requires Ok? { value }
  }

  datatype Json =
    | Null
    | Bool(b: bool)
    | Int(i: int)
    | Str(s: string)
    | Arr(items: seq<Json>)
    | Obj(fields: seq<(string, Json)>)

  type Dict = seq<(string, Json)>

  /** Python truthiness of a decoded JSON value. */
  predicate Truthy(j: Json) {
    match j
    case Null => false
    case Bool(b) => b
    case Int(i) => i != 0
    case Str(s) => s != ""
    case Arr(a) => a != []
    case Obj(f) => f != []
  }

  /** Python's `a or b`. */
  function Or(a: Json, b: Json): (r: Json)
    ensures Truthy(a) ==> r == a
    ensures !Truthy(a) ==> r == b
  {
    if Truthy(a) then a else b
  }

  /** The name Python gives the type of the decoded value, as it appears in exception texts. */
  function TypeName(j: Json): string {
    match j
    case Null => "NoneType"
    case Bool(_) => "bool"
    case Int(_) => "int"
    case Str(_) => "str"
    case Arr(_) => "list"
    case Obj(_) => "dict"
  }

  /** Text used where Python would coerce a value of a type outside the tool schema. */
  const NotModelledMessage: string := "argument of a type outside the tool schema"

  function DigitChar(d: nat): char
    requires d < 10
  {
    "0123456789"[d]
  }

  /** Decimal text of a natural number, as `str(n)` prints it. */
  function NatToString(n: nat): (s: string)
    ensures |s| > 0
    decreases n
  {
    if n < 10 then [DigitChar(n)] else NatToString(n / 10) + [DigitChar(n % 10)]
  }

  // ----- dictionaries -----

  function Keys(d: Dict): (ks: seq<string>)
    ensures |ks| == |d|
    ensures forall i :: 0 <= i < |d| ==> ks[i] == d[i].0
  {
    if d == [] then [] else [d[0].0] + Keys(d[1..])
  }

  ghost predicate DistinctKeys(d: Dict) {
    forall i, j :: 0 <= i < j < |d| ==> d[i].0 != d[j].0
  }

  /** `d.get(k)`, with `None` for a missing key. */
  function Lookup(d: Dict, k: string): (v: Option<Json>)
    ensures v.Some? <==> k in Keys(d)
  {
    if d == [] then None else if d[0].0 == k then Some(d[0].1) else Lookup(d[1..], k)
  }

  /** `d[k] = v`: an existing key keeps its place and takes the new value; a new key goes last. */
  function Put(d: Dict, k: string, v: Json): (r: Dict)
    ensures Keys(r) == if k in Keys(d) then Keys(d) else Keys(d) + [k]
    ensures forall x :: Lookup(r, x) == if x == k then Some(v) else Lookup(d, x)
  {
    if d == [] then [(k, v)]
    else if d[0].0 == k then [(k, v)] + d[1..]
    else [d[0]] + Put(d[1..], k, v)
  }

  /** Assigning a key that is not yet present appends it. */
  lemma {:induction false} PutNew(d: Dict, k: string, v: Json)
    requires k !in Keys(d)
    ensures Put(d, k, v) == d + [(k, v)]
  {
    if d != [] {
      assert Keys(d) == [d[0].0] + Keys(d[1..]);
      PutNew(d[1..], k, v);
    }
  }

  /** The first entry with a given key is the one `d.get` finds. */
  lemma {:induction false} LookupAt(d: Dict, i: nat)
    requires i < |d|
    requires forall j :: 0 <= j < i ==> d[j].0 != d[i].0
    ensures Lookup(d, d[i].0) == Some(d[i].1)
  {
    if i > 0 {
      forall j | 0 <= j < i - 1 ensures d[1..][j].0 != d[1..][i - 1].0 {
        assert d[1..][j] == d[j + 1];
      }
      LookupAt(d[1..], i - 1);
    }
  }

  /** `d.update(u)`: the entries of `u` are assigned one after the other. */
  function Update(d: Dict, u: Dict): Dict
    decreases |u|
  {
    if u == [] then d else Update(Put(d, u[0].0, u[0].1), u[1..])
  }

  lemma {:induction false} DistinctCons(e: (string, Json), t: Dict)
    requires DistinctKeys(t) && e.0 !in Keys(t)
    ensures DistinctKeys([e] + t)
  {
    forall i, j | 0 <= i < j < |t| + 1 ensures ([e] + t)[i].0 != ([e] + t)[j].0 {
      if i == 0 {
        assert ([e] + t)[j] == t[j - 1];
        assert Keys(t)[j - 1] == t[j - 1].0;
      } else {
        assert ([e] + t)[i] == t[i - 1] && ([e] + t)[j] == t[j - 1];
      }
    }
  }

  lemma {:induction false} DistinctTail(u: Dict)
    requires u != [] && DistinctKeys(u)
    ensures DistinctKeys(u[1..]) && u[0].0 !in Keys(u[1..])
  {
    forall i | 0 <= i < |u| - 1 ensures u[1..][i].0 != u[0].0 {
      assert u[1..][i] == u[i + 1];
    }
  }

  lemma {:induction false} LookupTail(u: Dict, x: string)
    requires u != [] && u[0].0 != x
    ensures Lookup(u, x) == Lookup(u[1..], x)
  {
  }

  lemma {:induction false} KeysTail(u: Dict)
    requires u != []
    ensures Keys(u) == [u[0].0] + Keys(u[1..])
  {
  }

  /** After `d.update(u)`, every key of `u` has its value from `u` and every other key its value from `d`. */
  lemma {:induction false} UpdateLookup(d: Dict, u: Dict, x: string)
    requires DistinctKeys(u)
    ensures Lookup(Update(d, u), x) == if x in Keys(u) then Lookup(u, x) else Lookup(d, x)
    decreases |u|
  {
    if u != [] {
      var (k, v) := u[0];
      DistinctTail(u);
      KeysTail(u);
      UpdateLookup(Put(d, k, v), u[1..], x);
      if x != k {
        LookupTail(u, x);
      }
    }
  }

  /** `d.update(u)` deletes nothing: the keys of `d` stay first and in place. */
  lemma {:induction false} UpdateKeys(d: Dict, u: Dict)
    ensures |Keys(Update(d, u))| >= |Keys(d)|
    ensures Keys(Update(d, u))[..|d|] == Keys(d)
    decreases |u|
  {
    if u != [] {
      var d' := Put(d, u[0].0, u[0].1);
      UpdateKeys(d', u[1..]);
      assert Keys(d')[..|d|] == Keys(d);
    }
  }

  /** The keys after `d.update(u)` are those of `d` and those of `u`. */
  lemma {:induction false} UpdateKeySet(d: Dict, u: Dict, x: string)
    ensures x in Keys(Update(d, u)) <==> x in Keys(d) || x in Keys(u)
    decreases |u|
  {
    if u != [] {
      KeysTail(u);
      UpdateKeySet(Put(d, u[0].0, u[0].1), u[1..], x);
    }
  }

  /** A dictionary whose keys are distinct keeps them distinct under `d[k] = v`. */
  lemma {:induction false} PutDistinct(d: Dict, k: string, v: Json)
    requires DistinctKeys(d)
    ensures DistinctKeys(Put(d, k, v))
  {
    if d != [] {
      DistinctTail(d);
      KeysTail(d);
      if d[0].0 == k {
        DistinctCons((k, v), d[1..]);
      } else {
        PutDistinct(d[1..], k, v);
        DistinctCons(d[0], Put(d[1..], k, v));
      }
    }
  }

  lemma {:induction false} UpdateDistinct(d: Dict, u: Dict)
    requires DistinctKeys(d)
    ensures DistinctKeys(Update(d, u))
    decreases |u|
  {
    if u != [] {
      PutDistinct(d, u[0].0, u[0].1);
      UpdateDistinct(Put(d, u[0].0, u[0].1), u[1..]);
    }
  }

  /** Assigning a key the value it already has changes nothing. */
  lemma {:induction false} PutSame(d: Dict, k: string, v: Json)
    requires Lookup(d, k) == Some(v)
    ensures Put(d, k, v) == d
  {
    if d[0].0 != k {
      PutSame(d[1..], k, v);
    }
  }

  /** `e.update(u)` is the identity when `e` already agrees with every entry of `u`. */
  lemma {:induction false} UpdateAgreeing(e: Dict, u: Dict)
    requires DistinctKeys(u)
    requires forall x :: x in Keys(u) ==> Lookup(e, x) == Lookup(u, x)
    ensures Update(e, u) == e
    decreases |u|
  {
    if u != [] {
      var (k, v) := u[0];
      KeysTail(u);
      assert Lookup(e, k) == Some(v);
      PutSame(e, k, v);
      DistinctTail(u);
      forall x | x in Keys(u[1..]) ensures Lookup(e, x) == Lookup(u[1..], x) {
        LookupTail(u, x);
      }
      UpdateAgreeing(e, u[1..]);
    }
  }

  /** Merging the same update twice leaves the same dictionary as merging it once. */
  lemma {:induction false} UpdateIdempotent(d: Dict, u: Dict)
    requires DistinctKeys(u)
    ensures Update(Update(d, u), u) == Update(d, u)
  {
    forall x | x in Keys(u) ensures Lookup(Update(d, u), x) == Lookup(u, x) {
      UpdateLookup(d, u, x);
    }
    UpdateAgreeing(Update(d, u), u);
  }

  // ----- accessing decoded tool arguments -----

  /** `j.get(key)`: `None` (JSON null) for a missing key; an AttributeError when `j` is not a dict. */
  function PyGet(j: Json, key: string): (r: Result<Json>)
    ensures j.Obj? <==> r.Ok?
    ensures j.Obj? ==> r.value == Lookup(j.fields, key).GetOr(Null)
  {
    if j.Obj? then Ok(Lookup(j.fields, key).GetOr(Null))
    else Fail("'" + TypeName(j) + "' object has no attribute 'get'")
  }

  /** `j.get(key, default)`: the default replaces only a missing key, not a present null. */
  function PyGetOr(j: Json, key: string, default: Json): (r: Result<Json>)
    ensures j.Obj? <==> r.Ok?
    ensures j.Obj? && key in Keys(j.fields) ==> r.value == Lookup(j.fields, key).value
    ensures j.Obj? && key !in Keys(j.fields) ==> r.value == default
  {
    if j.Obj? then Ok(Lookup(j.fields, key).GetOr(default))
    else Fail("'" + TypeName(j) + "' object has no attribute 'get'")
  }

  /** What `for x in j` visits: list items, the keys of a dict, the characters of a string. */
  function PyIter(j: Json): (r: Result<seq<Json>>)
    ensures j.Arr? ==> r == Ok(j.items)
    ensures r.Ok? <==> j.Arr? || j.Obj? || j.Str?
    ensures j.Obj? ==> r.Ok? && |r.value| == |j.fields| && forall i :: 0 <= i < |j.fields| ==> r.value[i] == Str(j.fields[i].0)
    ensures j.Str? ==> r.Ok? && |r.value| == |j.s| && forall i :: 0 <= i < |j.s| ==> r.value[i] == Str([j.s[i]])
  {
    match j
    case Arr(items) => Ok(items)
    case Obj(f) => Ok(seq(|f|, i requires 0 <= i < |f| => Str(f[i].0)))
    case Str(s) => Ok(seq(|s|, i requires 0 <= i < |s| => Str([s[i]])))
    case _ => Fail("'" + TypeName(j) + "' object is not iterable")
  }

  /**
   * `j[key]`: a KeyError when the key is missing.  Its text `repr(key)` is the key in single
   * quotes for every key without a quote character, and so for every literal key the tools
   * index with.  A key holding `'`, which `repr` would put in double quotes, is not modelled.
   */
  function PyIndex(j: Json, key: string): (r: Result<Json>)
    ensures r.Ok? <==> j.Obj? && key in Keys(j.fields)
    ensures r.Ok? ==> Lookup(j.fields, key) == Some(r.value)
    ensures j.Obj? && key !in Keys(j.fields) ==> r == Fail("'" + key + "'")
  {
    match j
    case Obj(f) => if key in Keys(f) then Ok(Lookup(f, key).value) else Fail("'" + key + "'")
    case Arr(_) => Fail("list indices must be integers or slices, not str")
    case Str(_) => Fail("string indices must be integers, not 'str'")
    case _ => Fail("'" + TypeName(j) + "' object is not subscriptable")
  }
}
