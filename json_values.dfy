/** JSON-like values as the dashboard (Python) and the in-page extraction
    script (JavaScript) see them, with the small part of each language's
    semantics that the core relies on: dictionary lookup with a default,
    iteration, `len`, truthiness, subscripting and property access.

    An object is an ordered association list: Python dictionaries and
    JavaScript objects both keep insertion order, and the extraction
    script's depth-first search walks keys in that order. */
module JsonValues {

  datatype Json =
    | JNull
    | JBool(b: bool)
    | JNum(n: int)
    | JStr(s: string)
    | JArr(items: seq<Json>)
    | JObj(fields: seq<Field>)

  datatype Field = Field(key: string, val: Json)

  /** The exceptions the modelled code can raise (`DecodeError` is the one
      `json.load` raises on a malformed document). */
  datatype Error = AttributeError | TypeError | KeyError | DecodeError

  /** What reading a JSON document from disk gives. */
  datatype Document = Missing | Malformed | Parsed(content: Json)

  datatype Option<+T> = None | Some(value: T)

  /** Either a value or the exception that aborted the computation. */
  datatype Result<+T> = Ok(value: T) | Err(error: Error) {
    predicate IsFailure() { Err? }
    function PropagateFailure<U>(): Result<U>
      requires Err?
    {
      Err(error)
    }
    function Extract(): T
      requires Ok?
    {
      value
    }
  }

  const EmptyObj: Json := JObj([])
  const EmptyArr: Json := JArr([])

  // ---------------------------------------------------------------------
  // A termination measure. Scalars weigh nothing, containers weigh one more
  // than the values they hold, so every value stored in a container is
  // lighter than the container, and iterating a value never yields more
  // weight than the value itself had.

  function Size(j: Json): nat
  {
    match j
    case JArr(items) => 1 + SizeSeq(items)
    case JObj(fields) => 1 + SizeFields(fields)
    case _ => 0
  }

  function SizeSeq(xs: seq<Json>): nat
  {
    if xs == [] then 0 else Size(xs[0]) + SizeSeq(xs[1..])
  }

  function SizeFields(fs: seq<Field>): nat
  {
    if fs == [] then 0 else Size(fs[0].val) + SizeFields(fs[1..])
  }

  /** Every element of a list weighs at most the list. */
  lemma {:induction false} SizeSeqElement(xs: seq<Json>, i: nat)
    requires i < |xs|
    ensures Size(xs[i]) <= SizeSeq(xs)
  {
    if i > 0 {
      SizeSeqElement(xs[1..], i - 1);
    }
  }

  // ---------------------------------------------------------------------
  // Association lists

  /** The value stored under `k`; when a key occurs twice the later entry
      wins, as it does when either language parses a JSON object. */
  function Lookup(fs: seq<Field>, k: string): Option<Json>
  {
    if fs == [] then None
    else if fs[|fs| - 1].key == k then Some(fs[|fs| - 1].val)
    else Lookup(fs[..|fs| - 1], k)
  }

  /** A stored value weighs at most the entries holding it. */
  lemma {:induction false} LookupSmaller(fs: seq<Field>, k: string)
    ensures Lookup(fs, k).Some? ==> Size(Lookup(fs, k).value) <= SizeFields(fs)
  {
    if fs != [] {
      var n := |fs| - 1;
      SizeFieldsSplit(fs[..n], [fs[n]]);
      assert fs == fs[..n] + [fs[n]];
      assert SizeFields([fs[n]]) == Size(fs[n].val);
      LookupSmaller(fs[..n], k);
    }
  }

  /** `k in d`. */
  predicate HasKey(fs: seq<Field>, k: string)
  {
    Lookup(fs, k).Some?
  }

  /** A key is present exactly when some entry carries it. */
  lemma {:induction false} HasKeyIff(fs: seq<Field>, k: string)
    ensures HasKey(fs, k) <==> exists i :: 0 <= i < |fs| && fs[i].key == k
  {
    if fs != [] {
      var n := |fs| - 1;
      HasKeyIff(fs[..n], k);
      if fs[n].key != k && exists i :: 0 <= i < |fs| && fs[i].key == k {
        var i :| 0 <= i < |fs| && fs[i].key == k;
        assert fs[..n][i].key == k;
      }
    }
  }

  lemma {:induction false} SizeFieldsSplit(fs: seq<Field>, gs: seq<Field>)
    ensures SizeFields(fs + gs) == SizeFields(fs) + SizeFields(gs)
  {
    if fs != [] {
      assert (fs + gs)[0] == fs[0] && (fs + gs)[1..] == fs[1..] + gs;
      SizeFieldsSplit(fs[1..], gs);
    } else {
      assert fs + gs == gs;
    }
  }

  /** `d[k] = v`: an existing key keeps its position and takes the new value,
      a new key is appended at the end. */
  function Set(fs: seq<Field>, k: string, v: Json): (r: seq<Field>)
    ensures Lookup(r, k) == Some(v)
    ensures forall k' :: k' != k ==> Lookup(r, k') == Lookup(fs, k')
    ensures HasKey(fs, k) ==> |r| == |fs| && forall i :: 0 <= i < |fs| ==> r[i].key == fs[i].key
    ensures !HasKey(fs, k) ==> r == fs + [Field(k, v)]
  {
    if HasKey(fs, k) then
      var r := seq(|fs|, i requires 0 <= i < |fs| => if fs[i].key == k then Field(k, v) else fs[i]);
      SetLookup(fs, k, v, r);
      r
    else
      var r := fs + [Field(k, v)];
      assert r[..|r| - 1] == fs;
      r
  }

  lemma {:induction false} SetLookup(fs: seq<Field>, k: string, v: Json, r: seq<Field>)
    requires HasKey(fs, k)
    requires |r| == |fs|
    requires forall i :: 0 <= i < |fs| ==> r[i] == (if fs[i].key == k then Field(k, v) else fs[i])
    ensures Lookup(r, k) == Some(v)
    ensures forall k' :: k' != k ==> Lookup(r, k') == Lookup(fs, k')
    decreases |fs|
  {
    var n := |fs| - 1;
    if fs[n].key != k {
      SetLookup(fs[..n], k, v, r[..n]);
    } else {
      forall k' | k' != k ensures Lookup(r, k') == Lookup(fs, k') {
        if n > 0 { SameLookupElsewhere(fs[..n], r[..n], k, v, k'); }
      }
    }
  }

  lemma {:induction false} SameLookupElsewhere(fs: seq<Field>, r: seq<Field>, k: string, v: Json, k': string)
    requires |r| == |fs| && k' != k
    requires forall i :: 0 <= i < |fs| ==> r[i] == (if fs[i].key == k then Field(k, v) else fs[i])
    ensures Lookup(r, k') == Lookup(fs, k')
    decreases |fs|
  {
    if fs != [] {
      var n := |fs| - 1;
      SameLookupElsewhere(fs[..n], r[..n], k, v, k');
    }
  }

  /** The keys of an object, as the strings that iterating it yields. */
  function Keys(fs: seq<Field>): (r: seq<Json>)
    ensures |r| == |fs|
    ensures forall i :: 0 <= i < |fs| ==> r[i] == JStr(fs[i].key)
  {
    seq(|fs|, i requires 0 <= i < |fs| => JStr(fs[i].key))
  }

  /** The one-character strings that iterating a string yields. */
  function Chars(s: string): (r: seq<Json>)
    ensures |r| == |s|
    ensures forall i :: 0 <= i < |s| ==> r[i] == JStr([s[i]])
  {
    seq(|s|, i requires 0 <= i < |s| => JStr([s[i]]))
  }

  lemma {:induction false} WeightlessSeq(xs: seq<Json>)
    requires forall i :: 0 <= i < |xs| ==> xs[i].JStr?
    ensures SizeSeq(xs) == 0
  {
    if xs != [] {
      WeightlessSeq(xs[1..]);
    }
  }

  // ---------------------------------------------------------------------
  // Python

  /** `bool(v)`: None, False, 0, "", [] and {} are false. */
  predicate PyTruthy(v: Json)
  {
    match v
    case JNull => false
    case JBool(b) => b
    case JNum(n) => n != 0
    case JStr(s) => s != ""
    case JArr(items) => items != []
    case JObj(fields) => fields != []
  }

  /** `a or b`. */
  function PyOr(a: Json, b: Json): (r: Json)
    ensures PyTruthy(r) <==> PyTruthy(a) || PyTruthy(b)
  {
    if PyTruthy(a) then a else b
  }

  /** `d.get(k, default)` on a value known to be a dictionary. */
  function GetOr(fs: seq<Field>, k: string, default: Json): (r: Json)
    ensures HasKey(fs, k) ==> Some(r) == Lookup(fs, k)
    ensures !HasKey(fs, k) ==> r == default
  {
    if HasKey(fs, k) then Lookup(fs, k).value else default
  }

  /** `v.get(k, default)`: only dictionaries have `get`. */
  function PyGet(v: Json, k: string, default: Json): (r: Result<Json>)
    ensures r.Ok? <==> v.JObj?
    ensures r.Err? ==> r.error == AttributeError
    ensures r.Ok? && !HasKey(v.fields, k) ==> r.value == default
  {
    match v
    case JObj(fs) => Ok(GetOr(fs, k, default))
    case _ => Err(AttributeError)
  }

  /** `v[k]` with a string key. */
  function PySubscript(v: Json, k: string): (r: Result<Json>)
    ensures r.Ok? <==> v.JObj? && HasKey(v.fields, k)
    ensures r.Ok? ==> Lookup(v.fields, k) == Some(r.value)
    ensures r.Err? ==> r.error == (if v.JObj? then KeyError else TypeError)
  {
    match v
    case JObj(fs) => (if HasKey(fs, k) then Ok(Lookup(fs, k).value) else Err(KeyError))
    case _ => Err(TypeError)
  }

  /** The elements a `for` loop or `list.extend` draws from `v`: the items
      of a list, the keys of a dictionary, the characters of a string. */
  function PyIter(v: Json): (r: Result<seq<Json>>)
    ensures r.Ok? <==> v.JArr? || v.JObj? || v.JStr?
    ensures r.Err? ==> r.error == TypeError
    ensures v.JArr? ==> r == Ok(v.items)
  {
    match v
    case JArr(items) => Ok(items)
    case JObj(fs) => Ok(Keys(fs))
    case JStr(s) => Ok(Chars(s))
    case _ => Err(TypeError)
  }

  /** A stored value weighs less than the dictionary holding it. */
  lemma PyGetSmaller(v: Json, k: string, default: Json)
    requires v.JObj? && HasKey(v.fields, k)
    ensures Size(PyGet(v, k, default).value) < Size(v)
  {
    LookupSmaller(v.fields, k);
  }

  /** Iterating a value never yields more weight than the value had. */
  lemma PyIterSmaller(v: Json)
    requires PyIter(v).Ok?
    ensures SizeSeq(PyIter(v).value) <= Size(v)
  {
    match v
    case JArr(_) =>
    case JObj(fs) => WeightlessSeq(Keys(fs));
    case JStr(s) => WeightlessSeq(Chars(s));
  }

  /** `len(v)`. */
  function PyLen(v: Json): (r: Result<nat>)
    ensures r.Ok? <==> v.JArr? || v.JObj? || v.JStr?
    ensures r.Ok? ==> r.value == |PyIter(v).value|
  {
    match v
    case JArr(items) => Ok(|items|)
    case JObj(fs) => Ok(|fs|)
    case JStr(s) => Ok(|s|)
    case _ => Err(TypeError)
  }

  /** `a == b`. Python's `bool` is a subtype of `int`, so `True == 1`, at
      any depth. Lists are equal element by element; dictionaries are equal
      when they have the same keys and equal values under each key, in
      whatever order the keys were inserted. */
  predicate PyEq(a: Json, b: Json)
    decreases a
  {
    match a
    case JBool(x) => (b.JBool? && b.b == x) || (b.JNum? && b.n == (if x then 1 else 0))
    case JNum(n) => (b.JNum? && b.n == n) || (b.JBool? && n == (if b.b then 1 else 0))
    case JArr(xs) =>
      b.JArr? && |xs| == |b.items| && forall i :: 0 <= i < |xs| ==> PyEq(xs[i], b.items[i])
    case JObj(fs) =>
      b.JObj?
      && (forall i :: 0 <= i < |b.fields| ==> HasKey(fs, b.fields[i].key))
      && forall i :: 0 <= i < |fs| ==>
           HasKey(b.fields, fs[i].key)
           && (Lookup(fs, fs[i].key) == Some(fs[i].val) ==> PyEq(fs[i].val, Lookup(b.fields, fs[i].key).value))
    case _ => a == b
  }

  /** Every value equals itself. */
  lemma {:induction false} PyEqReflexive(a: Json)
    ensures PyEq(a, a)
    decreases a
  {
    match a
    case JArr(xs) =>
      forall i | 0 <= i < |xs| ensures PyEq(xs[i], xs[i]) {
        PyEqReflexive(xs[i]);
      }
    case JObj(fs) =>
      forall i | 0 <= i < |fs|
        ensures HasKey(fs, fs[i].key)
        ensures Lookup(fs, fs[i].key) == Some(fs[i].val) ==> PyEq(fs[i].val, Lookup(fs, fs[i].key).value)
      {
        HasKeyIff(fs, fs[i].key);
        PyEqReflexive(fs[i].val);
      }
    case _ =>
  }

  /** Key order does not matter, and `True == 1` holds inside containers:
      `{"a": 1, "b": 2} == {"b": 2, "a": 1}` and `[1] == [True]`. */
  lemma PyEqExamples()
    ensures PyEq(JObj([Field("a", JNum(1)), Field("b", JNum(2))]), JObj([Field("b", JNum(2)), Field("a", JNum(1))]))
    ensures PyEq(JArr([JNum(1)]), JArr([JBool(true)]))
    ensures !PyEq(JObj([Field("a", JNum(1))]), JObj([Field("a", JNum(1)), Field("b", JNum(2))]))
  {
    var fs := [Field("a", JNum(1)), Field("b", JNum(2))];
    var gs := [Field("b", JNum(2)), Field("a", JNum(1))];
    assert Lookup(fs, "a") == Some(JNum(1)) && Lookup(fs, "b") == Some(JNum(2));
    assert Lookup(gs, "a") == Some(JNum(1)) && Lookup(gs, "b") == Some(JNum(2));
    var hs := [Field("a", JNum(1)), Field("b", JNum(2))];
    assert !HasKey([Field("a", JNum(1))], hs[1].key);
  }

  // ---------------------------------------------------------------------
  // JavaScript

  /** Truthiness in JavaScript: every array and object is true, even an
      empty one. `undefined` is modelled as a missing value (`None`). */
  predicate JsTruthy(v: Json)
  {
    match v
    case JNull => false
    case JBool(b) => b
    case JNum(n) => n != 0
    case JStr(s) => s != ""
    case JArr(_) => true
    case JObj(_) => true
  }

  predicate JsTruthyOpt(v: Option<Json>)
  {
    v.Some? && JsTruthy(v.value)
  }

  /** Property access `v.k`: reading a property of `null` throws; other
      non-objects have none of the properties the script reads. The result
      `None` stands for `undefined`. */
  function JsGet(v: Json, k: string): (r: Result<Option<Json>>)
    ensures r.Err? <==> v.JNull?
    ensures r.Err? ==> r.error == TypeError
    ensures r.Ok? && r.value.Some? ==> v.JObj?
  {
    match v
    case JNull => Err(TypeError)
    case JObj(fs) => Ok(Lookup(fs, k))
    case _ => Ok(None)
  }

  /** Optional chaining `v?.k`: `undefined` when `v` is null or undefined. */
  function JsGetOpt(v: Option<Json>, k: string): (r: Option<Json>)
    ensures r.Some? ==> v.Some? && v.value.JObj?
  {
    match v
    case None => None
    case Some(JNull) => None
    case Some(x) => JsGet(x, k).value
  }

  /** A property read weighs less than the object it was read from. */
  lemma JsGetOptSmaller(v: Option<Json>, k: string)
    requires JsGetOpt(v, k).Some?
    ensures Size(JsGetOpt(v, k).value) < Size(v.value)
  {
    LookupSmaller(v.value.fields, k);
  }

  /** Strict equality `a === b` of a property value (possibly undefined)
      with a value received from Python. Two distinct arrays or objects are
      never identical, so only scalars can compare equal. */
  predicate JsStrictEq(a: Option<Json>, b: Json)
  {
    a.Some? && a.value == b && !b.JArr? && !b.JObj?
  }
}
