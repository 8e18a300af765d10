/** The JSON values the integration receives from its REST API, and the few
    Python builtins its descriptors and coordinators apply to them:
    `dict.get`, truthiness, `> 0`, `len`, iteration, and the key scan of
    `max(...)` / `min(...)`.  Every builtin that can raise on a badly shaped
    value returns a `Result`, so a descriptor chain is a chain of `:-`. */
module PyJson {

  datatype Option<+T> = None | Some(value: T)

  /** A decoded JSON body: `None`, `bool`, a number, `str`, `list` or `dict`. */
  datatype Json =
    | Null
    | Bool(b: bool)
    | Num(n: real)
    | Str(s: string)
    | Arr(items: seq<Json>)
    | Obj(fields: map<string, Json>)

  /** The built-in exceptions a descriptor or coordinator can raise on data of
      an unexpected shape. */
  datatype PyError = AttributeError | TypeError | IndexError | ValueError

  datatype Result<+T> = Ok(value: T) | Raise(error: PyError) {
    predicate IsFailure() { Raise? }
    function PropagateFailure<U>(): Result<U> requires Raise? { Raise(error) }
    function Extract(): T requires Ok? { value }
  }

  /** A coordinator's data bundle: always a `dict` keyed by strings. */
  type Bundle = map<string, Json>

  /** The host's state machine as the integration reads it: entity ID to the
      attributes of that entity's current state. */
  type States = map<string, map<string, Json>>

  const EmptyObj: Json := Obj(map[])
  const EmptyArr: Json := Arr([])

  /** `m.get(key, default)` on a mapping that is known to be a `dict`. */
  function DictGet(m: map<string, Json>, key: string, default: Json): Json {
    if key in m then m[key] else default
  }

  /** `data.get(key, default)` on a bundle. */
  function BundleGet(data: Bundle, key: string, default: Json): Json {
    DictGet(data, key, default)
  }

  /** `v.get(key, default)`: only a `dict` has `.get`. */
  function Get(v: Json, key: string, default: Json): Result<Json> {
    if v.Obj? then Ok(DictGet(v.fields, key, default)) else Raise(AttributeError)
  }

  /** `v.get(p0, {}).get(p1, {})...` along `path`. */
  function Dig(v: Json, path: seq<string>): Result<Json>
    decreases |path|
  {
    if path == [] then Ok(v)
    else
      var w :- Get(v, path[0], EmptyObj);
      Dig(w, path[1..])
  }

  /** `v.get(p0, {})...get(pn, {}).get(key, default)`: the lookup chain every
      descriptor is made of. */
  function Lookup(v: Json, path: seq<string>, key: string, default: Json): Result<Json> {
    var w :- Dig(v, path);
    Get(w, key, default)
  }

  /** Every value met along `path` is a `dict`, or the chain stops at an absent key. */
  ghost predicate DictPath(v: Json, path: seq<string>)
    decreases |path|
  {
    v.Obj? && (path != [] && path[0] in v.fields ==> DictPath(v.fields[path[0]], path[1..]))
  }

  /** Digging into `{}` stays at `{}`. */
  lemma {:induction false} DigEmpty(path: seq<string>)
    ensures Dig(EmptyObj, path) == Ok(EmptyObj)
    decreases |path|
  {
    if path != [] {
      DigEmpty(path[1..]);
    }
  }

  /** A lookup chain raises exactly when it meets something that is not a
      `dict`; an absent key anywhere on the path is never an error. */
  lemma {:induction false} LookupOkIff(v: Json, path: seq<string>, key: string, default: Json)
    ensures Lookup(v, path, key, default).Ok? <==> DictPath(v, path)
    decreases |path|
  {
    if path != [] && v.Obj? {
      if path[0] in v.fields {
        LookupOkIff(v.fields[path[0]], path[1..], key, default);
      } else {
        DigEmpty(path[1..]);
      }
    }
  }

  /** The first absent key on the path makes the whole chain give its default. */
  lemma LookupAbsent(v: Json, path: seq<string>, key: string, default: Json)
    requires v.Obj? && path != [] && path[0] !in v.fields
    ensures Lookup(v, path, key, default) == Ok(default)
  {
    DigEmpty(path[1..]);
  }

  /** Python's `bool(v)`. */
  predicate Truthy(v: Json) {
    match v
    case Null => false
    case Bool(b) => b
    case Num(n) => n != 0.0
    case Str(s) => s != []
    case Arr(xs) => xs != []
    case Obj(m) => m != map[]
  }

  /** `v > 0`: numbers and booleans compare, anything else raises `TypeError`. */
  function GtZero(v: Json): Result<bool> {
    match v
    case Num(n) => Ok(n > 0.0)
    case Bool(b) => Ok(b)
    case _ => Raise(TypeError)
  }

  /** `len(v)`. */
  function Len(v: Json): Result<nat> {
    match v
    case Str(s) => Ok(|s|)
    case Arr(xs) => Ok(|xs|)
    case Obj(m) => Ok(|m|)
    case _ => Raise(TypeError)
  }

  /** The items visited by a loop (`for`, `any`, `max`, `min`, a comprehension)
      that calls `.get` on each item it visits.  A `list` visits its items.  A
      `str` or `dict` visits strings, so a non-empty one raises
      `AttributeError` at its first item, and an empty one visits nothing.
      `None`, numbers and booleans are not iterable. */
  function Elements(v: Json): Result<seq<Json>> {
    match v
    case Arr(xs) => Ok(xs)
    case Str(s) => if s == [] then Ok([]) else Raise(AttributeError)
    case Obj(m) => if m == map[] then Ok([]) else Raise(AttributeError)
    case _ => Raise(TypeError)
  }

  // ---------------------------------------------------------------------
  // First match: the early-return loops `for x in xs: if x.get(f) == want: return x`.
  // ---------------------------------------------------------------------

  /** `x.get(field) == want` holds of a `dict`. */
  predicate Matches(x: Json, field: string, want: string) {
    x.Obj? && field in x.fields && x.fields[field] == Str(want)
  }

  /** `i` is the first position whose item matches, and every item before it
      is a `dict` that does not. */
  ghost predicate FirstMatchAt(xs: seq<Json>, field: string, want: string, i: int) {
    0 <= i < |xs| && Matches(xs[i], field, want)
    && forall j :: 0 <= j < i ==> xs[j].Obj? && !Matches(xs[j], field, want)
  }

  /** Position of the first item whose `field` equals `want`; `None` when
      the loop runs to its end. */
  function FirstWhere(xs: seq<Json>, field: string, want: string): (r: Result<Option<nat>>)
    ensures r.Ok? && r.value.Some? ==> FirstMatchAt(xs, field, want, r.value.value)
    ensures r.Ok? && r.value.None? ==>
      forall j :: 0 <= j < |xs| ==> xs[j].Obj? && !Matches(xs[j], field, want)
    ensures r.Raise? ==>
      r.error == AttributeError &&
      exists j :: 0 <= j < |xs| && !xs[j].Obj? && forall k :: 0 <= k < j ==> !Matches(xs[k], field, want)
  {
    if xs == [] then Ok(None)
    else
      var v :- Get(xs[0], field, Null);
      if v == Str(want) then Ok(Some(0))
      else
        var rest :- FirstWhere(xs[1..], field, want);
        match rest
        case None => Ok(None)
        case Some(i) => Ok(Some(i + 1))
  }

  /** When the first match is at `i`, the loop finds it there. */
  lemma {:induction false} FirstWhereFinds(xs: seq<Json>, field: string, want: string, i: int)
    requires FirstMatchAt(xs, field, want, i)
    ensures FirstWhere(xs, field, want) == Ok(Some(i))
    decreases i
  {
    if i > 0 {
      assert xs[0].Obj? && !Matches(xs[0], field, want);
      assert FirstMatchAt(xs[1..], field, want, i - 1) by {
        forall j | 0 <= j < i - 1
          ensures xs[1..][j].Obj? && !Matches(xs[1..][j], field, want)
        {
          assert xs[1..][j] == xs[j + 1];
        }
      }
      FirstWhereFinds(xs[1..], field, want, i - 1);
    }
  }

  // ---------------------------------------------------------------------
  // The key scan of `max(xs, key=...)` and `min(xs, key=...)`.
  // ---------------------------------------------------------------------

  /** A number, or `float("inf")`. */
  datatype Ext = Fin(r: real) | Inf

  /** A key computed by a `key=` function: a JSON value, or `float("inf")`. */
  datatype Key = Of(v: Json) | Infinity

  /** The numeric value of a key, when it has one (booleans count as 0 and 1). */
  function AsNumber(k: Key): Option<Ext> {
    match k
    case Infinity => Some(Inf)
    case Of(Num(n)) => Some(Fin(n))
    case Of(Bool(b)) => Some(Fin(if b then 1.0 else 0.0))
    case Of(_) => None
  }

  /** Strict order on numbers extended with infinity. */
  predicate Below(a: Ext, b: Ext) {
    match (a, b)
    case (Fin(x), Fin(y)) => x < y
    case (Fin(_), Inf) => true
    case (Inf, _) => false
  }

  /** Python's `a < b` on two keys. */
  function Less(a: Key, b: Key): Result<bool> {
    match (AsNumber(a), AsNumber(b))
    case (Some(x), Some(y)) => Ok(Below(x, y))
    case _ => Raise(TypeError)
  }

  /** CPython's loop in `min`/`max` from position `i` on: the key of each item
      is compared with the key of the current extreme `best`, and only a
      strictly better key replaces it (`val < maxval` for `min`, `val > maxval`
      for `max`). */
  function Scan(keys: seq<Result<Key>>, pickMin: bool, i: nat, best: nat): (r: Result<nat>)
    requires best < i <= |keys| && keys[best].Ok?
    ensures r.Ok? ==> r.value < |keys|
    decreases |keys| - i
  {
    if i == |keys| then Ok(best)
    else
      var k :- keys[i];
      var better :- if pickMin then Less(k, keys[best].value) else Less(keys[best].value, k);
      if better then Scan(keys, pickMin, i + 1, i) else Scan(keys, pickMin, i + 1, best)
  }

  /** `min`/`max` over items whose keys (or the exception their `key=`
      function raised) are `keys`, as a position; `None` for no items. */
  function Extreme(keys: seq<Result<Key>>, pickMin: bool): (r: Result<Option<nat>>)
    ensures r.Ok? && r.value.Some? ==> r.value.value < |keys|
    ensures r.Ok? && r.value.None? ==> keys == []
  {
    if keys == [] then Ok(None)
    else
      var first :- keys[0];
      var i :- Scan(keys, pickMin, 1, 0);
      Ok(Some(i))
  }

  /** The numeric value of key `j`, when its `key=` call succeeded and it is numeric. */
  function NumAt(keys: seq<Result<Key>>, j: int): Option<Ext>
    requires 0 <= j < |keys|
  {
    if keys[j].Ok? then AsNumber(keys[j].value) else None
  }

  ghost predicate NumericUpTo(keys: seq<Result<Key>>, n: int)
    requires n <= |keys|
  {
    forall j :: 0 <= j < n ==> NumAt(keys, j).Some?
  }

  /** `a` is strictly better than `b` for the scan. */
  predicate Beats(a: Ext, b: Ext, pickMin: bool) {
    if pickMin then Below(a, b) else Below(b, a)
  }

  /** Among the first `n` keys, none beats key `i`, and key `i` beats every
      key before it: `i` is the FIRST extreme. */
  ghost predicate FirstExtremeUpTo(keys: seq<Result<Key>>, n: int, pickMin: bool, i: int)
    requires n <= |keys| && NumericUpTo(keys, n)
  {
    0 <= i < n
    && (forall j :: 0 <= j < n ==> !Beats(NumAt(keys, j).value, NumAt(keys, i).value, pickMin))
    && (forall j :: 0 <= j < i ==> Beats(NumAt(keys, i).value, NumAt(keys, j).value, pickMin))
  }

  lemma {:induction false} ScanSpec(keys: seq<Result<Key>>, pickMin: bool, i: nat, best: nat)
    requires 1 <= i <= |keys| && best < i && keys[best].Ok?
    requires i == 1 ==> best == 0
    requires i >= 2 ==> NumericUpTo(keys, i)
    requires NumericUpTo(keys, i) ==> FirstExtremeUpTo(keys, i, pickMin, best)
    ensures i < |keys| ==> (Scan(keys, pickMin, i, best).Ok? <==> NumericUpTo(keys, |keys|))
    ensures NumericUpTo(keys, |keys|) ==>
      Scan(keys, pickMin, i, best).Ok? && FirstExtremeUpTo(keys, |keys|, pickMin, Scan(keys, pickMin, i, best).value)
    decreases |keys| - i
  {
    if i < |keys| {
      if keys[i].Raise? {
        assert NumAt(keys, i).None?;
      } else {
        var k := keys[i].value;
        var kb := keys[best].value;
        if AsNumber(k).None? {
          assert NumAt(keys, i).None?;
        } else if AsNumber(kb).None? {
          assert NumAt(keys, best).None?;
        } else {
          var better := if pickMin then Below(AsNumber(k).value, AsNumber(kb).value)
                        else Below(AsNumber(kb).value, AsNumber(k).value);
          assert NumericUpTo(keys, i + 1) by {
            assert NumericUpTo(keys, i) by {
              if i == 1 { assert NumAt(keys, 0) == AsNumber(kb); }
            }
          }
          var nb := if better then i else best;
          assert FirstExtremeUpTo(keys, i + 1, pickMin, nb) by {
            assert FirstExtremeUpTo(keys, i, pickMin, best) by {
              if i == 1 { assert NumAt(keys, 0) == AsNumber(kb); }
            }
            ExtendExtreme(keys, pickMin, i, best);
          }
          ScanSpec(keys, pickMin, i + 1, nb);
        }
      }
    }
  }

  /** One step of the scan keeps "first extreme of the prefix". */
  lemma ExtendExtreme(keys: seq<Result<Key>>, pickMin: bool, i: nat, best: nat)
    requires i < |keys| && NumericUpTo(keys, i + 1)
    requires FirstExtremeUpTo(keys, i, pickMin, best)
    ensures FirstExtremeUpTo(keys, i + 1, pickMin,
              if Beats(NumAt(keys, i).value, NumAt(keys, best).value, pickMin) then i else best)
  {
    var vi := NumAt(keys, i).value;
    var vb := NumAt(keys, best).value;
    if Beats(vi, vb, pickMin) {
      forall j | 0 <= j < i + 1
        ensures !Beats(NumAt(keys, j).value, vi, pickMin)
        ensures j < i ==> Beats(vi, NumAt(keys, j).value, pickMin)
      {
        if j < i {
          var vj := NumAt(keys, j).value;
          assert !Beats(vj, vb, pickMin);
        }
      }
    }
  }

  /** What `min`/`max` computes: nothing for no items; the only item for one
      item (no comparison is made); and for two or more items it succeeds
      exactly when every key is numeric, giving the FIRST extreme. */
  lemma ExtremeSpec(keys: seq<Result<Key>>, pickMin: bool)
    ensures keys == [] ==> Extreme(keys, pickMin) == Ok(None)
    ensures |keys| == 1 && keys[0].Ok? ==> Extreme(keys, pickMin) == Ok(Some(0))
    ensures |keys| >= 2 ==> (Extreme(keys, pickMin).Ok? <==> NumericUpTo(keys, |keys|))
    ensures |keys| >= 1 && NumericUpTo(keys, |keys|) ==>
      Extreme(keys, pickMin).Ok? && Extreme(keys, pickMin).value.Some? &&
      FirstExtremeUpTo(keys, |keys|, pickMin, Extreme(keys, pickMin).value.value)
  {
    if keys != [] {
      if keys[0].Ok? {
        ScanSpec(keys, pickMin, 1, 0);
      } else {
        assert NumAt(keys, 0).None?;
      }
    }
  }
}
