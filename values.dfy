/** Dynamically typed values: what a record-store document, a configuration
    dictionary or an attribute assigned by name can hold. */
module Values {
  import opened Outcomes
  import opened Text

  datatype Value =
    | VNone
    | VBool(b: bool)
    | VInt(i: int)
    | VStr(s: string)
    | VList(xs: seq<Value>)
    | VMap(m: map<string, Value>)

  /** A document of the record store, or a dictionary produced by `dump`. */
  type Record = map<string, Value>

  /** Python truthiness. */
  predicate Truthy(v: Value) {
    match v
    case VNone => false
    case VBool(b) => b
    case VInt(i) => i != 0
    case VStr(s) => s != []
    case VList(xs) => xs != []
    case VMap(m) => m != map[]
  }

  /** `v[i]` for a non-negative index: characters of a string, elements of
      a list; a dictionary with string keys has no key `i`; other values
      are not subscriptable. */
  function PyIndex(v: Value, i: nat): (r: Result<Value>)
    ensures r.Ok? <==> (v.VStr? && i < |v.s|) || (v.VList? && i < |v.xs|)
  {
    match v
    case VStr(s) => if i < |s| then Ok(VStr([s[i]])) else Err(IndexErr("string index out of range"))
    case VList(xs) => if i < |xs| then Ok(xs[i]) else Err(IndexErr("list index out of range"))
    case VMap(_) => Err(KeyErr(IntToString(i)))
    case _ => Err(TypeErr("object is not subscriptable"))
  }

  /** Python's `term in v` for a string `term`: a substring test on a
      string, membership in a list, key membership in a dictionary; other
      values are not containers. */
  function StrIn(term: string, v: Value): (r: Result<bool>)
    ensures v.VStr? ==> r == Ok(Contains(v.s, term))
    ensures r.Err? <==> !(v.VStr? || v.VList? || v.VMap?)
  {
    match v
    case VStr(s) => Ok(Contains(s, term))
    case VList(xs) => Ok(VStr(term) in xs)
    case VMap(m) => Ok(term in m)
    case _ => Err(TypeErr("argument is not iterable"))
  }

  // ---------------------------------------------------------------------
  // Loading a list of stored values one by one

  /** Loading the entries in order with `load`; the first failure ends
      the loop. */
  function LoadAll<T>(xs: seq<Value>, load: Value -> Result<T>): Result<seq<T>>
    decreases |xs|
  {
    if xs == [] then Ok([])
    else
      var x :- load(xs[0]);
      var rest :- LoadAll(xs[1..], load);
      Ok([x] + rest)
  }

  /** A loaded list holds one item per entry, each loaded from its own
      entry, in stored order. */
  lemma {:induction false} LoadAllOrder<T>(xs: seq<Value>, load: Value -> Result<T>)
    requires LoadAll(xs, load).Ok?
    ensures |LoadAll(xs, load).value| == |xs|
    ensures forall i :: 0 <= i < |xs| ==> load(xs[i]) == Ok(LoadAll(xs, load).value[i])
  {
    if xs != [] {
      LoadAllOrder(xs[1..], load);
      assert forall i :: 1 <= i < |xs| ==> xs[i] == xs[1..][i - 1];
    }
  }

  /** The loop fails with the error of the first entry that fails to
      load, after every earlier entry loaded. */
  lemma {:induction false} LoadAllFails<T>(xs: seq<Value>, load: Value -> Result<T>)
    requires LoadAll(xs, load).Err?
    ensures exists k :: 0 <= k < |xs| && load(xs[k]) == Err(LoadAll(xs, load).error)
                     && forall j :: 0 <= j < k ==> load(xs[j]).Ok?
  {
    if load(xs[0]).Ok? {
      LoadAllFails(xs[1..], load);
      var k :| 0 <= k < |xs[1..]| && load(xs[1..][k]) == Err(LoadAll(xs[1..], load).error)
        && forall j :: 0 <= j < k ==> load(xs[1..][j]).Ok?;
      assert xs[k + 1] == xs[1..][k];
      assert forall j :: 1 <= j < k + 1 ==> xs[j] == xs[1..][j - 1];
    }
  }

  /** Entries before `k` load, so the loop reaches entry `k` and stops
      there when it fails. */
  lemma {:induction false} LoadAllUpTo<T>(xs: seq<Value>, load: Value -> Result<T>, k: nat)
    requires k < |xs| && forall j :: 0 <= j < k ==> load(xs[j]).Ok?
    requires load(xs[k]).Err?
    ensures LoadAll(xs, load) == Err(load(xs[k]).error)
  {
    if k > 0 {
      assert forall j :: 0 <= j < k - 1 ==> xs[1..][j] == xs[j + 1];
      LoadAllUpTo(xs[1..], load, k - 1);
      assert xs[1..][k - 1] == xs[k];
    }
  }

  /** Entries that each load to a given item load, in order, to those
      items. */
  lemma {:induction false} LoadAllEach<T>(xs: seq<Value>, load: Value -> Result<T>, ms: seq<T>)
    requires |xs| == |ms| && forall i :: 0 <= i < |xs| ==> load(xs[i]) == Ok(ms[i])
    ensures LoadAll(xs, load) == Ok(ms)
    decreases |xs|
  {
    if xs != [] {
      assert forall i :: 0 <= i < |xs| - 1 ==> xs[1..][i] == xs[i + 1] && ms[1..][i] == ms[i + 1];
      LoadAllEach(xs[1..], load, ms[1..]);
      assert [ms[0]] + ms[1..] == ms;
    }
  }
}
