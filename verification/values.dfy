/**
 * Values shared by every part of the engine: the dynamically typed values
 * that flow through configuration files, parsed commands and result data
 * (the YAML/JSON data model), an option type, and the fault type that stands
 * for a Python exception.
 */
module Values {

  datatype Option<+T> = None | Some(value: T)

  /** The outcome of a call that may raise: its return value, or the text of the exception. */
  datatype Try<+T> = Returned(value: T) | Raised(error: string)

  /** A YAML/JSON value. `Null` is Python's `None`; `Dict` keys are strings. */
  datatype Value =
    | Null
    | Bool(b: bool)
    | Int(i: int)
    | Str(s: string)
    | List(items: seq<Value>)
    | Dict(fields: map<string, Value>)

  /** Python truthiness: `None`, `False`, `0`, and empty strings, lists and dicts are false. */
  predicate Truthy(v: Value)
  {
    match v
    case Null => false
    case Bool(b) => b
    case Int(i) => i != 0
    case Str(s) => s != ""
    case List(items) => items != []
    case Dict(fields) => fields != map[]
  }

  /** Whether Python's `len()` accepts the value. */
  predicate HasLen(v: Value)
  {
    v.Str? || v.List? || v.Dict?
  }

  /** Whether the value can be a dictionary key (lists and dicts are unhashable). */
  predicate Hashable(v: Value)
  {
    !v.List? && !v.Dict?
  }

  /** Python's name for the type of the value, as it appears in exception texts. */
  function TypeName(v: Value): string
  {
    match v
    case Null => "NoneType"
    case Bool(_) => "bool"
    case Int(_) => "int"
    case Str(_) => "str"
    case List(_) => "list"
    case Dict(_) => "dict"
  }

  /** The text of the AttributeError raised by `v.get(...)` on a value that is not a dict. */
  function NoGetError(v: Value): string
  {
    "'" + TypeName(v) + "' object has no attribute 'get'"
  }

  /** The text of the TypeError raised when an unhashable value is used as a key. */
  function UnhashableError(v: Value): string
  {
    "unhashable type: '" + TypeName(v) + "'"
  }

  /** The text of the TypeError raised by `len(v)` on a value without a length. */
  function NoLenError(v: Value): string
  {
    "object of type '" + TypeName(v) + "' has no len()"
  }

  /** `d.get(key, default)` */
  function GetOr(d: map<string, Value>, key: string, default: Value): Value
  {
    if key in d then d[key] else default
  }

  /** Decimal digits of a natural number, most significant first. */
  function NatToString(n: nat): (r: string)
    ensures |r| >= 1
    ensures forall k :: 0 <= k < |r| ==> '0' <= r[k] <= '9'
  {
    var d := ['0' + (n % 10) as char];
    if n < 10 then d else NatToString(n / 10) + d
  }

  /** Python's `str()` of an integer. */
  function IntToString(i: int): string
  {
    if i < 0 then "-" + NatToString(-i) else NatToString(i)
  }

  /** Python's `str()` of a scalar value, as used in f-strings. */
  function Display(v: Value): string
  {
    match v
    case Null => "None"
    case Bool(b) => if b then "True" else "False"
    case Int(i) => IntToString(i)
    case Str(s) => s
    case List(_) => "[...]"
    case Dict(_) => "{...}"
  }

  /** Strings as a list value. */
  function StrList(names: seq<string>): (r: Value)
    ensures r.List? && |r.items| == |names|
    ensures forall k :: 0 <= k < |names| ==> r.items[k] == Str(names[k])
  {
    List(seq(|names|, k requires 0 <= k < |names| => Str(names[k])))
  }

  // ---------------------------------------------------------------------------
  // Key orders. A Python dict remembers the order in which keys were first
  // inserted; the model keeps that order as a duplicate-free sequence beside
  // the map.

  ghost predicate Distinct(s: seq<string>)
  {
    forall i, j :: 0 <= i < j < |s| ==> s[i] != s[j]
  }

  /** The order after `d[k] = v`: a new key goes to the end, an existing one keeps its place. */
  function Inserted(order: seq<string>, k: string): (r: seq<string>)
    ensures forall x :: x in r <==> x in order || x == k
    ensures Distinct(order) ==> Distinct(r)
  {
    if k in order then order else order + [k]
  }

  /** The order after `d[c] = v` for each `c` of `keys` in turn. */
  function InsertedAll(order: seq<string>, keys: seq<string>): (r: seq<string>)
    ensures forall x :: x in r <==> x in order || x in keys
    ensures Distinct(order) ==> Distinct(r)
    decreases |keys|
  {
    if keys == [] then order
    else
      var init := keys[..|keys| - 1];
      assert forall x :: x in keys <==> x in init || x == keys[|keys| - 1];
      Inserted(InsertedAll(order, init), keys[|keys| - 1])
  }

  /** The order after `del d[k]`: `k` leaves, the rest keep their relative order. */
  function Without(order: seq<string>, k: string): (r: seq<string>)
    ensures forall x :: x in r <==> x in order && x != k
    ensures Distinct(order) ==> Distinct(r)
    ensures |r| <= |order|
  {
    if order == [] then []
    else if order[0] == k then Without(order[1..], k)
    else
      var rest := Without(order[1..], k);
      assert Distinct(order) ==> order[0] !in order[1..];
      [order[0]] + rest
  }

  /** The elements of `order` that belong to `keep`, in their original order. */
  function Restrict(order: seq<string>, keep: set<string>): (r: seq<string>)
    ensures forall x :: x in r <==> x in order && x in keep
    ensures Distinct(order) ==> Distinct(r)
  {
    if order == [] then []
    else if order[0] in keep then
      var rest := Restrict(order[1..], keep);
      assert Distinct(order) ==> order[0] !in order[1..];
      [order[0]] + rest
    else Restrict(order[1..], keep)
  }

  /** Deleting a key that is absent keeps the order. */
  lemma {:induction false} WithoutAbsent(order: seq<string>, k: string)
    requires k !in order
    ensures Without(order, k) == order
  {
    if order != [] {
      WithoutAbsent(order[1..], k);
      assert [order[0]] + order[1..] == order;
    }
  }

  /** Keeping every element keeps the order. */
  lemma {:induction false} RestrictAll(order: seq<string>, keep: set<string>)
    requires forall x :: x in order ==> x in keep
    ensures Restrict(order, keep) == order
  {
    if order != [] {
      RestrictAll(order[1..], keep);
      assert [order[0]] + order[1..] == order;
    }
  }

  /** Deleting a key after restricting is restricting to the smaller key set. */
  lemma {:induction false} WithoutRestrict(order: seq<string>, keep: set<string>, k: string)
    ensures Without(Restrict(order, keep), k) == Restrict(order, keep - {k})
  {
    if order != [] {
      WithoutRestrict(order[1..], keep, k);
    }
  }

  /** Restricting twice is restricting to the common keys. */
  lemma {:induction false} RestrictRestrict(order: seq<string>, first: set<string>, second: set<string>)
    ensures Restrict(Restrict(order, first), second) == Restrict(order, first * second)
  {
    if order != [] {
      RestrictRestrict(order[1..], first, second);
    }
  }

  /** A duplicate-free sequence has as many elements as the set of its elements. */
  lemma {:induction false} DistinctCardinality(s: seq<string>, elems: set<string>)
    ensures Distinct(s) && (forall x :: x in elems <==> x in s) ==> |elems| == |s|
  {
    if s != [] && Distinct(s) && (forall x :: x in elems <==> x in s) {
      var rest := elems - {s[0]};
      assert forall x :: x in rest <==> x in s[1..] by {
        forall x ensures x in rest <==> x in s[1..] {
          if x in s[1..] {
            var k :| 0 <= k < |s[1..]| && s[1..][k] == x;
            assert s[k + 1] == x;
          }
        }
      }
      DistinctCardinality(s[1..], rest);
    }
  }
}
