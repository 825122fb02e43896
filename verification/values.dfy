/**
  Provider values as the updater sees them.

  The market-data provider answers with a dictionary from field names to
  numbers or `None`. The updater never does arithmetic on those numbers; the
  only thing it observes is Python truthiness, through `a or b`. A value is
  therefore abstracted to absent/`None`, zero (falsy), or a non-zero number
  (truthy).
 */
module Values {

  datatype Option<+T> = None | Some(value: T)

  type NonZero = n: int | n != 0 witness 1

  /** `Null` is Python's `None` (also what `dict.get` returns for a missing key). */
  datatype Value = Null | Zero | Num(n: NonZero)

  /** Python truthiness of a numeric value or `None`. */
  predicate Truthy(v: Value) {
    v.Num?
  }

  /** A provider snapshot: the `info` dictionary of one symbol. */
  type Snapshot = map<string, Value>

  /** `info.get(key)`: the stored value, or `None` when the key is missing. */
  function Get(info: Snapshot, key: string): (r: Value)
    ensures key !in info ==> r == Null
    ensures key in info ==> r == info[key]
  {
    if key in info then info[key] else Null
  }

  /** Python's `a or b`: `a` when `a` is truthy, otherwise `b` verbatim. */
  function Or(a: Value, b: Value): (r: Value)
    ensures r == a || r == b
    ensures Truthy(r) <==> Truthy(a) || Truthy(b)
    ensures a.Zero? ==> r == b
  {
    if Truthy(a) then a else b
  }

  /**
    The fallback a null check would give (`a if a is not None else b`):
    the reference the truthiness-based `or` is compared with below.
   */
  function Coalesce(a: Value, b: Value): (r: Value)
    ensures a != Null ==> r == a
    ensures a == Null ==> r == b
  {
    if a.Null? then b else a
  }

  /**
    `a or b` and the null-check fallback differ exactly when the primary is a
    present zero and the secondary is something other than zero.
   */
  lemma OrVersusCoalesce(a: Value, b: Value)
    ensures Or(a, b) != Coalesce(a, b) <==> a.Zero? && !b.Zero?
  {
  }

  /** `0 or None` is `None`; `0 or 0` is `0`; `None or 0` is `0`. */
  lemma OrExamples(x: NonZero)
    ensures Or(Zero, Null) == Null
    ensures Or(Zero, Zero) == Zero
    ensures Or(Null, Zero) == Zero
    ensures Or(Zero, Num(x)) == Num(x)
    ensures Or(Num(x), Null) == Num(x)
  {
  }
}
