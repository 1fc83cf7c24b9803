/**
 * The values stored in the logger's history lists (`dict[str, list[float]]`) and the
 * Python slicing used to cut them.
 */
module History {
  import opened Wrappers
  import opened Dicts

  /** A float of the history lists; `NaN` is the stand-in for a missing value. */
  datatype Value = Num(x: real) | NaN

  /** The history: variable name to the sequence of its values, in key order. */
  type Lists = Dict<string, seq<Value>>

  /** A missing value (`None`) becomes `NaN`. */
  function OrNaN(v: Option<Value>): (r: Value)
    ensures v.Some? ==> r == v.value
    ensures v.None? ==> r.NaN?
  {
    if v.Some? then v.value else NaN
  }

  /** Float division by a non-zero constant; `nan / d` is `nan`. */
  function DivBy(v: Value, d: real): Value
    requires d != 0.0
  {
    match v
    case Num(x) => Num(x / d)
    case NaN => NaN
  }

  /** The index Python uses for `li[start:]` or `li[:start]`. */
  function SliceIndex(n: nat, start: int): (i: nat)
    ensures i <= n
    ensures 0 <= start ==> i == if start <= n then start else n
    ensures start < 0 ==> i == if -start <= n then n + start else 0
  {
    if start < 0 then (if n + start < 0 then 0 else n + start)
    else if start > n then n else start
  }

  /** `li[start:]`. */
  function SliceFrom<T>(li: seq<T>, start: int): seq<T> {
    li[SliceIndex(|li|, start)..]
  }

  /** `li[:stop]`. */
  function SliceTo<T>(li: seq<T>, stop: int): seq<T> {
    li[..SliceIndex(|li|, stop)]
  }

  function Min(a: int, b: int): int {
    if a <= b then a else b
  }

  /** `li[-n:]` for a positive `n` keeps the last `min(n, len(li))` elements. */
  lemma LastElements<T>(li: seq<T>, n: int)
    requires n > 0
    ensures |SliceFrom(li, -n)| == Min(n, |li|)
    ensures SliceFrom(li, -n) == li[|li| - Min(n, |li|)..]
  {
  }

  /** `li[:n]` for a non-negative `n` keeps the first `min(n, len(li))` elements. */
  lemma FirstElements<T>(li: seq<T>, n: int)
    requires n >= 0
    ensures SliceTo(li, n) == li[..Min(n, |li|)]
  {
  }
}
